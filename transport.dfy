/** The request `sendRequest` hands to the HTTP client, what the client reports
    back, and the first-stage mapping of a failure to an exception. */
module Transport {
  import opened Values
  import opened Exceptions

  /** Where the data goes: the `json` option (a JSON body) or the `query` option. */
  datatype Body = JsonBody(json: Payload) | QueryBody(query: Payload)

  datatype Request = Request(verb: string, uri: string, headers: seq<(string, string)>, body: Body)

  /** What the HTTP client reports for one request: a decoded body, or a thrown
      client exception with its code (the HTTP status, 0 when no response came
      back) and its message. */
  datatype Outcome = Ok(body: Json) | Fail(code: int, message: string)

  /** The request sent for a token, a base URL, a verb, an endpoint and the data. */
  function RequestFor(token: string, baseUrl: string, verb: string, endpoint: string, data: Payload): Request
  {
    Request(verb, baseUrl + endpoint,
            [("Authorization", "Bearer " + token), ("Accept", "application/json")],
            if verb == "GET" then QueryBody(data) else JsonBody(data))
  }

  /** The value of the first header named `name`, if any. */
  function Header(headers: seq<(string, string)>, name: string): Option<string>
  {
    if headers == [] then None
    else if headers[0].0 == name then Some(headers[0].1)
    else Header(headers[1..], name)
  }

  /** Every request is authorised with the bearer token, asks for JSON and
      targets the base URL followed by the endpoint; a GET carries the data as
      query parameters and no JSON body, every other verb the data as a JSON body. */
  lemma RequestShape(token: string, baseUrl: string, verb: string, endpoint: string, data: Payload)
    ensures var req := RequestFor(token, baseUrl, verb, endpoint, data);
      && req.verb == verb
      && req.uri == baseUrl + endpoint
      && Header(req.headers, "Authorization") == Some("Bearer " + token)
      && Header(req.headers, "Accept") == Some("application/json")
      && (req.body.QueryBody? <==> verb == "GET")
      && (verb == "GET" ==> req.body.query == data)
      && (verb != "GET" ==> req.body.json == data)
  {
    var req := RequestFor(token, baseUrl, verb, endpoint, data);
    assert req.headers[1..] == [("Accept", "application/json")];
  }

  /** The first stage of error mapping: a 401 becomes UnauthorizedAccess with
      code 401, any other failure a ServerException with the client's message
      and code (0, which PHP's constructor ignores, leaves the default 500);
      a success passes the decoded body through. */
  function FirstStage(answer: Outcome): (r: Result<Json, Err>)
    ensures r.Success? <==> answer.Ok?
    ensures answer.Ok? ==> r.value == answer.body
    ensures answer.Fail? ==> r.error.message == answer.message
    ensures answer.Fail? ==> (r.error.kind == UnauthorizedAccess <==> answer.code == 401)
    ensures answer.Fail? && answer.code == 401 ==> r.error.code == 401
    ensures answer.Fail? && answer.code != 401 ==>
      r.error.kind == ServerError && r.error.code == (if answer.code == 0 then 500 else answer.code)
  {
    match answer
    case Ok(body) => Success(body)
    case Fail(code, message) =>
      if code == 401 then Failure(Raise(UnauthorizedAccess, Some(message), 401))
      else Failure(Raise(ServerError, Some(message), code))
  }

  /** A first-stage ServerException never carries code 401, so no later
      `catch (ServerException $e)` can see a 401. */
  lemma NoServerExceptionWith401(answer: Outcome)
    requires FirstStage(answer).Failure?
    ensures IsServerException(FirstStage(answer).error.kind) ==> FirstStage(answer).error.code != 401
    ensures !IsServerException(FirstStage(answer).error.kind) ==> FirstStage(answer).error.kind == UnauthorizedAccess
  {
  }
}
