/** The settlement client: the class that owns the token and base URL, sends
    each operation's request, applies the operation's error table, and keeps
    the last settlement fetched by id or by txnId for the status helpers.

    The HTTP client is replaced by an `answer` parameter: what the server (or
    the transport) reports for the one request the operation sends. Each
    operation also returns the request it sent, or None when it sent none. */
module Client {
  import opened Values
  import opened Exceptions
  import opened Transport
  import opened Operations
  import opened AccountBuilders
  import opened SettlementBuilders

  /** The two configuration values read with `config(...)`:
      settlement-sdk.api_token and settlement-sdk.base_url. An unset value
      concatenates as "", so it is "" here. */
  datatype Config = Config(apiToken: string, baseUrl: string)

  class Settlement {
    var apiToken: string
    var apiUrl: string
    /** The last settlement fetched; null until a fetch succeeds. */
    var data: Json

    /** An explicit token is kept unless it is falsy, in which case the
        configured one is used; the base URL always comes from configuration. */
    constructor (apiToken: Option<string>, config: Config)
      ensures this.apiToken == (if Truthy(apiToken) then apiToken.value else config.apiToken)
      ensures apiUrl == config.baseUrl && data == JNull
    {
      if Truthy(apiToken) {
        this.apiToken := apiToken.value;
      } else {
        this.apiToken := config.apiToken;
      }
      apiUrl := config.baseUrl;
      data := JNull;
    }

    /** Builds the options (headers, then the data as a JSON body, moved to the
        query string for GET), sends the request, and turns a client exception
        into UnauthorizedAccess (401) or ServerException. */
    method SendRequest(verb: string, endpoint: string, payload: Payload, answer: Outcome)
      returns (req: Request, r: Result<Json, Err>)
      ensures req == RequestFor(apiToken, apiUrl, verb, endpoint, payload)
      ensures r == FirstStage(answer)
    {
      var headers := [("Authorization", "Bearer " + apiToken), ("Accept", "application/json")];
      var body := JsonBody(payload);
      if verb == "GET" {
        body := QueryBody(payload);
      }
      req := Request(verb, apiUrl + endpoint, headers, body);
      r := FirstStage(answer);
    }

    /** Builds the settlement payload first: a validation error escapes as it
        is and no request is sent. Otherwise POSTs it to /settlements and
        returns the new settlement's `id`, or the createSettlement error. */
    method CreateSettlement(builder: SettlementBuilder, answer: Outcome)
      returns (r: Result<Json, Err>, sent: Option<Request>)
      ensures BuildSettlement(builder.Fields()).Failure? ==>
        sent == None && r == Failure(BuildSettlement(builder.Fields()).error)
      ensures BuildSettlement(builder.Fields()).Success? ==>
        && sent == Some(RequestFor(apiToken, apiUrl, "POST", "/settlements", BuildSettlement(builder.Fields()).value))
        && r == Run(CreateSettlementOp, answer)
    {
      var built := builder.Build();
      if built.Failure? {
        return Failure(built.error), None;
      }
      var req, response := SendRequest("POST", "/settlements", built.value, answer);
      sent := Some(req);
      if response.Success? {
        r := Success(Offset(response.value, "id"));
      } else {
        r := Failure(CreateSettlementCatch(response.error));
      }
    }

    /** Builds the account payload first: a validation error escapes as it is
        and no request is sent. Otherwise POSTs it to /settlements/account and
        returns `account.id`, or the createSettlementAccount error. */
    method CreateSettlementAccount(builder: SettlementAccountBuilder, answer: Outcome)
      returns (r: Result<Json, Err>, sent: Option<Request>)
      ensures BuildAccount(builder.Fields()).Failure? ==>
        sent == None && r == Failure(BuildAccount(builder.Fields()).error)
      ensures BuildAccount(builder.Fields()).Success? ==>
        && sent == Some(RequestFor(apiToken, apiUrl, "POST", "/settlements/account", BuildAccount(builder.Fields()).value))
        && r == Run(CreateSettlementAccountOp, answer)
    {
      var built := builder.Build();
      if built.Failure? {
        return Failure(built.error), None;
      }
      var req, response := SendRequest("POST", "/settlements/account", built.value, answer);
      sent := Some(req);
      if response.Success? {
        r := Success(Offset(Offset(response.value, "account"), "id"));
      } else {
        r := Failure(CreateSettlementAccountCatch(response.error));
      }
    }

    /** DELETEs /settlements/account/{accountId} and returns its `success`
        field, false when absent; 400 is InvalidAccount. The snapshot is not
        touched. */
    method RemoveSettlementAccount(accountId: string, answer: Outcome)
      returns (r: Result<Json, Err>, sent: Request)
      ensures sent == RequestFor(apiToken, apiUrl, "DELETE", "/settlements/account/" + accountId, [])
      ensures r == Run(RemoveSettlementAccountOp, answer)
    {
      var response;
      sent, response := SendRequest("DELETE", "/settlements/account/" + accountId, [], answer);
      if response.Success? {
        r := Success(Coalesce(Offset(response.value, "success"), JBool(false)));
      } else {
        r := Failure(InvalidAccountCatch(response.error));
      }
    }

    /** GETs /settlements/{settlementId}; on success the body becomes the
        snapshot and is returned, on failure the snapshot is kept and 404 is
        SettlementNotFound. */
    method GetSettlementById(settlementId: string, answer: Outcome)
      returns (r: Result<Json, Err>, sent: Request)
      modifies this`data
      ensures sent == RequestFor(apiToken, apiUrl, "GET", "/settlements/" + settlementId, [])
      ensures r == Run(GetSettlementByIdOp, answer)
      ensures data == AfterFetch(old(data), answer)
    {
      var response;
      sent, response := SendRequest("GET", "/settlements/" + settlementId, [], answer);
      if response.Success? {
        data := response.value;
        r := Success(response.value);
      } else {
        r := Failure(NotFoundCatch(response.error));
      }
    }

    /** GETs /settlements/txnId/{txnId}, with the same snapshot and 404
        behaviour as GetSettlementById. */
    method GetSettlementFromTxnId(txnId: string, answer: Outcome)
      returns (r: Result<Json, Err>, sent: Request)
      modifies this`data
      ensures sent == RequestFor(apiToken, apiUrl, "GET", "/settlements/txnId/" + txnId, [])
      ensures r == Run(GetSettlementFromTxnIdOp, answer)
      ensures data == AfterFetch(old(data), answer)
    {
      var response;
      sent, response := SendRequest("GET", "/settlements/txnId/" + txnId, [], answer);
      if response.Success? {
        data := response.value;
        r := Success(response.value);
      } else {
        r := Failure(NotFoundCatch(response.error));
      }
    }

    /** `$this->data['status'] === 'pending'`: true exactly when the snapshot is a
        settlement object whose status is the string "pending". */
    predicate IsPending()
      reads this
      ensures IsPending() <==> data.JObject? && "status" in data.fields && data.fields["status"] == JStr("pending")
    {
      HasStatus(data, "pending")
    }

    /** `$this->data['status'] === 'processing'`: true exactly when the snapshot is a
        settlement object whose status is the string "processing". */
    predicate IsProcessing()
      reads this
      ensures IsProcessing() <==> data.JObject? && "status" in data.fields && data.fields["status"] == JStr("processing")
    {
      HasStatus(data, "processing")
    }

    /** `$this->data['status'] === 'completed'`: true exactly when the snapshot is a
        settlement object whose status is the string "completed". */
    predicate IsCompleted()
      reads this
      ensures IsCompleted() <==> data.JObject? && "status" in data.fields && data.fields["status"] == JStr("completed")
    {
      HasStatus(data, "completed")
    }

    /** `$this->data['status'] === 'failed'`: true exactly when the snapshot is a
        settlement object whose status is the string "failed". */
    predicate IsFailed()
      reads this
      ensures IsFailed() <==> data.JObject? && "status" in data.fields && data.fields["status"] == JStr("failed")
    {
      HasStatus(data, "failed")
    }

    /** `$this->data["txnId"] ?? null`: the snapshot's txnId when it has one,
        null otherwise (and before any fetch). */
    function GetTxnId(): (r: Json)
      reads this
      ensures r == if data.JObject? && "txnId" in data.fields then data.fields["txnId"] else JNull
      ensures data == JNull ==> r == JNull
    {
      TxnIdOf(data)
    }

    /** createAccount: createSettlementAccount on a configured instance, with
        its own catch block for 401 (which never fires). */
    static method CreateAccount(config: Config, builder: SettlementAccountBuilder, answer: Outcome)
      returns (r: Result<Json, Err>, sent: Option<Request>)
      ensures BuildAccount(builder.Fields()).Failure? ==>
        sent == None && r == Failure(BuildAccount(builder.Fields()).error)
      ensures BuildAccount(builder.Fields()).Success? ==>
        && sent == Some(RequestFor(config.apiToken, config.baseUrl, "POST", "/settlements/account", BuildAccount(builder.Fields()).value))
        && r == Run(CreateAccountOp, answer)
    {
      var instance := new Settlement(Some(config.apiToken), config);
      var inner;
      inner, sent := instance.CreateSettlementAccount(builder, answer);
      if inner.Failure? {
        r := Failure(CreateAccountCatch(inner.error));
      } else {
        r := inner;
      }
    }

    /** createNewSettlement: createSettlement on a configured instance. */
    static method CreateNewSettlement(config: Config, builder: SettlementBuilder, answer: Outcome)
      returns (r: Result<Json, Err>, sent: Option<Request>)
      ensures BuildSettlement(builder.Fields()).Failure? ==>
        sent == None && r == Failure(BuildSettlement(builder.Fields()).error)
      ensures BuildSettlement(builder.Fields()).Success? ==>
        && sent == Some(RequestFor(config.apiToken, config.baseUrl, "POST", "/settlements", BuildSettlement(builder.Fields()).value))
        && r == Run(CreateSettlementOp, answer)
    {
      var instance := new Settlement(Some(config.apiToken), config);
      r, sent := instance.CreateSettlement(builder, answer);
    }

    /** find: a configured instance whose snapshot is the fetched settlement. */
    static method Find(config: Config, settlementId: string, answer: Outcome)
      returns (r: Result<Settlement, Err>, sent: Request)
      ensures sent == RequestFor(config.apiToken, config.baseUrl, "GET", "/settlements/" + settlementId, [])
      ensures r.Success? <==> answer.Ok?
      ensures r.Success? ==> && fresh(r.value) && r.value.data == answer.body
                             && r.value.apiToken == config.apiToken && r.value.apiUrl == config.baseUrl
      ensures r.Failure? ==> Run(GetSettlementByIdOp, answer) == Failure(r.error)
    {
      var instance := new Settlement(Some(config.apiToken), config);
      var fetched;
      fetched, sent := instance.GetSettlementById(settlementId, answer);
      if fetched.Failure? {
        return Failure(fetched.error), sent;
      }
      r := Success(instance);
    }

    /** findByTxnId: a configured instance whose snapshot is the settlement
        fetched by txnId. */
    static method FindByTxnId(config: Config, txnId: string, answer: Outcome)
      returns (r: Result<Settlement, Err>, sent: Request)
      ensures sent == RequestFor(config.apiToken, config.baseUrl, "GET", "/settlements/txnId/" + txnId, [])
      ensures r.Success? <==> answer.Ok?
      ensures r.Success? ==> && fresh(r.value) && r.value.data == answer.body
                             && r.value.apiToken == config.apiToken && r.value.apiUrl == config.baseUrl
      ensures r.Failure? ==> Run(GetSettlementFromTxnIdOp, answer) == Failure(r.error)
    {
      var instance := new Settlement(Some(config.apiToken), config);
      var fetched;
      fetched, sent := instance.GetSettlementFromTxnId(txnId, answer);
      if fetched.Failure? {
        return Failure(fetched.error), sent;
      }
      r := Success(instance);
    }

    /** removeAccount: removeSettlementAccount on a configured instance. */
    static method RemoveAccount(config: Config, accountId: string, answer: Outcome)
      returns (r: Result<Json, Err>, sent: Request)
      ensures sent == RequestFor(config.apiToken, config.baseUrl, "DELETE", "/settlements/account/" + accountId, [])
      ensures r == Run(RemoveSettlementAccountOp, answer)
    {
      var instance := new Settlement(Some(config.apiToken), config);
      r, sent := instance.RemoveSettlementAccount(accountId, answer);
    }

    /** getAllSettlements: GET /settlements with the filters as query
        parameters; returns `settlements`, and reclassifies nothing. */
    static method GetAllSettlements(config: Config, filters: Payload, answer: Outcome)
      returns (r: Result<Json, Err>, sent: Request)
      ensures sent == RequestFor(config.apiToken, config.baseUrl, "GET", "/settlements", filters)
      ensures r == Run(GetAllSettlementsOp, answer)
    {
      var instance := new Settlement(Some(config.apiToken), config);
      var response;
      sent, response := instance.SendRequest("GET", "/settlements", filters, answer);
      if response.Success? {
        r := Success(Offset(response.value, "settlements"));
      } else {
        r := Failure(response.error);
      }
    }

    /** getSettlementsByAccount: GET /settlements/account/{accountId}; returns
        `settlements`, and 400 is InvalidAccount. */
    static method GetSettlementsByAccount(config: Config, accountId: string, answer: Outcome)
      returns (r: Result<Json, Err>, sent: Request)
      ensures sent == RequestFor(config.apiToken, config.baseUrl, "GET", "/settlements/account/" + accountId, [])
      ensures r == Run(GetSettlementsByAccountOp, answer)
    {
      var instance := new Settlement(Some(config.apiToken), config);
      var response;
      sent, response := instance.SendRequest("GET", "/settlements/account/" + accountId, [], answer);
      if response.Success? {
        r := Success(Offset(response.value, "settlements"));
      } else {
        r := Failure(InvalidAccountCatch(response.error));
      }
    }

    /** getBalance: GET /balance; returns `balance`, and reclassifies nothing. */
    static method GetBalance(config: Config, answer: Outcome)
      returns (r: Result<Json, Err>, sent: Request)
      ensures sent == RequestFor(config.apiToken, config.baseUrl, "GET", "/balance", [])
      ensures r == Run(GetBalanceOp, answer)
    {
      var instance := new Settlement(Some(config.apiToken), config);
      var response;
      sent, response := instance.SendRequest("GET", "/balance", [], answer);
      if response.Success? {
        r := Success(Offset(response.value, "balance"));
      } else {
        r := Failure(response.error);
      }
    }
  }

  /** The status helpers read only the snapshot: none holds before a fetch,
      at most one holds after any, and exactly the fetched status holds after a
      fetch that returned a settlement with a status. */
  lemma StatusHelpersReadSnapshot(s: Settlement)
    ensures s.data == JNull ==>
      && !s.IsPending() && !s.IsProcessing() && !s.IsCompleted() && !s.IsFailed()
      && s.GetTxnId() == JNull
    ensures (if s.IsPending() then 1 else 0) + (if s.IsProcessing() then 1 else 0)
          + (if s.IsCompleted() then 1 else 0) + (if s.IsFailed() then 1 else 0) <= 1
  {
    StatusesExclusive(s.data, "pending", "processing");
    StatusesExclusive(s.data, "pending", "completed");
    StatusesExclusive(s.data, "pending", "failed");
    StatusesExclusive(s.data, "processing", "completed");
    StatusesExclusive(s.data, "processing", "failed");
    StatusesExclusive(s.data, "completed", "failed");
  }

  /** A settlement of 100.50 to account acc_1: the payload, the id returned on
      a 200 with {"id": "stl_1"}, and the LimitExceeded raised on a 403 whose
      body is "limit exceeded for today". */
  method CreateSettlementScenario() returns (payload: Result<Payload, Err>, created: Result<Json, Err>, limited: Result<Json, Err>)
    ensures payload == Success([("amount", JNum(100.5)), ("remarks", JNull),
                                ("settlement_account_id", JStr("acc_1")), ("txnId", JNull)])
    ensures created == Success(JStr("stl_1"))
    ensures limited == Failure(Err(LimitExceeded, "limit exceeded for today", 403))
  {
    var b := new SettlementBuilder();
    var _ := b.SetAmount(100.5);
    var _ := b.SetSettlementAccountId("acc_1");
    payload := b.Build();
    var client := new Settlement(None, Config("token", "https://settlements.example"));
    var sent;
    created, sent := client.CreateSettlement(b, Ok(JObject(map["id" := JStr("stl_1")])));
    limited, sent := client.CreateSettlement(b, Fail(403, "limit exceeded for today"));
    LimitExceededKeepsMessage(CreateSettlementOp, "limit exceeded for today");
  }

  /** Fetching a pending settlement makes IsPending hold and IsCompleted not;
      a later 404 raises SettlementNotFound and keeps that snapshot. */
  method FetchScenario() returns (before: bool, pending: bool, completed: bool, missing: Result<Json, Err>, stillPending: bool)
    ensures !before && pending && !completed && stillPending
    ensures missing == Failure(Default(SettlementNotFound))
  {
    var client := new Settlement(Some("token"), Config("", "https://settlements.example"));
    before := client.IsPending();
    var settlement := JObject(map["id" := JStr("stl_1"), "status" := JStr("pending")]);
    var fetched, sent := client.GetSettlementById("stl_1", Ok(settlement));
    pending := client.IsPending();
    completed := client.IsCompleted();
    missing, sent := client.GetSettlementById("stl_2", Fail(404, "Not Found"));
    ClassificationMatchesTable(GetSettlementByIdOp, 404, "Not Found", JNull);
    stillPending := client.IsPending();
  }
}
