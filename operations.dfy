/** What each settlement operation makes of the HTTP client's answer: the
    operation's own `catch (ServerException $e)` table, the field it projects out
    of a successful body, and the snapshot the fetch operations keep. */
module Operations {
  import opened Values
  import opened Exceptions
  import opened Transport

  datatype Operation =
    | CreateSettlementOp
    | CreateSettlementAccountOp
    | CreateAccountOp
    | RemoveSettlementAccountOp
    | GetSettlementByIdOp
    | GetSettlementFromTxnIdOp
    | GetSettlementsByAccountOp
    | GetAllSettlementsOp
    | GetBalanceOp

  /** A null passed for a `string` parameter of PHP's Exception constructor:
      without strict types it is coerced to "". */
  function StringArgument(v: Option<string>): Option<string>
  {
    Some(if v.Some? then v.value else "")
  }

  /** The catch block of createSettlement. */
  function CreateSettlementCatch(e: Err): Err
  {
    if !IsServerException(e.kind) then e
    else if e.code == 402 then Default(InsufficientAccountBalance)
    else if e.code == 409 then Default(DuplicateTransaction)
    else if e.code == 403 then
      Raise(LimitExceeded, StringArgument(if e.message != "" then Some(e.message) else None), 0)
    else if e.code == 406 then Default(AccountNotApproved)
    else if e.code == 400 then Default(InvalidAccount)
    else e
  }

  /** The LimitExceeded that createSettlement's 403 branch evidently means to
      raise: the server's message, or the class's own declared message when
      the server sent none. Passing a real default (rather than null, which
      the constructor turns into "") gives that. */
  function IntendedLimitExceeded(message: string): (e: Err)
    ensures e.kind == LimitExceeded && e.code == 403
    ensures message != "" ==> e.message == message
    ensures message == "" ==> e.message == DefaultMessage(LimitExceeded) && e.message != ""
  {
    Raise(LimitExceeded, Some(if message != "" then message else DefaultMessage(LimitExceeded)), 0)
  }

  /** As written, the `null` fallback never fires: a 403 with an empty message
      raises LimitExceeded with the empty message, where the intended
      exception carries "Your limits have exceeded. You cannot make this
      settlement.". */
  lemma EmptyLimitMessageNotDefaulted()
    ensures CreateSettlementCatch(Err(ServerError, "", 403)) == Err(LimitExceeded, "", 403)
    ensures IntendedLimitExceeded("").message == "Your limits have exceeded. You cannot make this settlement."
    ensures CreateSettlementCatch(Err(ServerError, "", 403)) != IntendedLimitExceeded("")
  {
  }

  /** The catch block of createSettlementAccount. */
  function CreateSettlementAccountCatch(e: Err): Err
  {
    if !IsServerException(e.kind) then e
    else if e.code == 400 then Default(InvalidAccount)
    else if e.code == 422 then Default(DuplicationAccount)
    else if e.code == 403 then Raise(LimitExceeded, Some(e.message), 0)
    else e
  }

  /** The catch block of the static createAccount, around createSettlementAccount. */
  function CreateAccountCatch(e: Err): Err
  {
    if IsServerException(e.kind) && e.code == 401 then Default(InvalidAccount) else e
  }

  /** The catch block shared by removeSettlementAccount and getSettlementsByAccount. */
  function InvalidAccountCatch(e: Err): Err
  {
    if IsServerException(e.kind) && e.code == 400 then Default(InvalidAccount) else e
  }

  /** The catch block shared by getSettlementById and getSettlementFromTxnId. */
  function NotFoundCatch(e: Err): Err
  {
    if IsServerException(e.kind) && e.code == 404 then Default(SettlementNotFound) else e
  }

  /** The exception an operation lets escape when `sendRequest` threw `e`. */
  function Catch(op: Operation, e: Err): Err
  {
    match op
    case CreateSettlementOp => CreateSettlementCatch(e)
    case CreateSettlementAccountOp => CreateSettlementAccountCatch(e)
    case CreateAccountOp => CreateAccountCatch(CreateSettlementAccountCatch(e))
    case RemoveSettlementAccountOp => InvalidAccountCatch(e)
    case GetSettlementByIdOp => NotFoundCatch(e)
    case GetSettlementFromTxnIdOp => NotFoundCatch(e)
    case GetSettlementsByAccountOp => InvalidAccountCatch(e)
    case GetAllSettlementsOp => e
    case GetBalanceOp => e
  }

  /** What an operation returns from a successfully decoded body. */
  function Project(op: Operation, body: Json): Json
  {
    match op
    case CreateSettlementOp => Offset(body, "id")
    case CreateSettlementAccountOp => Offset(Offset(body, "account"), "id")
    case CreateAccountOp => Offset(Offset(body, "account"), "id")
    case RemoveSettlementAccountOp => Coalesce(Offset(body, "success"), JBool(false))
    case GetSettlementByIdOp => body
    case GetSettlementFromTxnIdOp => body
    case GetSettlementsByAccountOp => Offset(body, "settlements")
    case GetAllSettlementsOp => Offset(body, "settlements")
    case GetBalanceOp => Offset(body, "balance")
  }

  /** An operation once its request is sent: the first-stage mapping, then the
      operation's own catch block or its projection. */
  function Run(op: Operation, answer: Outcome): Result<Json, Err>
  {
    match FirstStage(answer)
    case Success(body) => Success(Project(op, body))
    case Failure(e) => Failure(Catch(op, e))
  }

  /** The status codes each operation reinterprets, written out as data. */
  function Table(op: Operation): map<int, Kind>
  {
    match op
    case CreateSettlementOp =>
      map[400 := InvalidAccount, 402 := InsufficientAccountBalance, 403 := LimitExceeded,
          406 := AccountNotApproved, 409 := DuplicateTransaction]
    case CreateSettlementAccountOp => map[400 := InvalidAccount, 403 := LimitExceeded, 422 := DuplicationAccount]
    case CreateAccountOp => map[400 := InvalidAccount, 403 := LimitExceeded, 422 := DuplicationAccount]
    case RemoveSettlementAccountOp => map[400 := InvalidAccount]
    case GetSettlementByIdOp => map[404 := SettlementNotFound]
    case GetSettlementFromTxnIdOp => map[404 := SettlementNotFound]
    case GetSettlementsByAccountOp => map[400 := InvalidAccount]
    case GetAllSettlementsOp => map[]
    case GetBalanceOp => map[]
  }

  /** The error a caller should see for an HTTP failure: 401 is UnauthorizedAccess
      for every operation; a status the operation reinterprets gives that domain
      error with the status as its code and, for LimitExceeded only, the server's
      message; any other status is a ServerException with the server's message
      and status (500 when there was no status). */
  function Expected(op: Operation, status: int, message: string): Err
  {
    if status == 401 then Err(UnauthorizedAccess, message, 401)
    else if status in Table(op) then
      var k := Table(op)[status];
      Err(k, if k == LimitExceeded then message else DefaultMessage(k), status)
    else Err(ServerError, message, if status == 0 then 500 else status)
  }

  /** Both stages of error mapping together give exactly the table, and a
      success never raises. */
  lemma ClassificationMatchesTable(op: Operation, status: int, message: string, body: Json)
    ensures Run(op, Fail(status, message)) == Failure(Expected(op, status, message))
    ensures Run(op, Ok(body)) == Success(Project(op, body))
  {
    var e := FirstStage(Fail(status, message)).error;
    if status != 401 {
      assert e == Err(ServerError, message, if status == 0 then 500 else status);
      if op == CreateSettlementOp {
        CreateSettlementRows(status, message);
      } else if op == CreateSettlementAccountOp || op == CreateAccountOp {
        CreateSettlementAccountRows(status, message);
      }
    }
  }

  /** The createSettlement rows of the table. */
  lemma CreateSettlementRows(status: int, message: string)
    requires status != 401
    ensures Run(CreateSettlementOp, Fail(status, message)) == Failure(Expected(CreateSettlementOp, status, message))
  {
    var e := Err(ServerError, message, if status == 0 then 500 else status);
    assert FirstStage(Fail(status, message)) == Failure(e);
    if status !in {400, 402, 403, 406, 409} {
      assert status !in Table(CreateSettlementOp);
      assert CreateSettlementCatch(e) == e;
    }
  }

  /** The createSettlementAccount (and createAccount) rows of the table. */
  lemma CreateSettlementAccountRows(status: int, message: string)
    requires status != 401
    ensures Run(CreateSettlementAccountOp, Fail(status, message)) == Failure(Expected(CreateSettlementAccountOp, status, message))
    ensures Run(CreateAccountOp, Fail(status, message)) == Failure(Expected(CreateAccountOp, status, message))
  {
    var e := Err(ServerError, message, if status == 0 then 500 else status);
    assert FirstStage(Fail(status, message)) == Failure(e);
    if status !in {400, 403, 422} {
      assert status !in Table(CreateSettlementAccountOp);
      assert CreateSettlementAccountCatch(e) == e;
    }
  }

  /** A 401 is never reclassified: it is UnauthorizedAccess with the server's
      message, whatever the operation. */
  lemma UnauthorizedNeverReclassified(op: Operation, message: string)
    ensures Run(op, Fail(401, message)) == Failure(Err(UnauthorizedAccess, message, 401))
  {
  }

  /** Every error an operation raises for a received status carries that status
      as its code. */
  lemma ErrorCodeMirrorsStatus(op: Operation, status: int, message: string)
    requires status != 0
    ensures Run(op, Fail(status, message)).error.code == status
  {
    ClassificationMatchesTable(op, status, message, JNull);
  }

  /** A 403 while creating a settlement or an account is LimitExceeded carrying
      the server's message, an empty one included. */
  lemma LimitExceededKeepsMessage(op: Operation, message: string)
    requires op == CreateSettlementOp || op == CreateSettlementAccountOp
    ensures Run(op, Fail(403, message)) == Failure(Err(LimitExceeded, message, 403))
  {
  }

  /** The 401 branch of createAccount cannot be reached, so createAccount
      answers exactly as createSettlementAccount does. */
  lemma CreateAccountBehavesLikeCreateSettlementAccount(answer: Outcome)
    ensures Run(CreateAccountOp, answer) == Run(CreateSettlementAccountOp, answer)
  {
    if answer.Fail? {
      NoServerExceptionWith401(answer);
    }
  }

  /** A validation error thrown by a builder is not a ServerException, so no
      catch block reclassifies it. */
  lemma ValidationErrorsPassThrough(op: Operation, message: string)
    ensures Catch(op, InvalidArgumentError(message)) == InvalidArgumentError(message)
  {
  }

  /** No operation ever raises DailyLimitExceededException. */
  lemma DailyLimitNeverRaised(op: Operation, answer: Outcome)
    ensures Run(op, answer).Failure? ==> Run(op, answer).error.kind != DailyLimitExceeded
  {
  }

  /** removeSettlementAccount returns the `success` field, or false when the
      body has no such field (or holds null there). */
  lemma RemoveReportsSuccessField(body: Json)
    ensures Offset(body, "success") == JNull ==> Project(RemoveSettlementAccountOp, body) == JBool(false)
    ensures Offset(body, "success") != JNull ==> Project(RemoveSettlementAccountOp, body) == Offset(body, "success")
  {
  }

  // ---- the snapshot kept by the fetch operations ----

  /** The snapshot after one fetch by id or by txnId: the decoded body on
      success, the previous snapshot when the fetch threw. */
  function AfterFetch(snapshot: Json, answer: Outcome): Json
  {
    if answer.Ok? then answer.body else snapshot
  }

  /** The snapshot after a series of fetches on the same instance. */
  function Retained(snapshot: Json, answers: seq<Outcome>): Json
    decreases |answers|
  {
    if answers == [] then snapshot else Retained(AfterFetch(snapshot, answers[0]), answers[1..])
  }

  /** Fetches that all fail leave the snapshot as it was. */
  lemma {:induction false} FailedFetchesKeepSnapshot(snapshot: Json, answers: seq<Outcome>)
    requires forall j :: 0 <= j < |answers| ==> answers[j].Fail?
    ensures Retained(snapshot, answers) == snapshot
  {
    if answers != [] {
      FailedFetchesKeepSnapshot(snapshot, answers[1..]);
    }
  }

  /** After a series of fetches the snapshot is the body of the last one that
      succeeded. */
  lemma {:induction false} LastSuccessfulFetchRetained(snapshot: Json, answers: seq<Outcome>, i: nat)
    requires i < |answers| && answers[i].Ok?
    requires forall j :: i < j < |answers| ==> answers[j].Fail?
    ensures Retained(snapshot, answers) == answers[i].body
    decreases i
  {
    if i == 0 {
      FailedFetchesKeepSnapshot(answers[0].body, answers[1..]);
    } else {
      LastSuccessfulFetchRetained(AfterFetch(snapshot, answers[0]), answers[1..], i - 1);
    }
  }

  /** `$data['status'] === $status`: an exact comparison with a string. */
  predicate HasStatus(snapshot: Json, status: string)
  {
    Offset(snapshot, "status") == JStr(status)
  }

  /** `$data["txnId"] ?? null`. */
  function TxnIdOf(snapshot: Json): Json
  {
    Coalesce(Offset(snapshot, "txnId"), JNull)
  }

  /** A snapshot has at most one status, so at most one of the status
      predicates holds; before any fetch (null snapshot) none holds and there
      is no txnId. */
  lemma StatusesExclusive(snapshot: Json, s: string, t: string)
    ensures HasStatus(snapshot, s) && HasStatus(snapshot, t) ==> s == t
    ensures !HasStatus(JNull, s) && TxnIdOf(JNull) == JNull
  {
  }

  /** A fetched settlement object reports exactly the status it carries, and
      its txnId when it has one. */
  lemma SnapshotReportsItsFields(fields: map<string, Json>, status: string, s: string)
    requires "status" in fields && fields["status"] == JStr(status)
    ensures HasStatus(JObject(fields), s) <==> s == status
    ensures TxnIdOf(JObject(fields)) == if "txnId" in fields then fields["txnId"] else JNull
  {
  }
}
