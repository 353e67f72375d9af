# Settlement SDK client, modelled in Dafny

This project models the core of a PHP client library for a remote settlement
service. The client registers payout accounts, creates settlements, fetches
them by id or by caller-supplied txnId, lists them, reads the balance, and
answers status questions about the last settlement it fetched. It has three
parts:

- **The client facade** (`Settlement`). It builds every request (URL, bearer
  token, and the data as JSON body or query string). It maps a transport
  failure in two stages: 401 becomes UnauthorizedAccess, and every other code
  becomes a ServerException. Then each operation's own `catch (ServerException)`
  block turns some status codes into domain errors. A successful body is
  projected to one field. The facade also keeps one mutable snapshot, the last
  settlement fetched.
- **`SettlementAccountBuilder`**: fluent setters, an eager check of the account
  type, and a `build()` that validates by type.
- **`SettlementBuilder`**: fluent setters and a `build()` that checks the amount
  and the account id.

The modules follow the source:

- `Values`: nullable values, PHP truthiness, decoded JSON.
- `Exceptions`: the exception classes. Each has its declared message, its
  declared code and whether it is a ServerException.
- `Transport`: `sendRequest`'s request and its first-stage mapping.
- `Operations`: the per-operation catch blocks, the projections, the status
  table and the snapshot.
- `AccountBuilders` and `SettlementBuilders`: the two builders.
- `Client`: the `Settlement` class.

The Guzzle call is replaced by an input `answer: Outcome`. That input is what
the transport reports for the one request an operation sends: a decoded body,
or a failure with its code and message. Each operation also returns the request
it sent, so "no request was made" can be stated directly.

Three points where the model follows PHP's semantics rather than a plain
reading of the code:

- `sendRequest` (src/Settlements/Settlement.php:368-369) passes the transport's
  code to `new ServerException($message, $code)`. PHP's Exception constructor
  replaces the class's default code only with a non-zero code, so a transport
  failure that has no HTTP status (code 0) surfaces with code 500, the code
  ServerException declares.
- For a 403 with an empty message, `createSettlement`
  (src/Settlements/Settlement.php:125) passes `null` as the LimitExceeded
  message. PHP coerces `null` to `""` for that `string` parameter, because the
  file does not declare strict types. The message is therefore the server's
  own (empty) message, and the class's declared message is not used (see
  "## Findings").
- `createAccount`'s catch block (src/Settlements/Settlement.php:46-50) turns a
  401 ServerException into InvalidAccount, but that branch can never be
  reached: the 401 arrives as UnauthorizedAccess, which is not a
  ServerException. The model follows the code
  (`Operations.CreateAccountBehavesLikeCreateSettlementAccount`).

Also, `AccountNotApprovedException` declares the same message as
`DuplicationAccountException` ("An account with same credentials exist.").
UnauthorizedAccess declares code 403, but the client always raises it with
code 401. Both are modelled as written.

## Model

| member | source | states |
|---|---|---|
| `Exceptions.DefaultMessage` | src/Settlements/Exceptions/ServerException.php:9 | the `$message` each exception class declares (ServerException.php:9, LimitExceededException.php:6 and the same line of the others); every class of the SDK declares a non-empty one, and only PHP's \InvalidArgumentException has "" |
| `Exceptions.DefaultCode` | src/Settlements/Exceptions/ServerException.php:10 | the `$code` each exception class declares (ServerException.php:10 and the same line of the others); every class of the SDK declares an HTTP error status between 400 and 500, \InvalidArgumentException 0 |
| `Exceptions.CopiedAndDistinctDeclarations` | src/Settlements/Exceptions/AccountNotApprovedException.php:4-8 | AccountNotApproved declares DuplicationAccount's message and DailyLimitExceeded ServerException's message and LimitExceeded's code; the four ServerException subclasses declare pairwise different codes |
| `Exceptions.IsServerException` | src/Settlements/Exceptions/LimitExceededException.php:4 | `instanceof ServerException` holds for ServerException and the classes whose declaration extends it, which are exactly ServerException, LimitExceeded, DuplicationAccount, AccountNotApproved and SettlementNotFound; UnauthorizedAccess, InvalidAccount and the other domain errors pass through every catch block |
| `Exceptions.Raise` | src/Settlements/Settlement.php:365-370 | `new K($message, $code)`: the class is K, a message argument (even "") replaces the declared message and an omitted one keeps it, a non-zero code replaces the declared code and 0 keeps it |
| `Transport.RequestShape` | src/Settlements/Settlement.php:345-358 | every request carries `Authorization: Bearer <token>` and `Accept: application/json` and targets base URL + endpoint; GET sends the data as query parameters and no JSON body, every other verb sends it as a JSON body |
| `Transport.FirstStage` | src/Settlements/Settlement.php:359-371 | a success passes the decoded body on unchanged; a failure with 401 becomes UnauthorizedAccess with code 401; any other failure becomes a ServerException with the transport's message and code (500 when the code is 0) |
| `Transport.NoServerExceptionWith401` | src/Settlements/Settlement.php:364-370 | a first-stage ServerException never has code 401, and the only other first-stage error is UnauthorizedAccess |
| `Client.Settlement.constructor` | src/Settlements/Settlement.php:23-30 | a truthy explicit token is kept, a falsy one is replaced by the configured token; the base URL comes from configuration; there is no snapshot yet |
| `Client.Settlement.SendRequest` | src/Settlements/Settlement.php:341-372 | the request sent is `RequestFor` of the instance's token and URL (whose shape `RequestShape` states), and the result is the first-stage mapping of the answer |
| `Client.Settlement.CreateSettlement` | src/Settlements/Settlement.php:111-135 | the payload is built first; a validation error escapes unclassified and no request is sent; otherwise it POSTs the payload to /settlements and returns `id` or the createSettlement error, with no change to the snapshot |
| `Operations.CreateSettlementRows` | src/Settlements/Settlement.php:117-133 | createSettlement turns 400, 402, 403, 406 and 409 into InvalidAccount, InsufficientAccountBalance, LimitExceeded (server message), AccountNotApproved and DuplicateTransaction; any other ServerException is rethrown unchanged |
| `Operations.LimitExceededKeepsMessage` | src/Settlements/Settlement.php:124-126 | a 403 while creating a settlement or an account is LimitExceeded with code 403 and the server's message, an empty message included |
| `Operations.IntendedLimitExceeded` | src/Settlements/Settlement.php:124-126 | the evidently intended 403 result: LimitExceeded with code 403 and the server's message, or the class's declared (non-empty) message when the server's is empty |
| `Operations.EmptyLimitMessageNotDefaulted` | src/Settlements/Settlement.php:124-126 | as written, a 403 with an empty message gives LimitExceeded with message ""; the intended exception carries "Your limits have exceeded. You cannot make this settlement." |
| `Client.Settlement.CreateSettlementAccount` | src/Settlements/Settlement.php:178-196 | builds first; a validation error escapes and no request is sent; otherwise it POSTs to /settlements/account and returns `account.id` or the createSettlementAccount error |
| `Operations.CreateSettlementAccountRows` | src/Settlements/Settlement.php:184-195 | createSettlementAccount (and createAccount) turn 400 into InvalidAccount, 422 into DuplicationAccount and 403 into LimitExceeded with the server's message; anything else is rethrown |
| `Client.Settlement.CreateAccount` | src/Settlements/Settlement.php:40-52 | behaves as createSettlementAccount on an instance with the configured token and URL, followed by its own catch block |
| `Operations.CreateAccountBehavesLikeCreateSettlementAccount` | src/Settlements/Settlement.php:46-50 | the 401 → InvalidAccount branch of createAccount is unreachable, so createAccount gives exactly the results of createSettlementAccount for every answer |
| `Client.Settlement.CreateNewSettlement` | src/Settlements/Settlement.php:65-69 | createSettlement on an instance with the configured token and URL |
| `Client.Settlement.RemoveSettlementAccount` | src/Settlements/Settlement.php:157-168 | DELETEs /settlements/account/{id} with an empty JSON body and returns the remove-account result, without touching the snapshot |
| `Operations.RemoveReportsSuccessField` | src/Settlements/Settlement.php:160 | removeSettlementAccount returns the `success` field, or false when the field is absent or null |
| `Client.Settlement.RemoveAccount` | src/Settlements/Settlement.php:144-148 | removeSettlementAccount on an instance with the configured token and URL |
| `Client.Settlement.GetSettlementById` | src/Settlements/Settlement.php:205-218 | GETs /settlements/{id}; on success the body becomes the snapshot and is returned; on failure the snapshot is unchanged and 404 is SettlementNotFound |
| `Client.Settlement.GetSettlementFromTxnId` | src/Settlements/Settlement.php:228-241 | GETs /settlements/txnId/{txnId}, with the same snapshot and 404 behaviour |
| `Client.Settlement.Find` | src/Settlements/Settlement.php:79-84 | returns a fresh configured instance whose snapshot is the fetched settlement, exactly when the fetch succeeds; otherwise the getSettlementById error |
| `Client.Settlement.FindByTxnId` | src/Settlements/Settlement.php:93-98 | the same as Find, fetching by txnId |
| `Client.Settlement.GetAllSettlements` | src/Settlements/Settlement.php:249-253 | GETs /settlements with the filters as query parameters and returns `settlements`; failures are not reclassified |
| `Client.Settlement.GetSettlementsByAccount` | src/Settlements/Settlement.php:262-274 | GETs /settlements/account/{id} and returns `settlements`; 400 is InvalidAccount |
| `Client.Settlement.GetBalance` | src/Settlements/Settlement.php:281-286 | GETs /balance and returns `balance`; failures are not reclassified |
| `Operations.ClassificationMatchesTable` | src/Settlements/Settlement.php:111-286 | for every operation and status, the two mapping stages together give exactly the table: 401 is always UnauthorizedAccess, a reinterpreted status gives its domain error, any other status is a ServerException with the server's message and code; success never raises |
| `Operations.UnauthorizedNeverReclassified` | src/Settlements/Settlement.php:366-367 | a 401 is UnauthorizedAccess with the server's message and code 401 for every operation |
| `Operations.ErrorCodeMirrorsStatus` | src/Settlements/Settlement.php:117-133 | the error an operation raises for a received status carries that status as its code |
| `Operations.ValidationErrorsPassThrough` | src/Settlements/Settlement.php:114-115 | a builder's InvalidArgumentException is not a ServerException, so no catch block changes it |
| `Operations.DailyLimitNeverRaised` | src/Settlements/Exceptions/DailyLimitExceededException.php:7-11 | no operation ever raises DailyLimitExceededException |
| `Operations.FailedFetchesKeepSnapshot` | src/Settlements/Settlement.php:207-216 | a series of fetches that all fail leaves the snapshot as it was |
| `Operations.LastSuccessfulFetchRetained` | src/Settlements/Settlement.php:209 | after a series of fetches on one instance, the snapshot is the body of the last fetch that succeeded |
| `Operations.StatusesExclusive` | src/Settlements/Settlement.php:291-321 | the status checks are exact string comparisons, so a snapshot has at most one status; with no snapshot none holds and there is no txnId |
| `Operations.SnapshotReportsItsFields` | src/Settlements/Settlement.php:291-330 | a fetched settlement reports exactly the status it carries, and its txnId when present (null otherwise) |
| `Client.Settlement.IsPending` | src/Settlements/Settlement.php:291-294 | true exactly when the snapshot is an object whose `status` is the string "pending" |
| `Client.Settlement.IsProcessing` | src/Settlements/Settlement.php:300-303 | true exactly when the snapshot is an object whose `status` is the string "processing" |
| `Client.Settlement.IsCompleted` | src/Settlements/Settlement.php:309-312 | true exactly when the snapshot is an object whose `status` is the string "completed" |
| `Client.Settlement.IsFailed` | src/Settlements/Settlement.php:318-321 | true exactly when the snapshot is an object whose `status` is the string "failed" |
| `Client.Settlement.GetTxnId` | src/Settlements/Settlement.php:327-330 | the snapshot's `txnId` when the snapshot is an object holding one, null otherwise and before any fetch |
| `Client.StatusHelpersReadSnapshot` | src/Settlements/Settlement.php:291-330 | before any fetch all four status helpers are false and getTxnId is null; at most one helper is true at any time |
| `Client.CreateSettlementScenario` | src/Settlements/Settlement.php:111-126 | a settlement of 100.50 to acc_1 builds {amount, remarks: null, settlement_account_id, txnId: null}; a 200 with {"id": "stl_1"} returns "stl_1"; a 403 "limit exceeded for today" raises LimitExceeded with that message |
| `Client.FetchScenario` | src/Settlements/Settlement.php:205-218 | after fetching a pending settlement IsPending holds and IsCompleted does not; a following 404 raises SettlementNotFound and the snapshot stays pending |
| `AccountBuilders.SettlementAccountBuilder.constructor` | src/Settlements/builders/SettlementAccountBuilder.php:6-11 | a new builder has every property unset |
| `AccountBuilders.SettlementAccountBuilder.SetNickname` | src/Settlements/builders/SettlementAccountBuilder.php:15-19 | assigns only the nickname and returns the same builder |
| `AccountBuilders.SettlementAccountBuilder.SetAccountNumber` | src/Settlements/builders/SettlementAccountBuilder.php:21-25 | assigns only the account number and returns the same builder |
| `AccountBuilders.SettlementAccountBuilder.SetIfscCode` | src/Settlements/builders/SettlementAccountBuilder.php:27-31 | assigns only the IFSC code and returns the same builder |
| `AccountBuilders.SettlementAccountBuilder.SetAccountHolderName` | src/Settlements/builders/SettlementAccountBuilder.php:33-37 | assigns only the holder name and returns the same builder |
| `AccountBuilders.SettlementAccountBuilder.SetVirtualAddress` | src/Settlements/builders/SettlementAccountBuilder.php:39-43 | assigns only the virtual address and returns the same builder |
| `AccountBuilders.SettlementAccountBuilder.SetType` | src/Settlements/builders/SettlementAccountBuilder.php:45-53 | accepts only 'vpa' and 'bank_account'; anything else throws "Invalid account type" at once and leaves every property, the stored type included, unchanged |
| `AccountBuilders.SettlementAccountBuilder.Build` | src/Settlements/builders/SettlementAccountBuilder.php:55-80 | returns the `build()` result for the current properties and changes nothing, so an unchanged builder builds the same result every time |
| `AccountBuilders.BuildAccountSucceedsIff` | src/Settlements/builders/SettlementAccountBuilder.php:57-70 | with a type set by setType, build succeeds iff the nickname is truthy and the type's own details (holder name, number and IFSC, or a virtual address) are truthy |
| `AccountBuilders.RequiredFieldsCheckedFirst` | src/Settlements/builders/SettlementAccountBuilder.php:57-59 | a falsy nickname or type fails with "Required fields are missing" before any type-specific check |
| `AccountBuilders.BankAccountNeedsDetails` | src/Settlements/builders/SettlementAccountBuilder.php:62-66 | a bank account fails with "Bank account details are missing" iff any of holder name, account number and IFSC code is falsy |
| `AccountBuilders.VpaNeedsVirtualAddress` | src/Settlements/builders/SettlementAccountBuilder.php:68-70 | a VPA account fails with "Virtual address is required for VPA account type" iff the virtual address is falsy |
| `AccountBuilders.AccountPayloadExact` | src/Settlements/builders/SettlementAccountBuilder.php:72-79 | the payload has exactly the keys nickname, type, account_number, ifsc_code, account_holder_name and virtual_address in that order, each with the stored value; unset properties are null and unused ones are kept |
| `AccountBuilders.UnsetFieldKept` | src/Settlements/builders/SettlementAccountBuilder.php:15-53 | a property that no setter call in a chain assigns keeps its value, even when the chain is cut short by an exception |
| `AccountBuilders.LastWriteWins` | src/Settlements/builders/SettlementAccountBuilder.php:15-53 | in a chain of accepted setter calls, a property ends with the value of the last call that set it |
| `AccountBuilders.AcceptedChainCompletes` | src/Settlements/builders/SettlementAccountBuilder.php:15-53 | a chain with no invalid setType call runs to the end without throwing |
| `AccountBuilders.InvalidTypeFailsFast` | src/Settlements/builders/SettlementAccountBuilder.php:45-53 | the first invalid setType stops the chain with "Invalid account type"; the builder keeps exactly what the earlier calls stored |
| `SettlementBuilders.SettlementBuilder.constructor` | src/Settlements/Builders/SettlementBuilder.php:6-9 | a new builder has every property unset |
| `SettlementBuilders.SettlementBuilder.SetAmount` | src/Settlements/Builders/SettlementBuilder.php:11-15 | assigns only the amount and returns the same builder |
| `SettlementBuilders.SettlementBuilder.SetRemarks` | src/Settlements/Builders/SettlementBuilder.php:17-21 | assigns only the remarks and returns the same builder |
| `SettlementBuilders.SettlementBuilder.SetTxnId` | src/Settlements/Builders/SettlementBuilder.php:23-27 | assigns only the txnId and returns the same builder |
| `SettlementBuilders.SettlementBuilder.SetSettlementAccountId` | src/Settlements/Builders/SettlementBuilder.php:32-36 | assigns only the settlement account id and returns the same builder |
| `SettlementBuilders.SettlementBuilder.GetTxnId` | src/Settlements/Builders/SettlementBuilder.php:28-31 | as written, always null, whatever setTxnId stored |
| `SettlementBuilders.SettlementBuilder.StoredTxnId` | src/Settlements/Builders/SettlementBuilder.php:28-31 | the intended getter: the txnId the builder stores |
| `SettlementBuilders.TxnIdLostByGetter` | src/Settlements/Builders/SettlementBuilder.php:23-31 | for every string x, after setTxnId(x) the builder stores x, getTxnId returns null, and the intended getter returns x |
| `SettlementBuilders.SettlementBuilder.Build` | src/Settlements/Builders/SettlementBuilder.php:38-50 | returns the `build()` result for the current properties and changes nothing |
| `SettlementBuilders.BuildSettlementFailsIff` | src/Settlements/Builders/SettlementBuilder.php:40-42 | build fails with "Required fields are missing for settlement" iff the amount is unset or zero or the account id is unset or falsy |
| `SettlementBuilders.NegativeAmountAccepted` | src/Settlements/Builders/SettlementBuilder.php:40 | only the amount's truthiness is checked, so a negative amount is accepted |
| `SettlementBuilders.SettlementPayloadExact` | src/Settlements/Builders/SettlementBuilder.php:44-49 | the payload is exactly amount, remarks, settlement_account_id and txnId, in that order, with the stored values; remarks and txnId are null when never set |

## Left out

- The Guzzle call and `json_decode` (src/Settlements/Settlement.php:343, 360-361) are network I/O and a foreign library. They are replaced by the `answer` input: a decoded body, or a failure code and message.
- `config(...)` lookups are framework configuration. They are passed in as a `Config` value, and an unset value is modelled as "".
- Reading an offset of a decoded body that is a JSON string (PHP string offsets) is modelled as null, like every other non-object body.
- `Client.Settlement.RemoveSettlementAccount`: under the declared `bool` return type a scalar `success` value is coerced and a list or object throws TypeError; the model returns the JSON value itself.
- `Client.Settlement.GetTxnId` (through `Operations.TxnIdOf`): under the declared `string|null` return type a scalar txnId is coerced and a list or object throws TypeError; the model returns the JSON value itself.
- Amounts are reals, not IEEE floats. NaN, infinities and rounding are not modelled. No arithmetic is done on amounts.
- Concurrency: the client is single-threaded, and concurrent fetches on one instance are not modelled. `Operations.LastSuccessfulFetchRetained` states which result a series of fetches retains.
- `src/ApiClient.php`, `src/HttpClient.php` and `src/Settlement.php` are an older client that the modelled class does not use. The two service providers and the Composer autoloader are framework bootstrap code. None of them is part of this model.
- PHP warnings for reading an undefined offset are not modelled; the value read is null, as in PHP.

## Findings

| source | as written | input that shows it | evidently intended | confidence | as-written member | corrected member |
|---|---|---|---|---|---|---|
| src/Settlements/Builders/SettlementBuilder.php:28-31 | `getTxnId` returns `$this->data["txnId"] ?? null`, but the class has no `data` property, so it always returns null | `(new SettlementBuilder())->setTxnId("txn_1")->getTxnId()` gives null | return the stored `$this->txnId` ("txn_1") | high (not executed) | `SettlementBuilders.SettlementBuilder.GetTxnId` (shown by `SettlementBuilders.TxnIdLostByGetter`) | `SettlementBuilders.SettlementBuilder.StoredTxnId` |
| src/Settlements/Settlement.php:125 | a 403 raises `new LimitExceededException($e->getMessage()!=""?$e->getMessage():null)`; PHP coerces the `null` to "", which replaces the declared message, so the fallback never yields a default | a 403 failure whose message is "" while creating a settlement gives LimitExceeded with message "" | with no server message, LimitExceeded's declared "Your limits have exceeded. You cannot make this settlement." | medium (not executed) | `Operations.CreateSettlementCatch` (shown by `Operations.EmptyLimitMessageNotDefaulted`; `Operations.LimitExceededKeepsMessage` states the as-written behaviour) | `Operations.IntendedLimitExceeded` |

The client model keeps both methods' as-written behaviour, so every operation
above returns what the code returns. The corrected members state what the
evidently intended code would give.
