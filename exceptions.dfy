/** The exception classes of the settlement client, as a tagged error value:
    which class was thrown, its message and its code. */
module Exceptions {
  import opened Values

  /** One variant per exception class. `InvalidArgument` is PHP's own
      \InvalidArgumentException, thrown by the builders. */
  datatype Kind =
    | ServerError                 // ServerException
    | UnauthorizedAccess          // UnauthorizedAccessException
    | InvalidAccount              // InvalidAccountException
    | DuplicationAccount          // DuplicationAccountException
    | LimitExceeded               // LimitExceededException
    | InsufficientAccountBalance  // InsufficientAccountBalanceException
    | DuplicateTransaction        // DuplicateTransactionException
    | AccountNotApproved          // AccountNotApprovedException
    | SettlementNotFound          // SettlementNotFound
    | DailyLimitExceeded          // DailyLimitExceededException (never thrown)
    | InvalidArgument             // \InvalidArgumentException

  /** A thrown exception: `getMessage()` and `getCode()` of the object. */
  datatype Err = Err(kind: Kind, message: string, code: int)

  /** The `$message` property each class declares. Every class of the SDK
      declares a non-empty one; only PHP's \InvalidArgumentException has "". */
  function DefaultMessage(k: Kind): (m: string)
    ensures m == "" <==> k == InvalidArgument
  {
    match k
    case ServerError => "Daily limit exceeded. You cannot make this settlement."
    case UnauthorizedAccess => "Unauthorized access to the settlement account."
    case InvalidAccount => "The provided settlement account is invalid or does not exist."
    case DuplicationAccount => "An account with same credentials exist."
    case LimitExceeded => "Your limits have exceeded. You cannot make this settlement."
    case InsufficientAccountBalance => "Insufficient balance to complete the settlement."
    case DuplicateTransaction => "This settlement transaction has already been processed."
    case AccountNotApproved => "An account with same credentials exist."
    case SettlementNotFound => "Settlement not found"
    case DailyLimitExceeded => "Daily limit exceeded. You cannot make this settlement."
    case InvalidArgument => ""
  }

  /** The `$code` property each class declares: an HTTP error status for
      every class of the SDK, 0 for PHP's \InvalidArgumentException. */
  function DefaultCode(k: Kind): (c: int)
    ensures k != InvalidArgument ==> 400 <= c <= 500
    ensures k == InvalidArgument ==> c == 0
  {
    match k
    case ServerError => 500
    case UnauthorizedAccess => 403
    case InvalidAccount => 400
    case DuplicationAccount => 422
    case LimitExceeded => 403
    case InsufficientAccountBalance => 402
    case DuplicateTransaction => 409
    case AccountNotApproved => 406
    case SettlementNotFound => 404
    case DailyLimitExceeded => 403
    case InvalidArgument => 0
  }

  /** The class each exception class `extends`, when it is one of these;
      None for ServerException itself and for the classes that extend PHP's
      \Exception (or, for \InvalidArgumentException, \LogicException). */
  function Parent(k: Kind): Option<Kind>
  {
    match k
    case LimitExceeded => Some(ServerError)
    case DuplicationAccount => Some(ServerError)
    case AccountNotApproved => Some(ServerError)
    case SettlementNotFound => Some(ServerError)
    case _ => None
  }

  /** `$e instanceof ServerException`: ServerException or a class extending it.
      These are exactly the five classes a `catch (ServerException $e)` block
      sees; UnauthorizedAccess, InvalidAccount and the other domain errors
      extend plain \Exception and pass through it. */
  predicate IsServerException(k: Kind)
    ensures IsServerException(k) <==>
      k in {ServerError, LimitExceeded, DuplicationAccount, AccountNotApproved, SettlementNotFound}
  {
    k == ServerError || Parent(k) == Some(ServerError)
  }

  /** `new K($message, $code)` under PHP's Exception constructor: a message
      argument, even "", replaces the class default; a code argument replaces
      it only when it is non-zero. An omitted message is None, an omitted code 0. */
  function Raise(k: Kind, message: Option<string>, code: int): (e: Err)
    ensures e.kind == k
    ensures message.Some? ==> e.message == message.value
    ensures message.None? ==> e.message == DefaultMessage(k)
    ensures code != 0 ==> e.code == code
    ensures code == 0 ==> e.code == DefaultCode(k)
  {
    Err(k, if message.Some? then message.value else DefaultMessage(k),
        if code != 0 then code else DefaultCode(k))
  }

  /** Two declarations are copies of another class's: AccountNotApproved
      carries DuplicationAccount's message, DailyLimitExceeded ServerException's
      message (and LimitExceeded's code). The ServerException subclasses
      declare pairwise different codes, so the code alone tells them apart. */
  lemma CopiedAndDistinctDeclarations(j: Kind, k: Kind)
    ensures DefaultMessage(AccountNotApproved) == DefaultMessage(DuplicationAccount)
    ensures DefaultMessage(DailyLimitExceeded) == DefaultMessage(ServerError)
    ensures DefaultCode(DailyLimitExceeded) == DefaultCode(LimitExceeded)
    ensures Parent(j) == Some(ServerError) && Parent(k) == Some(ServerError) && j != k
      ==> DefaultCode(j) != DefaultCode(k)
  {
  }

  /** `new K()`: the class defaults. */
  function Default(k: Kind): Err
  {
    Raise(k, None, 0)
  }

  /** `new \InvalidArgumentException($message)`. */
  function InvalidArgumentError(message: string): Err
  {
    Raise(InvalidArgument, Some(message), 0)
  }
}
