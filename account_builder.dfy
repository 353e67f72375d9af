/** SettlementAccountBuilder: fluent setters over six nullable properties, an
    eager check of the account type, and a `build()` that validates by type and
    returns the account payload. */
module AccountBuilders {
  import opened Values
  import opened Exceptions

  const TypeVpa: string := "vpa"
  const TypeBankAccount: string := "bank_account"

  /** The builder's properties; None is a property never assigned (null). */
  datatype AccountFields = AccountFields(
    nickname: Option<string>,
    accountNumber: Option<string>,
    ifscCode: Option<string>,
    accountHolderName: Option<string>,
    virtualAddress: Option<string>,
    accountType: Option<string>)

  const Unset: AccountFields := AccountFields(None, None, None, None, None, None)

  /** `in_array($type, ['vpa', 'bank_account'])`. */
  predicate ValidType(t: string)
  {
    t == TypeVpa || t == TypeBankAccount
  }

  /** The stored type is null or one `setType` accepted. */
  predicate TypeStoredBySetter(f: AccountFields)
  {
    f.accountType.None? || ValidType(f.accountType.value)
  }

  const RequiredMissing: string := "Required fields are missing"
  const BankDetailsMissing: string := "Bank account details are missing"
  const VirtualAddressMissing: string := "Virtual address is required for VPA account type"
  const InvalidType: string := "Invalid account type"

  /** The bank-account details are all truthy. */
  predicate BankDetailsPresent(f: AccountFields)
  {
    Truthy(f.accountHolderName) && Truthy(f.accountNumber) && Truthy(f.ifscCode)
  }

  /** What `build()` returns or throws for the given properties. */
  function BuildAccount(f: AccountFields): Result<Payload, Err>
  {
    if !Truthy(f.nickname) || !Truthy(f.accountType) then
      Failure(InvalidArgumentError(RequiredMissing))
    else if f.accountType == Some(TypeBankAccount) && !BankDetailsPresent(f) then
      Failure(InvalidArgumentError(BankDetailsMissing))
    else if f.accountType == Some(TypeVpa) && !Truthy(f.virtualAddress) then
      Failure(InvalidArgumentError(VirtualAddressMissing))
    else
      Success(AccountPayload(f))
  }

  /** The array `build()` returns. */
  function AccountPayload(f: AccountFields): Payload
  {
    [ ("nickname", StringOrNull(f.nickname)),
      ("type", StringOrNull(f.accountType)),
      ("account_number", StringOrNull(f.accountNumber)),
      ("ifsc_code", StringOrNull(f.ifscCode)),
      ("account_holder_name", StringOrNull(f.accountHolderName)),
      ("virtual_address", StringOrNull(f.virtualAddress)) ]
  }

  /** With a type set by `setType`, `build()` succeeds exactly when the nickname
      is truthy and the details that type demands are truthy. */
  lemma BuildAccountSucceedsIff(f: AccountFields)
    requires TypeStoredBySetter(f)
    ensures BuildAccount(f).Success? <==>
      && Truthy(f.nickname)
      && (|| (f.accountType == Some(TypeBankAccount) && BankDetailsPresent(f))
          || (f.accountType == Some(TypeVpa) && Truthy(f.virtualAddress)))
  {
  }

  /** A falsy nickname or type fails with "Required fields are missing" before
      any type-specific check is made. */
  lemma RequiredFieldsCheckedFirst(f: AccountFields)
    requires !Truthy(f.nickname) || !Truthy(f.accountType)
    ensures BuildAccount(f) == Failure(InvalidArgumentError(RequiredMissing))
  {
  }

  /** A bank account lacking a truthy holder name, account number or IFSC code
      fails with "Bank account details are missing". */
  lemma BankAccountNeedsDetails(f: AccountFields)
    requires Truthy(f.nickname) && f.accountType == Some(TypeBankAccount)
    ensures BuildAccount(f).Failure? <==> !BankDetailsPresent(f)
    ensures !BankDetailsPresent(f) ==> BuildAccount(f).error == InvalidArgumentError(BankDetailsMissing)
  {
  }

  /** A VPA account lacking a truthy virtual address fails with "Virtual address
      is required for VPA account type"; the bank details are not consulted. */
  lemma VpaNeedsVirtualAddress(f: AccountFields)
    requires Truthy(f.nickname) && f.accountType == Some(TypeVpa)
    ensures BuildAccount(f).Failure? <==> !Truthy(f.virtualAddress)
    ensures !Truthy(f.virtualAddress) ==> BuildAccount(f).error == InvalidArgumentError(VirtualAddressMissing)
  {
  }

  /** A successful payload has exactly the six documented keys, in order, each
      holding the stored value: unset properties are null, and properties the
      type does not use are kept as they are. */
  lemma AccountPayloadExact(f: AccountFields)
    requires BuildAccount(f).Success?
    ensures var p := BuildAccount(f).value;
      && Keys(p) == ["nickname", "type", "account_number", "ifsc_code", "account_holder_name", "virtual_address"]
      && p[0].1 == JStr(f.nickname.value)
      && p[1].1 == JStr(f.accountType.value)
      && p[2].1 == StringOrNull(f.accountNumber)
      && p[3].1 == StringOrNull(f.ifscCode)
      && p[4].1 == StringOrNull(f.accountHolderName)
      && p[5].1 == StringOrNull(f.virtualAddress)
  {
  }

  // ---- chains of fluent setter calls ----

  datatype Field = NicknameField | AccountNumberField | IfscCodeField
                 | AccountHolderNameField | VirtualAddressField | TypeField

  /** One setter call `->setX($value)`. */
  datatype Setter = Set(field: Field, value: string)

  function Get(f: AccountFields, field: Field): Option<string>
  {
    match field
    case NicknameField => f.nickname
    case AccountNumberField => f.accountNumber
    case IfscCodeField => f.ifscCode
    case AccountHolderNameField => f.accountHolderName
    case VirtualAddressField => f.virtualAddress
    case TypeField => f.accountType
  }

  /** One setter call: it assigns its own property, except that `setType` with
      a type other than 'vpa' or 'bank_account' throws and assigns nothing. */
  function Step(f: AccountFields, s: Setter): Result<AccountFields, Err>
  {
    match s.field
    case NicknameField => Success(f.(nickname := Some(s.value)))
    case AccountNumberField => Success(f.(accountNumber := Some(s.value)))
    case IfscCodeField => Success(f.(ifscCode := Some(s.value)))
    case AccountHolderNameField => Success(f.(accountHolderName := Some(s.value)))
    case VirtualAddressField => Success(f.(virtualAddress := Some(s.value)))
    case TypeField =>
      if ValidType(s.value) then Success(f.(accountType := Some(s.value)))
      else Failure(InvalidArgumentError(InvalidType))
  }

  /** The builder's properties after a chain of setter calls, and the exception
      that stopped the chain, if one did. */
  datatype ChainResult = ChainResult(fields: AccountFields, error: Option<Err>)

  function Chain(f: AccountFields, ops: seq<Setter>): ChainResult
    decreases |ops|
  {
    if ops == [] then ChainResult(f, None)
    else match Step(f, ops[0])
      case Failure(e) => ChainResult(f, Some(e))
      case Success(g) => Chain(g, ops[1..])
  }

  /** A setter call that does not throw. */
  predicate Accepted(s: Setter)
  {
    s.field == TypeField ==> ValidType(s.value)
  }

  /** A property that no call in the chain sets keeps its value, whether or not
      the chain is cut short. */
  lemma {:induction false} UnsetFieldKept(f: AccountFields, ops: seq<Setter>, field: Field)
    requires forall j :: 0 <= j < |ops| ==> ops[j].field != field
    ensures Get(Chain(f, ops).fields, field) == Get(f, field)
    decreases |ops|
  {
    if ops != [] && Step(f, ops[0]).Success? {
      UnsetFieldKept(Step(f, ops[0]).value, ops[1..], field);
    }
  }

  /** In a chain that throws nothing, the last call to a setter decides its
      property: last write wins. */
  lemma {:induction false} LastWriteWins(f: AccountFields, ops: seq<Setter>, field: Field, i: nat)
    requires forall j :: 0 <= j < |ops| ==> Accepted(ops[j])
    requires i < |ops| && ops[i].field == field
    requires forall j :: i < j < |ops| ==> ops[j].field != field
    ensures Chain(f, ops).error == None
    ensures Get(Chain(f, ops).fields, field) == Some(ops[i].value)
    decreases i
  {
    var g := Step(f, ops[0]).value;
    if i == 0 {
      assert Get(g, field) == Some(ops[0].value);
      UnsetFieldKept(g, ops[1..], field);
      AcceptedChainCompletes(g, ops[1..]);
    } else {
      LastWriteWins(g, ops[1..], field, i - 1);
    }
  }

  /** A chain of accepted calls runs to the end. */
  lemma {:induction false} AcceptedChainCompletes(f: AccountFields, ops: seq<Setter>)
    requires forall j :: 0 <= j < |ops| ==> Accepted(ops[j])
    ensures Chain(f, ops).error == None
    decreases |ops|
  {
    if ops != [] {
      AcceptedChainCompletes(Step(f, ops[0]).value, ops[1..]);
    }
  }

  /** `setType` with an invalid type stops the chain at once with "Invalid
      account type": the builder keeps what the earlier calls stored, the stored
      type included, and no later call runs. */
  lemma {:induction false} InvalidTypeFailsFast(f: AccountFields, ops: seq<Setter>, i: nat)
    requires i < |ops| && !Accepted(ops[i])
    requires forall j :: 0 <= j < i ==> Accepted(ops[j])
    ensures Chain(f, ops[..i]).error == None
    ensures Chain(f, ops) == ChainResult(Chain(f, ops[..i]).fields, Some(InvalidArgumentError(InvalidType)))
    decreases i
  {
    if i == 0 {
      assert ops[..0] == [];
    } else {
      var g := Step(f, ops[0]).value;
      assert ops[..i][0] == ops[0];
      assert ops[..i][1..] == ops[1..][..i - 1];
      InvalidTypeFailsFast(g, ops[1..], i - 1);
    }
  }

  /** The builder object. Its properties are private and only the setters
      assign them. */
  class SettlementAccountBuilder {
    var nickname: Option<string>
    var accountNumber: Option<string>
    var ifscCode: Option<string>
    var accountHolderName: Option<string>
    var virtualAddress: Option<string>
    var accountType: Option<string>

    function Fields(): AccountFields
      reads this
    {
      AccountFields(nickname, accountNumber, ifscCode, accountHolderName, virtualAddress, accountType)
    }

    /** Only a type `setType` accepts is ever stored. */
    ghost predicate Valid()
      reads this
    {
      TypeStoredBySetter(Fields())
    }

    constructor ()
      ensures Valid() && Fields() == Unset
    {
      nickname, accountNumber, ifscCode := None, None, None;
      accountHolderName, virtualAddress, accountType := None, None, None;
    }

    method SetNickname(nickname: string) returns (self: SettlementAccountBuilder)
      requires Valid()
      modifies this
      ensures Valid() && self == this
      ensures Step(old(Fields()), Set(NicknameField, nickname)) == Success(Fields())
    {
      this.nickname := Some(nickname);
      self := this;
    }

    method SetAccountNumber(accountNumber: string) returns (self: SettlementAccountBuilder)
      requires Valid()
      modifies this
      ensures Valid() && self == this
      ensures Step(old(Fields()), Set(AccountNumberField, accountNumber)) == Success(Fields())
    {
      this.accountNumber := Some(accountNumber);
      self := this;
    }

    method SetIfscCode(ifscCode: string) returns (self: SettlementAccountBuilder)
      requires Valid()
      modifies this
      ensures Valid() && self == this
      ensures Step(old(Fields()), Set(IfscCodeField, ifscCode)) == Success(Fields())
    {
      this.ifscCode := Some(ifscCode);
      self := this;
    }

    method SetAccountHolderName(accountHolderName: string) returns (self: SettlementAccountBuilder)
      requires Valid()
      modifies this
      ensures Valid() && self == this
      ensures Step(old(Fields()), Set(AccountHolderNameField, accountHolderName)) == Success(Fields())
    {
      this.accountHolderName := Some(accountHolderName);
      self := this;
    }

    method SetVirtualAddress(virtualAddress: string) returns (self: SettlementAccountBuilder)
      requires Valid()
      modifies this
      ensures Valid() && self == this
      ensures Step(old(Fields()), Set(VirtualAddressField, virtualAddress)) == Success(Fields())
    {
      this.virtualAddress := Some(virtualAddress);
      self := this;
    }

    /** Throws "Invalid account type" for anything but 'vpa' or 'bank_account',
        leaving every property as it was. */
    method SetType(t: string) returns (r: Result<SettlementAccountBuilder, Err>)
      requires Valid()
      modifies this
      ensures Valid()
      ensures r == if ValidType(t) then Success(this) else Failure(InvalidArgumentError(InvalidType))
      ensures Step(old(Fields()), Set(TypeField, t)) == if r.Success? then Success(Fields()) else Failure(r.error)
      ensures r.Failure? ==> Fields() == old(Fields())
    {
      if !(t == TypeVpa || t == TypeBankAccount) {
        return Failure(InvalidArgumentError(InvalidType));
      }
      accountType := Some(t);
      r := Success(this);
    }

    /** Validates and returns the payload; reads the properties and changes
        nothing, so an unchanged builder builds the same result every time. */
    method Build() returns (r: Result<Payload, Err>)
      ensures r == BuildAccount(Fields())
    {
      if !Truthy(nickname) || !Truthy(accountType) {
        return Failure(InvalidArgumentError(RequiredMissing));
      }
      if accountType == Some(TypeBankAccount) {
        if !Truthy(accountHolderName) || !Truthy(accountNumber) || !Truthy(ifscCode) {
          return Failure(InvalidArgumentError(BankDetailsMissing));
        }
      }
      if accountType == Some(TypeVpa) && !Truthy(virtualAddress) {
        return Failure(InvalidArgumentError(VirtualAddressMissing));
      }
      r := Success(AccountPayload(Fields()));
    }
  }
}
