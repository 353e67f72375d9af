/** SettlementBuilder: fluent setters over four nullable properties and a
    `build()` that checks the two required ones and returns the settlement
    payload. */
module SettlementBuilders {
  import opened Values
  import opened Exceptions

  /** The builder's properties; None is a property never assigned (null). The
      amount is a PHP float; only whether it is zero matters here. */
  datatype SettlementFields = SettlementFields(
    amount: Option<real>,
    remarks: Option<string>,
    settlementAccountId: Option<string>,
    txnId: Option<string>)

  const Unset: SettlementFields := SettlementFields(None, None, None, None)

  const RequiredMissing: string := "Required fields are missing for settlement"

  /** What `build()` returns or throws for the given properties. */
  function BuildSettlement(f: SettlementFields): Result<Payload, Err>
  {
    if !TruthyAmount(f.amount) || !Truthy(f.settlementAccountId) then
      Failure(InvalidArgumentError(RequiredMissing))
    else
      Success(SettlementPayload(f))
  }

  /** The array `build()` returns. */
  function SettlementPayload(f: SettlementFields): Payload
  {
    [ ("amount", AmountOrNull(f.amount)),
      ("remarks", StringOrNull(f.remarks)),
      ("settlement_account_id", StringOrNull(f.settlementAccountId)),
      ("txnId", StringOrNull(f.txnId)) ]
  }

  /** `build()` fails, with "Required fields are missing for settlement", exactly
      when the amount is unset or zero or the account id is unset or falsy;
      remarks and txnId are never required. */
  lemma BuildSettlementFailsIff(f: SettlementFields)
    ensures BuildSettlement(f).Failure? <==>
      (f.amount.None? || f.amount.value == 0.0 || !Truthy(f.settlementAccountId))
    ensures BuildSettlement(f).Failure? ==> BuildSettlement(f).error == InvalidArgumentError(RequiredMissing)
  {
  }

  /** Only the amount's truthiness is checked: a negative amount is accepted. */
  lemma NegativeAmountAccepted(f: SettlementFields)
    requires f.amount.Some? && f.amount.value < 0.0 && Truthy(f.settlementAccountId)
    ensures BuildSettlement(f).Success?
  {
  }

  /** A successful payload is exactly {amount, remarks, settlement_account_id,
      txnId} with the stored values, remarks and txnId null when never set. */
  lemma SettlementPayloadExact(f: SettlementFields)
    requires BuildSettlement(f).Success?
    ensures var p := BuildSettlement(f).value;
      && Keys(p) == ["amount", "remarks", "settlement_account_id", "txnId"]
      && p[0].1 == JNum(f.amount.value)
      && p[1].1 == StringOrNull(f.remarks)
      && p[2].1 == JStr(f.settlementAccountId.value)
      && p[3].1 == StringOrNull(f.txnId)
  {
  }

  /** The builder object. */
  class SettlementBuilder {
    var amount: Option<real>
    var remarks: Option<string>
    var settlementAccountId: Option<string>
    var txnId: Option<string>

    function Fields(): SettlementFields
      reads this
    {
      SettlementFields(amount, remarks, settlementAccountId, txnId)
    }

    constructor ()
      ensures Fields() == Unset
    {
      amount, remarks, settlementAccountId, txnId := None, None, None, None;
    }

    method SetAmount(amount: real) returns (self: SettlementBuilder)
      modifies this
      ensures self == this
      ensures Fields() == old(Fields()).(amount := Some(amount))
    {
      this.amount := Some(amount);
      self := this;
    }

    method SetRemarks(remarks: string) returns (self: SettlementBuilder)
      modifies this
      ensures self == this
      ensures Fields() == old(Fields()).(remarks := Some(remarks))
    {
      this.remarks := Some(remarks);
      self := this;
    }

    method SetTxnId(txnId: string) returns (self: SettlementBuilder)
      modifies this
      ensures self == this
      ensures Fields() == old(Fields()).(txnId := Some(txnId))
    {
      this.txnId := Some(txnId);
      self := this;
    }

    method SetSettlementAccountId(settlementAccountId: string) returns (self: SettlementBuilder)
      modifies this
      ensures self == this
      ensures Fields() == old(Fields()).(settlementAccountId := Some(settlementAccountId))
    {
      this.settlementAccountId := Some(settlementAccountId);
      self := this;
    }

    /** `getTxnId` as written: it reads `$this->data["txnId"]`, a property the
        class never declares, so `??` always falls back to null. */
    method GetTxnId() returns (r: Option<string>)
      ensures r == None
    {
      r := None;
    }

    /** `getTxnId` as evidently intended: the stored txnId. */
    method StoredTxnId() returns (r: Option<string>)
      ensures r == txnId
    {
      r := txnId;
    }

    /** Validates and returns the payload; reads the properties and changes
        nothing. */
    method Build() returns (r: Result<Payload, Err>)
      ensures r == BuildSettlement(Fields())
    {
      if !TruthyAmount(amount) || !Truthy(settlementAccountId) {
        return Failure(InvalidArgumentError(RequiredMissing));
      }
      r := Success(SettlementPayload(Fields()));
    }
  }

  /** The txnId a caller sets is never what `getTxnId` reports: for every `x`,
      after `setTxnId(x)` the builder stores `x` and `getTxnId()` gives null,
      while the intended getter gives `x` back. */
  method TxnIdLostByGetter(x: string) returns (stored: Option<string>, reported: Option<string>, intended: Option<string>)
    ensures stored == Some(x) && reported == None && intended == Some(x)
  {
    var b := new SettlementBuilder();
    var _ := b.SetTxnId(x);
    stored := b.txnId;
    reported := b.GetTxnId();
    intended := b.StoredTxnId();
  }
}
