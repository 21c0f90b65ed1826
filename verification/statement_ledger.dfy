/**
 * The statement ledger's entries: an append-only event log whose amounts
 * make up the card's statement balance.
 */
module StatementLedger {
  import opened Wrappers
  import opened Money
  import opened Calendar

  /** The seventeen entry types, plus any other string stored in the column. */
  datatype EntryType =
    | Transaction
    | Payment
    | Refund
    | Reward
    | ReturnedReward
    | FeeLate
    | FeeFailed
    | FeeInternational
    | FeeInterest
    | FeeOverLimit
    | FeeAnnual
    | FeeCashAdvance
    | CashAdvance
    | CashbackEarned
    | CashbackRedeemed
    | Adjustment
    | Credit
    | UnknownType(name: string)

  /** `Unset` is the empty status of an entry created without one. */
  datatype EntryStatus = Pending | Cleared | Reversed | Unset | UnknownStatus(name: string)

  /**
   * One ledger row. Positive amounts are charges, negative ones credits,
   * though the services mostly store magnitudes and let the type decide.
   */
  datatype StatementEntry = StatementEntry(
    id: nat,
    tenantId: nat,
    statementId: Option<nat>,
    entryType: EntryType,
    entryDate: Time,
    postingDate: Time,
    amount: real,
    description: string,
    referenceId: Option<string>,
    status: EntryStatus,
    clearedAt: Option<Time>,
    createdAt: Time,
    createdBy: Option<string>)

  /** The entry types whose name starts with `fee_`. */
  predicate IsFeeType(t: EntryType)
  {
    t in {FeeLate, FeeFailed, FeeInternational, FeeInterest, FeeOverLimit, FeeAnnual, FeeCashAdvance}
  }

  /** Types that always raise the balance. */
  predicate AlwaysDebit(t: EntryType)
  {
    t == Transaction || t == CashAdvance || IsFeeType(t) || t == ReturnedReward
  }

  /** Types that always lower the balance. */
  predicate AlwaysCredit(t: EntryType)
  {
    t in {Payment, Refund, Reward, Credit, CashbackRedeemed}
  }

  /** Types whose direction follows the sign of the stored amount. */
  predicate SignFollowsAmount(t: EntryType)
  {
    t == Adjustment || t == CashbackEarned
  }

  /** Whether the entry increases the statement balance. */
  predicate IsDebit(e: StatementEntry)
  {
    match e.entryType
    case Transaction | CashAdvance | FeeLate | FeeFailed | FeeInternational
      | FeeInterest | FeeOverLimit | FeeAnnual | FeeCashAdvance | ReturnedReward => true
    case Payment | Refund | Reward | Credit | CashbackRedeemed => false
    case Adjustment | CashbackEarned => e.amount > 0.0
    case UnknownType(_) => false
  }

  /** The amount with the direction fixed by `IsDebit`: the magnitude for a debit, its negation otherwise. */
  function SignedAmount(e: StatementEntry): (r: real)
    ensures Abs(r) == Abs(e.amount)
    ensures IsDebit(e) ==> r >= 0.0
    ensures !IsDebit(e) ==> r <= 0.0
  {
    if IsDebit(e) then Abs(e.amount) else -Abs(e.amount)
  }

  /** The debit rule in terms of type groups: fixed direction, sign-driven, or unknown. */
  lemma IsDebitByType(e: StatementEntry)
    ensures AlwaysDebit(e.entryType) ==> IsDebit(e)
    ensures AlwaysCredit(e.entryType) ==> !IsDebit(e)
    ensures SignFollowsAmount(e.entryType) ==> (IsDebit(e) <==> e.amount > 0.0)
    ensures e.entryType.UnknownType? ==> !IsDebit(e)
  {
  }

  /** Every known type falls in exactly one of the three groups. */
  lemma TypeGroupsPartition(t: EntryType)
    requires !t.UnknownType?
    ensures AlwaysDebit(t) || AlwaysCredit(t) || SignFollowsAmount(t)
    ensures !(AlwaysDebit(t) && AlwaysCredit(t))
    ensures !(AlwaysDebit(t) && SignFollowsAmount(t))
    ensures !(AlwaysCredit(t) && SignFollowsAmount(t))
  {
  }

  /** An adjustment's signed amount is its stored amount, whichever its sign. */
  lemma AdjustmentSignedAmount(e: StatementEntry)
    requires e.entryType == Adjustment
    ensures SignedAmount(e) == e.amount
  {
  }
}
