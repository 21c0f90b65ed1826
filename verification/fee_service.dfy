/**
 * The fee service: each fee's guard and the one ledger entry it writes,
 * the dedupe of late fees per cycle and of annual fees over eleven
 * months, waivers, and the per-period fee summary.
 */
module FeeService {
  import opened Wrappers
  import opened Money
  import opened Calendar
  import opened StatementLedger
  import StatementLedgerService
  import BC = BillingCycles
  import opened CreditCards
  import opened Store

  datatype FeeKind = LatePaymentKind | FailedPaymentKind | InternationalKind | OverLimitKind | AnnualKind | CashAdvanceKind

  /** What an assessment reports: the kind, the amount, the ledger entry written and when. */
  datatype FeeAssessment = FeeAssessment(feeType: FeeKind, feeAmount: real, entryId: nat, assessedAt: Time)

  /** A pending fee row before it gets its id; entry and posting date are the same. */
  function FeeEntry(tenant: nat, statementId: Option<nat>, t: EntryType, date: Time, amount: real,
                    referenceId: Option<string>, now: Time): (e: StatementEntry)
    ensures e.entryType == t && e.amount == amount && e.status == Pending && e.postingDate == date
  {
    StatementEntry(0, tenant, statementId, t, date, date, amount, "", referenceId, Pending, None, now, None)
  }

  // ---------------------------------------------------------------------------
  // Late payment fee

  /** A fee of this type is already on the cycle for this tenant and not reversed. */
  predicate HasExistingFee(entries: seq<StatementEntry>, tenant: nat, cycleId: nat, t: EntryType)
  {
    exists i :: 0 <= i < |entries| && entries[i].tenantId == tenant && entries[i].statementId == Some(cycleId)
      && entries[i].entryType == t && entries[i].status != Reversed
  }

  /** The late fee applies when the cycle is overdue with the minimum unmet and has no live late fee yet. */
  predicate LateFeeApplies(entries: seq<StatementEntry>, card: CreditCard, cycle: BC.BillingCycle, currentDate: Time)
  {
    BC.IsOverdue(cycle, currentDate) && !cycle.minimumPaymentMet && !HasExistingFee(entries, card.tenantId, cycle.id, FeeLate)
  }

  function LateFeeEntry(card: CreditCard, cycle: BC.BillingCycle, currentDate: Time, now: Time): StatementEntry
  {
    FeeEntry(card.tenantId, Some(cycle.id), FeeLate, currentDate, card.latePaymentFee, None, now)
  }

  /** The ledger after a late-fee assessment that would use `id` for its entry. */
  function LateFeeLedger(entries: seq<StatementEntry>, card: CreditCard, cycle: BC.BillingCycle, currentDate: Time,
                         now: Time, id: nat): (r: seq<StatementEntry>)
    ensures !LateFeeApplies(entries, card, cycle, currentDate) ==> r == entries
    ensures LateFeeApplies(entries, card, cycle, currentDate) ==>
      |r| == |entries| + 1 && r[..|entries|] == entries && r[|entries|].entryType == FeeLate
      && r[|entries|].amount == card.latePaymentFee && r[|entries|].statementId == Some(cycle.id)
  {
    if LateFeeApplies(entries, card, cycle, currentDate)
    then entries + [LateFeeEntry(card, cycle, currentDate, now).(id := id)]
    else entries
  }

  /**
   * Assesses the late-payment fee: nothing unless the cycle is overdue,
   * its minimum unmet and no live late fee is already on it; otherwise one
   * pending late fee of the card's amount, tagged with the cycle.
   */
  method AssessLatePaymentFee(db: Database, card: CreditCard, cycle: BC.BillingCycle, currentDate: Time, now: Time)
    returns (r: Option<FeeAssessment>)
    modifies db`statement, db`lastId
    ensures r.Some? <==> LateFeeApplies(old(db.statement), card, cycle, currentDate)
    ensures r.None? ==> db.lastId == old(db.lastId)
    ensures r.Some? ==> db.lastId == old(db.lastId) + 1 && r.value == FeeAssessment(LatePaymentKind, card.latePaymentFee, db.lastId, now)
    ensures db.statement == LateFeeLedger(old(db.statement), card, cycle, currentDate, now, db.lastId)
  {
    if !BC.IsOverdue(cycle, currentDate) {
      return None;
    }
    if cycle.minimumPaymentMet {
      return None;
    }
    if HasExistingFee(db.statement, card.tenantId, cycle.id, FeeLate) {
      return None;
    }
    var stored := StatementLedgerService.CreateEntry(db, LateFeeEntry(card, cycle, currentDate, now));
    return Some(FeeAssessment(LatePaymentKind, card.latePaymentFee, stored.id, now));
  }

  /** After a late fee has been written, a second assessment of the same cycle, at any date, writes nothing. */
  lemma LateFeeOnce(entries: seq<StatementEntry>, card: CreditCard, cycle: BC.BillingCycle, t1: Time, t2: Time,
                    n1: Time, n2: Time, id1: nat, id2: nat)
    ensures var once := LateFeeLedger(entries, card, cycle, t1, n1, id1);
      once != entries ==> LateFeeLedger(once, card, cycle, t2, n2, id2) == once
    ensures var once := LateFeeLedger(entries, card, cycle, t1, n1, id1);
      LateFeeLedger(once, card, cycle, t1, n2, id2) == once
  {
    var once := LateFeeLedger(entries, card, cycle, t1, n1, id1);
    if LateFeeApplies(entries, card, cycle, t1) {
      var i := |entries|;
      assert once[i].tenantId == card.tenantId && once[i].statementId == Some(cycle.id)
          && once[i].entryType == FeeLate && once[i].status != Reversed;
      assert HasExistingFee(once, card.tenantId, cycle.id, FeeLate);
    }
  }

  // ---------------------------------------------------------------------------
  // The fees without a dedupe

  /** Always writes one pending failed-payment fee of the card's amount, posted at the payment date. */
  method AssessFailedPaymentFee(db: Database, card: CreditCard, paymentDate: Time, referenceId: string, now: Time)
    returns (r: FeeAssessment)
    modifies db`statement, db`lastId
    ensures r == FeeAssessment(FailedPaymentKind, card.failedPaymentFee, db.lastId, now)
    ensures db.lastId == old(db.lastId) + 1
    ensures db.statement == old(db.statement)
      + [FeeEntry(card.tenantId, None, FeeFailed, paymentDate, card.failedPaymentFee, Some(referenceId), now).(id := db.lastId)]
  {
    var stored := StatementLedgerService.CreateEntry(db, FeeEntry(card.tenantId, None, FeeFailed, paymentDate, card.failedPaymentFee, Some(referenceId), now));
    return FeeAssessment(FailedPaymentKind, card.failedPaymentFee, stored.id, now);
  }

  /** Writes the foreign-transaction fee (the card's percentage of the amount, unrounded) only when it is positive. */
  method AssessInternationalFee(db: Database, card: CreditCard, amount: real, transactionDate: Time, referenceId: string, now: Time)
    returns (r: Option<FeeAssessment>)
    modifies db`statement, db`lastId
    ensures r.Some? <==> InternationalFee(card, amount) > 0.0
    ensures r.None? ==> db.statement == old(db.statement) && db.lastId == old(db.lastId)
    ensures r.Some? ==>
      && r.value == FeeAssessment(InternationalKind, InternationalFee(card, amount), db.lastId, now)
      && db.lastId == old(db.lastId) + 1
      && db.statement == old(db.statement)
           + [FeeEntry(card.tenantId, None, FeeInternational, transactionDate, InternationalFee(card, amount), Some(referenceId), now).(id := db.lastId)]
  {
    var fee := InternationalFee(card, amount);
    if fee <= 0.0 {
      return None;
    }
    var stored := StatementLedgerService.CreateEntry(db, FeeEntry(card.tenantId, None, FeeInternational, transactionDate, fee, Some(referenceId), now));
    return Some(FeeAssessment(InternationalKind, fee, stored.id, now));
  }

  /** Writes the over-limit fee only when the balance is strictly above the limit and the card charges one. */
  method AssessOverLimitFee(db: Database, card: CreditCard, currentBalance: real, transactionDate: Time, now: Time)
    returns (r: Option<FeeAssessment>)
    modifies db`statement, db`lastId
    ensures r.Some? <==> currentBalance > card.creditLimit && card.overLimitFee > 0.0
    ensures r.None? ==> db.statement == old(db.statement) && db.lastId == old(db.lastId)
    ensures r.Some? ==>
      && r.value == FeeAssessment(OverLimitKind, card.overLimitFee, db.lastId, now)
      && db.lastId == old(db.lastId) + 1
      && db.statement == old(db.statement)
           + [FeeEntry(card.tenantId, None, FeeOverLimit, transactionDate, card.overLimitFee, None, now).(id := db.lastId)]
  {
    if currentBalance <= card.creditLimit {
      return None;
    }
    if card.overLimitFee <= 0.0 {
      return None;
    }
    var stored := StatementLedgerService.CreateEntry(db, FeeEntry(card.tenantId, None, FeeOverLimit, transactionDate, card.overLimitFee, None, now));
    return Some(FeeAssessment(OverLimitKind, card.overLimitFee, stored.id, now));
  }

  /** Always writes the cash-advance fee: the larger of the flat fee and the card's percentage of the advance. */
  method AssessCashAdvanceFee(db: Database, card: CreditCard, amount: real, transactionDate: Time, referenceId: string, now: Time)
    returns (r: FeeAssessment)
    modifies db`statement, db`lastId
    ensures r == FeeAssessment(CashAdvanceKind, CashAdvanceFee(card, amount), db.lastId, now)
    ensures r.feeAmount >= card.cashAdvanceFee && r.feeAmount >= PercentOf(amount, card.cashAdvanceFeeRate)
    ensures db.lastId == old(db.lastId) + 1
    ensures db.statement == old(db.statement)
      + [FeeEntry(card.tenantId, None, FeeCashAdvance, transactionDate, CashAdvanceFee(card, amount), Some(referenceId), now).(id := db.lastId)]
  {
    var fee := CashAdvanceFee(card, amount);
    var stored := StatementLedgerService.CreateEntry(db, FeeEntry(card.tenantId, None, FeeCashAdvance, transactionDate, fee, Some(referenceId), now));
    return FeeAssessment(CashAdvanceKind, fee, stored.id, now);
  }

  // ---------------------------------------------------------------------------
  // Annual fee

  /** The annual-fee lookback: a live annual fee of the tenant posted no earlier than eleven months before `now`. */
  predicate HasRecentAnnualFee(entries: seq<StatementEntry>, tenant: nat, now: Time)
  {
    exists i :: 0 <= i < |entries| && entries[i].tenantId == tenant && entries[i].entryType == FeeAnnual
      && entries[i].status != Reversed && entries[i].postingDate >= MonthsBefore(now, 11)
  }

  /** The annual fee applies when the card charges one and none was posted in the lookback. */
  predicate AnnualFeeApplies(entries: seq<StatementEntry>, card: CreditCard, now: Time)
  {
    card.annualFee > 0.0 && !HasRecentAnnualFee(entries, card.tenantId, now)
  }

  /** Writes the annual fee at the anniversary date unless the card has none or one falls in the lookback. */
  method AssessAnnualFee(db: Database, card: CreditCard, anniversaryDate: Time, billingCycleId: Option<nat>, now: Time)
    returns (r: Option<FeeAssessment>)
    modifies db`statement, db`lastId
    ensures r.Some? <==> AnnualFeeApplies(old(db.statement), card, now)
    ensures r.None? ==> db.statement == old(db.statement) && db.lastId == old(db.lastId)
    ensures r.Some? ==>
      && r.value == FeeAssessment(AnnualKind, card.annualFee, db.lastId, now)
      && db.lastId == old(db.lastId) + 1
      && db.statement == old(db.statement)
           + [FeeEntry(card.tenantId, billingCycleId, FeeAnnual, anniversaryDate, card.annualFee, None, now).(id := db.lastId)]
  {
    if card.annualFee <= 0.0 {
      return None;
    }
    if HasRecentAnnualFee(db.statement, card.tenantId, now) {
      return None;
    }
    var stored := StatementLedgerService.CreateEntry(db, FeeEntry(card.tenantId, billingCycleId, FeeAnnual, anniversaryDate, card.annualFee, None, now));
    return Some(FeeAssessment(AnnualKind, card.annualFee, stored.id, now));
  }

  /**
   * An annual fee posted at or after the lookback cutoff blocks every
   * assessment made up to that `now`: the fee written at an anniversary
   * no earlier than the cutoff is itself recent.
   */
  lemma AnnualFeeBlocksRepeat(entries: seq<StatementEntry>, card: CreditCard, anniversaryDate: Time,
                              billingCycleId: Option<nat>, now: Time, id: nat)
    requires anniversaryDate >= MonthsBefore(now, 11)
    ensures !AnnualFeeApplies(entries + [FeeEntry(card.tenantId, billingCycleId, FeeAnnual, anniversaryDate, card.annualFee, None, now).(id := id)], card, now)
  {
    var e := FeeEntry(card.tenantId, billingCycleId, FeeAnnual, anniversaryDate, card.annualFee, None, now).(id := id);
    assert (entries + [e])[|entries|] == e;
  }

  // ---------------------------------------------------------------------------
  // Waivers

  datatype FeeError = FeeEntryNotFound(id: nat) | WaiverExceedsFee(waiveAmount: real, feeAmount: real)

  /** The stored entry with the id, if any. */
  function FindEntry(entries: seq<StatementEntry>, id: nat): (r: Option<StatementEntry>)
    ensures r.None? <==> forall i :: 0 <= i < |entries| ==> entries[i].id != id
    ensures r.Some? ==> r.value.id == id && r.value in entries
  {
    if |entries| == 0 then None
    else if entries[0].id == id then Some(entries[0])
    else
      var r := FindEntry(entries[1..], id);
      assert forall i :: 1 <= i < |entries| ==> entries[i] == entries[1..][i - 1];
      r
  }

  /** The credit a waiver writes: the waived amount for the fee's tenant and statement, approved by the caller. */
  function WaiverEntry(fee: StatementEntry, waiveAmount: real, approvedBy: string, now: Time): (e: StatementEntry)
    ensures e.entryType == Credit && e.amount == waiveAmount && e.statementId == fee.statementId && e.tenantId == fee.tenantId
  {
    StatementEntry(0, fee.tenantId, fee.statementId, Credit, now, now, waiveAmount, "", None, Pending, None, now, Some(approvedBy))
  }

  /**
   * Waives all or part of a stored entry: an unknown id or a waiver above
   * the entry's amount fails and writes nothing; otherwise one pending
   * credit of the waived amount is appended.
   */
  method WaiveFee(db: Database, entryId: nat, waiveAmount: real, approvedBy: string, now: Time)
    returns (r: Result<StatementEntry, FeeError>)
    modifies db`statement, db`lastId
    ensures FindEntry(old(db.statement), entryId).None? ==> r == Err(FeeEntryNotFound(entryId))
    ensures r.Ok? <==> FindEntry(old(db.statement), entryId).Some? && waiveAmount <= FindEntry(old(db.statement), entryId).value.amount
    ensures r.Err? ==> db.statement == old(db.statement) && db.lastId == old(db.lastId)
    ensures r.Ok? ==>
      && r.value == WaiverEntry(FindEntry(old(db.statement), entryId).value, waiveAmount, approvedBy, now).(id := db.lastId)
      && db.statement == old(db.statement) + [r.value]
  {
    var original := FindEntry(db.statement, entryId);
    if original.None? {
      return Err(FeeEntryNotFound(entryId));
    }
    if waiveAmount > original.value.amount {
      return Err(WaiverExceedsFee(waiveAmount, original.value.amount));
    }
    var stored := StatementLedgerService.CreateEntry(db, WaiverEntry(original.value, waiveAmount, approvedBy, now));
    return Ok(stored);
  }

  /**
   * Once both are cleared, a waiver of a late, failed-payment or
   * international fee never takes the pair below zero in the period
   * balance; a waiver of an interest, annual, over-limit or cash-advance
   * fee is a pure credit there, because the balance ignores those fees.
   */
  lemma WaiverInPeriodBalance(fee: StatementEntry, waiveAmount: real, approvedBy: string, now: Time)
    requires waiveAmount <= fee.amount
    ensures fee.entryType in {FeeLate, FeeFailed, FeeInternational} ==>
      StatementLedgerService.PeriodAmount(fee) + StatementLedgerService.PeriodAmount(WaiverEntry(fee, waiveAmount, approvedBy, now)) >= 0.0
    ensures fee.entryType in {FeeInterest, FeeAnnual, FeeOverLimit, FeeCashAdvance} ==>
      StatementLedgerService.PeriodAmount(fee) + StatementLedgerService.PeriodAmount(WaiverEntry(fee, waiveAmount, approvedBy, now)) == -waiveAmount
  {
  }

  // ---------------------------------------------------------------------------
  // Fee summary

  /** Entry types the summary's `LIKE 'fee_%'` accepts: the fee types, and any other type named "fee", one character, then anything. */
  predicate MatchesFeePattern(t: EntryType)
  {
    IsFeeType(t) || (t.UnknownType? && |t.name| >= 4 && t.name[..3] == "fee")
  }

  /** The rows the summary reads: the tenant's non-reversed fee rows posted within the period. */
  predicate InSummary(e: StatementEntry, tenant: nat, start: Time, end: Time)
  {
    e.tenantId == tenant && start <= e.postingDate <= end && MatchesFeePattern(e.entryType) && e.status != Reversed
  }

  datatype FeeSummary = FeeSummary(
    latePaymentFees: real,
    failedPaymentFees: real,
    internationalFees: real,
    overLimitFees: real,
    annualFees: real,
    cashAdvanceFees: real,
    interestCharges: real,
    grandTotal: real,
    feeCount: nat)

  const NoFees := FeeSummary(0.0, 0.0, 0.0, 0.0, 0.0, 0.0, 0.0, 0.0, 0)

  /** One summary row added to the per-type subtotals and the count. */
  function Tally(s: FeeSummary, e: StatementEntry): FeeSummary
  {
    var s := s.(feeCount := s.feeCount + 1);
    match e.entryType
    case FeeLate => s.(latePaymentFees := s.latePaymentFees + e.amount)
    case FeeFailed => s.(failedPaymentFees := s.failedPaymentFees + e.amount)
    case FeeInternational => s.(internationalFees := s.internationalFees + e.amount)
    case FeeOverLimit => s.(overLimitFees := s.overLimitFees + e.amount)
    case FeeAnnual => s.(annualFees := s.annualFees + e.amount)
    case FeeCashAdvance => s.(cashAdvanceFees := s.cashAdvanceFees + e.amount)
    case FeeInterest => s.(interestCharges := s.interestCharges + e.amount)
    case _ => s
  }

  /** The summary query's subtotals and count over the ledger. */
  function Subtotals(entries: seq<StatementEntry>, tenant: nat, start: Time, end: Time): FeeSummary
  {
    if |entries| == 0 then NoFees
    else
      var e := entries[|entries| - 1];
      var s := Subtotals(entries[..|entries| - 1], tenant, start, end);
      if InSummary(e, tenant, start, end) then Tally(s, e) else s
  }

  function SevenSubtotals(s: FeeSummary): real
  {
    s.latePaymentFees + s.failedPaymentFees + s.internationalFees + s.overLimitFees
      + s.annualFees + s.cashAdvanceFees + s.interestCharges
  }

  /** The fee summary of a period, its grand total being the sum of the seven subtotals. */
  function GetFeeSummary(entries: seq<StatementEntry>, tenant: nat, start: Time, end: Time): (s: FeeSummary)
    ensures s.grandTotal == SevenSubtotals(s)
  {
    var s := Subtotals(entries, tenant, start, end);
    s.(grandTotal := SevenSubtotals(s))
  }

  /** The plain sum of the amounts of the summary's rows that are of a known fee type. */
  function KnownFeeTotal(entries: seq<StatementEntry>, tenant: nat, start: Time, end: Time): real
  {
    if |entries| == 0 then 0.0
    else
      var e := entries[|entries| - 1];
      KnownFeeTotal(entries[..|entries| - 1], tenant, start, end)
        + (if InSummary(e, tenant, start, end) && IsFeeType(e.entryType) then e.amount else 0.0)
  }

  /** The number of summary rows. */
  function SummaryRows(entries: seq<StatementEntry>, tenant: nat, start: Time, end: Time): nat
  {
    if |entries| == 0 then 0
    else
      SummaryRows(entries[..|entries| - 1], tenant, start, end)
        + (if InSummary(entries[|entries| - 1], tenant, start, end) then 1 else 0)
  }

  /**
   * The grand total is the sum of the amounts of every fee row of the
   * period (so a fee waiver, a credit, is not netted out), and the count
   * is the number of rows the pattern accepts.
   */
  lemma {:induction false} GrandTotalIsFeeSum(entries: seq<StatementEntry>, tenant: nat, start: Time, end: Time)
    ensures GetFeeSummary(entries, tenant, start, end).grandTotal == KnownFeeTotal(entries, tenant, start, end)
    ensures GetFeeSummary(entries, tenant, start, end).feeCount == SummaryRows(entries, tenant, start, end)
  {
    if |entries| > 0 {
      GrandTotalIsFeeSum(entries[..|entries| - 1], tenant, start, end);
    }
  }
}
