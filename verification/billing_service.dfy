/**
 * The billing service: aggregating a period's ledger rows into a cycle,
 * applying payments to a cycle, opening new cycles, generating and
 * closing a statement, and the sweep that charges late fees on overdue
 * cycles.
 */
module BillingService {
  import opened Wrappers
  import opened Money
  import opened Calendar
  import opened StatementLedger
  import StatementLedgerService
  import FeeService
  import CashbackService
  import InterestService
  import BC = BillingCycles
  import opened CreditCards
  import opened Store

  // ---------------------------------------------------------------------------
  // Aggregating a period

  /** The rows a cycle aggregates: this tenant's pending or cleared entries posted within the cycle, both ends included. */
  predicate InCycle(e: StatementEntry, tenant: nat, start: Time, end: Time)
  {
    e.tenantId == tenant && start <= e.postingDate <= end && (e.status == Pending || e.status == Cleared)
  }

  /** The eight columns the aggregation fills in. */
  datatype CycleAmounts = CycleAmounts(
    purchases: real,
    cashAdvances: real,
    refunds: real,
    payments: real,
    fees: real,
    adjustments: real,
    cashbackEarned: real,
    cashbackRedeemed: real)

  const NoAmounts := CycleAmounts(0.0, 0.0, 0.0, 0.0, 0.0, 0.0, 0.0, 0.0)

  function Plus(a: CycleAmounts, b: CycleAmounts): CycleAmounts
  {
    CycleAmounts(a.purchases + b.purchases, a.cashAdvances + b.cashAdvances, a.refunds + b.refunds,
                 a.payments + b.payments, a.fees + b.fees, a.adjustments + b.adjustments,
                 a.cashbackEarned + b.cashbackEarned, a.cashbackRedeemed + b.cashbackRedeemed)
  }

  /**
   * One row's share of each column: its amount under its own type's
   * column (every `fee_` type under fees), a credit negated among the
   * adjustments, and nothing for the other types.
   */
  function RowAmounts(e: StatementEntry): CycleAmounts
  {
    var a := e.amount;
    CycleAmounts(
      if e.entryType == Transaction then a else 0.0,
      if e.entryType == CashAdvance then a else 0.0,
      if e.entryType == Refund then a else 0.0,
      if e.entryType == Payment then a else 0.0,
      if FeeService.MatchesFeePattern(e.entryType) then a else 0.0,
      if e.entryType == Adjustment then a else if e.entryType == Credit then -a else 0.0,
      if e.entryType == CashbackEarned then a else 0.0,
      if e.entryType == CashbackRedeemed then a else 0.0)
  }

  /** The aggregation query: the column sums over the rows of the cycle. */
  function CycleAmountsOf(entries: seq<StatementEntry>, tenant: nat, start: Time, end: Time): CycleAmounts
  {
    if |entries| == 0 then NoAmounts
    else
      var e := entries[|entries| - 1];
      Plus(CycleAmountsOf(entries[..|entries| - 1], tenant, start, end), if InCycle(e, tenant, start, end) then RowAmounts(e) else NoAmounts)
  }

  /** A cycle with the period's columns filled in from the ledger. */
  function PopulateCycleAmounts(bc: BC.BillingCycle, entries: seq<StatementEntry>, tenant: nat): (r: BC.BillingCycle)
    ensures r.previousBalance == bc.previousBalance && r.interestAmount == bc.interestAmount
    ensures r.cycleStartDate == bc.cycleStartDate && r.cycleEndDate == bc.cycleEndDate
  {
    var a := CycleAmountsOf(entries, tenant, bc.cycleStartDate, bc.cycleEndDate);
    bc.(purchasesAmount := a.purchases, cashAdvancesAmount := a.cashAdvances, refundsAmount := a.refunds,
        paymentsReceived := a.payments, feesAmount := a.fees, adjustmentsAmount := a.adjustments,
        cashbackEarned := a.cashbackEarned, cashbackRedeemed := a.cashbackRedeemed)
  }

  /** An appended row adds its share when the cycle counts it, and nothing otherwise. */
  lemma CycleAmountsAppend(entries: seq<StatementEntry>, e: StatementEntry, tenant: nat, start: Time, end: Time)
    ensures InCycle(e, tenant, start, end) ==>
      CycleAmountsOf(entries + [e], tenant, start, end) == Plus(CycleAmountsOf(entries, tenant, start, end), RowAmounts(e))
    ensures !InCycle(e, tenant, start, end) ==>
      CycleAmountsOf(entries + [e], tenant, start, end) == CycleAmountsOf(entries, tenant, start, end)
  {
    assert (entries + [e])[..|entries|] == entries;
  }

  /** A credit in the cycle lowers the adjustments by its amount and leaves every other column alone. */
  lemma CreditLowersAdjustments(entries: seq<StatementEntry>, e: StatementEntry, tenant: nat, start: Time, end: Time)
    requires e.entryType == Credit && InCycle(e, tenant, start, end)
    ensures var before := CycleAmountsOf(entries, tenant, start, end);
      CycleAmountsOf(entries + [e], tenant, start, end) == before.(adjustments := before.adjustments - e.amount)
  {
    CycleAmountsAppend(entries, e, tenant, start, end);
  }

  /**
   * A pending row inside the period is part of the cycle's columns, yet
   * not of the cleared-only statement balance of the same period.
   */
  lemma PendingCountsInCycleOnly(entries: seq<StatementEntry>, e: StatementEntry, tenant: nat, start: Time, end: Time, opening: real)
    requires e.status == Pending && e.tenantId == tenant && start <= e.postingDate <= end
    ensures CycleAmountsOf(entries + [e], tenant, start, end) == Plus(CycleAmountsOf(entries, tenant, start, end), RowAmounts(e))
    ensures StatementLedgerService.CalculateStatementBalance(entries + [e], tenant, start, end, opening)
         == StatementLedgerService.CalculateStatementBalance(entries, tenant, start, end, opening)
  {
    CycleAmountsAppend(entries, e, tenant, start, end);
    StatementLedgerService.UnclearedIgnored(entries, e, [], tenant, start, end, opening);
    assert entries + [e] + [] == entries + [e];
    assert entries + [] == entries;
  }

  /**
   * How one row moves the statement balance, by its type alone: purchases,
   * cash advances, adjustments and fees up; refunds, payments, credits and
   * redeemed cashback down; earned cashback and the rest not at all.
   */
  function BalanceEffect(e: StatementEntry): real
  {
    match e.entryType
    case Transaction | CashAdvance | Adjustment => e.amount
    case Refund | Payment | Credit | CashbackRedeemed => -e.amount
    case CashbackEarned => 0.0
    case t => if FeeService.MatchesFeePattern(t) then e.amount else 0.0
  }

  /** The summed balance effect of the rows of the cycle. */
  function CycleEffect(entries: seq<StatementEntry>, tenant: nat, start: Time, end: Time): real
  {
    if |entries| == 0 then 0.0
    else
      var e := entries[|entries| - 1];
      CycleEffect(entries[..|entries| - 1], tenant, start, end) + (if InCycle(e, tenant, start, end) then BalanceEffect(e) else 0.0)
  }

  /** The balance movement the columns record: the debit columns less the credit columns. */
  function Net(a: CycleAmounts): real
  {
    a.purchases + a.cashAdvances - a.refunds - a.payments + a.fees + a.adjustments - a.cashbackRedeemed
  }

  /** Each row's columns net out to its balance effect. */
  lemma RowNetIsEffect(e: StatementEntry)
    ensures Net(RowAmounts(e)) == BalanceEffect(e)
  {
    match e.entryType
    case UnknownType(_) =>
    case _ =>
      assert FeeService.MatchesFeePattern(e.entryType) <==> IsFeeType(e.entryType);
  }

  lemma {:induction false} NetIsCycleEffect(entries: seq<StatementEntry>, tenant: nat, start: Time, end: Time)
    ensures Net(CycleAmountsOf(entries, tenant, start, end)) == CycleEffect(entries, tenant, start, end)
  {
    if |entries| > 0 {
      var init := entries[..|entries| - 1];
      var e := entries[|entries| - 1];
      NetIsCycleEffect(init, tenant, start, end);
      RowNetIsEffect(e);
      var a := CycleAmountsOf(init, tenant, start, end);
      var b := if InCycle(e, tenant, start, end) then RowAmounts(e) else NoAmounts;
      assert Net(Plus(a, b)) == Net(a) + Net(b);
    }
  }

  /**
   * The columns and the statement balance agree: a cycle populated from
   * the ledger has as new balance its carried balance and interest plus
   * each counted row's balance effect.
   */
  lemma PopulatedNewBalance(bc: BC.BillingCycle, entries: seq<StatementEntry>, tenant: nat)
    ensures BC.CalculateNewBalance(PopulateCycleAmounts(bc, entries, tenant))
         == bc.previousBalance + bc.interestAmount + CycleEffect(entries, tenant, bc.cycleStartDate, bc.cycleEndDate)
  {
    NetIsCycleEffect(entries, tenant, bc.cycleStartDate, bc.cycleEndDate);
  }

  // ---------------------------------------------------------------------------
  // Looking up cycles

  predicate HasCycle(cycles: seq<BC.BillingCycle>, id: nat)
  {
    exists j :: 0 <= j < |cycles| && cycles[j].id == id
  }

  /** No two stored cycles share an id. */
  predicate UniqueCycleIds(cycles: seq<BC.BillingCycle>)
  {
    forall i, j :: 0 <= i < j < |cycles| ==> cycles[i].id != cycles[j].id
  }

  /** The first stored cycle with the id. */
  function CycleById(cycles: seq<BC.BillingCycle>, id: nat): (r: BC.BillingCycle)
    requires HasCycle(cycles, id)
    ensures r in cycles && r.id == id
    ensures UniqueCycleIds(cycles) ==> forall j :: 0 <= j < |cycles| && cycles[j].id == id ==> r == cycles[j]
  {
    if cycles[0].id == id then cycles[0]
    else
      assert HasCycle(cycles[1..], id) by {
        var j :| 0 <= j < |cycles| && cycles[j].id == id;
        assert cycles[1..][j - 1] == cycles[j];
      }
      var r := CycleById(cycles[1..], id);
      assert forall j :: 1 <= j < |cycles| ==> cycles[j] == cycles[1..][j - 1];
      r
  }

  /** The cycle read by id, if any. */
  function FindCycle(cycles: seq<BC.BillingCycle>, id: nat): (r: Option<BC.BillingCycle>)
    ensures r.None? <==> !HasCycle(cycles, id)
    ensures r.Some? ==> r.value in cycles && r.value.id == id
  {
    if HasCycle(cycles, id) then Some(CycleById(cycles, id)) else None
  }

  /** The status update: every row with the id gets the status and the update time. */
  function SetCycleStatus(cycles: seq<BC.BillingCycle>, id: nat, status: BC.CycleStatus, now: Time): (r: seq<BC.BillingCycle>)
    ensures |r| == |cycles|
  {
    if |cycles| == 0 then []
    else
      var c := cycles[|cycles| - 1];
      SetCycleStatus(cycles[..|cycles| - 1], id, status, now)
        + [if c.id == id then c.(status := status, updatedAt := now) else c]
  }
  /** The update touches exactly the rows with the id: they take the status and the time, every other row is unchanged. */
  lemma {:induction false} SetCycleStatusAt(cycles: seq<BC.BillingCycle>, id: nat, status: BC.CycleStatus, now: Time, j: nat)
    requires j < |cycles|
    ensures SetCycleStatus(cycles, id, status, now)[j]
         == if cycles[j].id == id then cycles[j].(status := status, updatedAt := now) else cycles[j]
  {
    if j < |cycles| - 1 {
      var init := cycles[..|cycles| - 1];
      assert init[j] == cycles[j];
      SetCycleStatusAt(init, id, status, now, j);
    }
  }


  // ---------------------------------------------------------------------------
  // Payments toward a cycle

  datatype BillingError = CycleNotFound(id: nat)

  /** Paid in full takes precedence over paid; below the minimum the status stays. */
  function PaymentStatus(bc: BC.BillingCycle, newPaymentsMade: real): BC.CycleStatus
  {
    if newPaymentsMade >= bc.newBalance then BC.PaidFull
    else if newPaymentsMade >= bc.minimumPayment then BC.Paid
    else bc.status
  }

  /** A cycle after one more payment. */
  function ApplyPayment(bc: BC.BillingCycle, amount: real, paymentDate: Time, now: Time): (r: BC.BillingCycle)
    ensures r.paymentsMade == bc.paymentsMade + amount
    ensures r.minimumPaymentMet <==> r.paymentsMade >= bc.minimumPayment
    ensures r.paymentsMade >= bc.newBalance ==> r.status == BC.PaidFull
    ensures r.paymentsMade < bc.newBalance && r.minimumPaymentMet ==> r.status == BC.Paid
    ensures r.paymentsMade < bc.newBalance && !r.minimumPaymentMet ==> r.status == bc.status
    ensures r.lastPaymentDate == Some(paymentDate) && r.lastPaymentAmount == amount && r.updatedAt == now
    ensures r.(paymentsMade := bc.paymentsMade, lastPaymentDate := bc.lastPaymentDate, lastPaymentAmount := bc.lastPaymentAmount,
               minimumPaymentMet := bc.minimumPaymentMet, status := bc.status, updatedAt := bc.updatedAt) == bc
  {
    var newPaymentsMade := bc.paymentsMade + amount;
    bc.(paymentsMade := newPaymentsMade, lastPaymentDate := Some(paymentDate), lastPaymentAmount := amount,
        minimumPaymentMet := newPaymentsMade >= bc.minimumPayment, status := PaymentStatus(bc, newPaymentsMade),
        updatedAt := now)
  }

  /**
   * After a payment the cycle's flags agree with its amounts: a cycle
   * whose payments cover its balance is marked paid in full, the minimum
   * counts as met exactly when nothing of it remains, and a cycle whose
   * minimum is met is never overdue.
   */
  lemma PaymentFlagsAgree(bc: BC.BillingCycle, amount: real, paymentDate: Time, now: Time, t: Time)
    ensures var r := ApplyPayment(bc, amount, paymentDate, now);
      && (BC.IsPaidInFull(r) ==> r.status == BC.PaidFull)
      && (r.minimumPaymentMet <==> BC.RemainingMinimum(r) == 0.0)
      && (r.minimumPaymentMet ==> !BC.IsOverdue(r, t))
  {
  }

  /**
   * Two non-negative payments in a row leave the cycle as one payment of
   * their sum would, except that the last payment amount is the second one.
   */
  lemma PaymentsCompose(bc: BC.BillingCycle, a: real, b: real, d1: Time, d2: Time, n1: Time, n2: Time)
    requires a >= 0.0 && b >= 0.0
    ensures ApplyPayment(ApplyPayment(bc, a, d1, n1), b, d2, n2) == ApplyPayment(bc, a + b, d2, n2).(lastPaymentAmount := b)
  {
  }

  /** One row under the payment update: the payment columns take the values computed from the fetched cycle. */
  function WithPayment(row: BC.BillingCycle, applied: BC.BillingCycle): BC.BillingCycle
  {
    row.(paymentsMade := applied.paymentsMade, lastPaymentDate := applied.lastPaymentDate,
         lastPaymentAmount := applied.lastPaymentAmount, minimumPaymentMet := applied.minimumPaymentMet,
         status := applied.status, updatedAt := applied.updatedAt)
  }

  /** The payment update applied to every row with the id. */
  function RecordPaymentRows(cycles: seq<BC.BillingCycle>, id: nat, applied: BC.BillingCycle): (r: seq<BC.BillingCycle>)
    ensures |r| == |cycles|
    ensures forall i :: 0 <= i < |r| ==> r[i] == (if cycles[i].id == id then WithPayment(cycles[i], applied) else cycles[i])
  {
    if |cycles| == 0 then []
    else
      var c := cycles[|cycles| - 1];
      RecordPaymentRows(cycles[..|cycles| - 1], id, applied) + [if c.id == id then WithPayment(c, applied) else c]
  }

  /**
   * Applies a payment to a stored cycle: the cycle is read by id, the new
   * payment total, minimum flag and status are computed from it and written
   * back. An unknown id fails and changes nothing.
   */
  method ProcessPaymentTowardsBillingCycle(db: Database, cycleId: nat, paymentAmount: real, paymentDate: Time, now: Time)
    returns (err: Option<BillingError>)
    modifies db`cycles
    ensures err.Some? <==> !HasCycle(old(db.cycles), cycleId)
    ensures err.Some? ==> err.value == CycleNotFound(cycleId) && db.cycles == old(db.cycles)
    ensures err.None? ==>
      db.cycles == RecordPaymentRows(old(db.cycles), cycleId, ApplyPayment(CycleById(old(db.cycles), cycleId), paymentAmount, paymentDate, now))
  {
    var cycle := FindCycle(db.cycles, cycleId);
    if cycle.None? {
      return Some(CycleNotFound(cycleId));
    }
    var applied := ApplyPayment(cycle.value, paymentAmount, paymentDate, now);
    db.cycles := RecordPaymentRows(db.cycles, cycleId, applied);
    return None;
  }

  /** With unique ids the payment update changes exactly the one cycle, to that cycle after the payment. */
  lemma PaymentTouchesOneRow(cycles: seq<BC.BillingCycle>, k: nat, amount: real, paymentDate: Time, now: Time)
    requires UniqueCycleIds(cycles) && k < |cycles|
    ensures HasCycle(cycles, cycles[k].id)
    ensures RecordPaymentRows(cycles, cycles[k].id, ApplyPayment(CycleById(cycles, cycles[k].id), amount, paymentDate, now))
         == cycles[k := ApplyPayment(cycles[k], amount, paymentDate, now)]
  {
    var id := cycles[k].id;
    assert HasCycle(cycles, id);
    var applied := ApplyPayment(cycles[k], amount, paymentDate, now);
    assert CycleById(cycles, id) == cycles[k];
    var r := RecordPaymentRows(cycles, id, applied);
    var expected := cycles[k := applied];
    forall i | 0 <= i < |cycles|
      ensures r[i] == expected[i]
    {
      if i == k {
        assert WithPayment(cycles[k], applied) == applied;
      } else {
        assert cycles[i].id != id;
      }
    }
  }

  // ---------------------------------------------------------------------------
  // Opening a cycle

  /** The card's cycle with the highest number; among equal numbers, the first stored. */
  function LatestCycle(cycles: seq<BC.BillingCycle>, cardId: nat): (r: Option<BC.BillingCycle>)
    ensures r.None? <==> forall c :: c in cycles ==> c.creditCardId != cardId
    ensures r.Some? ==> r.value in cycles && r.value.creditCardId == cardId
    ensures r.Some? ==> forall c :: c in cycles && c.creditCardId == cardId ==> c.cycleNumber <= r.value.cycleNumber
  {
    if |cycles| == 0 then None
    else
      var init := cycles[..|cycles| - 1];
      var c := cycles[|cycles| - 1];
      var rest := LatestCycle(init, cardId);
      assert cycles == init + [c];
      if c.creditCardId == cardId && (rest.None? || c.cycleNumber > rest.value.cycleNumber) then Some(c) else rest
  }

  /** What a new cycle carries over: the latest cycle's remaining balance, or nothing for a first cycle. */
  function PreviousBalance(prev: Option<BC.BillingCycle>): (r: real)
    ensures prev.Some? ==> r + prev.value.paymentsMade == prev.value.newBalance
    ensures prev.None? ==> r == 0.0
  {
    if prev.Some? then BC.RemainingBalance(prev.value) else 0.0
  }

  /** One more than the latest cycle's number, or 1 for a first cycle. */
  function NextCycleNumber(prev: Option<BC.BillingCycle>): int
  {
    if prev.Some? then prev.value.cycleNumber + 1 else 1
  }

  /** Cycle numbers strictly increase: the next number exceeds every number the card already has. */
  lemma NextCycleNumberIsNew(cycles: seq<BC.BillingCycle>, cardId: nat)
    ensures forall c :: c in cycles && c.creditCardId == cardId ==> c.cycleNumber < NextCycleNumber(LatestCycle(cycles, cardId))
  {
  }

  /** A new cycle starts the day after the previous one ends, or when the card was created. */
  function NewCycleStart(card: CreditCard, prev: Option<BC.BillingCycle>): (t: Time)
    ensures prev.Some? ==> t == prev.value.cycleEndDate + 24
    ensures prev.None? ==> t == card.createdAt
  {
    if prev.Some? then AddDays(prev.value.cycleEndDate, 1) else card.createdAt
  }

  /** A cycle ends the day before the same day one period (three months when quarterly, one otherwise) later. */
  function NewCycleEnd(card: CreditCard, start: Time): Time
  {
    AddDate(start, PeriodMonths(card.billingCycleType), -1)
  }

  /** For a start at midnight on a day up to the 28th, the cycle's last day is the eve of the same day one period on. */
  lemma NewCycleEndIsEveOfNextPeriod(card: CreditCard, sd: Date)
    requires ValidDate(sd) && sd.day <= 28
    ensures var end := NewCycleEnd(card, Midnight(DayNumber(sd)));
      HourOf(end) == 0 && DayOf(end) + 1 == DayNumber(MonthsLater(sd, PeriodMonths(card.billingCycleType)))
  {
    EndOfPeriod(sd, PeriodMonths(card.billingCycleType));
  }

  /**
   * Opens the card's next cycle after its latest one (or its first): it
   * starts the day after the latest ends, runs one period, carries the
   * latest's remaining balance, is due and leaves grace the card's number
   * of days after its end, uses the APR in force at its start, and is
   * stored open under a fresh id.
   */
  method StartNewBillingCycle(db: Database, card: CreditCard, now: Time) returns (cycle: BC.BillingCycle)
    modifies db`cycles, db`lastId
    ensures var prev := LatestCycle(old(db.cycles), card.id);
      var start := NewCycleStart(card, prev);
      var end := NewCycleEnd(card, start);
      cycle == BC.NewBillingCycle(old(db.lastId) + 1, card, NextCycleNumber(prev), start, end,
                                  end + 24 * card.paymentDueDays, end + 24 * card.gracePeriodDays,
                                  PreviousBalance(prev), EffectiveApr(card, start), now)
    ensures forall c :: c in old(db.cycles) && c.creditCardId == card.id ==> c.cycleNumber < cycle.cycleNumber
    ensures db.cycles == old(db.cycles) + [cycle] && db.lastId == old(db.lastId) + 1
  {
    var prev := LatestCycle(db.cycles, card.id);
    NextCycleNumberIsNew(db.cycles, card.id);
    var startDate := NewCycleStart(card, prev);
    var endDate := NewCycleEnd(card, startDate);
    var dueDate := AddDays(endDate, card.paymentDueDays);
    var gracePeriodEnd := AddDays(endDate, card.gracePeriodDays);
    var id := db.FreshId();
    cycle := BC.NewBillingCycle(id, card, NextCycleNumber(prev), startDate, endDate, dueDate, gracePeriodEnd,
                                PreviousBalance(prev), EffectiveApr(card, startDate), now);
    db.cycles := db.cycles + [cycle];
  }

  // ---------------------------------------------------------------------------
  // Generating a statement

  datatype StatementGenerationResult = StatementGenerationResult(
    billingCycle: BC.BillingCycle,
    interestResult: InterestService.InterestResult,
    feeSummary: FeeService.FeeSummary,
    cashbackStatement: CashbackService.CashbackStatement)

  /** A statement covers the time from the card's last statement date, or from its creation for a first statement. */
  function StatementStart(card: CreditCard): Time
  {
    if card.lastStatementDate.Some? then card.lastStatementDate.value else card.createdAt
  }

  /** The interest a statement adds to the balance: the computed charge, or nothing when the grace period waives it. */
  function InterestAdded(interest: InterestService.InterestResult): real
  {
    if interest.waivedDueToGracePeriod then 0.0 else interest.interestCharge
  }

  /**
   * The cycle a statement opens: numbered after the card's latest cycle,
   * running from the statement start to the given end, due and leaving
   * grace the card's number of days after that end, carrying the latest
   * cycle's remaining balance, at the APR in force at the end.
   */
  function StatementDraft(id: nat, card: CreditCard, prev: Option<BC.BillingCycle>, cycleEnd: Time, now: Time): BC.BillingCycle
  {
    BC.NewBillingCycle(id, card, NextCycleNumber(prev), StatementStart(card), cycleEnd,
                       AddDays(cycleEnd, card.paymentDueDays), AddDays(cycleEnd, card.gracePeriodDays),
                       PreviousBalance(prev), EffectiveApr(card, cycleEnd), now)
  }

  /** The statement's figures once the interest is known: the charge unless waived, the new balance, its minimum payment, the average daily balance and the statement date. */
  function FinishCycle(bc: BC.BillingCycle, card: CreditCard, interest: InterestService.InterestResult, now: Time): BC.BillingCycle
  {
    var charged := if interest.waivedDueToGracePeriod then bc else bc.(interestAmount := interest.interestCharge);
    var balance := BC.CalculateNewBalance(charged);
    charged.(newBalance := balance, minimumPayment := MinimumPayment(card, balance),
             averageDailyBalance := interest.averageDailyBalance, statementDate := now)
  }

  /**
   * A statement's balance is what the latest cycle left unpaid, plus the
   * interest unless waived, plus each of the period's ledger rows by its
   * balance effect; its minimum payment is the card's minimum on that
   * balance.
   */
  lemma StatementFigures(id: nat, card: CreditCard, prev: Option<BC.BillingCycle>, cycleEnd: Time, now: Time,
                         entries: seq<StatementEntry>, interest: InterestService.InterestResult)
    ensures var r := FinishCycle(PopulateCycleAmounts(StatementDraft(id, card, prev, cycleEnd, now), entries, card.tenantId), card, interest, now);
      && r.newBalance == PreviousBalance(prev) + InterestAdded(interest) + CycleEffect(entries, card.tenantId, StatementStart(card), cycleEnd)
      && r.minimumPayment == MinimumPayment(card, r.newBalance)
      && r.averageDailyBalance == interest.averageDailyBalance && r.statementDate == now
      && r.id == id && r.creditCardId == card.id && r.tenantId == card.tenantId && r.cycleNumber == NextCycleNumber(prev)
      && r.cycleStartDate == StatementStart(card) && r.cycleEndDate == cycleEnd
      && r.dueDate == AddDays(cycleEnd, card.paymentDueDays) && r.gracePeriodEnd == AddDays(cycleEnd, card.gracePeriodDays)
      && r.previousBalance == PreviousBalance(prev) && r.aprApplied == EffectiveApr(card, cycleEnd)
      && r.status == BC.Open && r.closedAt.None? && r.updatedAt == now
  {
    var draft := StatementDraft(id, card, prev, cycleEnd, now);
    PopulatedNewBalance(draft, entries, card.tenantId);
  }

  /** The interest row a statement writes, under the given id: one row when interest is added, none when it is waived or not positive. */
  function InterestRows(tenant: nat, cycle: BC.BillingCycle, interest: InterestService.InterestResult, now: Time, id: nat): (rows: seq<StatementEntry>)
    ensures |rows| <= 1
    ensures |rows| == 1 <==> !interest.waivedDueToGracePeriod && interest.interestCharge > 0.0
    ensures |rows| == 1 ==> rows[0].entryType == FeeInterest && rows[0].amount == InterestAdded(interest) && rows[0].id == id
  {
    if InterestAdded(interest) > 0.0 then [InterestService.InterestEntry(tenant, cycle, interest.interestCharge, now).(id := id)] else []
  }

  /** The interest row depends on the cycle only through its id and its end date. */
  lemma InterestRowsSameCycle(tenant: nat, c1: BC.BillingCycle, c2: BC.BillingCycle, interest: InterestService.InterestResult, now: Time, id: nat)
    requires c1.id == c2.id && c1.cycleEndDate == c2.cycleEndDate
    ensures InterestRows(tenant, c1, interest, now, id) == InterestRows(tenant, c2, interest, now, id)
  {
    InterestService.InterestEntrySameCycle(tenant, c1, c2, interest.interestCharge, now);
  }

  /** A closed row as stored is the returned closed cycle without its closing time. */
  lemma ClosedRowStored(c: BC.BillingCycle, now: Time)
    requires c.updatedAt == now && c.closedAt.None?
    ensures c.(status := BC.Closed, updatedAt := now) == c.(status := BC.Closed, closedAt := Some(now)).(closedAt := None)
  {
  }

  /**
   * The statement's interest: computed with the default configuration
   * and, unless the grace period waives it, written to the ledger as one
   * interest row when positive.
   */
  method ChargeStatementInterest(db: Database, card: CreditCard, cycle: BC.BillingCycle, dailyBalances: seq<BC.DailyBalanceRecord>, now: Time)
    returns (interest: InterestService.InterestResult)
    modifies db`statement, db`lastId
    ensures interest.billingCycleId == cycle.id && interest.creditCardId == card.id
    ensures interest.waivedDueToGracePeriod == InterestService.QualifiesForGracePeriod(db.cycles, card.id, cycle.cycleNumber)
    ensures interest.averageDailyBalance == BC.AverageDailyBalance(dailyBalances)
    ensures db.statement == old(db.statement) + InterestRows(card.tenantId, cycle, interest, now, db.lastId)
    ensures db.lastId == old(db.lastId) + |InterestRows(card.tenantId, cycle, interest, now, db.lastId)|
  {
    interest := InterestService.CalculateInterest(db, card, cycle, InterestService.DefaultInterestConfig(), dailyBalances, now);
    if !interest.waivedDueToGracePeriod {
      var accrued := InterestService.AccrueInterest(db, card.tenantId, cycle, interest, now);
    }
  }

  /** The card row after a statement: the last statement date becomes the cycle end and the next one is a month later; an unknown card is left alone. */
  function StampStatementDates(cards: map<nat, CreditCard>, id: nat, cycleEnd: Time): (r: map<nat, CreditCard>)
    ensures r.Keys == cards.Keys
    ensures forall k :: k in cards && k != id ==> r[k] == cards[k]
    ensures id in cards ==> r[id].lastStatementDate == Some(cycleEnd) && r[id].nextStatementDate == Some(AddDate(cycleEnd, 1, 0))
    ensures id in cards ==> r[id].(lastStatementDate := cards[id].lastStatementDate, nextStatementDate := cards[id].nextStatementDate) == cards[id]
  {
    if id in cards then cards[id := cards[id].(lastStatementDate := Some(cycleEnd), nextStatementDate := Some(AddDate(cycleEnd, 1, 0)))]
    else cards
  }

  /** The status update changes nothing when no row has the id. */
  lemma {:induction false} SetCycleStatusAbsent(cycles: seq<BC.BillingCycle>, id: nat, status: BC.CycleStatus, now: Time)
    requires forall c :: c in cycles ==> c.id != id
    ensures SetCycleStatus(cycles, id, status, now) == cycles
  {
    if |cycles| > 0 {
      SetCycleStatusAbsent(cycles[..|cycles| - 1], id, status, now);
    }
  }

  /** An appended row is updated on its own, after the rows before it. */
  lemma SetCycleStatusAppend(cycles: seq<BC.BillingCycle>, c: BC.BillingCycle, status: BC.CycleStatus, now: Time)
    ensures SetCycleStatus(cycles + [c], c.id, status, now)
         == SetCycleStatus(cycles, c.id, status, now) + [c.(status := status, updatedAt := now)]
  {
    assert (cycles + [c])[..|cycles|] == cycles;
  }

  /** The interest row a statement writes shows up among the interest charges and in the grand total of the period's fee summary. */
  lemma InterestInFeeSummary(entries: seq<StatementEntry>, e: StatementEntry, tenant: nat, start: Time, end: Time)
    requires e.entryType == FeeInterest && e.tenantId == tenant && start <= e.postingDate <= end && e.status == Pending
    ensures var before := FeeService.GetFeeSummary(entries, tenant, start, end);
      var after := FeeService.GetFeeSummary(entries + [e], tenant, start, end);
      && after.interestCharges == before.interestCharges + e.amount
      && after.grandTotal == before.grandTotal + e.amount
      && after.feeCount == before.feeCount + 1
  {
    assert (entries + [e])[..|entries|] == entries;
  }

  /**
   * The first half of a statement: the next cycle under a fresh id,
   * filled in from the ledger as it stood, with its interest charged and
   * its balance, minimum payment and average daily balance set.
   */
  method BuildStatementCycle(db: Database, card: CreditCard, cycleEnd: Time, dailyBalances: seq<BC.DailyBalanceRecord>, now: Time)
    returns (cycle: BC.BillingCycle, interest: InterestService.InterestResult)
    modifies db`statement, db`lastId
    ensures cycle == FinishCycle(PopulateCycleAmounts(StatementDraft(old(db.lastId) + 1, card, LatestCycle(db.cycles, card.id), cycleEnd, now),
                                                      old(db.statement), card.tenantId), card, interest, now)
    ensures interest.billingCycleId == cycle.id && interest.creditCardId == card.id
    ensures interest.waivedDueToGracePeriod == InterestService.QualifiesForGracePeriod(db.cycles, card.id, cycle.cycleNumber)
    ensures interest.averageDailyBalance == BC.AverageDailyBalance(dailyBalances)
    ensures db.statement == old(db.statement) + InterestRows(card.tenantId, cycle, interest, now, db.lastId)
    ensures db.lastId == cycle.id + |InterestRows(card.tenantId, cycle, interest, now, db.lastId)|
  {
    var prev := LatestCycle(db.cycles, card.id);
    var id := db.FreshId();
    cycle := StatementDraft(id, card, prev, cycleEnd, now);
    cycle := PopulateCycleAmounts(cycle, db.statement, card.tenantId);
    ghost var populated := cycle;
    interest := ChargeStatementInterest(db, card, cycle, dailyBalances, now);
    cycle := FinishCycle(cycle, card, interest, now);
    InterestRowsSameCycle(card.tenantId, populated, cycle, interest, now, db.lastId);
  }

  /**
   * Generates the statement of the period ending at `cycleEnd`: opens the
   * card's next cycle from its last statement date, fills in the period's
   * columns, computes the interest (judging the grace period on the cycles
   * stored before this one) and writes it unless waived, stores the cycle
   * with its balance and minimum payment, summarises the period's fees and
   * cashback, moves the card's statement dates, and closes the cycle.
   */
  method GenerateStatement(db: Database, card: CreditCard, cycleEnd: Time, dailyBalances: seq<BC.DailyBalanceRecord>, now: Time)
    returns (r: StatementGenerationResult)
    modifies db`statement, db`lastId, db`cycles, db`cards
    ensures var prev := LatestCycle(old(db.cycles), card.id);
      var bc := r.billingCycle;
      && bc.id == old(db.lastId) + 1 && bc.creditCardId == card.id && bc.tenantId == card.tenantId
      && bc.cycleNumber == NextCycleNumber(prev)
      && bc.cycleStartDate == StatementStart(card) && bc.cycleEndDate == cycleEnd
      && bc.dueDate == AddDays(cycleEnd, card.paymentDueDays) && bc.gracePeriodEnd == AddDays(cycleEnd, card.gracePeriodDays)
      && bc.previousBalance == PreviousBalance(prev) && bc.aprApplied == EffectiveApr(card, cycleEnd)
      && bc.newBalance == PreviousBalance(prev) + InterestAdded(r.interestResult)
                          + CycleEffect(old(db.statement), card.tenantId, StatementStart(card), cycleEnd)
      && bc.minimumPayment == MinimumPayment(card, bc.newBalance)
      && bc.averageDailyBalance == BC.AverageDailyBalance(dailyBalances)
      && bc.statementDate == now && bc.status == BC.Closed && bc.closedAt == Some(now)
    ensures forall c :: c in old(db.cycles) && c.creditCardId == card.id ==> c.cycleNumber < r.billingCycle.cycleNumber
    ensures r.interestResult.billingCycleId == r.billingCycle.id && r.interestResult.creditCardId == card.id
    ensures r.interestResult.waivedDueToGracePeriod == InterestService.QualifiesForGracePeriod(old(db.cycles), card.id, r.billingCycle.cycleNumber)
    ensures db.statement == old(db.statement) + InterestRows(card.tenantId, r.billingCycle, r.interestResult, now, db.lastId)
    ensures db.lastId == old(db.lastId) + 1 + |InterestRows(card.tenantId, r.billingCycle, r.interestResult, now, db.lastId)|
    ensures r.feeSummary == FeeService.GetFeeSummary(db.statement, card.tenantId, StatementStart(card), cycleEnd)
    ensures r.cashbackStatement == CashbackService.GetCashbackStatement(db.cashback, card.id, StatementStart(card), cycleEnd)
    ensures db.cards == StampStatementDates(old(db.cards), card.id, cycleEnd)
    ensures db.cycles == SetCycleStatus(old(db.cycles), r.billingCycle.id, BC.Closed, now) + [r.billingCycle.(closedAt := None)]
  {
    NextCycleNumberIsNew(db.cycles, card.id);
    var cycle, interest := BuildStatementCycle(db, card, cycleEnd, dailyBalances, now);
    StatementFigures(old(db.lastId) + 1, card, LatestCycle(db.cycles, card.id), cycleEnd, now, old(db.statement), interest);
    ClosedRowStored(cycle, now);
    ghost var cycles0 := db.cycles;
    db.cycles := db.cycles + [cycle];
    var startDate := StatementStart(card);
    var feeSummary := FeeService.GetFeeSummary(db.statement, card.tenantId, startDate, cycleEnd);
    var cashback := CashbackService.GetCashbackStatement(db.cashback, card.id, startDate, cycleEnd);
    db.cards := StampStatementDates(db.cards, card.id, cycleEnd);
    SetCycleStatusAppend(cycles0, cycle, BC.Closed, now);
    db.cycles := SetCycleStatus(db.cycles, cycle.id, BC.Closed, now);
    ghost var open := cycle;
    cycle := cycle.(status := BC.Closed, closedAt := Some(now));
    InterestRowsSameCycle(card.tenantId, open, cycle, interest, now, db.lastId);
    r := StatementGenerationResult(cycle, interest, feeSummary, cashback);
  }

  /** When the new cycle's id is fresh among the stored cycles, generating a statement appends exactly the returned cycle, as stored without its closing time. */
  lemma GeneratedCycleAppended(cycles0: seq<BC.BillingCycle>, cycles: seq<BC.BillingCycle>, bc: BC.BillingCycle, now: Time)
    requires forall c :: c in cycles0 ==> c.id != bc.id
    requires cycles == SetCycleStatus(cycles0, bc.id, BC.Closed, now) + [bc.(closedAt := None)]
    ensures cycles == cycles0 + [bc.(closedAt := None)]
  {
    SetCycleStatusAbsent(cycles0, bc.id, BC.Closed, now);
  }

  // ---------------------------------------------------------------------------
  // The late-fee sweep

  /** A late fee on the cycle that is not reversed, from any tenant. */
  predicate HasLiveLateFee(entries: seq<StatementEntry>, cycleId: nat)
  {
    exists i :: 0 <= i < |entries| && entries[i].statementId == Some(cycleId)
      && entries[i].entryType == FeeLate && entries[i].status != Reversed
  }

  /** The rows the sweep selects: closed cycles of an existing card, due before now, minimum unmet, no live late fee. */
  predicate SweepCandidate(c: BC.BillingCycle, cards: map<nat, CreditCard>, entries: seq<StatementEntry>, now: Time)
  {
    c.creditCardId in cards && c.status == BC.Closed && !c.minimumPaymentMet && c.dueDate < now
    && !HasLiveLateFee(entries, c.id)
  }

  /** The sweep's query, in storage order. */
  function SweepCandidates(cycles: seq<BC.BillingCycle>, cards: map<nat, CreditCard>, entries: seq<StatementEntry>, now: Time)
    : (r: seq<BC.BillingCycle>)
    ensures forall c :: c in r ==> c in cycles && SweepCandidate(c, cards, entries, now)
    ensures forall c :: c in cycles && SweepCandidate(c, cards, entries, now) ==> c in r
    ensures UniqueCycleIds(cycles) ==> UniqueCycleIds(r)
  {
    if |cycles| == 0 then []
    else
      var init := cycles[..|cycles| - 1];
      var c := cycles[|cycles| - 1];
      assert cycles == init + [c];
      var rest := SweepCandidates(init, cards, entries, now);
      if SweepCandidate(c, cards, entries, now) then
        assert UniqueCycleIds(cycles) ==> forall x :: x in rest ==> x.id != c.id by {
          if UniqueCycleIds(cycles) {
            forall x | x in rest
              ensures x.id != c.id
            {
              var j :| 0 <= j < |init| && init[j] == x;
              assert cycles[j] == x;
            }
          }
        }
        rest + [c]
      else rest
  }

  /** The ids of some cycles. */
  function IdsOf(s: seq<BC.BillingCycle>): set<nat>
  {
    set c | c in s :: c.id
  }

  /** The cycles after the sweep marked each of the given rows past due at `now`, one update by id at a time. */
  function MarkedPastDue(cycles: seq<BC.BillingCycle>, s: seq<BC.BillingCycle>, now: Time): (r: seq<BC.BillingCycle>)
    ensures |r| == |cycles|
  {
    if |s| == 0 then cycles
    else SetCycleStatus(MarkedPastDue(cycles, s[..|s| - 1], now), s[|s| - 1].id, BC.PastDue, now)
  }

  /** After the updates, a row is marked past due exactly when one of the given rows has its id, and is otherwise untouched. */
  lemma {:induction false} MarkedPastDueAt(cycles: seq<BC.BillingCycle>, s: seq<BC.BillingCycle>, now: Time, j: nat)
    requires j < |cycles|
    ensures MarkedPastDue(cycles, s, now)[j]
         == if cycles[j].id in IdsOf(s) then cycles[j].(status := BC.PastDue, updatedAt := now) else cycles[j]
  {
    if |s| > 0 {
      var init := s[..|s| - 1];
      MarkedPastDueAt(cycles, init, now, j);
      SetCycleStatusAt(MarkedPastDue(cycles, init, now), s[|s| - 1].id, BC.PastDue, now, j);
      assert s == init + [s[|s| - 1]];
      IdsOfAppend(init, s[|s| - 1]);
    }
  }

  /** How many of the cycles belong to the card. */
  function CountForCard(s: seq<BC.BillingCycle>, cardId: nat): nat
  {
    if |s| == 0 then 0
    else CountForCard(s[..|s| - 1], cardId) + (if s[|s| - 1].creditCardId == cardId then 1 else 0)
  }

  /** The card table after the update that raises one card's late count by one; an unknown id changes nothing. */
  function RaiseLateCount(cards: map<nat, CreditCard>, id: nat): map<nat, CreditCard>
  {
    if id in cards then cards[id := cards[id].(consecutiveLateCount := cards[id].consecutiveLateCount + 1)] else cards
  }

  /** The card table after one late-count increment per cycle, in order. */
  function RaisedLateCounts(cards: map<nat, CreditCard>, s: seq<BC.BillingCycle>): map<nat, CreditCard>
  {
    if |s| == 0 then cards
    else RaiseLateCount(RaisedLateCounts(cards, s[..|s| - 1]), s[|s| - 1].creditCardId)
  }

  /** The increments change nothing but the late counts, and raise each card's by the number of its cycles. */
  lemma {:induction false} RaisedLateCountsSpec(cards: map<nat, CreditCard>, s: seq<BC.BillingCycle>)
    ensures RaisedLateCounts(cards, s).Keys == cards.Keys
    ensures forall id :: id in cards ==>
      RaisedLateCounts(cards, s)[id] == cards[id].(consecutiveLateCount := cards[id].consecutiveLateCount + CountForCard(s, id))
  {
    if |s| > 0 {
      RaisedLateCountsSpec(cards, s[..|s| - 1]);
    }
  }

  /** The late-fee row of the sweep for a cycle, with the id it was given. */
  function SweepEntry(card: CreditCard, c: BC.BillingCycle, now: Time, id: nat): (e: StatementEntry)
    ensures e.statementId == Some(c.id) && e.entryType == FeeLate && e.amount == card.latePaymentFee && e.id == id
  {
    FeeService.LateFeeEntry(card, c, now, now).(id := id)
  }

  lemma IdsOfAppend(s: seq<BC.BillingCycle>, c: BC.BillingCycle)
    ensures IdsOf(s + [c]) == IdsOf(s) + {c.id}
  {
    assert forall x :: x in s + [c] <==> x in s || x == c;
  }

  /**
   * When cycle ids are unique, re-reading a selected row finds it as it
   * was selected: the earlier marks touched only other ids.
   */
  lemma RereadFindsRow(cycles0: seq<BC.BillingCycle>, rows: seq<BC.BillingCycle>, i: nat, cycles: seq<BC.BillingCycle>, now: Time)
    requires UniqueCycleIds(cycles0) && UniqueCycleIds(rows) && i < |rows|
    requires rows[i] in cycles0
    requires cycles == MarkedPastDue(cycles0, rows[..i], now)
    ensures HasCycle(cycles, rows[i].id) && CycleById(cycles, rows[i].id) == rows[i]
  {
    var row := rows[i];
    var j :| 0 <= j < |cycles0| && cycles0[j] == row;
    assert row.id !in IdsOf(rows[..i]) by {
      forall c | c in rows[..i]
        ensures c.id != row.id
      {
        var k :| 0 <= k < i && rows[..i][k] == c;
        assert rows[k] == c;
      }
    }
    MarkedPastDueAt(cycles0, rows[..i], now, j);
    assert cycles[j] == row;
    assert UniqueCycleIds(cycles) by {
      forall a | 0 <= a < |cycles|
        ensures cycles[a].id == cycles0[a].id
      {
        MarkedPastDueAt(cycles0, rows[..i], now, a);
      }
    }
  }

  /**
   * When cycle ids are unique, a selected row has no live late fee when
   * its turn comes: it had none when selected, and the fees written since
   * are on the earlier rows' cycles.
   */
  lemma NoLateFeeYet(entries0: seq<StatementEntry>, rows: seq<BC.BillingCycle>, i: nat, entries: seq<StatementEntry>, tenant: nat)
    requires UniqueCycleIds(rows) && i < |rows|
    requires !HasLiveLateFee(entries0, rows[i].id)
    requires |entries| == |entries0| + i && entries[..|entries0|] == entries0
    requires forall k :: 0 <= k < i ==> entries[|entries0| + k].statementId == Some(rows[k].id)
    ensures !FeeService.HasExistingFee(entries, tenant, rows[i].id, FeeLate)
  {
    forall m | 0 <= m < |entries0|
      ensures entries[m] == entries0[m]
    {
      assert entries[..|entries0|][m] == entries[m];
    }
    forall m | |entries0| <= m < |entries|
      ensures entries[m].statementId != Some(rows[i].id)
    {
      var k := m - |entries0|;
      assert entries[|entries0| + k].statementId == Some(rows[k].id);
      assert rows[k].id != rows[i].id;
    }
  }

  /** The late-fee rows the sweep writes for the charged cycles, with consecutive fresh ids after `lastId`. */
  function SweepEntries(cards: map<nat, CreditCard>, s: seq<BC.BillingCycle>, now: Time, lastId: nat): (r: seq<StatementEntry>)
    requires forall c :: c in s ==> c.creditCardId in cards
    ensures |r| == |s|
  {
    if |s| == 0 then []
    else
      var c := s[|s| - 1];
      SweepEntries(cards, s[..|s| - 1], now, lastId) + [SweepEntry(cards[c.creditCardId], c, now, lastId + |s|)]
  }

  /** What the sweep reports for the charged cycles. */
  function SweepResults(cards: map<nat, CreditCard>, s: seq<BC.BillingCycle>, now: Time, lastId: nat): (r: seq<FeeService.FeeAssessment>)
    requires forall c :: c in s ==> c.creditCardId in cards
    ensures |r| == |s|
  {
    if |s| == 0 then []
    else
      var c := s[|s| - 1];
      SweepResults(cards, s[..|s| - 1], now, lastId)
        + [FeeService.FeeAssessment(FeeService.LatePaymentKind, cards[c.creditCardId].latePaymentFee, lastId + |s|, now)]
  }
  /** The k-th late-fee row of the sweep is the k-th charged cycle's, with the k-th fresh id. */
  lemma {:induction false} SweepEntriesAt(cards: map<nat, CreditCard>, s: seq<BC.BillingCycle>, now: Time, lastId: nat, k: nat)
    requires forall c :: c in s ==> c.creditCardId in cards
    requires k < |s|
    ensures SweepEntries(cards, s, now, lastId)[k] == SweepEntry(cards[s[k].creditCardId], s[k], now, lastId + k + 1)
  {
    if k < |s| - 1 {
      var init := s[..|s| - 1];
      assert init[k] == s[k];
      SweepEntriesAt(cards, init, now, lastId, k);
    }
  }

  /** The k-th report of the sweep charges the k-th charged cycle's card its late fee under the k-th fresh id. */
  lemma {:induction false} SweepResultsAt(cards: map<nat, CreditCard>, s: seq<BC.BillingCycle>, now: Time, lastId: nat, k: nat)
    requires forall c :: c in s ==> c.creditCardId in cards
    requires k < |s|
    ensures SweepResults(cards, s, now, lastId)[k]
         == FeeService.FeeAssessment(FeeService.LatePaymentKind, cards[s[k].creditCardId].latePaymentFee, lastId + k + 1, now)
  {
    if k < |s| - 1 {
      var init := s[..|s| - 1];
      assert init[k] == s[k];
      SweepResultsAt(cards, init, now, lastId, k);
    }
  }


  /** The sweep's row depends on the card only through its tenant and late fee, and on the cycle only through its id. */
  lemma SweepEntrySame(card1: CreditCard, card2: CreditCard, c1: BC.BillingCycle, c2: BC.BillingCycle, now: Time, id: nat)
    requires card1.tenantId == card2.tenantId && card1.latePaymentFee == card2.latePaymentFee && c1.id == c2.id
    ensures SweepEntry(card1, c1, now, id) == SweepEntry(card2, c2, now, id)
  {
  }

  /**
   * One selected row of the sweep: the cycle is read again by id and the
   * card by its id, the late fee is assessed, and when it is charged the
   * cycle is marked past due and the card's late count rises by one.
   */
  method SweepRow(db: Database, row: BC.BillingCycle, now: Time) returns (fee: Option<FeeService.FeeAssessment>)
    requires HasCycle(db.cycles, row.id) && row.creditCardId in db.cards
    modifies db`statement, db`lastId, db`cycles, db`cards
    ensures var card := old(db.cards)[row.creditCardId];
      fee.Some? <==> FeeService.LateFeeApplies(old(db.statement), card, CycleById(old(db.cycles), row.id), now)
    ensures fee.None? ==>
      && db.statement == old(db.statement) && db.lastId == old(db.lastId)
      && db.cycles == old(db.cycles) && db.cards == old(db.cards)
    ensures fee.Some? ==>
      var card := old(db.cards)[row.creditCardId];
      && db.lastId == old(db.lastId) + 1
      && fee.value == FeeService.FeeAssessment(FeeService.LatePaymentKind, card.latePaymentFee, db.lastId, now)
      && db.statement == old(db.statement) + [SweepEntry(card, row, now, db.lastId)]
      && db.cycles == SetCycleStatus(old(db.cycles), row.id, BC.PastDue, now)
      && db.cards == RaiseLateCount(old(db.cards), row.creditCardId)
  {
    var card := db.cards[row.creditCardId];
    var cycle := CycleById(db.cycles, row.id);
    fee := FeeService.AssessLatePaymentFee(db, card, cycle, now, now);
    if fee.Some? {
      SweepEntrySame(card, card, cycle, row, now, db.lastId);
      db.cycles := SetCycleStatus(db.cycles, row.id, BC.PastDue, now);
      db.cards := RaiseLateCount(db.cards, row.creditCardId);
    }
  }

  /** Before each row of the sweep: the row can be read again, and its card exists with its tenant and late fee as selected. */
  lemma SweepStepReady(cycles0: seq<BC.BillingCycle>, cards0: map<nat, CreditCard>, entries0: seq<StatementEntry>, now: Time,
                       i: nat, assessed: seq<BC.BillingCycle>, cycles: seq<BC.BillingCycle>, cards: map<nat, CreditCard>)
    requires i < |SweepCandidates(cycles0, cards0, entries0, now)|
    requires cycles == MarkedPastDue(cycles0, assessed, now)
    requires cards == RaisedLateCounts(cards0, assessed)
    ensures var row := SweepCandidates(cycles0, cards0, entries0, now)[i];
      && HasCycle(cycles, row.id) && row.creditCardId in cards0 && row.creditCardId in cards
      && cards[row.creditCardId].tenantId == cards0[row.creditCardId].tenantId
      && cards[row.creditCardId].latePaymentFee == cards0[row.creditCardId].latePaymentFee
  {
    var rows := SweepCandidates(cycles0, cards0, entries0, now);
    var row := rows[i];
    assert row in rows;
    RaisedLateCountsSpec(cards0, assessed);
    var j :| 0 <= j < |cycles0| && cycles0[j] == row;
    MarkedPastDueAt(cycles0, assessed, now, j);
    assert cycles[j].id == row.id;
  }

  /** With unique cycle ids, the late fee applies to each selected row when its turn comes. */
  lemma SweepStepApplies(cycles0: seq<BC.BillingCycle>, cards0: map<nat, CreditCard>, entries0: seq<StatementEntry>, now: Time,
                         lastId0: nat, i: nat, cycles: seq<BC.BillingCycle>, entries: seq<StatementEntry>, card: CreditCard)
    requires UniqueCycleIds(cycles0)
    requires i < |SweepCandidates(cycles0, cards0, entries0, now)|
    requires var rows := SweepCandidates(cycles0, cards0, entries0, now);
      && (forall c :: c in rows[..i] ==> c.creditCardId in cards0)
      && entries == entries0 + SweepEntries(cards0, rows[..i], now, lastId0)
      && cycles == MarkedPastDue(cycles0, rows[..i], now)
    ensures var row := SweepCandidates(cycles0, cards0, entries0, now)[i];
      && HasCycle(cycles, row.id)
      && FeeService.LateFeeApplies(entries, card, CycleById(cycles, row.id), now)
  {
    var rows := SweepCandidates(cycles0, cards0, entries0, now);
    var row := rows[i];
    assert row in rows;
    RereadFindsRow(cycles0, rows, i, cycles, now);
    var se := SweepEntries(cards0, rows[..i], now, lastId0);
    forall k | 0 <= k < i
      ensures entries[|entries0| + k].statementId == Some(rows[k].id)
    {
      assert entries[|entries0| + k] == se[k];
      SweepEntriesAt(cards0, rows[..i], now, lastId0, k);
      assert rows[..i][k] == rows[k];
    }
    NoLateFeeYet(entries0, rows, i, entries, card.tenantId);
  }

  /** Charging one more row appends its late-fee row and its report to the sweep's. */
  lemma SweepEntriesStep(entries0: seq<StatementEntry>, cards0: map<nat, CreditCard>, now: Time, lastId0: nat,
                         assessed: seq<BC.BillingCycle>, row: BC.BillingCycle, card: CreditCard, id: nat)
    requires forall c :: c in assessed ==> c.creditCardId in cards0
    requires row.creditCardId in cards0
    requires card.tenantId == cards0[row.creditCardId].tenantId && card.latePaymentFee == cards0[row.creditCardId].latePaymentFee
    requires id == lastId0 + |assessed| + 1
    ensures entries0 + SweepEntries(cards0, assessed + [row], now, lastId0)
         == entries0 + SweepEntries(cards0, assessed, now, lastId0) + [SweepEntry(card, row, now, id)]
    ensures SweepResults(cards0, assessed + [row], now, lastId0)
         == SweepResults(cards0, assessed, now, lastId0) + [FeeService.FeeAssessment(FeeService.LatePaymentKind, card.latePaymentFee, id, now)]
  {
    var next := assessed + [row];
    assert next[..|next| - 1] == assessed;
    SweepEntrySame(card, cards0[row.creditCardId], row, row, now, id);
    var e := SweepEntry(card, row, now, id);
    assert SweepEntries(cards0, next, now, lastId0) == SweepEntries(cards0, assessed, now, lastId0) + [e];
    assert entries0 + (SweepEntries(cards0, assessed, now, lastId0) + [e])
        == entries0 + SweepEntries(cards0, assessed, now, lastId0) + [e];
  }

  /** Charging one more row raises its card's late count by one on top of the earlier raises. */
  lemma RaisedLateCountsStep(cards0: map<nat, CreditCard>, assessed: seq<BC.BillingCycle>, row: BC.BillingCycle)
    ensures RaisedLateCounts(cards0, assessed + [row]) == RaiseLateCount(RaisedLateCounts(cards0, assessed), row.creditCardId)
  {
    var next := assessed + [row];
    assert next[..|next| - 1] == assessed;
  }

  /** Charging one more row marks its cycle past due on top of the earlier marks. */
  lemma MarkedPastDueStep(cycles0: seq<BC.BillingCycle>, assessed: seq<BC.BillingCycle>, row: BC.BillingCycle, now: Time)
    ensures SetCycleStatus(MarkedPastDue(cycles0, assessed, now), row.id, BC.PastDue, now)
         == MarkedPastDue(cycles0, assessed + [row], now)
  {
    assert (assessed + [row])[..|assessed|] == assessed;
  }

  /** The sweep's report together with the ledger, the id counter, the cycles and the cards it leaves behind. */
  datatype SweepState = SweepState(results: seq<FeeService.FeeAssessment>, entries: seq<StatementEntry>, lastId: nat,
                                   cycles: seq<BC.BillingCycle>, cards: map<nat, CreditCard>)

  /** The state is where the sweep stands once exactly the given rows were charged, in order. */
  predicate SweptTo(st: SweepState, cycles0: seq<BC.BillingCycle>, cards0: map<nat, CreditCard>, entries0: seq<StatementEntry>,
                    lastId0: nat, now: Time, assessed: seq<BC.BillingCycle>)
    requires forall c :: c in assessed ==> c.creditCardId in cards0
  {
    && st.results == SweepResults(cards0, assessed, now, lastId0)
    && st.entries == entries0 + SweepEntries(cards0, assessed, now, lastId0)
    && st.lastId == lastId0 + |assessed|
    && st.cycles == MarkedPastDue(cycles0, assessed, now)
    && st.cards == RaisedLateCounts(cards0, assessed)
  }

  /** Which of the first `i` selected rows were charged: some of them in order, and all of them when cycle ids are unique. */
  ghost predicate ChargedAmong(cycles0: seq<BC.BillingCycle>, rows: seq<BC.BillingCycle>, i: nat, assessed: seq<BC.BillingCycle>)
    requires i <= |rows|
  {
    && (forall c :: c in assessed ==> c in rows[..i])
    && (UniqueCycleIds(cycles0) ==> assessed == rows[..i])
  }

  /** Before the first turn nothing has been charged. */
  lemma SweepStarted(cycles0: seq<BC.BillingCycle>, cards0: map<nat, CreditCard>, entries0: seq<StatementEntry>,
                     lastId0: nat, now: Time)
    ensures ChargedAmong(cycles0, SweepCandidates(cycles0, cards0, entries0, now), 0, [])
    ensures SweptTo(SweepState([], entries0, lastId0, cycles0, cards0), cycles0, cards0, entries0, lastId0, now, [])
  {
    var rows := SweepCandidates(cycles0, cards0, entries0, now);
    assert rows[..0] == [];
    assert entries0 + [] == entries0;
  }

  /** Before each turn the row can be read again by id and its card is there; with unique ids the late fee applies to it. */
  lemma SweepTurnReady(cycles0: seq<BC.BillingCycle>, cards0: map<nat, CreditCard>, entries0: seq<StatementEntry>,
                       lastId0: nat, now: Time, i: nat, assessed: seq<BC.BillingCycle>, st: SweepState)
    requires i < |SweepCandidates(cycles0, cards0, entries0, now)|
    requires ChargedAmong(cycles0, SweepCandidates(cycles0, cards0, entries0, now), i, assessed)
    requires forall c :: c in assessed ==> c.creditCardId in cards0
    requires SweptTo(st, cycles0, cards0, entries0, lastId0, now, assessed)
    ensures var row := SweepCandidates(cycles0, cards0, entries0, now)[i];
      && HasCycle(st.cycles, row.id) && row.creditCardId in st.cards && row.creditCardId in cards0
      && st.cards[row.creditCardId].tenantId == cards0[row.creditCardId].tenantId
      && st.cards[row.creditCardId].latePaymentFee == cards0[row.creditCardId].latePaymentFee
      && (UniqueCycleIds(cycles0) ==> FeeService.LateFeeApplies(st.entries, st.cards[row.creditCardId], CycleById(st.cycles, row.id), now))
  {
    var rows := SweepCandidates(cycles0, cards0, entries0, now);
    var row := rows[i];
    SweepStepReady(cycles0, cards0, entries0, now, i, assessed, st.cycles, st.cards);
    if UniqueCycleIds(cycles0) {
      SweepStepApplies(cycles0, cards0, entries0, now, lastId0, i, st.cycles, st.entries, st.cards[row.creditCardId]);
    }
  }

  /** A turn in which a row was charged: the late-fee row, the report, the mark and the raised count are those of one more charged row. */
  lemma SweepCharged(cycles0: seq<BC.BillingCycle>, cards0: map<nat, CreditCard>, entries0: seq<StatementEntry>,
                     lastId0: nat, now: Time, assessed: seq<BC.BillingCycle>, st: SweepState, row: BC.BillingCycle,
                     card: CreditCard, next: SweepState)
    requires forall c :: c in assessed ==> c.creditCardId in cards0
    requires row.creditCardId in cards0
    requires card.tenantId == cards0[row.creditCardId].tenantId && card.latePaymentFee == cards0[row.creditCardId].latePaymentFee
    requires SweptTo(st, cycles0, cards0, entries0, lastId0, now, assessed)
    requires next.lastId == st.lastId + 1
    requires next.results == st.results + [FeeService.FeeAssessment(FeeService.LatePaymentKind, card.latePaymentFee, next.lastId, now)]
    requires next.entries == st.entries + [SweepEntry(card, row, now, next.lastId)]
    requires next.cycles == SetCycleStatus(st.cycles, row.id, BC.PastDue, now)
    requires next.cards == RaiseLateCount(st.cards, row.creditCardId)
    ensures forall c :: c in assessed + [row] ==> c.creditCardId in cards0
    ensures SweptTo(next, cycles0, cards0, entries0, lastId0, now, assessed + [row])
  {
    SweepEntriesStep(entries0, cards0, now, lastId0, assessed, row, card, next.lastId);
    RaisedLateCountsStep(cards0, assessed, row);
    MarkedPastDueStep(cycles0, assessed, row, now);
  }

  /** A charged row joins the charged ones in its turn. */
  lemma SweepChargedAmong(cycles0: seq<BC.BillingCycle>, rows: seq<BC.BillingCycle>, i: nat, assessed: seq<BC.BillingCycle>)
    requires i < |rows| && ChargedAmong(cycles0, rows, i, assessed)
    ensures ChargedAmong(cycles0, rows, i + 1, assessed + [rows[i]])
  {
    assert rows[..i + 1] == rows[..i] + [rows[i]];
  }

  /** A turn in which the row was not charged, which needs two cycles sharing an id. */
  lemma SweepSkipped(cycles0: seq<BC.BillingCycle>, rows: seq<BC.BillingCycle>, i: nat, assessed: seq<BC.BillingCycle>)
    requires i < |rows| && ChargedAmong(cycles0, rows, i, assessed)
    requires !UniqueCycleIds(cycles0)
    ensures ChargedAmong(cycles0, rows, i + 1, assessed)
  {
    assert rows[..i + 1] == rows[..i] + [rows[i]];
  }

  /** Once every selected row was offered, the charged rows are among them, and with unique ids they are all of them. */
  lemma SweepFinished(cycles0: seq<BC.BillingCycle>, rows: seq<BC.BillingCycle>, assessed: seq<BC.BillingCycle>)
    requires ChargedAmong(cycles0, rows, |rows|, assessed)
    ensures forall c :: c in assessed ==> c in rows
    ensures UniqueCycleIds(cycles0) ==> assessed == rows
  {
    assert rows[..|rows|] == rows;
  }

  /**
   * One turn of the sweep: the row is re-read and, when it still owes a
   * late fee, charged; the sweep so far then covers one more row.
   */
  method SweepTurn(db: Database, rows: seq<BC.BillingCycle>, i: nat, results: seq<FeeService.FeeAssessment>,
                   ghost assessed: seq<BC.BillingCycle>, ghost cycles0: seq<BC.BillingCycle>, ghost cards0: map<nat, CreditCard>,
                   ghost entries0: seq<StatementEntry>, ghost lastId0: nat, now: Time)
    returns (results': seq<FeeService.FeeAssessment>, ghost assessed': seq<BC.BillingCycle>)
    requires rows == SweepCandidates(cycles0, cards0, entries0, now)
    requires i < |rows| && ChargedAmong(cycles0, rows, i, assessed)
    requires forall c :: c in assessed ==> c.creditCardId in cards0
    requires SweptTo(SweepState(results, db.statement, db.lastId, db.cycles, db.cards), cycles0, cards0, entries0, lastId0, now, assessed)
    modifies db`statement, db`lastId, db`cycles, db`cards
    ensures ChargedAmong(cycles0, rows, i + 1, assessed')
    ensures forall c :: c in assessed' ==> c.creditCardId in cards0
    ensures SweptTo(SweepState(results', db.statement, db.lastId, db.cycles, db.cards), cycles0, cards0, entries0, lastId0, now, assessed')
  {
    ghost var st := SweepState(results, db.statement, db.lastId, db.cycles, db.cards);
    SweepTurnReady(cycles0, cards0, entries0, lastId0, now, i, assessed, st);
    var fee := SweepRow(db, rows[i], now);
    if fee.Some? {
      ghost var card := st.cards[rows[i].creditCardId];
      SweepChargedAmong(cycles0, rows, i, assessed);
      results' := results + [fee.value];
      SweepCharged(cycles0, cards0, entries0, lastId0, now, assessed, st, rows[i], card,
                   SweepState(results', db.statement, db.lastId, db.cycles, db.cards));
      assessed' := assessed + [rows[i]];
    } else {
      SweepSkipped(cycles0, rows, i, assessed);
      results', assessed' := results, assessed;
    }
  }

  /**
   * The sweep: the overdue cycles are selected in one query and each is
   * offered to the late-fee assessment in turn. `assessed` names the
   * selected rows that were charged; with unique cycle ids that is every
   * selected row.
   */
  method CheckAndAssessLatePaymentFees(db: Database, now: Time)
    returns (results: seq<FeeService.FeeAssessment>, ghost assessed: seq<BC.BillingCycle>)
    modifies db`statement, db`lastId, db`cycles, db`cards
    ensures forall c :: c in assessed ==> c in SweepCandidates(old(db.cycles), old(db.cards), old(db.statement), now)
    ensures forall c :: c in assessed ==> c.creditCardId in old(db.cards)
    ensures results == SweepResults(old(db.cards), assessed, now, old(db.lastId))
    ensures db.lastId == old(db.lastId) + |results|
    ensures db.statement == old(db.statement) + SweepEntries(old(db.cards), assessed, now, old(db.lastId))
    ensures db.cycles == MarkedPastDue(old(db.cycles), assessed, now)
    ensures db.cards == RaisedLateCounts(old(db.cards), assessed)
    ensures UniqueCycleIds(old(db.cycles)) ==> assessed == SweepCandidates(old(db.cycles), old(db.cards), old(db.statement), now)
  {
    var rows := SweepCandidates(db.cycles, db.cards, db.statement, now);
    results := [];
    assessed := [];
    var i := 0;
    SweepStarted(db.cycles, db.cards, db.statement, db.lastId, now);
    while i < |rows|
      invariant rows == SweepCandidates(old(db.cycles), old(db.cards), old(db.statement), now)
      invariant i <= |rows| && ChargedAmong(old(db.cycles), rows, i, assessed)
      invariant forall c :: c in assessed ==> c.creditCardId in old(db.cards)
      invariant SweptTo(SweepState(results, db.statement, db.lastId, db.cycles, db.cards),
                        old(db.cycles), old(db.cards), old(db.statement), old(db.lastId), now, assessed)
    {
      results, assessed := SweepTurn(db, rows, i, results, assessed, old(db.cycles), old(db.cards), old(db.statement), old(db.lastId), now);
      i := i + 1;
    }
    SweepFinished(old(db.cycles), rows, assessed);
  }
}
