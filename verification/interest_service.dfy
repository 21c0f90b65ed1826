/**
 * The interest engine: three ways to compute a cycle's interest, the
 * grace-period waiver, the minimum-charge floor, accrual into the
 * statement ledger and a what-if projection.
 */
module InterestService {
  import opened Wrappers
  import opened Money
  import opened Calendar
  import opened StatementLedger
  import StatementLedgerService
  import BC = BillingCycles
  import opened CreditCards
  import opened Store

  datatype InterestMethod =
    | AverageDailyBalanceMethod
    | DailyBalanceMethod
    | AdjustedBalanceMethod
    | OtherMethod(name: string)

  datatype InterestConfig = InterestConfig(
    calculationMethod: InterestMethod,
    minimumInterestCharge: real,
    roundingPrecision: nat,
    compoundDaily: bool)

  /** The standard configuration: average daily balance, a fifty-cent minimum, cents, no compounding. */
  function DefaultInterestConfig(): (c: InterestConfig)
    ensures c.calculationMethod == AverageDailyBalanceMethod && c.minimumInterestCharge == 0.50
    ensures c.roundingPrecision == 2 && !c.compoundDaily
  {
    InterestConfig(AverageDailyBalanceMethod, 0.50, 2, false)
  }

  // ---------------------------------------------------------------------------
  // The three methods

  /** Average daily balance times the daily rate times the days, to cents; nothing on a balance of zero or less. */
  function AdbInterest(adb: real, dpr: real, days: int): (r: real)
    ensures adb <= 0.0 ==> r == 0.0
    ensures adb > 0.0 ==> r == Round2(adb * dpr * days as real)
    ensures dpr >= 0.0 && days >= 0 ==> r >= 0.0
  {
    if adb <= 0.0 then 0.0
    else
      assert dpr >= 0.0 && days >= 0 ==> adb * dpr * days as real >= 0.0;
      Round2(adb * dpr * days as real)
  }

  /** $1000 at 0.05% a day over 30 days is $15.00, and $1234.56 at 0.0345% over 31 days rounds down to $13.20. */
  lemma AdbInterestExamples()
    ensures AdbInterest(1000.0, 0.0005, 30) == 15.0
    ensures AdbInterest(1234.56, 0.000345, 31) == 13.20
    ensures AdbInterest(-100.0, 0.0005, 30) == 0.0
  {
    assert 1000.0 * 0.0005 * 30 as real == 1500 as real / 100.0;
    Round2Cents(1500);
    assert Pow10(2) == 100.0;
    FloorOf(1234.56 * 0.000345 * 31 as real * 100.0 + 0.5, 1320);
  }

  /** Interest of each day with a positive balance, unrounded; other days add nothing. */
  function PositiveDayInterest(records: seq<BC.DailyBalanceRecord>, dpr: real): real
  {
    if |records| == 0 then 0.0
    else
      var b := records[|records| - 1].balance;
      PositiveDayInterest(records[..|records| - 1], dpr) + (if b > 0.0 then b * dpr else 0.0)
  }

  /** Interest day by day on the positive balances, summed and then rounded to cents. */
  function DailyBalanceInterest(records: seq<BC.DailyBalanceRecord>, dpr: real): (r: real)
    ensures records == [] ==> r == 0.0
  {
    Round2(PositiveDayInterest(records, dpr))
  }

  /** Accumulates the day-by-day interest in one pass. */
  method CalculateDailyBalanceInterest(records: seq<BC.DailyBalanceRecord>, dpr: real) returns (r: real)
    ensures r == DailyBalanceInterest(records, dpr)
  {
    var totalInterest := 0.0;
    var i := 0;
    while i < |records|
      invariant 0 <= i <= |records|
      invariant totalInterest == PositiveDayInterest(records[..i], dpr)
    {
      assert records[..i + 1][..i] == records[..i];
      if records[i].balance > 0.0 {
        totalInterest := totalInterest + records[i].balance * dpr;
      }
      i := i + 1;
    }
    assert records[..i] == records;
    r := Round2(totalInterest);
  }

  /** With a non-negative rate the day-by-day interest is never negative. */
  lemma {:induction false} PositiveDayInterestNonNegative(records: seq<BC.DailyBalanceRecord>, dpr: real)
    requires dpr >= 0.0
    ensures PositiveDayInterest(records, dpr) >= 0.0
    ensures DailyBalanceInterest(records, dpr) >= 0.0
  {
    if |records| > 0 {
      PositiveDayInterestNonNegative(records[..|records| - 1], dpr);
    }
  }

  /**
   * When every day's balance is positive, the daily method charges the
   * rate on the sum of the balances: the unrounded average-daily-balance
   * charge over as many days.
   */
  lemma {:induction false} AllPositiveDays(records: seq<BC.DailyBalanceRecord>, dpr: real)
    requires forall i :: 0 <= i < |records| ==> records[i].balance > 0.0
    ensures PositiveDayInterest(records, dpr) == BC.SumBalances(records) * dpr
  {
    if |records| > 0 {
      AllPositiveDays(records[..|records| - 1], dpr);
    }
  }

  /** A day with no positive balance changes nothing, wherever it comes. */
  lemma NonPositiveDayIgnored(records: seq<BC.DailyBalanceRecord>, day: BC.DailyBalanceRecord, dpr: real)
    requires day.balance <= 0.0
    ensures DailyBalanceInterest(records + [day], dpr) == DailyBalanceInterest(records, dpr)
  {
    assert (records + [day])[..|records|] == records;
  }

  /** A twelfth of the APR, as a fraction. */
  function MonthlyRate(apr: real): (m: real)
    ensures m * 12.0 * 100.0 == apr
    ensures apr >= 0.0 ==> m >= 0.0
  {
    apr / 12.0 / 100.0
  }

  /** The previous balance less payments, at a twelfth of the APR, to cents; nothing when that balance is zero or less. */
  function AdjustedBalanceInterest(previousBalance: real, payments: real, apr: real): (r: real)
    ensures previousBalance - payments <= 0.0 ==> r == 0.0
    ensures previousBalance - payments > 0.0 ==> r == Round2((previousBalance - payments) * MonthlyRate(apr))
    ensures apr >= 0.0 ==> r >= 0.0
  {
    if previousBalance - payments <= 0.0 then 0.0
    else
      assert apr >= 0.0 ==> (previousBalance - payments) * MonthlyRate(apr) >= 0.0;
      Round2((previousBalance - payments) * MonthlyRate(apr))
  }

  // ---------------------------------------------------------------------------
  // The grace period

  /** The first stored row of the card's previous cycle that is paid in full. */
  function PriorPaidFull(cycles: seq<BC.BillingCycle>, cardId: nat, cycleNumber: int): (r: Option<BC.BillingCycle>)
    ensures r.None? <==> forall i :: 0 <= i < |cycles| ==>
      !(cycles[i].creditCardId == cardId && cycles[i].cycleNumber == cycleNumber - 1 && cycles[i].status == BC.PaidFull)
    ensures r.Some? ==>
      && r.value in cycles && r.value.creditCardId == cardId
      && r.value.cycleNumber == cycleNumber - 1 && r.value.status == BC.PaidFull
  {
    if |cycles| == 0 then None
    else if cycles[0].creditCardId == cardId && cycles[0].cycleNumber == cycleNumber - 1 && cycles[0].status == BC.PaidFull
    then Some(cycles[0])
    else
      var r := PriorPaidFull(cycles[1..], cardId, cycleNumber);
      assert forall i :: 1 <= i < |cycles| ==> cycles[i] == cycles[1..][i - 1];
      r
  }

  /**
   * Whether interest is waived: yes when no paid-in-full row of the
   * previous cycle exists (a new account, but also a previous cycle that
   * is only paid), otherwise whether that row's payments cover its balance.
   */
  predicate QualifiesForGracePeriod(cycles: seq<BC.BillingCycle>, cardId: nat, cycleNumber: int)
  {
    var prior := PriorPaidFull(cycles, cardId, cycleNumber);
    prior.None? || prior.value.paymentsMade >= prior.value.newBalance
  }

  /** The waiver applies even when the previous cycle was left unpaid, as long as no row of it is paid in full. */
  lemma UnpaidPriorStillQualifies(cycles: seq<BC.BillingCycle>, cardId: nat, cycleNumber: int)
    requires forall i :: 0 <= i < |cycles| ==>
      (cycles[i].creditCardId == cardId && cycles[i].cycleNumber == cycleNumber - 1 ==> cycles[i].status != BC.PaidFull)
    ensures QualifiesForGracePeriod(cycles, cardId, cycleNumber)
  {
  }

  /** A paid-in-full previous cycle whose payments fall short of its balance (the only row found) denies the waiver. */
  lemma ShortPaidFullDenies(cycles: seq<BC.BillingCycle>, cardId: nat, cycleNumber: int, prior: BC.BillingCycle)
    requires prior.creditCardId == cardId && prior.cycleNumber == cycleNumber - 1 && prior.status == BC.PaidFull
    requires prior.paymentsMade < prior.newBalance
    requires cycles == [prior]
    ensures !QualifiesForGracePeriod(cycles, cardId, cycleNumber)
  {
  }

  // ---------------------------------------------------------------------------
  // The calculation

  /** The raw charge of the configured method; an unknown method uses the average daily balance. */
  function MethodCharge(config: InterestConfig, cycle: BC.BillingCycle, records: seq<BC.DailyBalanceRecord>,
                        adb: real, apr: real, dpr: real, days: int): real
  {
    match config.calculationMethod
    case DailyBalanceMethod => DailyBalanceInterest(records, dpr)
    case AdjustedBalanceMethod => AdjustedBalanceInterest(cycle.previousBalance, cycle.paymentsReceived, apr)
    case _ => AdbInterest(adb, dpr, days)
  }

  /** The minimum-charge floor: a charge strictly between zero and the minimum is raised to the minimum. */
  function ApplyMinimum(charge: real, minimum: real): (r: real)
    ensures charge <= 0.0 || charge >= minimum ==> r == charge
    ensures 0.0 < charge < minimum ==> r == minimum
  {
    if charge > 0.0 && charge < minimum then minimum else charge
  }

  /** The charge after the floor, rounded to the configured precision. */
  function FinalCharge(config: InterestConfig, cycle: BC.BillingCycle, records: seq<BC.DailyBalanceRecord>,
                       adb: real, apr: real, dpr: real, days: int): real
  {
    Round(ApplyMinimum(MethodCharge(config, cycle, records, adb, apr, dpr, days), config.minimumInterestCharge),
          config.roundingPrecision)
  }

  /** The floor never lifts a zero charge, and raises any smaller positive charge to the (rounded) minimum. */
  lemma FloorNeverLiftsZero(config: InterestConfig, cycle: BC.BillingCycle, records: seq<BC.DailyBalanceRecord>,
                            adb: real, apr: real, dpr: real, days: int)
    ensures MethodCharge(config, cycle, records, adb, apr, dpr, days) == 0.0 ==>
      FinalCharge(config, cycle, records, adb, apr, dpr, days) == 0.0
    ensures 0.0 < MethodCharge(config, cycle, records, adb, apr, dpr, days) < config.minimumInterestCharge ==>
      FinalCharge(config, cycle, records, adb, apr, dpr, days) == Round(config.minimumInterestCharge, config.roundingPrecision)
  {
  }

  /** An unrecognised method charges exactly what the average-daily-balance method does. */
  lemma UnknownMethodIsAdb(config: InterestConfig, cycle: BC.BillingCycle, records: seq<BC.DailyBalanceRecord>,
                           adb: real, apr: real, dpr: real, days: int)
    requires config.calculationMethod.OtherMethod?
    ensures FinalCharge(config, cycle, records, adb, apr, dpr, days)
         == FinalCharge(config.(calculationMethod := AverageDailyBalanceMethod), cycle, records, adb, apr, dpr, days)
  {
  }

  /** With a non-negative APR, minimum and day count, every method's final charge is non-negative. */
  lemma FinalChargeNonNegative(config: InterestConfig, cycle: BC.BillingCycle, records: seq<BC.DailyBalanceRecord>,
                               adb: real, apr: real, days: int)
    requires apr >= 0.0 && days >= 0
    ensures FinalCharge(config, cycle, records, adb, apr, DailyPeriodicRate(apr), days) >= 0.0
  {
    PositiveDayInterestNonNegative(records, DailyPeriodicRate(apr));
  }

  datatype InterestResult = InterestResult(
    creditCardId: nat,
    billingCycleId: nat,
    calculationMethod: InterestMethod,
    averageDailyBalance: real,
    aprUsed: real,
    dailyPeriodicRate: real,
    daysInCycle: int,
    interestCharge: real,
    minimumInterestCharge: real,
    waivedDueToGracePeriod: bool,
    calculatedAt: Time)

  /**
   * The interest of a cycle, filled in step by step: the APR in force at
   * the cycle start, its daily rate, the days counted inclusively and the
   * average of the given daily balances; then either the grace-period
   * waiver with a zero charge, or the configured method's charge after the
   * floor and rounding.
   */
  method CalculateInterest(db: Database, card: CreditCard, cycle: BC.BillingCycle, config: InterestConfig,
                           dailyBalances: seq<BC.DailyBalanceRecord>, now: Time) returns (r: InterestResult)
    ensures r.creditCardId == card.id && r.billingCycleId == cycle.id && r.calculationMethod == config.calculationMethod && r.calculatedAt == now
    ensures r.aprUsed == EffectiveApr(card, cycle.cycleStartDate)
    ensures r.dailyPeriodicRate == DailyPeriodicRate(r.aprUsed)
    ensures r.daysInCycle == WholeDays(cycle.cycleEndDate, cycle.cycleStartDate) + 1
    ensures r.averageDailyBalance == BC.AverageDailyBalance(dailyBalances)
    ensures r.waivedDueToGracePeriod == QualifiesForGracePeriod(db.cycles, card.id, cycle.cycleNumber)
    ensures r.waivedDueToGracePeriod ==> r.interestCharge == 0.0 && r.minimumInterestCharge == 0.0
    ensures !r.waivedDueToGracePeriod ==>
      r.minimumInterestCharge == config.minimumInterestCharge
      && r.interestCharge == FinalCharge(config, cycle, dailyBalances, r.averageDailyBalance, r.aprUsed,
                                         r.dailyPeriodicRate, r.daysInCycle)
  {
    var apr := EffectiveApr(card, cycle.cycleStartDate);
    var dpr := DailyPeriodicRate(apr);
    var daysInCycle := WholeDays(cycle.cycleEndDate, cycle.cycleStartDate) + 1;
    var adb := BC.CalculateAverageDailyBalance(dailyBalances);
    r := InterestResult(card.id, cycle.id, config.calculationMethod, adb, apr, dpr, daysInCycle, 0.0, 0.0, false, now);
    if QualifiesForGracePeriod(db.cycles, card.id, cycle.cycleNumber) {
      r := r.(waivedDueToGracePeriod := true, interestCharge := 0.0);
      return;
    }
    var interestCharge;
    match config.calculationMethod {
      case AverageDailyBalanceMethod =>
        interestCharge := AdbInterest(adb, dpr, daysInCycle);
      case DailyBalanceMethod =>
        interestCharge := CalculateDailyBalanceInterest(dailyBalances, dpr);
      case AdjustedBalanceMethod =>
        interestCharge := AdjustedBalanceInterest(cycle.previousBalance, cycle.paymentsReceived, apr);
      case OtherMethod(_) =>
        interestCharge := AdbInterest(adb, dpr, daysInCycle);
    }
    r := r.(minimumInterestCharge := config.minimumInterestCharge);
    if interestCharge > 0.0 && interestCharge < config.minimumInterestCharge {
      interestCharge := config.minimumInterestCharge;
    }
    r := r.(interestCharge := Round(interestCharge, config.roundingPrecision));
  }

  // ---------------------------------------------------------------------------
  // Accrual and projection

  /** The interest row for a cycle: a pending interest fee tagged with the cycle and posted at its end. */
  function InterestEntry(tenant: nat, cycle: BC.BillingCycle, charge: real, now: Time): (e: StatementEntry)
    ensures e.entryType == FeeInterest && e.amount == charge && e.statementId == Some(cycle.id)
    ensures e.postingDate == cycle.cycleEndDate && e.status == Pending
  {
    StatementEntry(0, tenant, Some(cycle.id), FeeInterest, now, cycle.cycleEndDate, charge, "", None, Pending, None, now, None)
  }

  /** The interest row depends on the cycle only through its id and its end date. */
  lemma InterestEntrySameCycle(tenant: nat, c1: BC.BillingCycle, c2: BC.BillingCycle, charge: real, now: Time)
    requires c1.id == c2.id && c1.cycleEndDate == c2.cycleEndDate
    ensures InterestEntry(tenant, c1, charge, now) == InterestEntry(tenant, c2, charge, now)
  {
  }

  /** Writes the interest of a cycle: nothing when the charge is zero or less, otherwise exactly one interest row. */
  method AccrueInterest(db: Database, tenant: nat, cycle: BC.BillingCycle, result: InterestResult, now: Time)
    returns (r: Option<StatementEntry>)
    modifies db`statement, db`lastId
    ensures r.None? <==> result.interestCharge <= 0.0
    ensures r.None? ==> db.statement == old(db.statement) && db.lastId == old(db.lastId)
    ensures r.Some? ==> r.value == InterestEntry(tenant, cycle, result.interestCharge, now).(id := db.lastId)
    ensures r.Some? ==> db.statement == old(db.statement) + [r.value] && db.lastId == old(db.lastId) + 1
  {
    if result.interestCharge <= 0.0 {
      return None;
    }
    var stored := StatementLedgerService.CreateEntry(db, InterestEntry(tenant, cycle, result.interestCharge, now));
    return Some(stored);
  }

  datatype Projection = Projection(currentBalance: real, projectedDays: int, apr: real, projectedInterest: real, totalIfUnpaid: real)

  /** What the balance would cost if left unpaid for `days` days: simple daily interest to cents, none on a balance of zero or less. */
  function CalculateProjectedInterest(currentBalance: real, apr: real, days: int): (p: Projection)
    ensures p.currentBalance == currentBalance && p.projectedDays == days && p.apr == apr
    ensures currentBalance <= 0.0 ==> p.projectedInterest == 0.0
    ensures currentBalance > 0.0 ==> p.projectedInterest == Round2(currentBalance * DailyPeriodicRate(apr) * days as real)
    ensures p.totalIfUnpaid == currentBalance + p.projectedInterest
  {
    if currentBalance <= 0.0 then Projection(currentBalance, days, apr, 0.0, currentBalance)
    else
      var interest := Round2(currentBalance * DailyPeriodicRate(apr) * days as real);
      Projection(currentBalance, days, apr, interest, currentBalance + interest)
  }

  /**
   * A projection is the average-daily-balance charge of a constant
   * balance at the same APR, so it is never negative and the unpaid total
   * never falls below the balance.
   */
  lemma ProjectionIsAdbCharge(currentBalance: real, apr: real, days: int)
    ensures CalculateProjectedInterest(currentBalance, apr, days).projectedInterest
         == AdbInterest(currentBalance, DailyPeriodicRate(apr), days)
    ensures apr >= 0.0 && days >= 0 ==>
      CalculateProjectedInterest(currentBalance, apr, days).totalIfUnpaid >= currentBalance
  {
  }

  /** $1000 at 18.25% for 30 days projects $15.00 of interest and $1015.00 in all. */
  lemma ProjectionExample()
    ensures CalculateProjectedInterest(1000.0, 18.25, 30).projectedInterest == 15.0
    ensures CalculateProjectedInterest(1000.0, 18.25, 30).totalIfUnpaid == 1015.0
  {
    assert 1000.0 * DailyPeriodicRate(18.25) * 30 as real == 1500 as real / 100.0;
    Round2Cents(1500);
  }
}
