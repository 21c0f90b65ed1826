/**
 * The revolving credit-card account: its configuration checks, APR choice,
 * minimum-payment and fee arithmetic, and billing-period dates.
 */
module CreditCards {
  import opened Wrappers
  import opened Money
  import opened Calendar

  datatype CycleType = Monthly | Quarterly | OtherCycleType(name: string)

  datatype CardStatus = Active | Frozen | Closed | Delinquent | OtherCardStatus(name: string)

  /** A credit-card account row. Rates are percentages; fees are amounts. */
  datatype CreditCard = CreditCard(
    id: nat,
    tenantId: nat,
    creditLimit: real,
    availableCredit: real,
    purchaseApr: real,
    cashAdvanceApr: real,
    penaltyApr: real,
    introductoryApr: real,
    introductoryEndDate: Option<Time>,
    annualFee: real,
    latePaymentFee: real,
    failedPaymentFee: real,
    internationalFeeRate: real,
    cashAdvanceFee: real,
    cashAdvanceFeeRate: real,
    overLimitFee: real,
    billingCycleType: CycleType,
    billingCycleDay: int,
    paymentDueDays: int,
    gracePeriodDays: int,
    minimumPaymentPercent: real,
    minimumPaymentAmount: real,
    cashbackEnabled: bool,
    cashbackRate: real,
    cashbackRedemptionMin: real,
    status: CardStatus,
    lastStatementDate: Option<Time>,
    nextStatementDate: Option<Time>,
    lastPaymentDate: Option<Time>,
    lastPaymentAmount: real,
    consecutiveLateCount: int,
    createdAt: Time)

  datatype CardError =
    | InvalidCreditLimit
    | InvalidApr
    | InvalidBillingCycleDay
    | InvalidMinimumPayment
    | CardFrozen
    | CardClosed
    | InsufficientCredit

  /** All four configuration checks pass. */
  predicate WellConfigured(c: CreditCard)
  {
    && c.creditLimit > 0.0
    && 0.0 <= c.purchaseApr <= 100.0
    && 1 <= c.billingCycleDay <= 28
    && 0.0 <= c.minimumPaymentPercent <= 100.0
  }

  /** The first failing configuration check, in the source's order; None when all pass. */
  function Validate(c: CreditCard): (r: Option<CardError>)
    ensures r == None <==> WellConfigured(c)
    ensures r == Some(InvalidCreditLimit) <==> c.creditLimit <= 0.0
    ensures r == Some(InvalidApr) <==> c.creditLimit > 0.0 && !(0.0 <= c.purchaseApr <= 100.0)
    ensures r == Some(InvalidBillingCycleDay) <==>
      c.creditLimit > 0.0 && 0.0 <= c.purchaseApr <= 100.0 && !(1 <= c.billingCycleDay <= 28)
    ensures r == Some(InvalidMinimumPayment) <==>
      c.creditLimit > 0.0 && 0.0 <= c.purchaseApr <= 100.0 && 1 <= c.billingCycleDay <= 28
      && !(0.0 <= c.minimumPaymentPercent <= 100.0)
    ensures r.Some? ==> r.value in {InvalidCreditLimit, InvalidApr, InvalidBillingCycleDay, InvalidMinimumPayment}
  {
    if c.creditLimit <= 0.0 then Some(InvalidCreditLimit)
    else if c.purchaseApr < 0.0 || c.purchaseApr > 100.0 then Some(InvalidApr)
    else if c.billingCycleDay < 1 || c.billingCycleDay > 28 then Some(InvalidBillingCycleDay)
    else if c.minimumPaymentPercent < 0.0 || c.minimumPaymentPercent > 100.0 then Some(InvalidMinimumPayment)
    else None
  }

  /** Frozen and closed cards refuse new charges; active and delinquent ones accept them. */
  function CanTransact(c: CreditCard): (r: Option<CardError>)
    ensures r == Some(CardFrozen) <==> c.status == Frozen
    ensures r == Some(CardClosed) <==> c.status == Closed
    ensures r == None <==> c.status != Frozen && c.status != Closed
  {
    match c.status
    case Frozen => Some(CardFrozen)
    case Closed => Some(CardClosed)
    case _ => None
  }

  /** A charge may use up exactly the available credit, but no more. */
  function HasAvailableCredit(c: CreditCard, amount: real): (r: Option<CardError>)
    ensures r == None <==> amount <= c.availableCredit
    ensures r != None ==> r == Some(InsufficientCredit)
  {
    if amount > c.availableCredit then Some(InsufficientCredit) else None
  }

  /** The introductory rate is in force strictly before its end date. */
  predicate IntroductoryActive(c: CreditCard, now: Time)
  {
    c.introductoryEndDate.Some? && now < c.introductoryEndDate.value
  }

  /** Penalty APR for a delinquent card, else the introductory APR while it lasts, else the purchase APR. */
  function EffectiveApr(c: CreditCard, now: Time): (apr: real)
    ensures c.status == Delinquent ==> apr == c.penaltyApr
    ensures c.status != Delinquent && IntroductoryActive(c, now) ==> apr == c.introductoryApr
    ensures c.status != Delinquent && !IntroductoryActive(c, now) ==> apr == c.purchaseApr
  {
    if c.status == Delinquent then c.penaltyApr
    else if c.introductoryEndDate.Some? && now < c.introductoryEndDate.value then c.introductoryApr
    else c.purchaseApr
  }

  /** The daily periodic rate: the APR (a percentage) spread over a 365-day year, as a fraction. */
  function DailyPeriodicRate(apr: real): (dpr: real)
    ensures dpr * 365.0 * 100.0 == apr
    ensures apr >= 0.0 ==> dpr >= 0.0
  {
    apr / 365.0 / 100.0
  }

  /**
   * The minimum payment due on a statement balance: the larger of the
   * percentage and the fixed minimum, but never more than the balance when
   * the percentage alone is below the fixed minimum.
   */
  function MinimumPayment(c: CreditCard, balance: real): (r: real)
    ensures balance <= 0.0 ==> r == 0.0
    ensures balance > 0.0 && c.minimumPaymentPercent <= 100.0 ==> r <= balance
    ensures balance > 0.0 && c.minimumPaymentPercent <= 100.0 ==>
      r == Min(balance, Max(PercentOf(balance, c.minimumPaymentPercent), c.minimumPaymentAmount))
    ensures balance > 0.0 && c.minimumPaymentPercent >= 0.0 && c.minimumPaymentAmount > 0.0 ==> r > 0.0
  {
    if balance <= 0.0 then 0.0
    else
      var percentMin := PercentOf(balance, c.minimumPaymentPercent);
      PercentBounds(balance, c.minimumPaymentPercent);
      if percentMin < c.minimumPaymentAmount then
        (if balance < c.minimumPaymentAmount then balance else c.minimumPaymentAmount)
      else percentMin
  }

  lemma PercentBounds(amount: real, percent: real)
    requires amount > 0.0
    ensures percent <= 100.0 ==> PercentOf(amount, percent) <= amount
    ensures percent >= 0.0 ==> PercentOf(amount, percent) >= 0.0
    ensures percent > 0.0 ==> PercentOf(amount, percent) > 0.0
  {
    assert PercentOf(amount, percent) * 100.0 == amount * percent;
    if percent <= 100.0 {
      assert amount * percent <= amount * 100.0;
    }
  }

  /** The foreign-transaction fee: a straight percentage, not rounded. */
  function InternationalFee(c: CreditCard, amount: real): (fee: real)
    ensures fee * 100.0 == amount * c.internationalFeeRate
    ensures amount >= 0.0 && c.internationalFeeRate >= 0.0 ==> fee >= 0.0
  {
    PercentOf(amount, c.internationalFeeRate)
  }

  /** The cash-advance fee: the flat fee or the percentage, whichever is larger. */
  function CashAdvanceFee(c: CreditCard, amount: real): (fee: real)
    ensures fee >= c.cashAdvanceFee && fee >= PercentOf(amount, c.cashAdvanceFeeRate)
    ensures fee == c.cashAdvanceFee || fee == PercentOf(amount, c.cashAdvanceFeeRate)
  {
    var percentFee := PercentOf(amount, c.cashAdvanceFeeRate);
    if percentFee < c.cashAdvanceFee then c.cashAdvanceFee else percentFee
  }

  /** A billing period: first day, last day and payment due date (all instants). */
  datatype BillingPeriod = BillingPeriod(start: Time, end: Time, due: Time)

  /** Months per billing period: three for quarterly cards, one otherwise. */
  function PeriodMonths(t: CycleType): (k: int)
    ensures k == 1 || k == 3
  {
    if t == Quarterly then 3 else 1
  }

  /** The first month of the period containing month `m`: its quarter's first month when quarterly. */
  function PeriodFirstMonth(t: CycleType, m: int): int
  {
    if t == Quarterly then ((m - 1) / 3) * 3 + 1 else m
  }

  /**
   * The next billing period starting on or after `from`: day
   * `billingCycleDay` of `from`'s month (of its quarter's first month when
   * quarterly), pushed one period later if that is already past; the period
   * ends the day before the same day one period later, and payment is due
   * `paymentDueDays` after the end.
   */
  function NextBillingPeriod(c: CreditCard, from: Time): (p: BillingPeriod)
    ensures p.due == p.end + 24 * c.paymentDueDays
  {
    var start := PeriodStart(c, from);
    var end := AddDate(start, PeriodMonths(c.billingCycleType), -1);
    BillingPeriod(start, end, AddDays(end, c.paymentDueDays))
  }

  /** The candidate start in `from`'s month (quarter), as a calendar date. */
  function CandidateDate(c: CreditCard, from: Time): Date
  {
    var f := DateOf(from);
    Date(f.year, PeriodFirstMonth(c.billingCycleType, f.month), c.billingCycleDay)
  }

  /** The start of the next billing period, as the source computes `startDate`. */
  function PeriodStart(c: CreditCard, from: Time): Time
  {
    var f := DateOf(from);
    var candidate := Midnight(GoDate(f.year, PeriodFirstMonth(c.billingCycleType, f.month), c.billingCycleDay));
    if candidate < from then AddDate(candidate, PeriodMonths(c.billingCycleType), 0) else candidate
  }

  /** The calendar date an instant falls on. */
  function DateOf(t: Time): Date
  {
    ToCivil(DayOf(t))
  }

  /**
   * With a billing day in 1..28, the next period starts at midnight of that
   * day, on or after `from`, and is the earliest such period: one period
   * earlier would already be before `from`. The day after it ends is the
   * same day of the month one period later. Quarterly periods start in
   * January, April, July or October.
   */
  lemma NextBillingPeriodSpec(c: CreditCard, from: Time)
    requires 1 <= c.billingCycleDay <= 28
    ensures var p := NextBillingPeriod(c, from);
      var months := PeriodMonths(c.billingCycleType);
      && from <= p.start
      && HourOf(p.start) == 0
      && DateOf(p.start).day == c.billingCycleDay
      && Midnight(DayNumber(MonthsLater(DateOf(p.start), -months))) < from
      && HourOf(p.end) == 0
      && DayOf(p.end) + 1 == DayNumber(MonthsLater(DateOf(p.start), months))
      && (c.billingCycleType == Quarterly ==> DateOf(p.start).month % 3 == 1)
  {
    var start := PeriodStart(c, from);
    PeriodStartSpec(c, from);
    var sd := DateOf(start);
    assert Midnight(DayNumber(sd)) == start;
    EndOfPeriod(sd, PeriodMonths(c.billingCycleType));
  }

  /** The start facts of NextBillingPeriodSpec. */
  lemma PeriodStartSpec(c: CreditCard, from: Time)
    requires 1 <= c.billingCycleDay <= 28
    ensures var start := PeriodStart(c, from);
      var months := PeriodMonths(c.billingCycleType);
      && from <= start
      && HourOf(start) == 0
      && DateOf(start).day == c.billingCycleDay
      && Midnight(DayNumber(MonthsLater(DateOf(start), -months))) < from
      && (c.billingCycleType == Quarterly ==> DateOf(start).month % 3 == 1)
  {
    if Midnight(DayNumber(CandidateDate(c, from))) < from {
      PushedCase(c, from);
    } else {
      KeptCase(c, from);
    }
  }

  /** The candidate was not yet past: it is the start. */
  lemma KeptCase(c: CreditCard, from: Time)
    requires 1 <= c.billingCycleDay <= 28
    requires !(Midnight(DayNumber(CandidateDate(c, from))) < from)
    ensures var start := PeriodStart(c, from);
      var months := PeriodMonths(c.billingCycleType);
      && from <= start
      && HourOf(start) == 0
      && DateOf(start).day == c.billingCycleDay
      && Midnight(DayNumber(MonthsLater(DateOf(start), -months))) < from
      && (c.billingCycleType == Quarterly ==> DateOf(start).month % 3 == 1)
  {
    KeptStartIs(c, from);
    var months := PeriodMonths(c.billingCycleType);
    var f := DateOf(from);
    var cand := CandidateDate(c, from);
    CandidateFacts(c, f);
    assert DayOf(from) == DayNumber(f);
    KeptStart(f, cand, months, from);
    var start := PeriodStart(c, from);
    assert DateOf(start) == cand && start == Midnight(DayNumber(cand));
  }

  /** The candidate was already past: the start moves one period on. */
  lemma PushedCase(c: CreditCard, from: Time)
    requires 1 <= c.billingCycleDay <= 28
    requires Midnight(DayNumber(CandidateDate(c, from))) < from
    ensures var start := PeriodStart(c, from);
      var months := PeriodMonths(c.billingCycleType);
      && from <= start
      && HourOf(start) == 0
      && DateOf(start).day == c.billingCycleDay
      && Midnight(DayNumber(MonthsLater(DateOf(start), -months))) < from
      && (c.billingCycleType == Quarterly ==> DateOf(start).month % 3 == 1)
  {
    var months := PeriodMonths(c.billingCycleType);
    var f := DateOf(from);
    var cand := CandidateDate(c, from);
    CandidateFacts(c, f);
    var sd := MonthsLater(cand, months);
    PushedStartIs(c, from);
    CivilRoundTrip(sd);
    PushedStart(f, cand, months, from);
    MonthsLaterInverse(cand, months);
    if c.billingCycleType == Quarterly {
      QuarterAligned(cand, months);
    }
  }

  /** The first candidate start date: in range, in `from`'s period, quarter-aligned when quarterly. */
  lemma CandidateFacts(c: CreditCard, f: Date)
    requires 1 <= c.billingCycleDay <= 28 && ValidDate(f)
    ensures var cand := Date(f.year, PeriodFirstMonth(c.billingCycleType, f.month), c.billingCycleDay);
      && ValidDate(cand)
      && MonthIndex(cand) <= MonthIndex(f) < MonthIndex(cand) + PeriodMonths(c.billingCycleType)
      && (c.billingCycleType == Quarterly ==> cand.month % 3 == 1)
  {
  }

  /** Moving a quarter-aligned date by three months keeps it quarter-aligned. */
  lemma QuarterAligned(d: Date, k: int)
    requires ValidDate(d) && d.day <= 28 && d.month % 3 == 1 && k == 3
    ensures MonthsLater(d, k).month % 3 == 1
  {
    var r := MonthsLater(d, k);
    assert MonthIndex(r) == MonthIndex(d) + 3;
  }

  /** A candidate already past `from`, pushed one period on, is after `from`. */
  lemma PushedStart(f: Date, cand: Date, months: int, from: Time)
    requires ValidDate(f) && ValidDate(cand) && cand.day <= 28 && months >= 1
    requires DayOf(from) == DayNumber(f)
    requires MonthIndex(cand) <= MonthIndex(f) < MonthIndex(cand) + months
    ensures from < Midnight(DayNumber(MonthsLater(cand, months)))
  {
    var sd := MonthsLater(cand, months);
    DayInMonth(f);
    DayInMonth(sd);
    FirstOfMonthOrdered(MonthIndex(f) + 1, MonthIndex(sd));
    assert DayNumber(sd) > DayOf(from);
  }

  /** A candidate on or after `from`: one period earlier is before `from`. */
  lemma KeptStart(f: Date, cand: Date, months: int, from: Time)
    requires ValidDate(f) && ValidDate(cand) && cand.day <= 28 && months >= 1
    requires DayOf(from) == DayNumber(f)
    requires MonthIndex(cand) <= MonthIndex(f)
    ensures Midnight(DayNumber(MonthsLater(cand, -months))) < from
  {
    var before := MonthsLater(cand, -months);
    DayInMonth(f);
    DayInMonth(before);
    FirstOfMonthOrdered(MonthIndex(before) + 1, MonthIndex(f));
    assert DayNumber(before) < DayOf(from);
  }

  /** A period starting at midnight of `sd` ends the day before the same day `months` later. */
  lemma EndOfPeriod(sd: Date, months: int)
    requires ValidDate(sd) && sd.day <= 28
    ensures var end := AddDate(Midnight(DayNumber(sd)), months, -1);
      HourOf(end) == 0 && DayOf(end) + 1 == DayNumber(MonthsLater(sd, months))
  {
    AddDateAtMidnight(sd, months, -1);
    GoDateMonthsLater(sd, months);
  }

  /** The statement is in its grace period up to and including the last grace day. */
  function IsInGracePeriod(c: CreditCard, statementDate: Time, current: Time): (r: bool)
    ensures r <==> current <= statementDate + 24 * c.gracePeriodDays
  {
    var graceEnd := AddDays(statementDate, c.gracePeriodDays);
    current < graceEnd || current == graceEnd
  }

  /** Default account configuration of a new card. */
  function Defaults(): (c: CreditCard)
    ensures c.billingCycleType == Monthly && c.status == Active
  {
    CreditCard(
      id := 0, tenantId := 0,
      creditLimit := 0.0, availableCredit := 0.0,
      purchaseApr := 19.99, cashAdvanceApr := 24.99, penaltyApr := 29.99, introductoryApr := 0.0,
      introductoryEndDate := None,
      annualFee := 0.0, latePaymentFee := 35.0, failedPaymentFee := 35.0,
      internationalFeeRate := 3.0, cashAdvanceFee := 10.0, cashAdvanceFeeRate := 5.0, overLimitFee := 35.0,
      billingCycleType := Monthly, billingCycleDay := 1, paymentDueDays := 25, gracePeriodDays := 21,
      minimumPaymentPercent := 2.0, minimumPaymentAmount := 25.0,
      cashbackEnabled := true, cashbackRate := 1.5, cashbackRedemptionMin := 25.0,
      status := Active,
      lastStatementDate := None, nextStatementDate := None, lastPaymentDate := None,
      lastPaymentAmount := 0.0, consecutiveLateCount := 0,
      createdAt := 0)
  }

  /** The defaults pass validation once a positive credit limit is set. */
  lemma DefaultsValidWithLimit(limit: real)
    requires limit > 0.0
    ensures Validate(Defaults().(creditLimit := limit)) == None
  {
  }

  /** Delinquency overrides an introductory rate that is still running. */
  lemma PenaltyOverridesIntroductory(c: CreditCard, now: Time)
    requires c.status == Delinquent && IntroductoryActive(c, now)
    ensures EffectiveApr(c, now) == c.penaltyApr
  {
  }

  /** The source's candidate instant is midnight of CandidateDate. */
  lemma CandidateIsGoDate(c: CreditCard, from: Time)
    requires 1 <= c.billingCycleDay <= 28
    ensures var f := DateOf(from); Midnight(GoDate(f.year, PeriodFirstMonth(c.billingCycleType, f.month), c.billingCycleDay)) == Midnight(DayNumber(CandidateDate(c, from)))
  {
  }
  /** A candidate not yet past `from` is the start itself. */
  lemma KeptStartIs(c: CreditCard, from: Time)
    requires 1 <= c.billingCycleDay <= 28
    requires !(Midnight(DayNumber(CandidateDate(c, from))) < from)
    ensures PeriodStart(c, from) == Midnight(DayNumber(CandidateDate(c, from)))
    ensures DateOf(PeriodStart(c, from)) == CandidateDate(c, from)
  {
    var cand := CandidateDate(c, from);
    CandidateFacts(c, DateOf(from));
    CandidateIsGoDate(c, from);
    CivilRoundTrip(cand);
  }

  /** A candidate already past `from` is pushed exactly one period on. */
  lemma PushedStartIs(c: CreditCard, from: Time)
    requires 1 <= c.billingCycleDay <= 28
    requires Midnight(DayNumber(CandidateDate(c, from))) < from
    ensures PeriodStart(c, from) == Midnight(DayNumber(MonthsLater(CandidateDate(c, from), PeriodMonths(c.billingCycleType))))
  {
    var months := PeriodMonths(c.billingCycleType);
    var f := DateOf(from);
    var cand := CandidateDate(c, from);
    CandidateFacts(c, f);
    CandidateIsGoDate(c, from);
    AddDateAtMidnight(cand, months, 0);
    GoDateMonthsLater(cand, months);
  }
}
