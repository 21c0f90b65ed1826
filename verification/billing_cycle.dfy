/**
 * A billing cycle: the balance components gathered over one period, the
 * statement totals computed from them, and the payment tracking that
 * decides whether the cycle is paid, overdue or paid in full.
 */
module BillingCycles {
  import opened Wrappers
  import opened Money
  import opened Calendar
  import opened CreditCards

  datatype CycleStatus = Open | Closed | Paid | PaidFull | PastDue | CycleDelinquent | UnknownCycleStatus(name: string)

  datatype BillingCycle = BillingCycle(
    id: nat,
    creditCardId: nat,
    tenantId: nat,
    cycleNumber: int,
    cycleType: CycleType,
    cycleStartDate: Time,
    cycleEndDate: Time,
    statementDate: Time,
    dueDate: Time,
    gracePeriodEnd: Time,
    previousBalance: real,
    paymentsReceived: real,
    purchasesAmount: real,
    cashAdvancesAmount: real,
    refundsAmount: real,
    feesAmount: real,
    interestAmount: real,
    adjustmentsAmount: real,
    cashbackEarned: real,
    cashbackRedeemed: real,
    newBalance: real,
    minimumPayment: real,
    averageDailyBalance: real,
    daysInCycle: int,
    aprApplied: real,
    paymentsMade: real,
    lastPaymentDate: Option<Time>,
    lastPaymentAmount: real,
    minimumPaymentMet: bool,
    status: CycleStatus,
    createdAt: Time,
    updatedAt: Time,
    closedAt: Option<Time>)

  /** The components that raise the balance: what was carried over, new charges, fees, interest and adjustments. */
  function Debits(bc: BillingCycle): real
  {
    bc.previousBalance + bc.purchasesAmount + bc.cashAdvancesAmount
      + bc.feesAmount + bc.interestAmount + bc.adjustmentsAmount
  }

  /** The components that lower it: payments, refunds and redeemed cashback. */
  function Credits(bc: BillingCycle): real
  {
    bc.paymentsReceived + bc.refundsAmount + bc.cashbackRedeemed
  }

  /**
   * The statement balance: debits less credits. It is not clamped, so an
   * overpaid cycle has a negative balance (money owed to the customer).
   * Cashback earned does not enter it.
   */
  function CalculateNewBalance(bc: BillingCycle): (r: real)
    ensures r == Debits(bc) - Credits(bc)
  {
    bc.previousBalance - bc.paymentsReceived + bc.purchasesAmount + bc.cashAdvancesAmount
      - bc.refundsAmount + bc.feesAmount + bc.interestAmount + bc.adjustmentsAmount
      - bc.cashbackRedeemed
  }

  /** Each component moves the balance by exactly its own amount, upward for debits and downward for credits. */
  lemma NewBalanceComponents(bc: BillingCycle, x: real)
    ensures CalculateNewBalance(bc.(previousBalance := bc.previousBalance + x)) == CalculateNewBalance(bc) + x
    ensures CalculateNewBalance(bc.(purchasesAmount := bc.purchasesAmount + x)) == CalculateNewBalance(bc) + x
    ensures CalculateNewBalance(bc.(cashAdvancesAmount := bc.cashAdvancesAmount + x)) == CalculateNewBalance(bc) + x
    ensures CalculateNewBalance(bc.(feesAmount := bc.feesAmount + x)) == CalculateNewBalance(bc) + x
    ensures CalculateNewBalance(bc.(interestAmount := bc.interestAmount + x)) == CalculateNewBalance(bc) + x
    ensures CalculateNewBalance(bc.(adjustmentsAmount := bc.adjustmentsAmount + x)) == CalculateNewBalance(bc) + x
    ensures CalculateNewBalance(bc.(paymentsReceived := bc.paymentsReceived + x)) == CalculateNewBalance(bc) - x
    ensures CalculateNewBalance(bc.(refundsAmount := bc.refundsAmount + x)) == CalculateNewBalance(bc) - x
    ensures CalculateNewBalance(bc.(cashbackRedeemed := bc.cashbackRedeemed + x)) == CalculateNewBalance(bc) - x
    ensures CalculateNewBalance(bc.(cashbackEarned := x)) == CalculateNewBalance(bc)
  {
  }

  /** Paying twice the carried balance with nothing else in the cycle leaves a credit balance. */
  lemma OverpaymentIsCredit(bc: BillingCycle)
    requires bc.previousBalance == 100.0 && bc.paymentsReceived == 200.0
    requires bc.purchasesAmount == 0.0 && bc.cashAdvancesAmount == 0.0 && bc.refundsAmount == 0.0
    requires bc.feesAmount == 0.0 && bc.interestAmount == 0.0 && bc.adjustmentsAmount == 0.0
    requires bc.cashbackRedeemed == 0.0
    ensures CalculateNewBalance(bc) == -100.0
  {
  }

  /** What is still owed on the statement after the payments made toward it. */
  function RemainingBalance(bc: BillingCycle): (r: real)
    ensures r + bc.paymentsMade == bc.newBalance
  {
    bc.newBalance - bc.paymentsMade
  }

  /** What is still owed toward the minimum payment; never negative. */
  function RemainingMinimum(bc: BillingCycle): (r: real)
    ensures r >= 0.0
    ensures r == Max(0.0, bc.minimumPayment - bc.paymentsMade)
    ensures r == 0.0 <==> bc.paymentsMade >= bc.minimumPayment
  {
    var remaining := bc.minimumPayment - bc.paymentsMade;
    if remaining < 0.0 then 0.0 else remaining
  }

  /** Overdue strictly after the due date, and only while the minimum is unmet. */
  predicate IsOverdue(bc: BillingCycle, currentDate: Time)
  {
    currentDate > bc.dueDate && !bc.minimumPaymentMet
  }

  /** Whole days past the due date, counted only while the cycle is overdue. */
  function DaysOverdue(bc: BillingCycle, currentDate: Time): (r: int)
    ensures r >= 0
    ensures !IsOverdue(bc, currentDate) ==> r == 0
    ensures IsOverdue(bc, currentDate) ==>
      24 * r <= currentDate - bc.dueDate < 24 * r + 24
  {
    if !IsOverdue(bc, currentDate) then 0 else WholeDays(currentDate, bc.dueDate)
  }

  /** Paid in full once the payments reach the statement balance. */
  predicate IsPaidInFull(bc: BillingCycle)
  {
    bc.paymentsMade >= bc.newBalance
  }

  /** Paid in full exactly when nothing remains owed. */
  lemma PaidInFullIffNothingRemains(bc: BillingCycle)
    ensures IsPaidInFull(bc) <==> RemainingBalance(bc) <= 0.0
  {
  }

  /** A cycle due at midnight is not overdue at that midnight, and five midnights later it is five days overdue. */
  lemma OverdueFromTheDayAfter(bc: BillingCycle, dueDay: int)
    requires bc.dueDate == Midnight(dueDay) && !bc.minimumPaymentMet
    ensures !IsOverdue(bc, Midnight(dueDay))
    ensures IsOverdue(bc, Midnight(dueDay + 5)) && DaysOverdue(bc, Midnight(dueDay + 5)) == 5
  {
  }

  datatype DailyBalanceRecord = DailyBalanceRecord(date: Time, balance: real)

  /** The sum of the daily balances. */
  function SumBalances(records: seq<DailyBalanceRecord>): real
  {
    if |records| == 0 then 0.0 else SumBalances(records[..|records| - 1]) + records[|records| - 1].balance
  }

  /** The average daily balance, rounded to cents; zero when there are no records. */
  function AverageDailyBalance(records: seq<DailyBalanceRecord>): real
  {
    if |records| == 0 then 0.0 else Round2(SumBalances(records) / |records| as real)
  }

  /** Sums the daily balances in one pass and averages them. */
  method CalculateAverageDailyBalance(records: seq<DailyBalanceRecord>) returns (adb: real)
    ensures adb == AverageDailyBalance(records)
  {
    if |records| == 0 {
      return 0.0;
    }
    var totalBalance := 0.0;
    var i := 0;
    while i < |records|
      invariant 0 <= i <= |records|
      invariant totalBalance == SumBalances(records[..i])
    {
      assert records[..i + 1][..i] == records[..i];
      totalBalance := totalBalance + records[i].balance;
      i := i + 1;
    }
    assert records[..i] == records;
    adb := Round2(totalBalance / |records| as real);
  }

  /** The sum of `n` copies of one balance. */
  lemma {:induction false} SumOfConstant(records: seq<DailyBalanceRecord>, c: real)
    requires forall i :: 0 <= i < |records| ==> records[i].balance == c
    ensures SumBalances(records) == |records| as real * c
  {
    if |records| > 0 {
      SumOfConstant(records[..|records| - 1], c);
    }
  }

  /** A balance that never changes is its own average, once it is a whole number of cents. */
  lemma ConstantAverage(records: seq<DailyBalanceRecord>, cents: int)
    requires |records| > 0
    requires forall i :: 0 <= i < |records| ==> records[i].balance == cents as real / 100.0
    ensures AverageDailyBalance(records) == cents as real / 100.0
  {
    var c := cents as real / 100.0;
    var n := |records| as real;
    SumOfConstant(records, c);
    assert n > 0.0 && SumBalances(records) == n * c;
    assert (n * c) / n == c;
    Round2Cents(cents);
  }

  /** The unrounded average lies between the smallest and the largest daily balance. */
  lemma {:induction false} SumBetween(records: seq<DailyBalanceRecord>, lo: real, hi: real)
    requires forall i :: 0 <= i < |records| ==> lo <= records[i].balance <= hi
    ensures |records| as real * lo <= SumBalances(records) <= |records| as real * hi
  {
    if |records| > 0 {
      SumBetween(records[..|records| - 1], lo, hi);
    }
  }

  /** The average of balances that all lie in [lo, hi] lies within half a cent of that range. */
  lemma AverageBetween(records: seq<DailyBalanceRecord>, lo: real, hi: real)
    requires |records| > 0
    requires forall i :: 0 <= i < |records| ==> lo <= records[i].balance <= hi
    ensures lo - 0.005 <= AverageDailyBalance(records) <= hi + 0.005
  {
    SumBetween(records, lo, hi);
    var n := |records| as real;
    var avg := SumBalances(records) / n;
    assert n * lo <= n * avg <= n * hi;
  }

  /** A summary view of one cycle at a given moment. */
  datatype BillingCycleSummary = BillingCycleSummary(
    cycleId: nat,
    cycleNumber: int,
    cycleType: CycleType,
    startDate: Time,
    endDate: Time,
    dueDate: Time,
    statementBalance: real,
    minimumPayment: real,
    paymentsMade: real,
    remainingBalance: real,
    status: CycleStatus,
    daysUntilDue: int,
    daysOverdue: int)

  /**
   * The cycle's summary at `currentDate`: whole days until the due date
   * before it, days overdue from the due date on.
   */
  function ToSummary(bc: BillingCycle, currentDate: Time): (s: BillingCycleSummary)
    ensures s.cycleId == bc.id && s.cycleNumber == bc.cycleNumber && s.cycleType == bc.cycleType
    ensures s.startDate == bc.cycleStartDate && s.endDate == bc.cycleEndDate && s.dueDate == bc.dueDate
    ensures s.statementBalance == bc.newBalance && s.minimumPayment == bc.minimumPayment
    ensures s.paymentsMade == bc.paymentsMade && s.status == bc.status
    ensures s.remainingBalance == RemainingBalance(bc)
    ensures currentDate < bc.dueDate ==>
      s.daysOverdue == 0 && s.daysUntilDue >= 0 && 24 * s.daysUntilDue <= bc.dueDate - currentDate < 24 * s.daysUntilDue + 24
    ensures currentDate >= bc.dueDate ==> s.daysUntilDue == 0 && s.daysOverdue == DaysOverdue(bc, currentDate)
    ensures s.daysOverdue >= 0 && s.daysUntilDue >= 0
  {
    var s := BillingCycleSummary(
      bc.id, bc.cycleNumber, bc.cycleType, bc.cycleStartDate, bc.cycleEndDate, bc.dueDate,
      bc.newBalance, bc.minimumPayment, bc.paymentsMade, RemainingBalance(bc), bc.status, 0, 0);
    if currentDate < bc.dueDate then s.(daysUntilDue := WholeDays(bc.dueDate, currentDate))
    else s.(daysOverdue := DaysOverdue(bc, currentDate))
  }

  /**
   * A fresh cycle for a card, as its builder assembles it: open, with the
   * card's cycle type, the given dates, carried balance and APR, the days
   * from start to end counted inclusively, and every amount zero.
   */
  function NewBillingCycle(
    id: nat, card: CreditCard, cycleNumber: int,
    start: Time, end: Time, due: Time, graceEnd: Time,
    previousBalance: real, apr: real, now: Time): (bc: BillingCycle)
    ensures bc.status == Open && bc.id == id
    ensures bc.creditCardId == card.id && bc.tenantId == card.tenantId && bc.cycleType == card.billingCycleType
    ensures bc.cycleNumber == cycleNumber
    ensures bc.cycleStartDate == start && bc.cycleEndDate == end && bc.dueDate == due && bc.gracePeriodEnd == graceEnd
    ensures end >= start ==> 24 * (bc.daysInCycle - 1) <= end - start < 24 * bc.daysInCycle
    ensures bc.previousBalance == previousBalance && bc.aprApplied == apr
    ensures Credits(bc) == 0.0 && Debits(bc) == previousBalance && bc.paymentsMade == 0.0
    ensures bc.paymentsReceived == 0.0 && bc.refundsAmount == 0.0 && bc.cashbackRedeemed == 0.0
    ensures bc.purchasesAmount == 0.0 && bc.cashAdvancesAmount == 0.0 && bc.feesAmount == 0.0
    ensures bc.interestAmount == 0.0 && bc.adjustmentsAmount == 0.0 && bc.cashbackEarned == 0.0
    ensures bc.newBalance == 0.0 && bc.minimumPayment == 0.0 && bc.averageDailyBalance == 0.0
    ensures bc.lastPaymentAmount == 0.0 && bc.statementDate == 0
    ensures !bc.minimumPaymentMet && bc.closedAt.None? && bc.lastPaymentDate.None?
    ensures bc.createdAt == now && bc.updatedAt == now
  {
    BillingCycle(
      id, card.id, card.tenantId, cycleNumber, card.billingCycleType,
      start, end, 0, due, graceEnd,
      previousBalance, 0.0, 0.0, 0.0, 0.0, 0.0, 0.0, 0.0, 0.0, 0.0,
      0.0, 0.0, 0.0, WholeDays(end, start) + 1, apr,
      0.0, None, 0.0, false, Open, now, now, None)
  }
}
