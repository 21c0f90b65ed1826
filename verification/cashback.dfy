/**
 * The cashback ledger's entries, bonus categories and the earning rule
 * that turns a purchase into a cashback amount.
 */
module Cashback {
  import opened Wrappers
  import opened Money
  import opened Calendar

  datatype CashbackEntryType =
    | Earned
    | EarnedRefund
    | Redeemed
    | RedeemedCancelled
    | Expired
    | CashbackAdjustment
    | UnknownCashbackType(name: string)

  /** One ledger row; the amount carries its own sign (earnings positive, deductions negative). */
  datatype CashbackEntry = CashbackEntry(
    id: nat,
    tenantId: nat,
    creditCardId: nat,
    statementEntryId: Option<nat>,
    entryType: CashbackEntryType,
    entryDate: Time,
    amount: real,
    description: string,
    referenceId: Option<string>,
    transactionAmount: Option<real>,
    cashbackRate: Option<real>,
    categoryBonus: Option<real>,
    createdAt: Time,
    createdBy: Option<string>,
    /** The `merchant_category` key of the row's metadata; only earned rows set it. */
    merchantCategory: Option<string>)

  predicate IsEarning(e: CashbackEntry)
  {
    e.entryType == Earned || e.entryType == RedeemedCancelled
  }

  predicate IsDeduction(e: CashbackEntry)
  {
    e.entryType == Redeemed || e.entryType == EarnedRefund || e.entryType == Expired
  }

  function SignedAmount(e: CashbackEntry): (r: real)
    ensures r == e.amount
  {
    e.amount
  }

  /** Earning and deduction types never overlap; a manual adjustment is neither. */
  lemma EarningDeductionDisjoint(e: CashbackEntry)
    ensures !(IsEarning(e) && IsDeduction(e))
    ensures e.entryType == CashbackAdjustment ==> !IsEarning(e) && !IsDeduction(e)
  {
  }

  /** A bonus-rate category (a merchant category code or name) for one card. */
  datatype CashbackCategory = CashbackCategory(
    id: nat,
    creditCardId: nat,
    categoryCode: string,
    categoryName: string,
    bonusRate: real,
    maxBonus: Option<real>,
    isActive: bool,
    startDate: Option<Time>,
    endDate: Option<Time>)

  /** An active category applies from its start to its end, both included. */
  function IsActiveOn(c: CashbackCategory, date: Time): (r: bool)
    ensures r <==>
      && c.isActive
      && (c.startDate.Some? ==> c.startDate.value <= date)
      && (c.endDate.Some? ==> date <= c.endDate.value)
  {
    if !c.isActive then false
    else if c.startDate.Some? && date < c.startDate.value then false
    else if c.endDate.Some? && date > c.endDate.value then false
    else true
  }

  datatype CashbackEarningRule = CashbackEarningRule(
    baseRate: real,
    minTransaction: real,
    maxCashbackPerTx: Option<real>,
    categoryRules: map<string, CashbackCategory>)

  /** The cashback on a purchase and the rate it was earned at. */
  datatype Earning = Earning(cashback: real, rate: real)

  /** Whether the purchase's category has a bonus in force on that date. */
  predicate CategoryActive(rule: CashbackEarningRule, categoryCode: string, date: Time)
  {
    categoryCode in rule.categoryRules && IsActiveOn(rule.categoryRules[categoryCode], date)
  }

  /** The base rate, raised to the category's bonus rate when that category is active and pays more. */
  function EarningRate(rule: CashbackEarningRule, categoryCode: string, date: Time): (rate: real)
    ensures CategoryActive(rule, categoryCode, date) ==>
      rate == Max(rule.baseRate, rule.categoryRules[categoryCode].bonusRate)
    ensures !CategoryActive(rule, categoryCode, date) ==> rate == rule.baseRate
  {
    if categoryCode in rule.categoryRules && IsActiveOn(rule.categoryRules[categoryCode], date)
       && rule.categoryRules[categoryCode].bonusRate > rule.baseRate
    then rule.categoryRules[categoryCode].bonusRate
    else rule.baseRate
  }

  /**
   * Cashback on a purchase: nothing below the minimum purchase, otherwise
   * the rate's percentage of the amount rounded to cents, lowered to the
   * per-purchase cap when one is set.
   */
  function CalculateCashback(rule: CashbackEarningRule, amount: real, categoryCode: string, date: Time): (r: Earning)
    ensures amount < rule.minTransaction ==> r == Earning(0.0, 0.0)
    ensures amount >= rule.minTransaction ==>
      && r.rate == EarningRate(rule, categoryCode, date)
      && (rule.maxCashbackPerTx.None? ==> r.cashback == Round2(PercentOf(amount, r.rate)))
      && (rule.maxCashbackPerTx.Some? ==>
            && r.cashback <= rule.maxCashbackPerTx.value
            && r.cashback <= Round2(PercentOf(amount, r.rate))
            && (r.cashback == rule.maxCashbackPerTx.value || r.cashback == Round2(PercentOf(amount, r.rate))))
  {
    if amount < rule.minTransaction then Earning(0.0, 0.0)
    else
      var rate := EarningRate(rule, categoryCode, date);
      var cashback := Round2(PercentOf(amount, rate));
      if rule.maxCashbackPerTx.Some? && cashback > rule.maxCashbackPerTx.value
      then Earning(rule.maxCashbackPerTx.value, rate)
      else Earning(cashback, rate)
  }

  /** The standard rule: the card's base rate from one cent upward, no cap and no categories. */
  function DefaultCashbackRule(baseRate: real): (r: CashbackEarningRule)
    ensures r.baseRate == baseRate && r.minTransaction == 0.01
    ensures r.maxCashbackPerTx.None? && r.categoryRules == map[]
  {
    CashbackEarningRule(baseRate, 0.01, None, map[])
  }

  /** Under the standard rule every purchase of a cent or more earns the base rate, whatever its category. */
  lemma DefaultRuleEarnsBaseRate(baseRate: real, amount: real, categoryCode: string, date: Time)
    requires amount >= 0.01
    ensures CalculateCashback(DefaultCashbackRule(baseRate), amount, categoryCode, date)
      == Earning(Round2(PercentOf(amount, baseRate)), baseRate)
  {
  }

  /** A half cent rounds away from zero: five dollars at 1.5% earn eight cents. */
  lemma FiveDollarsAtOneAndAHalfPercent(categoryCode: string, date: Time)
    ensures CalculateCashback(DefaultCashbackRule(1.5), 5.0, categoryCode, date) == Earning(0.08, 1.5)
  {
    DefaultRuleEarnsBaseRate(1.5, 5.0, categoryCode, date);
    assert PercentOf(5.0, 1.5) == 0.075;
    Round2HalfCent();
  }

  /** With non-negative amount and rates the cashback is non-negative and no larger than the unrounded share plus half a cent. */
  lemma CashbackBounds(rule: CashbackEarningRule, amount: real, categoryCode: string, date: Time)
    requires amount >= 0.0 && rule.baseRate >= 0.0
    requires rule.maxCashbackPerTx.Some? ==> rule.maxCashbackPerTx.value >= 0.0
    ensures var r := CalculateCashback(rule, amount, categoryCode, date);
      0.0 <= r.cashback <= PercentOf(amount, r.rate) + 0.005
  {
    var r := CalculateCashback(rule, amount, categoryCode, date);
    if amount >= rule.minTransaction {
      assert r.rate >= 0.0;
    }
  }
}
