/**
 * The cashback service: earning on a purchase, clawing back on a refund,
 * redeeming (optionally as a statement credit), the balance and the
 * per-period statement figures.
 */
module CashbackService {
  import opened Wrappers
  import opened Money
  import opened Calendar
  import SL = StatementLedger
  import StatementLedgerService
  import opened Cashback
  import opened CreditCards
  import opened Store

  datatype CashbackError =
    | CardNotFound(cardId: nat)
    | InsufficientCashback(available: real, requested: real)
    | BelowRedemptionMinimum(minimum: real)

  // ---------------------------------------------------------------------------
  // The earning rule of a card

  /** A category row that feeds a card's rule: one of the card's categories that is switched on. */
  predicate Feeds(c: CashbackCategory, cardId: nat)
  {
    c.creditCardId == cardId && c.isActive
  }

  /** The card's categories keyed by code; a later row with the same code replaces an earlier one. */
  function CategoryMap(categories: seq<CashbackCategory>, cardId: nat): map<string, CashbackCategory>
  {
    if |categories| == 0 then map[]
    else
      var c := categories[|categories| - 1];
      var m := CategoryMap(categories[..|categories| - 1], cardId);
      if Feeds(c, cardId) then m[c.categoryCode := c] else m
  }

  /**
   * A code is in the map exactly when some active row of the card has it,
   * and it maps to the last such row.
   */
  lemma {:induction false} CategoryMapLastWins(categories: seq<CashbackCategory>, cardId: nat, code: string)
    ensures code in CategoryMap(categories, cardId) <==>
      exists i :: 0 <= i < |categories| && Feeds(categories[i], cardId) && categories[i].categoryCode == code
    ensures code in CategoryMap(categories, cardId) ==>
      exists i :: && 0 <= i < |categories| && categories[i] == CategoryMap(categories, cardId)[code]
                  && Feeds(categories[i], cardId) && categories[i].categoryCode == code
                  && forall j :: i < j < |categories| ==> !(Feeds(categories[j], cardId) && categories[j].categoryCode == code)
  {
    if |categories| > 0 {
      var n := |categories| - 1;
      var init := categories[..n];
      CategoryMapLastWins(init, cardId, code);
      if exists i :: 0 <= i < |init| && Feeds(init[i], cardId) && init[i].categoryCode == code {
        var i :| 0 <= i < |init| && Feeds(init[i], cardId) && init[i].categoryCode == code;
        assert categories[i] == init[i];
      }
      if exists i :: 0 <= i < |categories| && Feeds(categories[i], cardId) && categories[i].categoryCode == code {
        var i :| 0 <= i < |categories| && Feeds(categories[i], cardId) && categories[i].categoryCode == code;
        if i < n {
          assert init[i] == categories[i];
        }
      }
      if code in CategoryMap(categories, cardId) && !(Feeds(categories[n], cardId) && categories[n].categoryCode == code) {
        var i :| 0 <= i < |init| && init[i] == CategoryMap(init, cardId)[code]
          && Feeds(init[i], cardId) && init[i].categoryCode == code
          && forall j :: i < j < |init| ==> !(Feeds(init[j], cardId) && init[j].categoryCode == code);
        assert categories[i] == init[i];
        assert forall j :: i < j < |categories| ==> !(Feeds(categories[j], cardId) && categories[j].categoryCode == code) by {
          forall j | i < j < |categories|
            ensures !(Feeds(categories[j], cardId) && categories[j].categoryCode == code)
          {
            if j < n {
              assert categories[j] == init[j];
            }
          }
        }
      }
    }
  }

  /**
   * The card's earning rule: its stored cashback rate from one cent
   * upward, no cap, and its active categories; a card that is not stored
   * has no rule.
   */
  function EarningRule(cards: map<nat, CreditCard>, categories: seq<CashbackCategory>, cardId: nat): (r: Option<CashbackEarningRule>)
    ensures r.None? <==> cardId !in cards
    ensures r.Some? ==> r.value == DefaultCashbackRule(cards[cardId].cashbackRate).(categoryRules := CategoryMap(categories, cardId))
  {
    if cardId !in cards then None
    else Some(CashbackEarningRule(cards[cardId].cashbackRate, 0.01, None, CategoryMap(categories, cardId)))
  }

  /** A card without active categories earns under the standard rule. */
  lemma NoCategoriesMeansDefault(cards: map<nat, CreditCard>, categories: seq<CashbackCategory>, cardId: nat)
    requires cardId in cards
    requires forall i :: 0 <= i < |categories| ==> !Feeds(categories[i], cardId)
    ensures EarningRule(cards, categories, cardId) == Some(DefaultCashbackRule(cards[cardId].cashbackRate))
  {
    var m := CategoryMap(categories, cardId);
    forall code | code in m
      ensures false
    {
      CategoryMapLastWins(categories, cardId, code);
    }
    assert m == map[];
  }

  /** The recorded category bonus: how far the category's rate exceeds the base, when the code has a category and it does. */
  function CategoryBonus(rule: CashbackEarningRule, categoryCode: string): (r: Option<real>)
    ensures r.Some? <==> categoryCode in rule.categoryRules && rule.categoryRules[categoryCode].bonusRate > rule.baseRate
    ensures r.Some? ==> r.value > 0.0 && r.value + rule.baseRate == rule.categoryRules[categoryCode].bonusRate
  {
    if categoryCode in rule.categoryRules && rule.categoryRules[categoryCode].bonusRate - rule.baseRate > 0.0
    then Some(rule.categoryRules[categoryCode].bonusRate - rule.baseRate)
    else None
  }

  // ---------------------------------------------------------------------------
  // Earning

  /** The earned entry for a purchase, before it gets its id. */
  function EarnedEntry(tenant: nat, cardId: nat, statementEntryId: nat, date: Time, amount: real,
                       earning: Earning, bonus: Option<real>, categoryCode: string, now: Time): (e: CashbackEntry)
    ensures e.entryType == Earned && IsEarning(e) && !IsDeduction(e)
    ensures e.amount == earning.cashback && e.statementEntryId == Some(statementEntryId)
    ensures e.transactionAmount == Some(amount) && e.merchantCategory == Some(categoryCode)
  {
    CashbackEntry(0, tenant, cardId, Some(statementEntryId), Earned, date, earning.cashback, "",
                  None, Some(amount), Some(earning.rate), bonus, now, None, Some(categoryCode))
  }

  /**
   * Records the cashback a purchase earns. A card with cashback switched
   * off earns nothing and reads nothing; a card that is not stored is an
   * error; a purchase whose cashback comes to zero or less writes
   * nothing; otherwise exactly one earned entry is appended, linked to the
   * purchase's statement entry and carrying the computed amount and rate.
   */
  method EarnCashback(db: Database, tenant: nat, card: CreditCard, amount: real, date: Time,
                      statementEntryId: nat, categoryCode: string, now: Time)
    returns (r: Result<Option<CashbackEntry>, CashbackError>)
    modifies db`cashback, db`lastId
    ensures !card.cashbackEnabled ==> r == Ok(None)
    ensures card.cashbackEnabled && card.id !in db.cards ==> r == Err(CardNotFound(card.id))
    ensures r.Err? || r.value.None? ==> db.cashback == old(db.cashback) && db.lastId == old(db.lastId)
    ensures r.Ok? && r.value.Some? ==>
      && card.cashbackEnabled
      && var rule := EarningRule(db.cards, db.categories, card.id).value;
         var earning := CalculateCashback(rule, amount, categoryCode, date);
         && earning.cashback > 0.0
         && r.value.value == EarnedEntry(tenant, card.id, statementEntryId, date, amount, earning,
                                         CategoryBonus(rule, categoryCode), categoryCode, now).(id := db.lastId)
         && db.cashback == old(db.cashback) + [r.value.value]
    ensures card.cashbackEnabled && card.id in db.cards ==>
      (r == Ok(None) <==> CalculateCashback(EarningRule(db.cards, db.categories, card.id).value, amount, categoryCode, date).cashback <= 0.0)
  {
    if !card.cashbackEnabled {
      return Ok(None);
    }
    var found := EarningRule(db.cards, db.categories, card.id);
    if found.None? {
      return Err(CardNotFound(card.id));
    }
    var rule := found.value;
    var earning := CalculateCashback(rule, amount, categoryCode, date);
    if earning.cashback <= 0.0 {
      return Ok(None);
    }
    var id := db.FreshId();
    var entry := EarnedEntry(tenant, card.id, statementEntryId, date, amount, earning, CategoryBonus(rule, categoryCode), categoryCode, now).(id := id);
    db.cashback := db.cashback + [entry];
    return Ok(Some(entry));
  }

  // ---------------------------------------------------------------------------
  // Refunds

  /** The first cashback entry linked to the statement entry, whatever its type or card. */
  function FindByStatementEntry(entries: seq<CashbackEntry>, statementEntryId: nat): (r: Option<CashbackEntry>)
    ensures r.None? <==> forall i :: 0 <= i < |entries| ==> entries[i].statementEntryId != Some(statementEntryId)
    ensures r.Some? ==>
      exists i :: && 0 <= i < |entries| && entries[i] == r.value
                  && r.value.statementEntryId == Some(statementEntryId)
                  && forall j :: 0 <= j < i ==> entries[j].statementEntryId != Some(statementEntryId)
  {
    if |entries| == 0 then None
    else if entries[0].statementEntryId == Some(statementEntryId) then Some(entries[0])
    else
      var r := FindByStatementEntry(entries[1..], statementEntryId);
      assert forall i :: 1 <= i < |entries| ==> entries[i] == entries[1..][i - 1];
      r
  }

  /**
   * The cashback taken back for a refund: the original cashback scaled by
   * the refunded share of the purchase and rounded to cents, or all of it
   * when the purchase amount was not recorded or is zero; never more than
   * the original cashback.
   */
  function RefundDeduction(original: CashbackEntry, refund: real): (d: real)
    ensures d <= original.amount
    ensures (original.transactionAmount.None? || original.transactionAmount.value == 0.0) ==> d == original.amount
    ensures original.transactionAmount.Some? && original.transactionAmount.value != 0.0 ==>
      d == Min(original.amount, Round2(original.amount * (refund / original.transactionAmount.value)))
  {
    var d := if original.transactionAmount.Some? && original.transactionAmount.value != 0.0
             then Round2(original.amount * (refund / original.transactionAmount.value))
             else original.amount;
    if d > original.amount then original.amount else d
  }

  /** Refunding a whole purchase takes back the whole (whole-cent) cashback it earned. */
  lemma FullRefundTakesAll(original: CashbackEntry, cents: int)
    requires original.transactionAmount.Some? && original.transactionAmount.value != 0.0
    requires original.amount == cents as real / 100.0
    ensures RefundDeduction(original, original.transactionAmount.value) == original.amount
  {
    var tx := original.transactionAmount.value;
    assert tx / tx == 1.0;
    assert original.amount * (tx / tx) == original.amount;
    Round2Cents(cents);
  }

  /** A partial refund of a positive purchase never takes back a negative amount. */
  lemma DeductionNonNegative(original: CashbackEntry, refund: real)
    requires original.amount >= 0.0 && refund >= 0.0
    requires original.transactionAmount.Some? && original.transactionAmount.value > 0.0
    ensures 0.0 <= RefundDeduction(original, refund) <= original.amount
  {
    var tx := original.transactionAmount.value;
    assert refund / tx >= 0.0;
    assert original.amount * (refund / tx) >= 0.0;
  }

  /** The claw-back entry for a refund, before it gets its id: minus the deduction, linked to the refund's statement entry. */
  function RefundEntry(tenant: nat, cardId: nat, refundEntryId: nat, date: Time, refund: real,
                       original: CashbackEntry, now: Time): (e: CashbackEntry)
    ensures e.entryType == EarnedRefund && IsDeduction(e)
    ensures e.amount == -RefundDeduction(original, refund) && e.statementEntryId == Some(refundEntryId)
  {
    CashbackEntry(0, tenant, cardId, Some(refundEntryId), EarnedRefund, date, -RefundDeduction(original, refund), "",
                  None, Some(refund), original.cashbackRate, None, now, None, None)
  }

  /**
   * Takes back cashback for a refunded purchase: nothing when no cashback
   * entry is linked to the original purchase's statement entry, otherwise
   * one earned-refund entry of minus the deduction.
   */
  method AdjustCashbackForRefund(db: Database, tenant: nat, card: CreditCard, refund: real, date: Time,
                                 originalEntryId: nat, refundEntryId: nat, now: Time)
    returns (r: Option<CashbackEntry>)
    modifies db`cashback, db`lastId
    ensures r.None? <==> FindByStatementEntry(old(db.cashback), originalEntryId).None?
    ensures r.None? ==> db.cashback == old(db.cashback) && db.lastId == old(db.lastId)
    ensures r.Some? ==>
      && r.value == RefundEntry(tenant, card.id, refundEntryId, date, refund,
                                FindByStatementEntry(old(db.cashback), originalEntryId).value, now).(id := db.lastId)
      && db.cashback == old(db.cashback) + [r.value]
  {
    var original := FindByStatementEntry(db.cashback, originalEntryId);
    if original.None? {
      return None;
    }
    var id := db.FreshId();
    var entry := RefundEntry(tenant, card.id, refundEntryId, date, refund, original.value, now).(id := id);
    db.cashback := db.cashback + [entry];
    return Some(entry);
  }

  // ---------------------------------------------------------------------------
  // Balance and redemption

  /** A card's available cashback: the plain sum of the amounts of its entries. */
  function CashbackBalance(entries: seq<CashbackEntry>, cardId: nat): real
  {
    if |entries| == 0 then 0.0
    else
      var e := entries[|entries| - 1];
      CashbackBalance(entries[..|entries| - 1], cardId) + (if e.creditCardId == cardId then SignedAmount(e) else 0.0)
  }

  lemma CashbackBalanceAppend(entries: seq<CashbackEntry>, e: CashbackEntry, cardId: nat)
    ensures e.creditCardId == cardId ==> CashbackBalance(entries + [e], cardId) == CashbackBalance(entries, cardId) + e.amount
    ensures e.creditCardId != cardId ==> CashbackBalance(entries + [e], cardId) == CashbackBalance(entries, cardId)
  {
    assert (entries + [e])[..|entries|] == entries;
  }

  /** Why a redemption is refused, if it is: the balance check comes before the minimum check. */
  function RedemptionCheck(available: real, minimum: real, amount: real): (r: Option<CashbackError>)
    ensures r.None? <==> minimum <= amount <= available
    ensures amount > available ==> r == Some(InsufficientCashback(available, amount))
    ensures amount <= available && amount < minimum ==> r == Some(BelowRedemptionMinimum(minimum))
  {
    if amount > available then Some(InsufficientCashback(available, amount))
    else if amount < minimum then Some(BelowRedemptionMinimum(minimum))
    else None
  }

  /** A redemption that passes the check leaves the card's balance non-negative. */
  lemma RedemptionKeepsBalance(entries: seq<CashbackEntry>, cardId: nat, minimum: real, amount: real, e: CashbackEntry)
    requires e.creditCardId == cardId && e.amount == -amount
    requires RedemptionCheck(CashbackBalance(entries, cardId), minimum, amount).None?
    ensures CashbackBalance(entries + [e], cardId) == CashbackBalance(entries, cardId) - amount >= 0.0
  {
    CashbackBalanceAppend(entries, e, cardId);
  }

  datatype Redemption = Redemption(cashbackEntry: CashbackEntry, statementEntry: Option<SL.StatementEntry>)

  const StatementCredit: string := "statement_credit"

  /**
   * Redeems cashback. It fails, writing nothing, when the amount exceeds
   * the card's balance or is under the card's redemption minimum.
   * Otherwise it appends one redeemed entry of minus the amount; when
   * redeemed as a statement credit it also appends a pending
   * cashback-redeemed statement entry of the amount, and links the
   * returned cashback entry (not the stored one) to it.
   */
  method RedeemCashback(db: Database, tenant: nat, card: CreditCard, amount: real, date: Time,
                        redeemAs: string, now: Time) returns (r: Result<Redemption, CashbackError>)
    modifies db`cashback, db`statement, db`lastId
    ensures r.Err? <==> RedemptionCheck(CashbackBalance(old(db.cashback), card.id), card.cashbackRedemptionMin, amount).Some?
    ensures r.Err? ==> r.error == RedemptionCheck(CashbackBalance(old(db.cashback), card.id), card.cashbackRedemptionMin, amount).value
    ensures r.Err? ==> db.cashback == old(db.cashback) && db.statement == old(db.statement) && db.lastId == old(db.lastId)
    ensures r.Ok? ==>
      && var stored := r.value.cashbackEntry.(statementEntryId := None);
         && db.cashback == old(db.cashback) + [stored]
         && stored.entryType == Redeemed && stored.amount == -amount && stored.creditCardId == card.id
         && CashbackBalance(db.cashback, card.id) == CashbackBalance(old(db.cashback), card.id) - amount >= 0.0
    ensures r.Ok? && redeemAs == StatementCredit ==>
      && r.value.statementEntry.Some?
      && var s := r.value.statementEntry.value;
         && db.statement == old(db.statement) + [s]
         && s.entryType == SL.CashbackRedeemed && s.amount == amount && s.status == SL.Pending
         && s.postingDate == date && s.tenantId == tenant
         && r.value.cashbackEntry.statementEntryId == Some(s.id)
    ensures r.Ok? && redeemAs != StatementCredit ==>
      r.value.statementEntry.None? && db.statement == old(db.statement) && r.value.cashbackEntry.statementEntryId.None?
  {
    var available := CashbackBalance(db.cashback, card.id);
    var check := RedemptionCheck(available, card.cashbackRedemptionMin, amount);
    if check.Some? {
      return Err(check.value);
    }
    var id := db.FreshId();
    var entry := CashbackEntry(id, tenant, card.id, None, Redeemed, date, -amount, "", None, None, None, None, now, None, None);
    db.cashback := db.cashback + [entry];
    CashbackBalanceAppend(old(db.cashback), entry, card.id);
    if redeemAs == StatementCredit {
      var credit := SL.StatementEntry(0, tenant, None, SL.CashbackRedeemed, date, date, amount, "", None,
                                      SL.Pending, None, now, None);
      var stored := StatementLedgerService.CreateEntry(db, credit);
      return Ok(Redemption(entry.(statementEntryId := Some(stored.id)), Some(stored)));
    }
    return Ok(Redemption(entry, None));
  }

  // ---------------------------------------------------------------------------
  // The cashback statement of a period

  predicate InPeriod(e: CashbackEntry, cardId: nat, start: Time, end: Time)
  {
    e.creditCardId == cardId && start <= e.entryDate <= end
  }

  /** Cashback earned in the period. */
  function PeriodEarned(entries: seq<CashbackEntry>, cardId: nat, start: Time, end: Time): real
  {
    if |entries| == 0 then 0.0
    else
      var e := entries[|entries| - 1];
      PeriodEarned(entries[..|entries| - 1], cardId, start, end)
        + (if InPeriod(e, cardId, start, end) && e.entryType == Earned then e.amount else 0.0)
  }

  /** Cashback redeemed in the period, counted as a positive amount. */
  function PeriodRedeemed(entries: seq<CashbackEntry>, cardId: nat, start: Time, end: Time): real
  {
    if |entries| == 0 then 0.0
    else
      var e := entries[|entries| - 1];
      PeriodRedeemed(entries[..|entries| - 1], cardId, start, end)
        + (if InPeriod(e, cardId, start, end) && e.entryType == Redeemed then Abs(e.amount) else 0.0)
  }

  /** The purchases that earned cashback in the period; an earned entry without a recorded purchase adds nothing. */
  function PeriodPurchases(entries: seq<CashbackEntry>, cardId: nat, start: Time, end: Time): real
  {
    if |entries| == 0 then 0.0
    else
      var e := entries[|entries| - 1];
      PeriodPurchases(entries[..|entries| - 1], cardId, start, end)
        + (if InPeriod(e, cardId, start, end) && e.entryType == Earned && e.transactionAmount.Some?
           then e.transactionAmount.value else 0.0)
  }

  lemma {:induction false} PeriodRedeemedNonNegative(entries: seq<CashbackEntry>, cardId: nat, start: Time, end: Time)
    ensures PeriodRedeemed(entries, cardId, start, end) >= 0.0
  {
    if |entries| > 0 {
      PeriodRedeemedNonNegative(entries[..|entries| - 1], cardId, start, end);
    }
  }

  datatype CashbackStatement = CashbackStatement(
    cashbackEarned: real,
    cashbackRedeemed: real,
    totalPurchases: real,
    effectiveRate: real,
    endingBalance: real,
    categoryBreakdown: seq<CategoryCashbackSummary>)

  // ---------------------------------------------------------------------------
  // The per-category breakdown: earned rows of the period grouped by the
  // metadata's merchant category, largest cashback first

  /** One group of the breakdown; a row without a category is labelled "unknown". */
  datatype CategoryCashbackSummary = CategoryCashbackSummary(
    categoryCode: string,
    transactionCount: nat,
    totalSpent: real,
    cashbackEarned: real,
    effectiveRate: real)

  /** The rows the breakdown groups: the card's earned rows dated within the period. */
  predicate EarnedInPeriod(e: CashbackEntry, cardId: nat, start: Time, end: Time)
  {
    InPeriod(e, cardId, start, end) && e.entryType == Earned
  }

  predicate Distinct<T(==)>(keys: seq<T>)
  {
    forall i, j :: 0 <= i < j < |keys| ==> keys[i] != keys[j]
  }

  /** The grouping keys, each once, in order of first appearance. */
  function GroupKeys(entries: seq<CashbackEntry>, cardId: nat, start: Time, end: Time): (keys: seq<Option<string>>)
    ensures Distinct(keys)
    ensures forall k :: k in keys <==>
      exists i :: 0 <= i < |entries| && EarnedInPeriod(entries[i], cardId, start, end) && entries[i].merchantCategory == k
  {
    if |entries| == 0 then []
    else
      var prefix := entries[..|entries| - 1];
      var e := entries[|entries| - 1];
      var keys := GroupKeys(prefix, cardId, start, end);
      assert forall i :: 0 <= i < |prefix| ==> prefix[i] == entries[i];
      if EarnedInPeriod(e, cardId, start, end) && e.merchantCategory !in keys then keys + [e.merchantCategory] else keys
  }

  /** `COUNT(*)` of a group. */
  function GroupCount(entries: seq<CashbackEntry>, cardId: nat, start: Time, end: Time, key: Option<string>): nat
  {
    if |entries| == 0 then 0
    else
      var e := entries[|entries| - 1];
      GroupCount(entries[..|entries| - 1], cardId, start, end, key)
        + (if EarnedInPeriod(e, cardId, start, end) && e.merchantCategory == key then 1 else 0)
  }

  /** `SUM(transaction_amount)` of a group; rows without a purchase amount add nothing. */
  function GroupSpent(entries: seq<CashbackEntry>, cardId: nat, start: Time, end: Time, key: Option<string>): real
  {
    if |entries| == 0 then 0.0
    else
      var e := entries[|entries| - 1];
      GroupSpent(entries[..|entries| - 1], cardId, start, end, key)
        + (if EarnedInPeriod(e, cardId, start, end) && e.merchantCategory == key && e.transactionAmount.Some?
           then e.transactionAmount.value else 0.0)
  }

  /** `SUM(amount)` of a group. */
  function GroupEarned(entries: seq<CashbackEntry>, cardId: nat, start: Time, end: Time, key: Option<string>): real
  {
    if |entries| == 0 then 0.0
    else
      var e := entries[|entries| - 1];
      GroupEarned(entries[..|entries| - 1], cardId, start, end, key)
        + (if EarnedInPeriod(e, cardId, start, end) && e.merchantCategory == key then e.amount else 0.0)
  }

  /** The summary of one group, its rate computed like the statement's. */
  function CategorySummary(entries: seq<CashbackEntry>, cardId: nat, start: Time, end: Time, key: Option<string>)
    : (c: CategoryCashbackSummary)
    ensures c.categoryCode == if key.Some? then key.value else "unknown"
    ensures c.effectiveRate == EffectiveRate(c.cashbackEarned, c.totalSpent)
    ensures key !in GroupKeys(entries, cardId, start, end) ==> c.transactionCount == 0 && c.cashbackEarned == 0.0
  {
    AbsentKeyIsEmpty(entries, cardId, start, end, key);
    var spent := GroupSpent(entries, cardId, start, end, key);
    var earned := GroupEarned(entries, cardId, start, end, key);
    CategoryCashbackSummary(if key.Some? then key.value else "unknown",
                            GroupCount(entries, cardId, start, end, key), spent, earned, EffectiveRate(earned, spent))
  }

  /** A key no earned row of the period carries has an empty group. */
  lemma {:induction false} AbsentKeyIsEmpty(entries: seq<CashbackEntry>, cardId: nat, start: Time, end: Time, key: Option<string>)
    ensures key !in GroupKeys(entries, cardId, start, end) ==>
      GroupCount(entries, cardId, start, end, key) == 0 && GroupEarned(entries, cardId, start, end, key) == 0.0
  {
    if |entries| > 0 {
      var prefix := entries[..|entries| - 1];
      AbsentKeyIsEmpty(prefix, cardId, start, end, key);
      if key !in GroupKeys(entries, cardId, start, end) {
        assert forall i :: 0 <= i < |prefix| ==> prefix[i] == entries[i];
        assert key !in GroupKeys(prefix, cardId, start, end);
      }
    }
  }

  function Summaries(entries: seq<CashbackEntry>, cardId: nat, start: Time, end: Time, keys: seq<Option<string>>)
    : (r: seq<CategoryCashbackSummary>)
    ensures |r| == |keys|
    ensures forall i :: 0 <= i < |keys| ==> r[i] == CategorySummary(entries, cardId, start, end, keys[i])
  {
    seq(|keys|, i requires 0 <= i < |keys| => CategorySummary(entries, cardId, start, end, keys[i]))
  }

  /** Each summary earns at least as much as the next. */
  predicate EarnedDescending(s: seq<CategoryCashbackSummary>)
  {
    forall i :: 0 < i < |s| ==> s[i - 1].cashbackEarned >= s[i].cashbackEarned
  }

  /** Puts `x` before the first summary that earns no more than it. */
  function InsertByEarned(x: CategoryCashbackSummary, s: seq<CategoryCashbackSummary>): (r: seq<CategoryCashbackSummary>)
    ensures multiset(r) == multiset(s) + multiset{x}
    ensures |r| > 0 && (r[0] == x || (|s| > 0 && r[0] == s[0]))
    ensures EarnedDescending(s) ==> EarnedDescending(r)
  {
    if |s| == 0 || x.cashbackEarned >= s[0].cashbackEarned then [x] + s
    else
      assert s == [s[0]] + s[1..];
      var t := InsertByEarned(x, s[1..]);
      assert EarnedDescending(s) ==> EarnedDescending(s[1..]) by {
        if EarnedDescending(s) {
          forall i | 0 < i < |s[1..]| ensures s[1..][i - 1].cashbackEarned >= s[1..][i].cashbackEarned {
            assert s[1..][i - 1] == s[i] && s[1..][i] == s[i + 1];
          }
        }
      }
      [s[0]] + t
  }

  /** `ORDER BY cashback_earned DESC`, stable among equal earnings. */
  function SortByEarned(s: seq<CategoryCashbackSummary>): (r: seq<CategoryCashbackSummary>)
    ensures multiset(r) == multiset(s)
    ensures EarnedDescending(r)
  {
    if |s| == 0 then []
    else
      assert s == [s[0]] + s[1..];
      InsertByEarned(s[0], SortByEarned(s[1..]))
  }

  /** Adjacent order is the whole order: no summary earns more than one before it. */
  lemma {:induction false} DescendingEverywhere(s: seq<CategoryCashbackSummary>)
    requires EarnedDescending(s)
    ensures forall i, j :: 0 <= i < j < |s| ==> s[i].cashbackEarned >= s[j].cashbackEarned
  {
    if |s| > 1 {
      var t := s[1..];
      forall i | 0 < i < |t| ensures t[i - 1].cashbackEarned >= t[i].cashbackEarned {
        assert t[i - 1] == s[i] && t[i] == s[i + 1];
      }
      DescendingEverywhere(t);
      forall i, j | 0 <= i < j < |s| ensures s[i].cashbackEarned >= s[j].cashbackEarned {
        if i > 0 {
          assert s[i] == t[i - 1] && s[j] == t[j - 1];
        } else if j > 1 {
          assert s[j] == t[j - 1] && s[1] == t[0];
        }
      }
    }
  }

  /** The breakdown: one summary per grouping key, largest cashback first. */
  function CategoryBreakdown(entries: seq<CashbackEntry>, cardId: nat, start: Time, end: Time)
    : (r: seq<CategoryCashbackSummary>)
    ensures EarnedDescending(r)
    ensures multiset(r) == multiset(Summaries(entries, cardId, start, end, GroupKeys(entries, cardId, start, end)))
  {
    SortByEarned(Summaries(entries, cardId, start, end, GroupKeys(entries, cardId, start, end)))
  }

  /** The groups' earnings added up over a list of keys. */
  function SumOfGroups(entries: seq<CashbackEntry>, cardId: nat, start: Time, end: Time, keys: seq<Option<string>>): real
  {
    if |keys| == 0 then 0.0
    else SumOfGroups(entries, cardId, start, end, keys[..|keys| - 1]) + GroupEarned(entries, cardId, start, end, keys[|keys| - 1])
  }

  /** One more row moves the sum over distinct keys by its amount exactly when it belongs to one of them. */
  lemma {:induction false} SumOfGroupsStep(entries: seq<CashbackEntry>, e: CashbackEntry, cardId: nat, start: Time, end: Time,
                                           keys: seq<Option<string>>)
    requires Distinct(keys)
    ensures SumOfGroups(entries + [e], cardId, start, end, keys)
         == SumOfGroups(entries, cardId, start, end, keys)
            + (if EarnedInPeriod(e, cardId, start, end) && e.merchantCategory in keys then e.amount else 0.0)
  {
    if |keys| > 0 {
      var init := keys[..|keys| - 1];
      var k := keys[|keys| - 1];
      assert Distinct(init);
      SumOfGroupsStep(entries, e, cardId, start, end, init);
      assert (entries + [e])[..|entries + [e]| - 1] == entries;
      assert e.merchantCategory in keys <==> e.merchantCategory in init || e.merchantCategory == k by {
        assert keys == init + [k];
      }
      assert k !in init;
    }
  }

  /** The breakdown's groups together hold all the cashback earned in the period. */
  lemma {:induction false} GroupsCoverEarnings(entries: seq<CashbackEntry>, cardId: nat, start: Time, end: Time)
    ensures SumOfGroups(entries, cardId, start, end, GroupKeys(entries, cardId, start, end))
         == PeriodEarned(entries, cardId, start, end)
  {
    if |entries| > 0 {
      var prefix := entries[..|entries| - 1];
      var e := entries[|entries| - 1];
      assert entries == prefix + [e];
      var keys := GroupKeys(prefix, cardId, start, end);
      GroupsCoverEarnings(prefix, cardId, start, end);
      SumOfGroupsStep(prefix, e, cardId, start, end, keys);
      if EarnedInPeriod(e, cardId, start, end) && e.merchantCategory !in keys {
        var c := e.merchantCategory;
        assert GroupKeys(entries, cardId, start, end) == keys + [c];
        assert (keys + [c])[..|keys + [c]| - 1] == keys;
        AbsentKeyIsEmpty(prefix, cardId, start, end, c);
      }
    }
  }

  /** Earned cashback as a percentage of the purchases, rounded to two places; zero when there were no purchases. */
  function EffectiveRate(earned: real, purchases: real): (r: real)
    ensures purchases <= 0.0 ==> r == 0.0
    ensures purchases > 0.0 ==> r == Round2(earned / purchases * 100.0)
    ensures purchases > 0.0 && earned >= 0.0 ==> r >= 0.0
  {
    if purchases > 0.0 then Round2(earned / purchases * 100.0) else 0.0
  }

  /** When every purchase earned the same percentage, the effective rate is that percentage to two places. */
  lemma UniformRate(earned: real, purchases: real, rate: real)
    requires purchases > 0.0 && earned == PercentOf(purchases, rate)
    ensures EffectiveRate(earned, purchases) == Round2(rate)
  {
    assert earned * 100.0 == purchases * rate;
    assert earned / purchases * 100.0 == rate;
  }

  /**
   * The statement of a period: its earned, redeemed and purchase totals,
   * the effective rate, the card's whole balance and the category breakdown.
   */
  function GetCashbackStatement(entries: seq<CashbackEntry>, cardId: nat, start: Time, end: Time): (s: CashbackStatement)
    ensures s.cashbackEarned == PeriodEarned(entries, cardId, start, end)
    ensures s.cashbackRedeemed == PeriodRedeemed(entries, cardId, start, end) && s.cashbackRedeemed >= 0.0
    ensures s.totalPurchases == PeriodPurchases(entries, cardId, start, end)
    ensures s.effectiveRate == EffectiveRate(s.cashbackEarned, s.totalPurchases)
    ensures s.endingBalance == CashbackBalance(entries, cardId)
    ensures EarnedDescending(s.categoryBreakdown)
    ensures multiset(s.categoryBreakdown) == multiset(Summaries(entries, cardId, start, end, GroupKeys(entries, cardId, start, end)))
  {
    PeriodRedeemedNonNegative(entries, cardId, start, end);
    var earned := PeriodEarned(entries, cardId, start, end);
    var purchases := PeriodPurchases(entries, cardId, start, end);
    CashbackStatement(earned, PeriodRedeemed(entries, cardId, start, end), purchases,
                      EffectiveRate(earned, purchases), CashbackBalance(entries, cardId),
                      CategoryBreakdown(entries, cardId, start, end))
  }
}
