/**
 * The rewards-points ledger's entries and the rule that turns a purchase
 * amount into points.
 */
module PointsLedger {
  import opened Wrappers
  import opened Money
  import opened Calendar

  datatype PointsEntryType =
    | EarnedTransaction
    | EarnedRefund
    | RedeemedSpent
    | RedeemedCancelled
    | RedeemedRefunded
    | PointsAdjustment
    | UnknownPointsType(name: string)

  /** One ledger row; positive points are earned, negative ones spent. */
  datatype PointsEntry = PointsEntry(
    id: nat,
    tenantId: nat,
    statementEntryId: Option<nat>,
    entryType: PointsEntryType,
    entryDate: Time,
    points: int,
    description: string,
    externalPlatform: Option<string>,
    externalReferenceId: Option<string>,
    transactionAmount: Option<real>,
    pointsRate: Option<real>,
    createdAt: Time,
    createdBy: Option<string>)

  predicate IsEarning(e: PointsEntry)
  {
    e.entryType == EarnedTransaction || e.entryType == EarnedRefund
  }

  predicate IsRedemption(e: PointsEntry)
  {
    e.entryType in {RedeemedSpent, RedeemedCancelled, RedeemedRefunded}
  }

  /** The stored points already carry their sign. */
  function SignedPoints(e: PointsEntry): (r: int)
    ensures r == e.points
  {
    e.points
  }

  /** Earning and redemption types are disjoint; adjustments and unknown types are neither. */
  lemma EarningRedemptionDisjoint(e: PointsEntry)
    ensures !(IsEarning(e) && IsRedemption(e))
    ensures e.entryType == PointsAdjustment ==> !IsEarning(e) && !IsRedemption(e)
    ensures e.entryType.UnknownPointsType? ==> !IsEarning(e) && !IsRedemption(e)
  {
  }

  /** How points accrue on a purchase: a per-dollar rate, a minimum amount and an optional cap. */
  datatype PointsEarningRule = PointsEarningRule(
    pointsPerDollar: real,
    minAmount: real,
    maxPoints: Option<int>)

  /**
   * Points for a purchase: none below the minimum amount, otherwise the
   * amount times the rate truncated toward zero, lowered to the cap when
   * one is set.
   */
  function PointsEarned(rule: PointsEarningRule, amount: real): (r: int)
    ensures amount < rule.minAmount ==> r == 0
    ensures amount >= rule.minAmount && rule.maxPoints.None? ==> r == Trunc(amount * rule.pointsPerDollar)
    ensures amount >= rule.minAmount && rule.maxPoints.Some? ==>
      && r <= rule.maxPoints.value
      && r <= Trunc(amount * rule.pointsPerDollar)
      && (r == rule.maxPoints.value || r == Trunc(amount * rule.pointsPerDollar))
  {
    if amount < rule.minAmount then 0
    else
      var points := Trunc(amount * rule.pointsPerDollar);
      if rule.maxPoints.Some? && points > rule.maxPoints.value then rule.maxPoints.value
      else points
  }

  /** Non-negative amounts at a non-negative rate, under a non-negative cap, never earn negative points. */
  lemma PointsEarnedBounds(rule: PointsEarningRule, amount: real)
    requires amount >= 0.0 && rule.pointsPerDollar >= 0.0
    requires rule.maxPoints.Some? ==> rule.maxPoints.value >= 0
    ensures 0 <= PointsEarned(rule, amount)
    ensures PointsEarned(rule, amount) as real <= amount * rule.pointsPerDollar
  {
  }
}
