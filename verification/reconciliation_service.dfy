/**
 * The reconciliation service, which writes to the statement ledger and
 * the points ledger together: a purchase that may earn points, a payment
 * that never touches points, a refund that may take back the points its
 * purchase earned, and a points redemption paid out as a statement credit.
 */
module ReconciliationService {
  import opened Wrappers
  import opened Money
  import opened Calendar
  import opened StatementLedger
  import opened PointsLedger
  import SLS = StatementLedgerService
  import PLS = PointsLedgerService
  import opened Store

  // ---------------------------------------------------------------------------
  // Purchases

  datatype TransactionRequest = TransactionRequest(
    tenantId: nat,
    amount: real,
    referenceId: string,
    transactionDate: Time,
    postingDate: Time,
    earnPoints: bool,
    pointsRule: Option<PointsEarningRule>)

  /** The pending charge a purchase writes to the statement ledger. */
  function TransactionEntry(req: TransactionRequest, now: Time): (e: StatementEntry)
    ensures e.id == 0 && e.tenantId == req.tenantId && e.status == Pending
    ensures e.entryDate == req.transactionDate && e.postingDate == req.postingDate
    ensures SLS.PeriodAmount(e) == req.amount
  {
    StatementEntry(0, req.tenantId, None, Transaction, req.transactionDate, req.postingDate, req.amount, "",
                   Some(req.referenceId), Pending, None, now, None)
  }

  /** The request's own rule when it carries one, the service's default otherwise. */
  function RuleFor(req: TransactionRequest, defaultRule: PointsEarningRule): PointsEarningRule
  {
    if req.pointsRule.Some? then req.pointsRule.value else defaultRule
  }

  /** The points a purchase adds to the tenant's balance: none unless it earns points at all. */
  function EarnedPoints(req: TransactionRequest, defaultRule: PointsEarningRule): (r: int)
    ensures !req.earnPoints ==> r == 0
  {
    if req.earnPoints then
      var points := PointsEarned(RuleFor(req, defaultRule), req.amount);
      if points > 0 then points else 0
    else 0
  }

  /**
   * What a purchase earns: never negative, positive only when points are
   * asked for, at most the amount times the rate in force, and independent
   * of the default rule when the request brings its own.
   */
  lemma EarnedPointsBounds(req: TransactionRequest, defaultRule: PointsEarningRule, otherDefault: PointsEarningRule)
    ensures EarnedPoints(req, defaultRule) >= 0
    ensures EarnedPoints(req, defaultRule) > 0 ==>
      req.earnPoints && EarnedPoints(req, defaultRule) == PointsEarned(RuleFor(req, defaultRule), req.amount)
    ensures req.amount >= 0.0 && RuleFor(req, defaultRule).pointsPerDollar >= 0.0 ==>
      EarnedPoints(req, defaultRule) as real <= req.amount * RuleFor(req, defaultRule).pointsPerDollar
    ensures req.pointsRule.Some? ==> EarnedPoints(req, defaultRule) == EarnedPoints(req, otherDefault)
  {
    var rule := RuleFor(req, defaultRule);
    if req.earnPoints && PointsEarned(rule, req.amount) > 0 && req.amount >= 0.0 && rule.pointsPerDollar >= 0.0 {
      EarningWithinRate(rule, req.amount);
    }
  }

  /** Whenever a rule awards points at all, it awards no more than the truncated amount times its rate. */
  lemma EarningWithinRate(rule: PointsEarningRule, amount: real)
    requires PointsEarned(rule, amount) > 0
    ensures amount >= rule.minAmount
    ensures PointsEarned(rule, amount) <= Trunc(amount * rule.pointsPerDollar)
    ensures amount >= 0.0 && rule.pointsPerDollar >= 0.0 ==> PointsEarned(rule, amount) as real <= amount * rule.pointsPerDollar
  {
    var t := Trunc(amount * rule.pointsPerDollar);
    assert amount >= rule.minAmount;
    assert PointsEarned(rule, amount) <= t;
  }

  /** The points row a purchase earns, linked to the purchase's statement entry and recording the amount and rate. */
  function EarningEntry(tenant: nat, statementEntryId: nat, date: Time, amount: real, rule: PointsEarningRule,
                        points: int, now: Time): (e: PointsEntry)
    ensures e.id == 0 && e.tenantId == tenant && e.statementEntryId == Some(statementEntryId)
    ensures e.entryType == EarnedTransaction && IsEarning(e) && SignedPoints(e) == points
    ensures e.transactionAmount == Some(amount) && e.pointsRate == Some(rule.pointsPerDollar)
  {
    PointsEntry(0, tenant, Some(statementEntryId), EarnedTransaction, date, points, "", None, None,
                Some(amount), Some(rule.pointsPerDollar), now, None)
  }

  /**
   * Records a purchase: exactly one pending charge on the statement ledger
   * and, only when the purchase earns a positive number of points, one
   * earning row linked to that charge. The points balance rises by what
   * was earned.
   */
  method RecordTransaction(db: Database, req: TransactionRequest, defaultRule: PointsEarningRule, now: Time)
    returns (stmt: StatementEntry, earned: Option<PointsEntry>)
    modifies db`statement, db`points, db`lastId
    ensures stmt == TransactionEntry(req, now).(id := old(db.lastId) + 1)
    ensures db.statement == old(db.statement) + [stmt]
    ensures earned.Some? <==> EarnedPoints(req, defaultRule) > 0
    ensures earned.None? ==> db.points == old(db.points) && db.lastId == stmt.id
    ensures earned.Some? ==>
      && earned.value == EarningEntry(req.tenantId, stmt.id, req.transactionDate, req.amount, RuleFor(req, defaultRule),
                                      EarnedPoints(req, defaultRule), now).(id := stmt.id + 1)
      && db.points == old(db.points) + [earned.value]
      && db.lastId == stmt.id + 1
    ensures PLS.PointsBalance(db.points, req.tenantId) == PLS.PointsBalance(old(db.points), req.tenantId) + EarnedPoints(req, defaultRule)
  {
    stmt := SLS.CreateEntry(db, TransactionEntry(req, now));
    earned := None;
    var points := EarnedPoints(req, defaultRule);
    if points > 0 {
      var rule := RuleFor(req, defaultRule);
      var row := PLS.CreateEntry(db, EarningEntry(req.tenantId, stmt.id, req.transactionDate, req.amount, rule, points, now));
      PLS.PointsBalanceAppend(old(db.points), row, req.tenantId);
      earned := Some(row);
    }
  }

  // ---------------------------------------------------------------------------
  // Payments

  datatype PaymentRequest = PaymentRequest(
    tenantId: nat,
    amount: real,
    referenceId: string,
    paymentDate: Time,
    postingDate: Time)

  /** The pending credit a payment writes to the statement ledger. */
  function PaymentEntry(req: PaymentRequest, now: Time): (e: StatementEntry)
    ensures e.id == 0 && e.tenantId == req.tenantId && e.status == Pending
    ensures e.entryDate == req.paymentDate && e.postingDate == req.postingDate
    ensures SLS.PeriodAmount(e) == -req.amount
  {
    StatementEntry(0, req.tenantId, None, Payment, req.paymentDate, req.postingDate, req.amount, "",
                   Some(req.referenceId), Pending, None, now, None)
  }

  /** Records a payment: one pending payment row, and the points ledger is left alone. */
  method RecordPayment(db: Database, req: PaymentRequest, now: Time) returns (stmt: StatementEntry)
    modifies db`statement, db`lastId
    ensures stmt == PaymentEntry(req, now).(id := old(db.lastId) + 1)
    ensures db.statement == old(db.statement) + [stmt]
    ensures db.points == old(db.points)
  {
    stmt := SLS.CreateEntry(db, PaymentEntry(req, now));
  }

  // ---------------------------------------------------------------------------
  // Refunds

  datatype RefundRequest = RefundRequest(
    tenantId: nat,
    amount: real,
    referenceId: string,
    originalTransactionId: nat,
    refundDate: Time,
    postingDate: Time,
    adjustPoints: bool)

  /** The pending credit a refund writes to the statement ledger. */
  function RefundEntry(req: RefundRequest, now: Time): (e: StatementEntry)
    ensures e.id == 0 && e.tenantId == req.tenantId && e.status == Pending
    ensures e.entryDate == req.refundDate && e.postingDate == req.postingDate
    ensures SLS.PeriodAmount(e) == -req.amount
  {
    StatementEntry(0, req.tenantId, None, Refund, req.refundDate, req.postingDate, req.amount, "",
                   Some(req.referenceId), Pending, None, now, None)
  }

  /** What the refund looks up about the purchase: the points it earned and the rate, zero when none was stored. */
  datatype OriginalEarning = OriginalEarning(points: int, rate: real)

  /** A row the lookup matches: an earning row linked to the given statement entry, whatever its tenant. */
  predicate EarnedFrom(e: PointsEntry, statementEntryId: nat)
  {
    e.statementEntryId == Some(statementEntryId) && e.entryType == EarnedTransaction
  }

  /** The lookup as the single-row query answers it: the first matching row in storage order, or nothing. */
  function FindOriginalEarning(entries: seq<PointsEntry>, statementEntryId: nat): (r: Option<OriginalEarning>)
    decreases |entries|
  {
    if |entries| == 0 then None
    else if EarnedFrom(entries[0], statementEntryId) then
      Some(OriginalEarning(entries[0].points, if entries[0].pointsRate.Some? then entries[0].pointsRate.value else 0.0))
    else FindOriginalEarning(entries[1..], statementEntryId)
  }

  /**
   * The lookup finds something exactly when some row matches, and then it
   * reports the first matching row's points and rate.
   */
  lemma {:induction false} FindOriginalEarningIsFirst(entries: seq<PointsEntry>, statementEntryId: nat)
    ensures FindOriginalEarning(entries, statementEntryId).None? <==>
      forall i :: 0 <= i < |entries| ==> !EarnedFrom(entries[i], statementEntryId)
    ensures FindOriginalEarning(entries, statementEntryId).Some? ==>
      exists i :: 0 <= i < |entries| && EarnedFrom(entries[i], statementEntryId)
        && (forall j :: 0 <= j < i ==> !EarnedFrom(entries[j], statementEntryId))
        && FindOriginalEarning(entries, statementEntryId).value.points == entries[i].points
    decreases |entries|
  {
    if |entries| > 0 && !EarnedFrom(entries[0], statementEntryId) {
      var rest := entries[1..];
      FindOriginalEarningIsFirst(rest, statementEntryId);
      forall i | 0 <= i < |rest|
        ensures rest[i] == entries[i + 1]
      {
      }
      if FindOriginalEarning(rest, statementEntryId).Some? {
        var k :| 0 <= k < |rest| && EarnedFrom(rest[k], statementEntryId)
          && (forall j :: 0 <= j < k ==> !EarnedFrom(rest[j], statementEntryId))
          && FindOriginalEarning(rest, statementEntryId).value.points == rest[k].points;
        assert EarnedFrom(entries[k + 1], statementEntryId);
        assert forall j :: 0 <= j < k + 1 ==> !EarnedFrom(entries[j], statementEntryId) by {
          forall j | 0 <= j < k + 1
            ensures !EarnedFrom(entries[j], statementEntryId)
          {
            if j > 0 {
              assert entries[j] == rest[j - 1];
            }
          }
        }
      } else {
        forall i | 0 <= i < |entries|
          ensures !EarnedFrom(entries[i], statementEntryId)
        {
          if i > 0 {
            assert entries[i] == rest[i - 1];
          }
        }
      }
    }
  }

  /**
   * The points a refund takes back: the refunded amount times the original
   * rate, truncated toward zero, but never more than the purchase earned.
   */
  function RefundDeduction(amount: real, original: OriginalEarning): (r: int)
    ensures r <= original.points && r <= Trunc(amount * original.rate)
    ensures r == original.points || r == Trunc(amount * original.rate)
    ensures amount >= 0.0 && original.rate >= 0.0 && original.points >= 0 ==> r >= 0
  {
    var deduct := Trunc(amount * original.rate);
    if deduct > original.points then original.points else deduct
  }

  /** The points row a refund writes: minus the deduction, linked to the refund's own statement entry. */
  function RefundPointsEntry(tenant: nat, refundEntryId: nat, date: Time, amount: real, original: OriginalEarning,
                             now: Time): (e: PointsEntry)
    ensures e.id == 0 && e.tenantId == tenant && e.statementEntryId == Some(refundEntryId)
    ensures e.entryType == EarnedRefund && SignedPoints(e) == -RefundDeduction(amount, original)
  {
    PointsEntry(0, tenant, Some(refundEntryId), EarnedRefund, date, -RefundDeduction(amount, original), "", None, None,
                Some(amount), Some(original.rate), now, None)
  }

  /** Whether a refund touches the points ledger: only when asked to and the purchase earned positive points. */
  predicate TakesBackPoints(adjustPoints: bool, original: Option<OriginalEarning>)
  {
    adjustPoints && original.Some? && original.value.points > 0
  }

  /**
   * Records a refund: always one pending refund row; and, when points are
   * to be adjusted and the purchase's earning row shows positive points,
   * one row taking back the deduction, linked to the refund row. The
   * tenant never loses more points than the purchase earned.
   */
  method RecordRefund(db: Database, req: RefundRequest, now: Time) returns (stmt: StatementEntry, taken: Option<PointsEntry>)
    modifies db`statement, db`points, db`lastId
    ensures stmt == RefundEntry(req, now).(id := old(db.lastId) + 1)
    ensures db.statement == old(db.statement) + [stmt]
    ensures var original := FindOriginalEarning(old(db.points), req.originalTransactionId);
      && (taken.Some? <==> TakesBackPoints(req.adjustPoints, original))
      && (taken.None? ==> db.points == old(db.points) && db.lastId == stmt.id)
      && (taken.Some? ==>
            && taken.value == RefundPointsEntry(req.tenantId, stmt.id, req.refundDate, req.amount, original.value, now).(id := stmt.id + 1)
            && db.points == old(db.points) + [taken.value]
            && db.lastId == stmt.id + 1
            && PLS.PointsBalance(db.points, req.tenantId)
               == PLS.PointsBalance(old(db.points), req.tenantId) - RefundDeduction(req.amount, original.value)
            && PLS.PointsBalance(db.points, req.tenantId)
               >= PLS.PointsBalance(old(db.points), req.tenantId) - original.value.points)
  {
    stmt := SLS.CreateEntry(db, RefundEntry(req, now));
    taken := None;
    if req.adjustPoints {
      var original := FindOriginalEarning(db.points, req.originalTransactionId);
      if original.Some? && original.value.points > 0 {
        var row := PLS.CreateEntry(db, RefundPointsEntry(req.tenantId, stmt.id, req.refundDate, req.amount, original.value, now));
        PLS.PointsBalanceAppend(old(db.points), row, req.tenantId);
        taken := Some(row);
      }
    }
  }

  /**
   * A purchase refunded in full at the rule it earned under takes back
   * exactly what it earned: the earning row is the one the refund finds,
   * when no earlier row claims the same statement entry, and the two rows
   * together leave the tenant's points where they were.
   */
  lemma FullRefundCancelsEarning(entries: seq<PointsEntry>, tenant: nat, statementEntryId: nat, refundEntryId: nat,
                                 amount: real, rule: PointsEarningRule, date: Time, now: Time)
    requires FindOriginalEarning(entries, statementEntryId).None?
    requires PointsEarned(rule, amount) > 0
    ensures var earning := EarningEntry(tenant, statementEntryId, date, amount, rule, PointsEarned(rule, amount), now);
      var original := FindOriginalEarning(entries + [earning], statementEntryId);
      && original == Some(OriginalEarning(PointsEarned(rule, amount), rule.pointsPerDollar))
      && RefundDeduction(amount, original.value) == PointsEarned(rule, amount)
      && PLS.PointsBalance(entries + [earning] + [RefundPointsEntry(tenant, refundEntryId, date, amount, original.value, now)], tenant)
         == PLS.PointsBalance(entries, tenant)
  {
    var points := PointsEarned(rule, amount);
    var earning := EarningEntry(tenant, statementEntryId, date, amount, rule, points, now);
    FindAfterUnmatched(entries, earning, statementEntryId);
    var original := OriginalEarning(points, rule.pointsPerDollar);
    assert amount >= rule.minAmount;
    assert RefundDeduction(amount, original) == points;
    PLS.PointsBalanceAppend(entries, earning, tenant);
    PLS.PointsBalanceAppend(entries + [earning], RefundPointsEntry(tenant, refundEntryId, date, amount, original, now), tenant);
  }

  /** Appending a row to entries none of which match leaves the lookup to that row alone. */
  lemma {:induction false} FindAfterUnmatched(entries: seq<PointsEntry>, e: PointsEntry, statementEntryId: nat)
    requires FindOriginalEarning(entries, statementEntryId).None?
    ensures FindOriginalEarning(entries + [e], statementEntryId) == FindOriginalEarning([e], statementEntryId)
    decreases |entries|
  {
    if |entries| > 0 {
      assert (entries + [e])[1..] == entries[1..] + [e];
      FindAfterUnmatched(entries[1..], e, statementEntryId);
    }
  }

  // ---------------------------------------------------------------------------
  // Redeeming points as a statement credit

  datatype RewardRedemptionRequest = RewardRedemptionRequest(
    tenantId: nat,
    pointsToRedeem: int,
    creditAmount: real,
    externalPlatform: string,
    externalReferenceId: string,
    redemptionDate: Time,
    postingDate: Time)

  /** The points row a redemption writes, before it is linked to the statement credit. */
  function RedeemedEntry(req: RewardRedemptionRequest, now: Time): (e: PointsEntry)
    ensures e.id == 0 && e.tenantId == req.tenantId && e.statementEntryId.None?
    ensures e.entryType == RedeemedSpent && IsRedemption(e) && SignedPoints(e) == -req.pointsToRedeem
    ensures e.entryDate == req.redemptionDate
  {
    PLS.RedemptionEntry(req.tenantId, req.pointsToRedeem, req.externalPlatform, req.externalReferenceId, "", now)
      .(entryDate := req.redemptionDate)
  }

  /** The pending statement credit a redemption pays out, referenced by the external redemption id. */
  function RewardEntry(req: RewardRedemptionRequest, now: Time): (e: StatementEntry)
    ensures e.id == 0 && e.tenantId == req.tenantId && e.status == Pending && e.entryType == Reward
    ensures e.referenceId == Some(req.externalReferenceId) && e.postingDate == req.postingDate
    ensures SLS.PeriodAmount(e) == -req.creditAmount
  {
    StatementEntry(0, req.tenantId, None, Reward, req.redemptionDate, req.postingDate, req.creditAmount, "",
                   Some(req.externalReferenceId), Pending, None, now, None)
  }

  datatype RedemptionOutcome = RedemptionOutcome(statementEntry: StatementEntry, pointsEntry: PointsEntry)

  /**
   * Redeems points as a statement credit. The balance is checked first: a
   * request beyond it fails and neither ledger changes. Otherwise one
   * redeemed-spent row of minus the points and one pending reward credit
   * are appended, in that order; the balance falls by the redeemed points
   * without going below zero. The returned points row is linked to the
   * credit, while the stored row keeps no link.
   */
  method RecordRewardRedemption(db: Database, req: RewardRedemptionRequest, now: Time)
    returns (r: Result<RedemptionOutcome, PLS.PointsError>)
    modifies db`statement, db`points, db`lastId
    ensures r.Err? <==> PLS.ValidateRedemption(old(db.points), req.tenantId, req.pointsToRedeem).Some?
    ensures r.Err? ==>
      && r.error == PLS.ValidateRedemption(old(db.points), req.tenantId, req.pointsToRedeem).value
      && db.statement == old(db.statement) && db.points == old(db.points) && db.lastId == old(db.lastId)
    ensures r.Ok? ==>
      && db.points == old(db.points) + [RedeemedEntry(req, now).(id := old(db.lastId) + 1)]
      && r.value.statementEntry == RewardEntry(req, now).(id := old(db.lastId) + 2)
      && db.statement == old(db.statement) + [r.value.statementEntry]
      && r.value.pointsEntry == RedeemedEntry(req, now).(id := old(db.lastId) + 1, statementEntryId := Some(old(db.lastId) + 2))
      && db.lastId == old(db.lastId) + 2
      && PLS.PointsBalance(db.points, req.tenantId) == PLS.PointsBalance(old(db.points), req.tenantId) - req.pointsToRedeem
      && PLS.PointsBalance(db.points, req.tenantId) >= 0
  {
    var check := PLS.ValidateRedemption(db.points, req.tenantId, req.pointsToRedeem);
    if check.Some? {
      return Err(check.value);
    }
    var spent := PLS.CreateEntry(db, RedeemedEntry(req, now));
    PLS.PointsBalanceAppend(old(db.points), spent, req.tenantId);
    var credit := SLS.CreateEntry(db, RewardEntry(req, now));
    return Ok(RedemptionOutcome(credit, spent.(statementEntryId := Some(credit.id))));
  }

  // ---------------------------------------------------------------------------
  // What the statement rows do once cleared

  /**
   * Once cleared and posted within the period, the purchase raises the
   * tenant's statement balance by its amount, while the payment, the
   * refund and the reward credit each lower it by theirs.
   */
  lemma ClearedRowsMoveBalance(entries: seq<StatementEntry>, tx: TransactionRequest, pay: PaymentRequest, refund: RefundRequest,
                               reward: RewardRedemptionRequest, tenant: nat, start: Time, end: Time, opening: real, now: Time)
    requires tx.tenantId == pay.tenantId == refund.tenantId == reward.tenantId == tenant
    requires start <= tx.postingDate <= end && start <= pay.postingDate <= end
    requires start <= refund.postingDate <= end && start <= reward.postingDate <= end
    ensures SLS.CalculateStatementBalance(entries + [TransactionEntry(tx, now).(status := Cleared)], tenant, start, end, opening)
         == SLS.CalculateStatementBalance(entries, tenant, start, end, opening) + tx.amount
    ensures SLS.CalculateStatementBalance(entries + [PaymentEntry(pay, now).(status := Cleared)], tenant, start, end, opening)
         == SLS.CalculateStatementBalance(entries, tenant, start, end, opening) - pay.amount
    ensures SLS.CalculateStatementBalance(entries + [RefundEntry(refund, now).(status := Cleared)], tenant, start, end, opening)
         == SLS.CalculateStatementBalance(entries, tenant, start, end, opening) - refund.amount
    ensures SLS.CalculateStatementBalance(entries + [RewardEntry(reward, now).(status := Cleared)], tenant, start, end, opening)
         == SLS.CalculateStatementBalance(entries, tenant, start, end, opening) - reward.creditAmount
  {
    SLS.CountedEntryMoves(entries, TransactionEntry(tx, now).(status := Cleared), tenant, start, end, opening);
    SLS.CountedEntryMoves(entries, PaymentEntry(pay, now).(status := Cleared), tenant, start, end, opening);
    SLS.CountedEntryMoves(entries, RefundEntry(refund, now).(status := Cleared), tenant, start, end, opening);
    SLS.CountedEntryMoves(entries, RewardEntry(reward, now).(status := Cleared), tenant, start, end, opening);
  }

  /** While still pending, none of these rows moves the statement balance. */
  lemma PendingRowsLeaveBalance(entries: seq<StatementEntry>, e: StatementEntry, tenant: nat, start: Time, end: Time, opening: real)
    requires e.status == Pending
    ensures SLS.CalculateStatementBalance(entries + [e], tenant, start, end, opening)
         == SLS.CalculateStatementBalance(entries, tenant, start, end, opening)
  {
    SLS.UnclearedIgnored(entries, e, [], tenant, start, end, opening);
    assert entries + [e] + [] == entries + [e];
    assert entries + [] == entries;
  }
}
