/**
 * The statement ledger service: appending entries, clearing a pending
 * entry, and the cleared-only balance of a billing period.
 */
module StatementLedgerService {
  import opened Wrappers
  import opened Money
  import opened Calendar
  import opened StatementLedger
  import opened Store

  /**
   * Appends one entry. An entry without an id (the nil id, 0) gets a fresh
   * one; an entry that has an id keeps it. Nothing already stored changes.
   */
  method CreateEntry(db: Database, entry: StatementEntry) returns (stored: StatementEntry)
    modifies db`statement, db`lastId
    ensures entry.id != 0 ==> stored == entry && db.lastId == old(db.lastId)
    ensures entry.id == 0 ==> stored == entry.(id := db.lastId) && db.lastId == old(db.lastId) + 1
    ensures stored.id != 0
    ensures db.statement == old(db.statement) + [stored]
  {
    stored := entry;
    if entry.id == 0 {
      var id := db.FreshId();
      stored := entry.(id := id);
    }
    db.statement := db.statement + [stored];
  }

  datatype LedgerError = EntryNotFoundOrCleared(id: nat)

  predicate IsPendingWithId(e: StatementEntry, id: nat)
  {
    e.id == id && e.status == Pending
  }

  /** Some entry with this id is still pending. */
  predicate HasPending(entries: seq<StatementEntry>, id: nat)
  {
    exists i :: 0 <= i < |entries| && IsPendingWithId(entries[i], id)
  }

  /** One row under the clearing update: a pending row with the id becomes cleared at `now`. */
  function ClearRow(e: StatementEntry, id: nat, now: Time): StatementEntry
  {
    if IsPendingWithId(e, id) then e.(status := Cleared, clearedAt := Some(now)) else e
  }

  /** The ledger after the clearing update, applied row by row. */
  function ClearMatching(entries: seq<StatementEntry>, id: nat, now: Time): (r: seq<StatementEntry>)
    ensures |r| == |entries|
    ensures forall i :: 0 <= i < |r| ==> r[i] == ClearRow(entries[i], id, now)
  {
    if |entries| == 0 then []
    else ClearMatching(entries[..|entries| - 1], id, now) + [ClearRow(entries[|entries| - 1], id, now)]
  }

  /** The number of rows the clearing update touches. */
  function PendingCount(entries: seq<StatementEntry>, id: nat): (n: nat)
  {
    if |entries| == 0 then 0
    else PendingCount(entries[..|entries| - 1], id) + (if IsPendingWithId(entries[|entries| - 1], id) then 1 else 0)
  }

  lemma {:induction false} PendingCountPositive(entries: seq<StatementEntry>, id: nat)
    ensures PendingCount(entries, id) > 0 <==> HasPending(entries, id)
  {
    if |entries| > 0 {
      var init := entries[..|entries| - 1];
      PendingCountPositive(init, id);
      if HasPending(init, id) {
        var i :| 0 <= i < |init| && IsPendingWithId(init[i], id);
        assert entries[i] == init[i];
      }
      if HasPending(entries, id) && !IsPendingWithId(entries[|entries| - 1], id) {
        var i :| 0 <= i < |entries| && IsPendingWithId(entries[i], id);
        assert init[i] == entries[i];
      }
    }
  }

  /**
   * Marks every pending entry with the id as cleared at `now`, and fails
   * when no row was pending (an unknown id or one already cleared), in
   * which case the ledger is unchanged.
   */
  method ClearEntry(db: Database, entryId: nat, now: Time) returns (err: Option<LedgerError>)
    modifies db`statement
    ensures err.None? <==> HasPending(old(db.statement), entryId)
    ensures err.Some? ==> db.statement == old(db.statement)
    ensures db.statement == ClearMatching(old(db.statement), entryId, now)
  {
    var affected := PendingCount(db.statement, entryId);
    PendingCountPositive(db.statement, entryId);
    ClearingOnlyPending(db.statement, entryId, now);
    db.statement := ClearMatching(db.statement, entryId, now);
    if affected == 0 {
      return Some(EntryNotFoundOrCleared(entryId));
    }
    return None;
  }

  /**
   * Clearing turns exactly the pending rows with the id into cleared ones
   * stamped `now`, changes no other field and no other row, and leaves no
   * pending row with the id behind, so a second clear fails. With no such
   * row the ledger is unchanged.
   */
  lemma ClearingOnlyPending(entries: seq<StatementEntry>, id: nat, now: Time)
    ensures var r := ClearMatching(entries, id, now);
      && (forall i :: 0 <= i < |entries| && IsPendingWithId(entries[i], id) ==>
            r[i].status == Cleared && r[i].clearedAt == Some(now)
            && r[i] == entries[i].(status := Cleared, clearedAt := Some(now)))
      && (forall i :: 0 <= i < |entries| && !IsPendingWithId(entries[i], id) ==> r[i] == entries[i])
      && !HasPending(r, id)
      && (!HasPending(entries, id) ==> r == entries)
  {
    var r := ClearMatching(entries, id, now);
    if !HasPending(entries, id) {
      assert forall i :: 0 <= i < |entries| ==> r[i] == entries[i];
    }
  }

  /** The second of two clears of the same id always fails. */
  lemma ClearTwiceFails(entries: seq<StatementEntry>, id: nat, t1: Time, t2: Time)
    ensures !HasPending(ClearMatching(entries, id, t1), id)
    ensures ClearMatching(ClearMatching(entries, id, t1), id, t2) == ClearMatching(entries, id, t1)
  {
    ClearingOnlyPending(entries, id, t1);
    ClearingOnlyPending(ClearMatching(entries, id, t1), id, t2);
  }

  /**
   * The balance query's sign table: charges count up, payments and
   * credits down, adjustments with their own sign, and every other type
   * (interest, annual, over-limit and cash-advance fees, cash advances,
   * cashback and unknown types) not at all.
   */
  function PeriodAmount(e: StatementEntry): (r: real)
  {
    match e.entryType
    case Transaction | FeeLate | FeeFailed | FeeInternational | ReturnedReward => e.amount
    case Payment | Refund | Reward | Credit => -e.amount
    case Adjustment => e.amount
    case _ => 0.0
  }

  /** The rows the balance query sums: this tenant's cleared entries posted within the period, both ends included. */
  predicate Counted(e: StatementEntry, tenant: nat, start: Time, end: Time)
  {
    e.tenantId == tenant && start <= e.postingDate <= end && e.status == Cleared
  }

  function Contribution(e: StatementEntry, tenant: nat, start: Time, end: Time): real
  {
    if Counted(e, tenant, start, end) then PeriodAmount(e) else 0.0
  }

  /** The period total of the query. */
  function PeriodTotal(entries: seq<StatementEntry>, tenant: nat, start: Time, end: Time): real
  {
    if |entries| == 0 then 0.0
    else PeriodTotal(entries[..|entries| - 1], tenant, start, end) + Contribution(entries[|entries| - 1], tenant, start, end)
  }

  /** The statement balance of a period: the opening balance plus the period total. */
  function CalculateStatementBalance(entries: seq<StatementEntry>, tenant: nat, start: Time, end: Time, opening: real): (r: real)
    ensures entries == [] ==> r == opening
  {
    opening + PeriodTotal(entries, tenant, start, end)
  }

  lemma {:induction false} PeriodTotalAppend(a: seq<StatementEntry>, b: seq<StatementEntry>, tenant: nat, start: Time, end: Time)
    ensures PeriodTotal(a + b, tenant, start, end) == PeriodTotal(a, tenant, start, end) + PeriodTotal(b, tenant, start, end)
    decreases |b|
  {
    if |b| == 0 {
      assert a + b == a;
    } else {
      var b0 := b[..|b| - 1];
      assert (a + b)[..|a + b| - 1] == a + b0;
      PeriodTotalAppend(a, b0, tenant, start, end);
    }
  }

  /** Taking the same element out of two equal multisets leaves equal multisets. */
  lemma MultisetRemove<T>(a0: seq<T>, x: T, left: seq<T>, right: seq<T>)
    requires multiset(a0 + [x]) == multiset(left + [x] + right)
    ensures multiset(a0) == multiset(left + right)
  {
    calc {
      multiset(a0);
      multiset(a0 + [x]) - multiset{x};
      multiset(left + [x] + right) - multiset{x};
      multiset(left + right);
    }
  }

  /** The balance does not depend on the order of the entries: any permutation gives the same total. */
  lemma {:induction false} PeriodTotalPermutation(a: seq<StatementEntry>, b: seq<StatementEntry>, tenant: nat, start: Time, end: Time)
    requires multiset(a) == multiset(b)
    ensures CalculateStatementBalance(a, tenant, start, end, 0.0) == CalculateStatementBalance(b, tenant, start, end, 0.0)
    ensures PeriodTotal(a, tenant, start, end) == PeriodTotal(b, tenant, start, end)
    decreases |a|
  {
    if |a| == 0 {
      assert |b| == |multiset(b)| == 0;
    } else {
      var x := a[|a| - 1];
      var a0 := a[..|a| - 1];
      assert a == a0 + [x];
      assert x in multiset(b);
      var k :| 0 <= k < |b| && b[k] == x;
      var left, right := b[..k], b[k + 1..];
      assert b == left + [x] + right;
      MultisetRemove(a0, x, left, right);
      PeriodTotalPermutation(a0, left + right, tenant, start, end);
      PeriodTotalAppend(left, right, tenant, start, end);
      PeriodTotalAppend(left + [x], right, tenant, start, end);
      PeriodTotalAppend(left, [x], tenant, start, end);
      assert PeriodTotal([x], tenant, start, end) == Contribution(x, tenant, start, end);
    }
  }

  /** An entry that is not cleared (pending, reversed or otherwise) leaves the balance unchanged wherever it sits. */
  lemma UnclearedIgnored(a: seq<StatementEntry>, e: StatementEntry, b: seq<StatementEntry>, tenant: nat, start: Time, end: Time, opening: real)
    requires e.status != Cleared
    ensures CalculateStatementBalance(a + [e] + b, tenant, start, end, opening)
         == CalculateStatementBalance(a + b, tenant, start, end, opening)
  {
    PeriodTotalAppend(a + [e], b, tenant, start, end);
    PeriodTotalAppend(a, [e], tenant, start, end);
    PeriodTotalAppend(a, b, tenant, start, end);
    assert PeriodTotal([e], tenant, start, end) == 0.0;
  }

  /**
   * Where the sign table and the entry's own debit rule agree: for a
   * non-negative amount of a type the table counts, the period amount is
   * the signed amount; an adjustment agrees whatever its sign.
   */
  lemma PeriodAmountMatchesSign(e: StatementEntry)
    ensures e.entryType == Adjustment ==> PeriodAmount(e) == SignedAmount(e)
    ensures e.amount >= 0.0 && e.entryType in {Transaction, FeeLate, FeeFailed, FeeInternational, ReturnedReward,
                                              Payment, Refund, Reward, Credit}
      ==> PeriodAmount(e) == SignedAmount(e)
  {
  }

  /**
   * Where they disagree: a cleared interest, annual, over-limit or
   * cash-advance fee, or a cash advance, is a debit of its full amount,
   * yet adds nothing to the period balance.
   */
  lemma UncountedDebits(e: StatementEntry, tenant: nat, start: Time, end: Time)
    requires e.entryType in {FeeInterest, FeeAnnual, FeeOverLimit, FeeCashAdvance, CashAdvance}
    requires Counted(e, tenant, start, end)
    ensures IsDebit(e) && SignedAmount(e) == Abs(e.amount)
    ensures Contribution(e, tenant, start, end) == 0.0
  {
  }

  /** A cleared entry of the period moves the balance by its period amount. */
  lemma CountedEntryMoves(entries: seq<StatementEntry>, e: StatementEntry, tenant: nat, start: Time, end: Time, opening: real)
    requires Counted(e, tenant, start, end)
    ensures CalculateStatementBalance(entries + [e], tenant, start, end, opening)
         == CalculateStatementBalance(entries, tenant, start, end, opening) + PeriodAmount(e)
  {
    assert (entries + [e])[..|entries|] == entries;
  }
}
