/**
 * The points ledger service: appending entries, the available balance,
 * and redemptions checked against that balance before anything is written.
 */
module PointsLedgerService {
  import opened Wrappers
  import opened Calendar
  import opened PointsLedger
  import opened Store

  /** Appends one entry, giving it a fresh id only when it has none. */
  method CreateEntry(db: Database, entry: PointsEntry) returns (stored: PointsEntry)
    modifies db`points, db`lastId
    ensures entry.id != 0 ==> stored == entry && db.lastId == old(db.lastId)
    ensures entry.id == 0 ==> stored == entry.(id := db.lastId) && db.lastId == old(db.lastId) + 1
    ensures stored.id != 0
    ensures db.points == old(db.points) + [stored]
  {
    stored := entry;
    if entry.id == 0 {
      var id := db.FreshId();
      stored := entry.(id := id);
    }
    db.points := db.points + [stored];
  }

  /** A tenant's available points: the sum of the signed points of its entries. */
  function PointsBalance(entries: seq<PointsEntry>, tenant: nat): int
  {
    if |entries| == 0 then 0
    else
      var e := entries[|entries| - 1];
      PointsBalance(entries[..|entries| - 1], tenant) + (if e.tenantId == tenant then SignedPoints(e) else 0)
  }

  /** An appended entry moves its own tenant's balance by its points and no other tenant's. */
  lemma PointsBalanceAppend(entries: seq<PointsEntry>, e: PointsEntry, tenant: nat)
    ensures e.tenantId == tenant ==> PointsBalance(entries + [e], tenant) == PointsBalance(entries, tenant) + e.points
    ensures e.tenantId != tenant ==> PointsBalance(entries + [e], tenant) == PointsBalance(entries, tenant)
  {
    assert (entries + [e])[..|entries|] == entries;
  }

  datatype PointsError = InsufficientPoints(available: int, requested: int)

  /** Fails exactly when the tenant has fewer points than requested; asking for the whole balance is allowed. */
  function ValidateRedemption(entries: seq<PointsEntry>, tenant: nat, requested: int): (r: Option<PointsError>)
    ensures r.None? <==> requested <= PointsBalance(entries, tenant)
    ensures r.Some? ==> r.value.available == PointsBalance(entries, tenant) && r.value.requested == requested
  {
    var available := PointsBalance(entries, tenant);
    if available < requested then Some(InsufficientPoints(available, requested)) else None
  }

  /** The ledger row a redemption writes: the spent points with a negative sign, stamped `now`. */
  function RedemptionEntry(tenant: nat, pointsSpent: int, platform: string, externalRefId: string, description: string, now: Time): (e: PointsEntry)
    ensures e.entryType == RedeemedSpent && IsRedemption(e) && !IsEarning(e)
    ensures SignedPoints(e) == -pointsSpent && e.tenantId == tenant
  {
    PointsEntry(0, tenant, None, RedeemedSpent, now, -pointsSpent, description,
                Some(platform), Some(externalRefId), None, None, now, None)
  }

  /**
   * Records a redemption made on an external platform. A request beyond
   * the balance fails and writes nothing; otherwise exactly one
   * redeemed-spent row of minus the spent points is appended, and the
   * balance falls by the spent points without going below zero.
   */
  method RecordRedemption(db: Database, tenant: nat, pointsSpent: int, platform: string, externalRefId: string,
                          description: string, now: Time) returns (r: Result<PointsEntry, PointsError>)
    modifies db`points, db`lastId
    ensures r.Err? <==> ValidateRedemption(old(db.points), tenant, pointsSpent).Some?
    ensures r.Err? ==> r.error == ValidateRedemption(old(db.points), tenant, pointsSpent).value
    ensures r.Err? ==> db.points == old(db.points) && db.lastId == old(db.lastId)
    ensures r.Ok? ==> r.value == RedemptionEntry(tenant, pointsSpent, platform, externalRefId, description, now).(id := db.lastId)
    ensures r.Ok? ==> db.points == old(db.points) + [r.value] && r.value.id != 0
    ensures r.Ok? ==> PointsBalance(db.points, tenant) == PointsBalance(old(db.points), tenant) - pointsSpent
    ensures PointsBalance(db.points, tenant) >= 0 || db.points == old(db.points)
  {
    var check := ValidateRedemption(db.points, tenant, pointsSpent);
    if check.Some? {
      return Err(check.value);
    }
    var stored := CreateEntry(db, RedemptionEntry(tenant, pointsSpent, platform, externalRefId, description, now));
    PointsBalanceAppend(old(db.points), stored, tenant);
    return Ok(stored);
  }

  /** A redemption that passes validation leaves the tenant's balance non-negative, and one that fails would have driven it negative. */
  lemma RedemptionKeepsBalance(entries: seq<PointsEntry>, tenant: nat, pointsSpent: int, e: PointsEntry)
    requires e.tenantId == tenant && e.points == -pointsSpent
    ensures ValidateRedemption(entries, tenant, pointsSpent).None? ==> PointsBalance(entries + [e], tenant) >= 0
    ensures ValidateRedemption(entries, tenant, pointsSpent).Some? ==> PointsBalance(entries + [e], tenant) < 0
  {
    PointsBalanceAppend(entries, e, tenant);
  }
}
