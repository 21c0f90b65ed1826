/**
 * The database the services share, held in memory: each table is a
 * sequence of rows in insertion order (the ledgers are append-only), the
 * card table is keyed by card id, and fresh row ids come from a counter.
 */
module Store {
  import opened StatementLedger
  import opened PointsLedger
  import opened Cashback
  import opened BillingCycles
  import opened CreditCards

  class Database {
    var statement: seq<StatementEntry>
    var points: seq<PointsEntry>
    var cashback: seq<CashbackEntry>
    var categories: seq<CashbackCategory>
    var cycles: seq<BillingCycle>
    var cards: map<nat, CreditCard>
    /** The last id handed out; ids start at 1 because 0 stands for the nil id. */
    var lastId: nat

    constructor ()
      ensures statement == [] && points == [] && cashback == [] && categories == [] && cycles == []
      ensures cards == map[] && lastId == 0
    {
      statement := [];
      points := [];
      cashback := [];
      categories := [];
      cycles := [];
      cards := map[];
      lastId := 0;
    }

    /** A new id, never the nil id and never handed out before. */
    method FreshId() returns (id: nat)
      modifies this`lastId
      ensures id == old(lastId) + 1 && lastId == id && id != 0
    {
      lastId := lastId + 1;
      id := lastId;
    }
  }
}
