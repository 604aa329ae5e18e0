/**
 * The `exchange` table as seen through its UNIQUE `item_id` column, and
 * `add_item_prices_bulk`: `REPLACE INTO` run once per record of the batch,
 * in order, then committed once. A record with an integer outside SQLite's
 * 64-bit INTEGER range makes `executemany` raise `OverflowError`. That skips
 * both `commit` and `close`; the open transaction is rolled back when the
 * connection is released, so nothing of the batch stays.
 */
module Table {
  import opened Normaliser

  /** The range of a SQLite INTEGER bound from Python: a signed 64-bit integer. */
  const MinInteger: int := -0x8000_0000_0000_0000
  const MaxInteger: int := 0x7FFF_FFFF_FFFF_FFFF

  predicate FitsInteger(x: int) {
    MinInteger <= x <= MaxInteger
  }

  /** `sqlite3` can bind every integer column of the record. */
  predicate Storable(r: Record) {
    FitsInteger(r.fetchTimestamp) && FitsInteger(r.itemId) && FitsInteger(r.highPrice) && FitsInteger(r.lowPrice)
  }

  predicate AllStorable(batch: seq<Record>) {
    forall j :: 0 <= j < |batch| ==> Storable(batch[j])
  }

  /** Every row sits under its own `item_id`. */
  ghost predicate KeyedById(rows: map<int, Record>) {
    forall id :: id in rows ==> rows[id].itemId == id
  }

  /**
   * The table after `REPLACE` of each record in turn: a row with a
   * conflicting `item_id` is deleted and the new one inserted.
   */
  function Replaced(rows: map<int, Record>, batch: seq<Record>): (r: map<int, Record>)
    ensures rows.Keys <= r.Keys
    ensures forall j :: 0 <= j < |batch| ==> batch[j].itemId in r
  {
    if batch == [] then rows
    else
      var last := batch[|batch| - 1];
      Replaced(rows, batch[..|batch| - 1])[last.itemId := last]
  }

  /** The `item_id`s a batch writes. */
  ghost function BatchIds(batch: seq<Record>): set<int>
  {
    set j | 0 <= j < |batch| :: batch[j].itemId
  }

  class PriceTable {
    /** The rows of `exchange`, keyed by their `item_id`. */
    var rows: map<int, Record>

    ghost predicate Valid()
      reads this
    {
      KeyedById(rows)
    }

    /** `initialize_database` on a fresh file: the table exists and is empty. */
    constructor ()
      ensures Valid() && rows == map[]
    {
      rows := map[];
    }

    /**
     * `add_item_prices_bulk`: every record is applied to a staged copy and the
     * staged table becomes visible in one step, at the commit. `committed` is
     * false when a record could not be bound, and then nothing changes.
     */
    method ReplaceBatch(batch: seq<Record>) returns (committed: bool)
      requires Valid()
      modifies this
      ensures Valid()
      ensures committed <==> AllStorable(batch)
      ensures rows == if committed then Replaced(old(rows), batch) else old(rows)
    {
      var staged := rows;
      var i := 0;
      while i < |batch|
        invariant 0 <= i <= |batch|
        invariant staged == Replaced(rows, batch[..i])
        invariant KeyedById(staged)
        invariant forall j :: 0 <= j < i ==> Storable(batch[j])
      {
        if !Storable(batch[i]) {
          return false;
        }
        assert batch[..i + 1][..i] == batch[..i];
        staged := staged[batch[i].itemId := batch[i]];
        i := i + 1;
      }
      assert batch[..i] == batch;
      rows := staged;
      committed := true;
    }
  }

  /** REPLACE keeps every row under its own `item_id`. */
  lemma {:induction false} ReplacedKeyedById(rows: map<int, Record>, batch: seq<Record>)
    requires KeyedById(rows)
    ensures KeyedById(Replaced(rows, batch))
  {
    if batch != [] {
      ReplacedKeyedById(rows, batch[..|batch| - 1]);
    }
  }

  /** The ids present afterwards are the old ones plus those of the batch. */
  lemma {:induction false} ReplacedKeys(rows: map<int, Record>, batch: seq<Record>)
    ensures Replaced(rows, batch).Keys == rows.Keys + BatchIds(batch)
  {
    if batch != [] {
      var init := batch[..|batch| - 1];
      ReplacedKeys(rows, init);
      assert BatchIds(batch) == BatchIds(init) + {batch[|batch| - 1].itemId} by {
        forall id | id in BatchIds(batch) ensures id in BatchIds(init) + {batch[|batch| - 1].itemId} {
          var j :| 0 <= j < |batch| && batch[j].itemId == id;
          if j < |init| { assert init[j] == batch[j]; }
        }
        forall id | id in BatchIds(init) ensures id in BatchIds(batch) {
          var j :| 0 <= j < |init| && init[j].itemId == id;
          assert batch[j] == init[j];
        }
      }
    }
  }

  /** Each id of the batch holds the LAST record of the batch with that id. */
  lemma {:induction false} ReplacedLastWins(rows: map<int, Record>, batch: seq<Record>, j: nat)
    requires j < |batch|
    requires forall k :: j < k < |batch| ==> batch[k].itemId != batch[j].itemId
    ensures batch[j].itemId in Replaced(rows, batch)
    ensures Replaced(rows, batch)[batch[j].itemId] == batch[j]
  {
    if j < |batch| - 1 {
      ReplacedLastWins(rows, batch[..|batch| - 1], j);
    }
  }

  /** A row whose `item_id` is not in the batch is untouched. */
  lemma {:induction false} ReplacedUntouched(rows: map<int, Record>, batch: seq<Record>, id: int)
    requires forall k :: 0 <= k < |batch| ==> batch[k].itemId != id
    ensures id in Replaced(rows, batch) <==> id in rows
    ensures id in rows ==> Replaced(rows, batch)[id] == rows[id]
  {
    if batch != [] {
      ReplacedUntouched(rows, batch[..|batch| - 1], id);
    }
  }

  /** Two batches applied one after the other are one batch of both, in order. */
  lemma {:induction false} ReplacedConcat(rows: map<int, Record>, first: seq<Record>, second: seq<Record>)
    ensures Replaced(Replaced(rows, first), second) == Replaced(rows, first + second)
  {
    if second == [] {
      assert first + second == first;
    } else {
      ReplacedConcat(rows, first, second[..|second| - 1]);
      assert (first + second)[..|first + second| - 1] == first + second[..|second| - 1];
    }
  }

  /** The last position of the batch whose record has the same id as position `j`. */
  lemma {:induction false} LastWithId(batch: seq<Record>, j: nat) returns (last: nat)
    requires j < |batch|
    ensures j <= last < |batch| && batch[last].itemId == batch[j].itemId
    ensures forall k :: last < k < |batch| ==> batch[k].itemId != batch[j].itemId
    decreases |batch| - j
  {
    if exists k :: j < k < |batch| && batch[k].itemId == batch[j].itemId {
      var k :| j < k < |batch| && batch[k].itemId == batch[j].itemId;
      last := LastWithId(batch, k);
    } else {
      last := j;
    }
  }

  /**
   * Every id the batch writes ends up holding one row: the batch's last
   * record with that id.
   */
  lemma {:induction false} ReplacedHolds(rows: map<int, Record>, batch: seq<Record>, id: int)
    requires id in BatchIds(batch)
    ensures id in Replaced(rows, batch)
    ensures exists j :: && 0 <= j < |batch| && batch[j].itemId == id
                        && Replaced(rows, batch)[id] == batch[j]
                        && forall k :: j < k < |batch| ==> batch[k].itemId != id
  {
    var j :| 0 <= j < |batch| && batch[j].itemId == id;
    var last := LastWithId(batch, j);
    ReplacedLastWins(rows, batch, last);
  }
}
