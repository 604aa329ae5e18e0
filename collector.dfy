/**
 * The collector: one price cycle of `fetch_and_store_all_prices` and the
 * script's startup guard and repeat loop. The network, the clock and the
 * 300-second sleep are replaced by the inputs of each cycle.
 */
module Collector {
  import opened Wrappers
  import opened Decimal
  import opened Mapping
  import opened Normaliser
  import opened Table

  /**
   * What one cycle sees from outside: the snapshot's `data` entries, or
   * `None` when the request, `raise_for_status`, `json()` or the `['data']`
   * lookup raised; and `int(time.time())` read before the loop.
   */
  datatype CycleInput = CycleInput(snapshot: Option<seq<Entry>>, now: int)

  /** The batch a cycle would store, or the error that ended it. */
  function CycleBatch(mapping: map<string, string>, input: CycleInput): (r: Result<seq<Record>, CycleError>)
    ensures r == Err(FetchFailed) <==> input.snapshot.None?
  {
    match input.snapshot
    case None => Err(FetchFailed)
    case Some(data) => Normalised(data, mapping, input.now)
  }

  /**
   * The table after one cycle: the whole batch, or nothing at all. An empty
   * batch skips `add_item_prices_bulk`; a batch with an integer SQLite cannot
   * bind is rolled back.
   */
  function AfterCycle(rows: map<int, Record>, mapping: map<string, string>, input: CycleInput): (r: map<int, Record>)
    ensures CycleBatch(mapping, input).Err? ==> r == rows
    ensures r != rows ==> && CycleBatch(mapping, input).Ok?
                          && AllStorable(CycleBatch(mapping, input).value)
                          && r == Replaced(rows, CycleBatch(mapping, input).value)
    ensures rows.Keys <= r.Keys
  {
    match CycleBatch(mapping, input)
    case Ok(batch) => if batch != [] && AllStorable(batch) then Replaced(rows, batch) else rows
    case Err(_) => rows
  }

  /** The table after a run of cycles, in order; no cycle ever deletes a row. */
  function AfterCycles(rows: map<int, Record>, mapping: map<string, string>, inputs: seq<CycleInput>): (r: map<int, Record>)
    ensures rows.Keys <= r.Keys
  {
    if inputs == [] then rows
    else AfterCycle(AfterCycles(rows, mapping, inputs[..|inputs| - 1]), mapping, inputs[|inputs| - 1])
  }

  /** `if not item_id_to_name`: `None` and `{}` both stop the collector. */
  predicate Starts(mapping: Option<map<string, string>>): (b: bool)
    ensures b <==> mapping.Some? && |mapping.value| > 0
  {
    mapping.Some? && mapping.value != map[]
  }

  /**
   * One call of `fetch_and_store_all_prices`: `wrote` tells whether
   * `add_item_prices_bulk` committed a (non-empty) batch.
   */
  method RunCycle(table: PriceTable, mapping: map<string, string>, input: CycleInput) returns (wrote: bool)
    requires table.Valid()
    modifies table
    ensures table.Valid()
    ensures table.rows == AfterCycle(old(table.rows), mapping, input)
    ensures wrote <==> && CycleBatch(mapping, input).Ok? && CycleBatch(mapping, input).value != []
                       && AllStorable(CycleBatch(mapping, input).value)
    ensures !wrote ==> table.rows == old(table.rows)
  {
    wrote := false;
    if input.snapshot.None? {
      return;
    }
    var result := Normalise(input.snapshot.value, mapping, input.now);
    if result.Ok? && result.value != [] {
      wrote := table.ReplaceBatch(result.value);
    }
  }

  /**
   * The script's main block: fetch the mapping once, stop if it is `None`
   * or empty, otherwise run the cycles one after the other. The endless
   * `while True` is bounded by the list of cycle inputs.
   */
  method RunCollector(table: PriceTable, mappingResponse: Option<seq<Item>>, inputs: seq<CycleInput>)
    returns (started: bool)
    requires table.Valid()
    modifies table
    ensures table.Valid()
    ensures started <==> Starts(GetItemMapping(mappingResponse))
    ensures started ==> table.rows == AfterCycles(old(table.rows), GetItemMapping(mappingResponse).value, inputs)
    ensures !started ==> table.rows == old(table.rows)
  {
    var mapping := GetItemMapping(mappingResponse);
    if mapping.None? || |mapping.value| == 0 {
      return false;
    }
    started := true;
    var i := 0;
    while i < |inputs|
      invariant 0 <= i <= |inputs|
      invariant table.Valid()
      invariant table.rows == AfterCycles(old(table.rows), mapping.value, inputs[..i])
    {
      assert inputs[..i + 1][..i] == inputs[..i];
      var _ := RunCycle(table, mapping.value, inputs[i]);
      i := i + 1;
    }
    assert inputs[..i] == inputs;
  }

  /** The collector runs cycles exactly when some mapping item carries both `id` and `name`. */
  lemma StartsIff(mappingResponse: Option<seq<Item>>)
    ensures Starts(GetItemMapping(mappingResponse))
            <==> mappingResponse.Some?
                 && exists i :: 0 <= i < |mappingResponse.value| && Complete(mappingResponse.value[i])
  {
    if mappingResponse.Some? {
      MappingEmptyIff(mappingResponse.value);
    }
  }

  /** If any resolved entry raises, the cycle leaves the table exactly as it was. */
  lemma AbortedCycleUnchanged(rows: map<int, Record>, mapping: map<string, string>, data: seq<Entry>, now: int)
    requires exists i :: 0 <= i < |data| && Raises(data[i], mapping)
    ensures AfterCycle(rows, mapping, CycleInput(Some(data), now)) == rows
  {
    NormalisedAbortsIff(data, mapping, now);
  }

  /**
   * After a committed cycle every qualifying entry's item holds one row,
   * under its own `item_id` and stamped with that cycle's time; items the
   * snapshot did not qualify, and every item of a rolled-back batch, are untouched.
   */
  lemma CycleStampsRows(rows: map<int, Record>, mapping: map<string, string>, data: seq<Entry>, now: int, id: int)
    requires Normalised(data, mapping, now).Ok?
    ensures var after := AfterCycle(rows, mapping, CycleInput(Some(data), now));
            var batch := Normalised(data, mapping, now).value;
            && (AllStorable(batch) && id in BatchIds(batch) ==>
                  id in after && after[id].fetchTimestamp == now && after[id].itemId == id)
            && (!AllStorable(batch) || id !in BatchIds(batch) ==>
                  (id in after <==> id in rows) && (id in rows ==> after[id] == rows[id]))
  {
    var batch := Normalised(data, mapping, now).value;
    if AllStorable(batch) && id in BatchIds(batch) {
      ReplacedHolds(rows, batch, id);
    } else if id !in BatchIds(batch) {
      ReplacedUntouched(rows, batch, id);
    }
  }

  /** A table keyed by `item_id` stays so through any run of cycles. */
  lemma {:induction false} AfterCyclesKeyedById(rows: map<int, Record>, mapping: map<string, string>, inputs: seq<CycleInput>)
    requires KeyedById(rows)
    ensures KeyedById(AfterCycles(rows, mapping, inputs))
  {
    if inputs != [] {
      var init := inputs[..|inputs| - 1];
      AfterCyclesKeyedById(rows, mapping, init);
      var before := AfterCycles(rows, mapping, init);
      var input := inputs[|inputs| - 1];
      if CycleBatch(mapping, input).Ok? {
        ReplacedKeyedById(before, CycleBatch(mapping, input).value);
      }
    }
  }

  /**
   * With the mapping the collector builds itself, `int(item_id)` never
   * raises: every key it resolves is `str` of an integer id.
   */
  lemma {:induction false} BuiltMappingKeysParse(items: seq<Item>, data: seq<Entry>, now: int)
    ensures Normalised(data, BuildMapping(items), now) != Err(KeyNotInteger)
  {
    if data != [] {
      BuiltMappingKeysParse(items, data[..|data| - 1], now);
      var e := data[|data| - 1];
      if NameResolves(BuildMapping(items), e.key) {
        MappingKeysParse(items, e.key);
      }
    }
  }

  /**
   * The same item stored in two cycles keeps only the later cycle's values;
   * if the later batch is rolled back, the table is what the first cycle left.
   */
  lemma LaterCycleWins(rows: map<int, Record>, mapping: map<string, string>, first: CycleInput, second: CycleInput, id: int)
    requires CycleBatch(mapping, second).Ok?
    requires id in BatchIds(CycleBatch(mapping, second).value)
    ensures var batch := CycleBatch(mapping, second).value;
            var after := AfterCycles(rows, mapping, [first, second]);
            && (AllStorable(batch) ==>
                  && id in after
                  && exists k :: && 0 <= k < |batch| && batch[k].itemId == id && after[id] == batch[k]
                                 && forall m :: k < m < |batch| ==> batch[m].itemId != id)
            && (!AllStorable(batch) ==> after == AfterCycle(rows, mapping, first))
  {
    var batch := CycleBatch(mapping, second).value;
    assert [first, second][..1] == [first];
    assert [first][..0] == [];
    assert AfterCycles(rows, mapping, [first]) == AfterCycle(rows, mapping, first);
    if AllStorable(batch) {
      ReplacedHolds(AfterCycles(rows, mapping, [first]), batch, id);
    }
  }

  /**
   * End to end: mapping `{"2": "Cannonball"}` and snapshot
   * `{"2": {"high": 200, "low": 180}}` store one row for item 2.
   */
  lemma CannonballScenario(now: int)
    requires 0 <= now <= MaxInteger
    ensures var items := [Item(Present(2), Present("Cannonball"))];
            var data := [Entry("2", Present(Some(200)), Present(Some(180)))];
            AfterCycle(map[], BuildMapping(items), CycleInput(Some(data), now))
            == map[2 := Record(now, "Cannonball", 2, 200, 180)]
  {
    var items := [Item(Present(2), Present("Cannonball"))];
    var data := [Entry("2", Present(Some(200)), Present(Some(180)))];
    assert IntToString(2) == "2";
    assert items[..0] == [];
    assert BuildMapping(items) == map["2" := "Cannonball"];
    ParseIntOfIntToString(2);
    var rec := Record(now, "Cannonball", 2, 200, 180);
    assert Classify(data[0], BuildMapping(items), now) == Keep(rec);
    assert data[..0] == [];
    assert [] + [rec] == [rec];
    assert Normalised(data, BuildMapping(items), now) == Ok([rec]);
    assert [rec][..0] == [];
    assert Replaced(map[], [rec]) == Replaced(map[], [])[2 := rec];
    assert CycleBatch(BuildMapping(items), CycleInput(Some(data), now)) == Ok([rec]);
  }

  /**
   * End to end: a `null` high price for item 5 stores nothing for item 5;
   * a row the table already held for it is kept as it was.
   */
  lemma NullHighScenario(rows: map<int, Record>, now: int)
    ensures var mapping := map["5" := "Item five"];
            var data := [Entry("5", Present(None), Present(Some(10)))];
            AfterCycle(rows, mapping, CycleInput(Some(data), now)) == rows
  {
  }

  /**
   * A price of 2^63 does not fit a SQLite INTEGER: `executemany` raises,
   * the batch is not committed, and the table keeps its old rows.
   */
  lemma OverflowScenario(rows: map<int, Record>, now: int)
    ensures var mapping := map["2" := "Cannonball"];
            var data := [Entry("2", Present(Some(0x8000_0000_0000_0000)), Present(Some(1)))];
            AfterCycle(rows, mapping, CycleInput(Some(data), now)) == rows
  {
  }
}
