/**
 * The normalising loop of `fetch_and_store_all_prices`: every entry of the
 * snapshot's `data` object is joined against the item mapping and, when it
 * carries a truthy name and two non-null prices, becomes one record stamped
 * with the cycle's fetch time. A `KeyError` on a missing price key or a
 * `ValueError` from `int(key)` aborts the whole cycle.
 */
module Normaliser {
  import opened Wrappers
  import opened Decimal

  /** One `item_id: {high, low}` pair of the snapshot; `Present(None)` is JSON `null`. */
  datatype Entry = Entry(key: string, high: Field<Option<int>>, low: Field<Option<int>>)

  /** One row tuple `(fetch_timestamp, item_name, item_id, high_price, low_price)`. */
  datatype Record = Record(fetchTimestamp: int, itemName: string, itemId: int, highPrice: int, lowPrice: int)

  /** Why a cycle stored nothing. */
  datatype CycleError =
    | FetchFailed     // the request, `raise_for_status` or `json()` raised, or `data` was missing
    | MissingPrice    // `price_info['high']` or `price_info['low']` raised `KeyError`
    | KeyNotInteger   // `int(item_id)` raised `ValueError`

  /** What one loop iteration does with its entry. */
  datatype Step = Skip | Keep(rec: Record) | Fail(error: CycleError)

  /** `item_mapping.get(item_id)` is truthy: present and not the empty string. */
  predicate NameResolves(mapping: map<string, string>, key: string) {
    key in mapping && mapping[key] != ""
  }

  /** The entry is turned into a record. */
  predicate Qualifies(e: Entry, mapping: map<string, string>) {
    && NameResolves(mapping, e.key)
    && e.high.Present? && e.high.value.Some?
    && e.low.Present? && e.low.value.Some?
    && ParseInt(e.key).Some?
  }

  /** The entry raises inside the loop body. */
  predicate Raises(e: Entry, mapping: map<string, string>) {
    && NameResolves(mapping, e.key)
    && (|| e.high.Absent?
        || (e.high.value.Some? && e.low.Absent?)
        || (e.high.value.Some? && e.low.Present? && e.low.value.Some? && ParseInt(e.key).None?))
  }

  /** The record a qualifying entry becomes. */
  function RecordOf(e: Entry, mapping: map<string, string>, now: int): Record
    requires Qualifies(e, mapping)
  {
    Record(now, mapping[e.key], ParseInt(e.key).value, e.high.value.value, e.low.value.value)
  }

  /**
   * The loop body, evaluated in Python's order: the truthiness of the name
   * first, then `price_info['high']`, then `price_info['low']` (the `and`
   * short-circuits), and only then `int(item_id)`.
   */
  function Classify(e: Entry, mapping: map<string, string>, now: int): (s: Step)
    ensures s.Keep? <==> Qualifies(e, mapping)
    ensures s.Keep? ==> s.rec == RecordOf(e, mapping, now)
    ensures s.Fail? <==> Raises(e, mapping)
    ensures s.Fail? ==> (s.error == KeyNotInteger <==> e.high.Present? && e.low.Present?)
  {
    if !NameResolves(mapping, e.key) then Skip
    else match e.high
      case Absent => Fail(MissingPrice)
      case Present(None) => Skip
      case Present(Some(high)) =>
        match e.low
        case Absent => Fail(MissingPrice)
        case Present(None) => Skip
        case Present(Some(low)) =>
          match ParseInt(e.key)
          case None => Fail(KeyNotInteger)
          case Some(id) => Keep(Record(now, mapping[e.key], id, high, low))
  }

  /**
   * The list `price_data_to_insert` after the loop, or the error that
   * escaped it (the first raising entry in iteration order).
   */
  function Normalised(data: seq<Entry>, mapping: map<string, string>, now: int): (r: Result<seq<Record>, CycleError>)
    ensures r.Ok? ==> |r.value| <= |data|
    ensures r.Ok? ==> forall j :: 0 <= j < |r.value| ==> r.value[j].fetchTimestamp == now
    ensures r.Err? ==> r.error != FetchFailed
  {
    if data == [] then Ok([])
    else match Normalised(data[..|data| - 1], mapping, now)
      case Err(error) => Err(error)
      case Ok(batch) =>
        match Classify(data[|data| - 1], mapping, now)
        case Skip => Ok(batch)
        case Keep(rec) => Ok(batch + [rec])
        case Fail(error) => Err(error)
  }

  /** The loop at the heart of `fetch_and_store_all_prices`. */
  method Normalise(data: seq<Entry>, mapping: map<string, string>, now: int)
    returns (r: Result<seq<Record>, CycleError>)
    ensures r == Normalised(data, mapping, now)
  {
    var batch: seq<Record> := [];
    var i := 0;
    while i < |data|
      invariant 0 <= i <= |data|
      invariant Normalised(data[..i], mapping, now) == Ok(batch)
    {
      assert data[..i + 1][..i] == data[..i];
      match Classify(data[i], mapping, now) {
        case Skip =>
        case Keep(rec) =>
          batch := batch + [rec];
        case Fail(error) =>
          FailurePersists(data, i + 1, mapping, now);
          assert data[..|data|] == data;
          return Err(error);
      }
      i := i + 1;
    }
    assert data[..i] == data;
    return Ok(batch);
  }

  /** Once an entry has raised, the rest of the snapshot cannot undo it. */
  lemma {:induction false} FailurePersists(data: seq<Entry>, n: nat, mapping: map<string, string>, now: int)
    requires n <= |data|
    requires Normalised(data[..n], mapping, now).Err?
    ensures Normalised(data, mapping, now) == Normalised(data[..n], mapping, now)
  {
    if n < |data| {
      assert data[..|data| - 1][..n] == data[..n];
      FailurePersists(data[..|data| - 1], n, mapping, now);
    } else {
      assert data[..n] == data;
    }
  }

  /** The reference filter: the entries that qualify, in iteration order. */
  function Kept(data: seq<Entry>, mapping: map<string, string>): (r: seq<Entry>)
    ensures |r| <= |data|
    ensures forall j :: 0 <= j < |r| ==> Qualifies(r[j], mapping)
  {
    if data == [] then []
    else if Qualifies(data[0], mapping) then [data[0]] + Kept(data[1..], mapping)
    else Kept(data[1..], mapping)
  }

  /** An entry is kept if and only if it is in the snapshot and qualifies. */
  lemma {:induction false} KeptMembers(data: seq<Entry>, mapping: map<string, string>, e: Entry)
    ensures e in Kept(data, mapping) <==> e in data && Qualifies(e, mapping)
  {
    if data != [] {
      KeptMembers(data[1..], mapping, e);
      assert data == [data[0]] + data[1..];
    }
  }

  lemma {:induction false} KeptSnoc(data: seq<Entry>, mapping: map<string, string>)
    requires data != []
    ensures Kept(data, mapping) == Kept(data[..|data| - 1], mapping)
                                   + (if Qualifies(data[|data| - 1], mapping) then [data[|data| - 1]] else [])
  {
    if |data| > 1 {
      KeptSnoc(data[1..], mapping);
      assert data[1..][..|data[1..]| - 1] == data[..|data| - 1][1..];
    }
  }

  /**
   * A completed loop produced one record per qualifying entry, in snapshot
   * order, each being `(now, name, int(key), high, low)` of its entry.
   */
  lemma {:induction false} NormalisedRecords(data: seq<Entry>, mapping: map<string, string>, now: int)
    requires Normalised(data, mapping, now).Ok?
    ensures var batch := Normalised(data, mapping, now).value;
            var kept := Kept(data, mapping);
            |batch| == |kept| && forall j :: 0 <= j < |batch| ==> batch[j] == RecordOf(kept[j], mapping, now)
  {
    if data != [] {
      var init := data[..|data| - 1];
      NormalisedRecords(init, mapping, now);
      KeptSnoc(data, mapping);
    }
  }

  /** The cycle aborts if and only if some entry raises in the loop body. */
  lemma {:induction false} NormalisedAbortsIff(data: seq<Entry>, mapping: map<string, string>, now: int)
    ensures Normalised(data, mapping, now).Err? <==> exists i :: 0 <= i < |data| && Raises(data[i], mapping)
  {
    if data != [] {
      var init := data[..|data| - 1];
      NormalisedAbortsIff(init, mapping, now);
      if exists i :: 0 <= i < |init| && Raises(init[i], mapping) {
        var i :| 0 <= i < |init| && Raises(init[i], mapping);
        assert data[i] == init[i];
      }
      if exists i :: 0 <= i < |data| && Raises(data[i], mapping) {
        var i :| 0 <= i < |data| && Raises(data[i], mapping);
        if i < |init| { assert init[i] == data[i]; }
      }
    }
  }

  /** A price of 0 is kept: the test is `is not None`, not truthiness. */
  lemma ZeroPriceKept(now: int)
    ensures Normalised([Entry("2", Present(Some(0)), Present(Some(0)))], map["2" := "Cannonball"], now)
            == Ok([Record(now, "Cannonball", 2, 0, 0)])
  {
    var mapping := map["2" := "Cannonball"];
    ParseIntOfIntToString(2);
    assert IntToString(2) == "2";
    var e := Entry("2", Present(Some(0)), Present(Some(0)));
    assert NameResolves(mapping, "2");
    assert Classify(e, mapping, now) == Keep(Record(now, "Cannonball", 2, 0, 0));
    assert Normalised([e][..0], mapping, now) == Ok([]);
    assert [] + [Record(now, "Cannonball", 2, 0, 0)] == [Record(now, "Cannonball", 2, 0, 0)];
  }

  /** An entry whose mapped name is the empty string is dropped, even with an unparsable key. */
  lemma EmptyNameDropped(now: int)
    ensures Normalised([Entry("x", Absent, Absent)], map["x" := ""], now) == Ok([])
  {
  }
}
