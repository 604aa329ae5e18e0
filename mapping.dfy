/**
 * The item mapping of `get_item_mapping`: the decoded list of item objects is
 * turned into a dictionary from `str(id)` to name, keeping only the objects
 * that carry both keys; a later object with the same id overwrites an earlier one.
 */
module Mapping {
  import opened Wrappers
  import opened Decimal

  /** One object of the mapping endpoint's JSON array; either key may be missing. */
  datatype Item = Item(id: Field<int>, name: Field<string>)

  /** The comprehension's filter: `'id' in item and 'name' in item`. */
  predicate Complete(item: Item) {
    item.id.Present? && item.name.Present?
  }

  /** The dictionary key of a complete item: `str(item['id'])`. */
  function KeyOf(item: Item): string
    requires Complete(item)
  {
    IntToString(item.id.value)
  }

  /** The dictionary comprehension, built in iteration order (later items overwrite). */
  function BuildMapping(items: seq<Item>): (m: map<string, string>)
    ensures |m| <= |items|
  {
    if items == [] then map[]
    else
      var m := BuildMapping(items[..|items| - 1]);
      var last := items[|items| - 1];
      if Complete(last) then
        assert m[KeyOf(last) := last.name.value].Keys == m.Keys + {KeyOf(last)};
        m[KeyOf(last) := last.name.value]
      else m
  }

  /**
   * `get_item_mapping` with the HTTP request and JSON decoding abstracted as
   * `response`: `None` stands for any exception raised by them.
   */
  function GetItemMapping(response: Option<seq<Item>>): (r: Option<map<string, string>>)
    ensures r.None? <==> response.None?
    ensures response.Some? ==> r.value.Keys == KeysOf(response.value)
  {
    match response
    case None => None
    case Some(items) =>
      MappingKeys(items);
      Some(BuildMapping(items))
  }

  /** The keys of all complete items (an independent statement of the domain). */
  ghost function KeysOf(items: seq<Item>): set<string>
  {
    set i | 0 <= i < |items| && Complete(items[i]) :: KeyOf(items[i])
  }

  /** The mapping's keys are exactly `str(id)` of the complete items. */
  lemma {:induction false} MappingKeys(items: seq<Item>)
    ensures BuildMapping(items).Keys == KeysOf(items)
  {
    if items != [] {
      var init := items[..|items| - 1];
      MappingKeys(init);
      var last := |items| - 1;
      forall k | k in KeysOf(items) ensures k in BuildMapping(items) {
        var i :| 0 <= i < |items| && Complete(items[i]) && KeyOf(items[i]) == k;
        if i < last {
          assert init[i] == items[i];
          assert k in KeysOf(init);
        }
      }
      forall k | k in BuildMapping(items) ensures k in KeysOf(items) {
        if k !in BuildMapping(init) {
          assert Complete(items[last]) && KeyOf(items[last]) == k;
        } else {
          var i :| 0 <= i < |init| && Complete(init[i]) && KeyOf(init[i]) == k;
          assert items[i] == init[i];
        }
      }
    }
  }

  /**
   * The value under each key is the name of the LAST complete item with that
   * key: no complete item after it has the same id.
   */
  lemma {:induction false} MappingLastWins(items: seq<Item>, k: string)
    requires k in BuildMapping(items)
    ensures exists i :: 0 <= i < |items| && Complete(items[i]) && KeyOf(items[i]) == k
                        && BuildMapping(items)[k] == items[i].name.value
                        && forall j :: i < j < |items| && Complete(items[j]) ==> KeyOf(items[j]) != k
  {
    var init := items[..|items| - 1];
    var last := |items| - 1;
    if Complete(items[last]) && KeyOf(items[last]) == k {
      assert BuildMapping(items)[k] == items[last].name.value;
    } else {
      MappingLastWins(init, k);
      var i :| 0 <= i < |init| && Complete(init[i]) && KeyOf(init[i]) == k
               && BuildMapping(init)[k] == init[i].name.value
               && forall j :: i < j < |init| && Complete(init[j]) ==> KeyOf(init[j]) != k;
      assert items[i] == init[i];
      forall j | i < j < |items| && Complete(items[j]) ensures KeyOf(items[j]) != k {
        if j < last { assert items[j] == init[j]; }
      }
    }
  }

  /** The mapping is empty exactly when no item carries both `id` and `name`. */
  lemma {:induction false} MappingEmptyIff(items: seq<Item>)
    ensures BuildMapping(items) == map[] <==> forall i :: 0 <= i < |items| ==> !Complete(items[i])
  {
    MappingKeys(items);
    if exists i :: 0 <= i < |items| && Complete(items[i]) {
      var i :| 0 <= i < |items| && Complete(items[i]);
      assert KeyOf(items[i]) in BuildMapping(items);
    }
  }

  /** Every key of the mapping is `str` of some integer, so `int(key)` succeeds on it. */
  lemma MappingKeysParse(items: seq<Item>, k: string)
    requires k in BuildMapping(items)
    ensures ParseInt(k).Some?
    ensures exists i :: 0 <= i < |items| && Complete(items[i]) && ParseInt(k) == Some(items[i].id.value)
  {
    MappingKeys(items);
    var i :| 0 <= i < |items| && Complete(items[i]) && KeyOf(items[i]) == k;
    ParseIntOfIntToString(items[i].id.value);
  }
}
