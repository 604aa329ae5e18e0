# Price collector model

A Dafny model of the collector in `Price_Tracker/database.py`. The collector
fetches the item id→name mapping once at startup. It then repeats a price
cycle: fetch the latest snapshot, join each `item_id: {high, low}` entry
against the mapping, and `REPLACE` the resulting rows into the `exchange`
table, whose `item_id` column is UNIQUE.

Modules, one per stage of the pipeline:

- `Wrappers` (wrappers.dfy): `Option`, `Result`, and `Field` (a JSON key that
  is absent or present).
- `Decimal` (decimal.dfy): Python's `str(n)` on an integer and `int(s)` on a
  string, with the round trip `int(str(n)) == n`.
- `Mapping` (mapping.dfy): the dictionary comprehension of `get_item_mapping`.
  It is modelled as pure functions with lemmas, because the source is one.
- `Normaliser` (normaliser.dfy): the loop of `fetch_and_store_all_prices` as a
  method with a `while` loop. The method is proved equal to the function
  `Normalised`. That function is then tied to an independent filter-and-map
  reference (`Kept`, `RecordOf`) and to an "aborts iff some entry raises"
  characterisation.
- `Table` (table.dfy): the `exchange` table as a class holding a
  `map<int, Record>` keyed by `item_id`. `add_item_prices_bulk` is a method
  that applies `REPLACE` record by record to a staged copy. It commits the
  copy at the end, or drops it when an integer does not fit SQLite's 64-bit
  INTEGER.
- `Collector` (collector.dfy): one cycle (fetch failure, abort, empty batch,
  rollback, or write), the startup guard `if not item_id_to_name`, and the `while True`
  loop, bounded by a finite list of cycle inputs.

Notes on the code's behaviour:

- A missing price key aborts the cycle. This happens for an entry whose name
  resolves when the `high` key is missing, or when `high` is non-null and the
  `low` key is missing. Either way `price_info[...]` raises `KeyError` at
  line 76, and the `except` at line 88 abandons the whole cycle. The model
  returns `Err(MissingPrice)` and the table is left unchanged. When `high` is
  `null`, the `and` stops before `low` is read, so a missing `low` key is not
  an error and the entry is skipped.
- `add_item_prices_bulk` is called at line 86, inside the `try`. So an error
  raised while storing is caught by the `except` at line 88. One such error is
  modelled: `sqlite3` raises `OverflowError` when a bound integer is outside
  SQLite's 64-bit INTEGER range. The exception skips both `conn.commit()` at
  line 45 and `conn.close()` at line 46. The open transaction is rolled back
  when the connection object is released, so none of the batch is kept.
- `int(item_id)` runs only for entries that passed the condition at line 76,
  because it sits in the body of the `if`. An empty-string name therefore
  skips an entry before its key is parsed.

## Model

| member | source | states |
|---|---|---|
| Decimal.IntToString | Price_Tracker/database.py:56 | `str(n)`: a non-empty string that starts with `-` exactly when `n` is negative |
| Decimal.IntToStringDigits | Price_Tracker/database.py:56 | after the optional `-`, `str(n)` is a non-empty run of ASCII digits with no leading zero |
| Decimal.ParseInt | Price_Tracker/database.py:80 | `int(s)`: fails on the empty string; a result read after a `-` is never positive, and any other result is never negative |
| Decimal.ParseIntOfIntToString | Price_Tracker/database.py:80 | `int(str(n)) == n` for every integer `n`, so a key built by `str(id)` parses back to the id |
| Decimal.IntToStringInjective | Price_Tracker/database.py:56 | distinct ids give distinct `str(id)` keys |
| Mapping.BuildMapping | Price_Tracker/database.py:56 | the comprehension in iteration order, later items overwriting earlier ones; it has at most one key per item (keys and values are given by `MappingKeys` and `MappingLastWins`) |
| Mapping.GetItemMapping | Price_Tracker/database.py:50-59 | result is `None` exactly when the request or decoding failed; otherwise its keys are exactly `str(id)` of the items carrying both `id` and `name` |
| Mapping.MappingKeys | Price_Tracker/database.py:56 | the mapping's keys are exactly `str(id)` of the items carrying both keys |
| Mapping.MappingLastWins | Price_Tracker/database.py:56 | each key holds the name of the last complete item with that id; no later complete item has the same id |
| Mapping.MappingEmptyIff | Price_Tracker/database.py:56 | the mapping is empty exactly when no item carries both `id` and `name` |
| Mapping.MappingKeysParse | Price_Tracker/database.py:56 | every mapping key parses with `int` to the id of some complete item |
| Normaliser.Classify | Price_Tracker/database.py:74-83 | an entry yields a record iff its name is truthy, both prices are present and non-null, and its key parses; the record is `(now, name, int(key), high, low)`. It raises iff the name is truthy and either the `high` key is missing, or `high` is non-null and the `low` key is missing, or both prices are non-null and the key does not parse. A raise on a price key is `MissingPrice`, and one on the key is `KeyNotInteger` |
| Normaliser.Normalised | Price_Tracker/database.py:68-83 | a completed loop yields at most one record per entry, every record stamped with the one timestamp read before the loop; it never reports a fetch failure |
| Normaliser.Normalise | Price_Tracker/database.py:68-83 | the loop returns exactly `Normalised`: the batch, or the error of the first raising entry |
| Normaliser.FailurePersists | Price_Tracker/database.py:63-89 | once an entry has raised, later entries cannot change the outcome |
| Normaliser.KeptMembers | Price_Tracker/database.py:76 | an entry is in the reference filter iff it is in the snapshot and qualifies |
| Normaliser.NormalisedRecords | Price_Tracker/database.py:72-83 | a completed batch is, position by position, `RecordOf` the qualifying entries in snapshot order |
| Normaliser.NormalisedAbortsIff | Price_Tracker/database.py:63-89 | the cycle aborts iff some entry of the snapshot raises in the loop body |
| Normaliser.ZeroPriceKept | Price_Tracker/database.py:76 | prices of 0 are kept, since the test is `is not None` |
| Normaliser.EmptyNameDropped | Price_Tracker/database.py:74-76 | an empty-string name drops the entry without looking at its prices or key |
| Table.PriceTable.constructor | Price_Tracker/database.py:17-33 | a freshly created table is empty and keyed by `item_id` |
| Table.PriceTable.ReplaceBatch | Price_Tracker/database.py:35-46 | commits iff every integer of the batch fits a 64-bit SQLite INTEGER. The table is then `Replaced(old rows, batch)`; otherwise it is unchanged. It stays keyed by `item_id` |
| Table.Replaced | Price_Tracker/database.py:41-43 | REPLACE of each record in turn: no existing id disappears, and every id of the batch is present afterwards |
| Table.ReplacedKeyedById | Price_Tracker/database.py:26 | REPLACE keeps every row stored under its own `item_id` |
| Table.ReplacedKeys | Price_Tracker/database.py:41-43 | the ids afterwards are the old ids plus the batch's ids; nothing is deleted |
| Table.ReplacedLastWins | Price_Tracker/database.py:41-43 | each batch id holds the last record of the batch with that id |
| Table.ReplacedUntouched | Price_Tracker/database.py:41-43 | a row whose id is not in the batch is unchanged, and an absent one stays absent |
| Table.ReplacedHolds | Price_Tracker/database.py:41-43 | every id the batch writes holds exactly the batch's last record with that id |
| Table.ReplacedConcat | Price_Tracker/database.py:43 | two batches applied in turn equal one batch of both, in order |
| Collector.CycleBatch | Price_Tracker/database.py:63-89 | a cycle reports a fetch failure exactly when the snapshot could not be obtained |
| Collector.AfterCycle | Price_Tracker/database.py:63-89 | a cycle is all or nothing: after a fetch failure or an abort the table is unchanged; any change is the REPLACE of the whole storable batch. No row is ever removed |
| Collector.AfterCycles | Price_Tracker/database.py:104-105 | cycles applied in order never remove a row |
| Collector.Starts | Price_Tracker/database.py:99 | `not item_id_to_name` is false exactly when the mapping exists and its size is positive |
| Collector.RunCycle | Price_Tracker/database.py:61-89 | the table after a cycle is `AfterCycle` of the old one. It writes iff the batch is complete, non-empty and storable; otherwise the table is unchanged |
| Collector.RunCollector | Price_Tracker/database.py:92-109 | cycles run iff the mapping is non-`None` and non-empty, and then the table is the result of the cycles in order; otherwise it is untouched |
| Collector.StartsIff | Price_Tracker/database.py:97-101 | the collector starts iff the mapping response arrived and some item has both `id` and `name` |
| Collector.AbortedCycleUnchanged | Price_Tracker/database.py:63-89 | if any entry raises, the cycle leaves the table exactly as it was |
| Collector.CycleStampsRows | Price_Tracker/database.py:69-86 | after a committed cycle every batch id holds one row, under its own `item_id` and stamped with that cycle's time. Every other row, and every row of a rolled-back batch, is unchanged |
| Collector.AfterCyclesKeyedById | Price_Tracker/database.py:26 | a table whose rows sit under their own `item_id` stays so through any run of cycles |
| Collector.BuiltMappingKeysParse | Price_Tracker/database.py:56-80 | with the collector's own mapping, `int(item_id)` never raises during a cycle |
| Collector.LaterCycleWins | Price_Tracker/database.py:104-105 | after two cycles, an id the later committed batch writes holds exactly that batch's last record for the id, whatever the earlier cycle stored. If the later batch is rolled back, the table is what the earlier cycle left |
| Collector.CannonballScenario | Price_Tracker/database.py:68-86 | mapping `{"2": "Cannonball"}` and snapshot `{"2": {high 200, low 180}}`, at a clock reading `0 <= now < 2^63`, store exactly the row `(now, "Cannonball", 2, 200, 180)` |
| Collector.NullHighScenario | Price_Tracker/database.py:76 | an entry with a `null` high price changes nothing, so an existing row for its item is kept as it was |
| Collector.OverflowScenario | Price_Tracker/database.py:43-45 | a high price of 2^63 makes the batch roll back, leaving the table unchanged |

## Left out

- `Price_Tracker/webapp.py` is not part of this model. It is a Flask route that reads the table with SQL `ORDER BY`, formats local times with the clock, and renders a template. It has no logic of its own.
- Network I/O (`requests.get`, `raise_for_status`, `response.json()`) becomes an input: `None` for any failure, or the decoded items or entries.
- Timeouts are not modelled, and neither is the difference between network, HTTP and decoding failures. All of these give `None` or `FetchFailed`.
- SQLite mechanics are not modelled: connections, cursors, `commit`, and the auto-assigned `id` primary key. `REPLACE` gives a replaced row a new `id`; the model keeps rows by `item_id` only.
- Table.PriceTable.ReplaceBatch: the only storage error modelled is a 64-bit integer overflow. Other storage failures (disk full, database locked) are not modelled; they would roll back in the same way.
- `initialize_database` is modelled only as the constructor of an empty table. Later runs receive the existing table object, so `CREATE TABLE IF NOT EXISTS` keeps its rows.
- `time.time`, `time.strftime`, `time.sleep(300)` and the `KeyboardInterrupt` exit are not modelled. Each cycle's timestamp is an input, and the endless loop runs over a finite list of cycle inputs.
- The `print` diagnostics are console output only.
- Decimal.ParseInt: accepts only an optional `+`/`-` sign followed by ASCII digits. Python's `int` also allows surrounding whitespace, `_` separators and non-ASCII digits. Keys the collector resolves are always `str` of an integer, so this does not change any cycle that uses the mapping the collector builds itself.
- Mapping.Item: ids are JSON integers and names are JSON strings. Other JSON types are not modelled: a `null` name, a string id, or `str(None)` as a key.
- Normaliser.Entry: `high` and `low` are JSON integers or `null`. A float or string price is not modelled; `sqlite3` would bind it and store it as REAL or TEXT.
- Normaliser.Entry: a `price_info` that is not an object (such as `"7": null`) is not modelled. If its key does not resolve to a truthy name, `price_info['high']` is never read and the entry is skipped. If the key does resolve, indexing raises `TypeError` inside the loop. That aborts the cycle through the `except` at line 88, the same way as `MissingPrice`.
- Collector.CycleInput: a `data` value that is not an object is modelled as a fetch failure (`snapshot == None`). `.items()` raises at line 72, before any entry is looked at.
- The snapshot's `data` object is a sequence of entries in iteration order. Duplicate keys, which JSON decoding would merge, are not excluded.
