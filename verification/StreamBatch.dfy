/**
 One batch of the event stream on its way to the tables (api/src/cache-events.ts:1003-1241): demultiplexed by kind,
 the last fill of a key kept, then written in one transaction.
 */
module StreamBatch {
  import opened Options
  import opened Sequences

  datatype Mode = Pins | Collection | Namespace

  datatype Purge = Purge(id: string, at: nat, mode: Mode, collection: Option<string>, evicted: Option<nat>)

  // An entry as its fields parse. A descriptor no fill stands behind is a locator.
  datatype StreamEntry =
    | Event(row: string)
    | Purged(purge: Purge, pins: seq<string>)
    | Anomaly(key: string, reason: string)
    | Described(key: string, about: string, filledAt: Option<nat>, filledUnder: seq<string>)

  datatype Row = Row(about: string, lastFilled: Option<nat>, goneAt: Option<nat>, auditedAt: Option<nat>)
  datatype PurgePin = PurgePin(id: string, at: nat, pin: string, collection: string)
  datatype EntryPin = EntryPin(key: string, pin: string, collection: string)

  datatype Tables = Tables(
    events: seq<string>,
    descriptors: map<string, Row>,
    anomalies: seq<(string, string)>,
    purges: seq<Purge>,
    purgePins: seq<PurgePin>,
    entryPins: seq<EntryPin>
  )

  // The collection a pin names: what comes before its slice.
  function CollectionOf(pin: string): string {
    if pin == "" || pin[0] == ':' then "" else [pin[0]] + CollectionOf(pin[1..])
  }

  // ---------- what a batch holds ----------

  function EventsOf(batch: seq<StreamEntry>): seq<string> {
    if batch == [] then []
    else
      var last := batch[|batch| - 1];
      EventsOf(batch[..|batch| - 1]) + if last.Event? then [last.row] else []
  }

  function AnomaliesOf(batch: seq<StreamEntry>): seq<(string, string)> {
    if batch == [] then []
    else
      var last := batch[|batch| - 1];
      AnomaliesOf(batch[..|batch| - 1]) + if last.Anomaly? then [(last.key, last.reason)] else []
  }

  function PurgesOf(batch: seq<StreamEntry>): seq<Purge> {
    if batch == [] then []
    else
      var last := batch[|batch| - 1];
      PurgesOf(batch[..|batch| - 1]) + if last.Purged? then [last.purge] else []
  }

  // One row a pin the purge dropped, and one more against the collection of a purge of a whole one.
  function PinsOf(purge: Purge, pins: seq<string>): seq<PurgePin> {
    if pins == [] then
      if purge.mode == Collection && purge.collection.Some?
      then [PurgePin(purge.id, purge.at, "", purge.collection.value)] else []
    else [PurgePin(purge.id, purge.at, pins[0], CollectionOf(pins[0]))] + PinsOf(purge, pins[1..])
  }

  function PinsIn(entry: StreamEntry): seq<PurgePin> {
    if entry.Purged? then PinsOf(entry.purge, entry.pins) else []
  }

  function PurgePinsOf(batch: seq<StreamEntry>): seq<PurgePin> {
    if batch == [] then [] else PurgePinsOf(batch[..|batch| - 1]) + PinsIn(batch[|batch| - 1])
  }

  predicate IsFill(entry: StreamEntry, key: string) {
    entry.Described? && entry.key == key && entry.filledAt.Some?
  }

  predicate IsLocator(entry: StreamEntry, key: string) {
    entry.Described? && entry.key == key && entry.filledAt.None?
  }

  function LastFill(batch: seq<StreamEntry>, key: string): (r: Option<StreamEntry>)
    ensures r.Some? ==> IsFill(r.value, key)
  {
    if batch == [] then None
    else if IsFill(batch[|batch| - 1], key) then Some(batch[|batch| - 1])
    else LastFill(batch[..|batch| - 1], key)
  }

  function LastLocator(batch: seq<StreamEntry>, key: string): (r: Option<StreamEntry>)
    ensures r.Some? ==> IsLocator(r.value, key)
  {
    if batch == [] then None
    else if IsLocator(batch[|batch| - 1], key) then Some(batch[|batch| - 1])
    else LastLocator(batch[..|batch| - 1], key)
  }

  function EntryPins(key: string, pins: seq<string>): seq<EntryPin> {
    if pins == [] then []
    else EntryPins(key, pins[..|pins| - 1]) + [EntryPin(key, pins[|pins| - 1], CollectionOf(pins[|pins| - 1]))]
  }

  // What comes before the first colon of the pin, or all of it.
  ghost predicate Heads(collection: string, pin: string) {
    ':' !in collection && (pin == collection || collection + ":" <= pin)
  }

  lemma {:induction false} CollectionHeads(pin: string)
    ensures Heads(CollectionOf(pin), pin)
  {
    if pin != "" && pin[0] != ':' {
      CollectionHeads(pin[1..]);
      var head := CollectionOf(pin[1..]);
      assert [pin[0]] + head + ":" == [pin[0]] + (head + ":") && pin == [pin[0]] + pin[1..];
    }
  }

  // The row of a pin, and that of a whole collection.
  ghost predicate IsPinRow(row: PurgePin, purge: Purge, pin: string) {
    row.id == purge.id && row.at == purge.at && row.pin == pin && Heads(row.collection, pin)
  }

  ghost predicate IsCollectionRow(row: PurgePin, purge: Purge) {
    row.id == purge.id && row.at == purge.at && row.pin == "" && purge.collection == Some(row.collection)
  }

  /**
   Every pin a purge dropped has its row, in order, under the purge's own id and time and the collection before its
   slice; and a purge of a whole collection, whatever pins it names, has one more, last.
   */
  lemma {:induction false} PurgePinsAreRows(purge: Purge, pins: seq<string>)
    ensures var rows, whole := PinsOf(purge, pins), purge.mode == Collection && purge.collection.Some?;
            && |rows| == |pins| + (if whole then 1 else 0)
            && (forall k :: 0 <= k < |pins| ==> IsPinRow(rows[k], purge, pins[k]))
            && (whole ==> IsCollectionRow(rows[|pins|], purge))
  {
    if pins != [] {
      PurgePinsAreRows(purge, pins[1..]);
      CollectionHeads(pins[0]);
    }
  }

  // Likewise for the pins an entry was filled under.
  lemma {:induction false} EntryPinsAreRows(key: string, pins: seq<string>)
    ensures var rows := EntryPins(key, pins);
            && |rows| == |pins|
            && forall k :: 0 <= k < |pins| ==>
                             rows[k].key == key && rows[k].pin == pins[k] && Heads(rows[k].collection, pins[k])
  {
    if pins != [] {
      EntryPinsAreRows(key, pins[..|pins| - 1]);
      CollectionHeads(pins[|pins| - 1]);
    }
  }

  function RowOf(rows: map<string, Row>, key: string): Option<Row> {
    if key in rows then Some(rows[key]) else None
  }

  function PinRowsOf(rows: seq<EntryPin>, key: string): seq<EntryPin> {
    if rows == [] then []
    else PinRowsOf(rows[..|rows| - 1], key) + if rows[|rows| - 1].key == key then [rows[|rows| - 1]] else []
  }

  // ---------- what persisting it does ----------

  // A fill replaces what it describes, not when it was audited; a locator only makes a row where there is none.
  function RowAfter(was: Option<Row>, fill: Option<StreamEntry>, locator: Option<StreamEntry>): Option<Row>
    requires fill.Some? ==> fill.value.Described?
    requires locator.Some? ==> locator.value.Described?
  {
    if fill.Some? then
      Some(Row(fill.value.about, fill.value.filledAt, None, if was.Some? then was.value.auditedAt else None))
    else if was.Some? then was
    else if locator.Some? then Some(Row(locator.value.about, None, None, None))
    else None
  }

  // The logs grow by what the entries hold.
  ghost predicate Logged(start: Tables, end: Tables, stream: seq<StreamEntry>) {
    && end.events == start.events + EventsOf(stream) && end.anomalies == start.anomalies + AnomaliesOf(stream)
    && end.purges == start.purges + PurgesOf(stream) && end.purgePins == start.purgePins + PurgePinsOf(stream)
  }

  ghost predicate Persists(t: Tables, batch: seq<StreamEntry>, end: Tables) {
    && Logged(t, end, batch)
    && (forall key :: RowOf(end.descriptors, key)
                      == RowAfter(RowOf(t.descriptors, key), LastFill(batch, key), LastLocator(batch, key)))
    && (forall key :: PinRowsOf(end.entryPins, key) == PinsAfter(t.entryPins, LastFill(batch, key), key))
  }

  function PinsAfter(rows: seq<EntryPin>, fill: Option<StreamEntry>, key: string): seq<EntryPin>
    requires fill.Some? ==> fill.value.Described?
  {
    if fill.Some? then EntryPins(key, Distinct(fill.value.filledUnder)) else PinRowsOf(rows, key)
  }

  // `insert ... on conflict merge`: the columns inserted, and no other.
  function Merged(rows: map<string, Row>, fills: map<string, StreamEntry>): map<string, Row>
    requires forall key :: key in fills ==> fills[key].Described?
  {
    map key | key in rows.Keys + fills.Keys ::
      if key in fills
      then Row(fills[key].about, fills[key].filledAt, None, if key in rows then rows[key].auditedAt else None)
      else rows[key]
  }

  // `insert ... on conflict ignore`.
  function Inserted(rows: map<string, Row>, locators: map<string, StreamEntry>): map<string, Row>
    requires forall key :: key in locators ==> locators[key].Described?
  {
    map key | key in rows.Keys + locators.Keys ::
      if key in rows then rows[key] else Row(locators[key].about, locators[key].filledAt, None, None)
  }

  // `delete` of the rows of these keys.
  function Without(rows: seq<EntryPin>, keys: set<string>): seq<EntryPin> {
    if rows == [] then []
    else Without(rows[..|rows| - 1], keys) + if rows[|rows| - 1].key in keys then [] else [rows[|rows| - 1]]
  }

  lemma {:induction false} WithoutLeaves(rows: seq<EntryPin>, keys: set<string>, key: string)
    ensures PinRowsOf(Without(rows, keys), key) == if key in keys then [] else PinRowsOf(rows, key)
  {
    if rows != [] {
      var init, last := rows[..|rows| - 1], rows[|rows| - 1];
      WithoutLeaves(init, keys, key);
      PinRowsConcat(Without(init, keys), if last.key in keys then [] else [last], key);
    }
  }

  lemma {:induction false} PinRowsConcat(a: seq<EntryPin>, b: seq<EntryPin>, key: string)
    ensures PinRowsOf(a + b, key) == PinRowsOf(a, key) + PinRowsOf(b, key)
  {
    if b == [] {
      assert a + b == a;
    } else {
      var init := b[..|b| - 1];
      PinRowsConcat(a, init, key);
      assert (a + b)[..|a + b| - 1] == a + init;
    }
  }

  lemma {:induction false} PinRowsOfEntry(owner: string, pins: seq<string>, key: string)
    ensures PinRowsOf(EntryPins(owner, pins), key) == if owner == key then EntryPins(key, pins) else []
  {
    if pins != [] {
      var init, last := pins[..|pins| - 1], pins[|pins| - 1];
      PinRowsOfEntry(owner, init, key);
      PinRowsConcat(EntryPins(owner, init), [EntryPin(owner, last, CollectionOf(last))], key);
    }
  }

  class Database {
    var tables: Tables

    constructor (tables: Tables)
      ensures this.tables == tables
    {
      this.tables := tables;
    }

    // Demultiplex the batch, then write it.
    method PersistBatch(batch: seq<StreamEntry>)
      modifies this
      ensures Persists(old(tables), batch, tables)
    {
      var events, anomalies, purges, purgePins, descriptors, locators, entryPins := Demultiplex(batch);
      Commit(events, anomalies, purges, purgePins, descriptors, locators, entryPins, batch);
    }

    // The transaction.
    method Commit(events: seq<string>, anomalies: seq<(string, string)>, purges: seq<Purge>, purgePins: seq<PurgePin>,
                  descriptors: map<string, StreamEntry>, locators: map<string, StreamEntry>,
                  entryPins: map<string, seq<string>>, ghost batch: seq<StreamEntry>)
      requires events == EventsOf(batch) && anomalies == AnomaliesOf(batch)
      requires purges == PurgesOf(batch) && purgePins == PurgePinsOf(batch)
      requires AreLast(descriptors, locators, entryPins, batch)
      modifies this
      ensures Persists(old(tables), batch, tables)
    {
      var rows := ReplacePins(tables.entryPins, entryPins);
      tables := Tables(tables.events + events, Inserted(Merged(tables.descriptors, descriptors), locators),
                       tables.anomalies + anomalies, tables.purges + purges, tables.purgePins + purgePins, rows);
      RowsAreAfter(old(tables).descriptors, descriptors, locators, batch);
    }
  }

  method Demultiplex(batch: seq<StreamEntry>)
    returns (events: seq<string>, anomalies: seq<(string, string)>, purges: seq<Purge>, purgePins: seq<PurgePin>,
             descriptors: map<string, StreamEntry>, locators: map<string, StreamEntry>,
             entryPins: map<string, seq<string>>)
    ensures events == EventsOf(batch) && anomalies == AnomaliesOf(batch)
    ensures purges == PurgesOf(batch) && purgePins == PurgePinsOf(batch)
    ensures AreLast(descriptors, locators, entryPins, batch)
  {
    events, anomalies, purges, purgePins := [], [], [], [];
    descriptors, locators, entryPins := map[], map[], map[];
    for k := 0 to |batch|
      invariant events == EventsOf(batch[..k]) && anomalies == AnomaliesOf(batch[..k])
      invariant purges == PurgesOf(batch[..k]) && purgePins == PurgePinsOf(batch[..k])
      invariant AreLast(descriptors, locators, entryPins, batch[..k])
    {
      var entry := batch[k];
      assert batch[..k + 1] == batch[..k] + [entry];
      match entry
      case Event(row) => events := events + [row];
      case Purged(purge, pins) =>
        purges := purges + [purge];
        purgePins := purgePins + PinsOf(purge, pins);
      case Anomaly(key, reason) => anomalies := anomalies + [(key, reason)];
      case Described(key, _, filledAt, filledUnder) =>
        if filledAt.None? {
          locators := locators[key := entry];
        } else {
          descriptors := descriptors[key := entry];
          entryPins := entryPins[key := Distinct(filledUnder)];
        }
    }
    assert batch[..|batch|] == batch;
  }

  lemma {:induction false} PinsAdded(rows: seq<EntryPin>, owner: string, pins: seq<string>)
    ensures forall key :: PinRowsOf(rows + EntryPins(owner, pins), key)
                          == PinRowsOf(rows, key) + if owner == key then EntryPins(key, pins) else []
  {
    forall key ensures PinRowsOf(rows + EntryPins(owner, pins), key)
                    == PinRowsOf(rows, key) + if owner == key then EntryPins(key, pins) else []
    {
      PinRowsConcat(rows, EntryPins(owner, pins), key);
      PinRowsOfEntry(owner, pins, key);
    }
  }

  // Drop the rows of the refilled keys, then add those of their fills.
  method ReplacePins(rows: seq<EntryPin>, entryPins: map<string, seq<string>>) returns (end: seq<EntryPin>)
    ensures forall key ::
              PinRowsOf(end, key) == if key in entryPins then EntryPins(key, entryPins[key]) else PinRowsOf(rows, key)
  {
    var kept := Without(rows, entryPins.Keys);
    var added := RowsToAdd(entryPins);
    end := kept + added;
    forall key
      ensures PinRowsOf(end, key) == if key in entryPins then EntryPins(key, entryPins[key]) else PinRowsOf(rows, key)
    {
      WithoutLeaves(rows, entryPins.Keys, key);
      PinRowsConcat(kept, added, key);
    }
  }

  // The rows added so far: those of every key done with.
  ghost predicate AddedFor(added: seq<EntryPin>, entryPins: map<string, seq<string>>, left: set<string>) {
    forall key :: PinRowsOf(added, key)
                  == if key in entryPins && key !in left then EntryPins(key, entryPins[key]) else []
  }

  lemma {:induction false} AddsOwner(added: seq<EntryPin>, entryPins: map<string, seq<string>>, left: set<string>,
                                     owner: string)
    requires AddedFor(added, entryPins, left) && owner in left && owner in entryPins
    ensures AddedFor(added + EntryPins(owner, entryPins[owner]), entryPins, left - {owner})
  {
    PinsAdded(added, owner, entryPins[owner]);
  }

  method RowsToAdd(entryPins: map<string, seq<string>>) returns (added: seq<EntryPin>)
    ensures AddedFor(added, entryPins, {})
  {
    added := [];
    var left := entryPins.Keys;
    while left != {}
      invariant left <= entryPins.Keys && AddedFor(added, entryPins, left)
    {
      var owner :| owner in left;
      AddsOwner(added, entryPins, left, owner);
      left := left - {owner};
      added := added + EntryPins(owner, entryPins[owner]);
    }
  }

  ghost predicate AreLast(descriptors: map<string, StreamEntry>, locators: map<string, StreamEntry>,
                          entryPins: map<string, seq<string>>, batch: seq<StreamEntry>) {
    && IsLast(descriptors, batch, true) && IsLast(locators, batch, false)
    && entryPins.Keys == descriptors.Keys
    && forall key :: key in entryPins ==>
                       descriptors[key].Described? && entryPins[key] == Distinct(descriptors[key].filledUnder)
  }

  lemma {:induction false} RowsAreAfter(rows: map<string, Row>, fills: map<string, StreamEntry>,
                                        locators: map<string, StreamEntry>,
                                        batch: seq<StreamEntry>)
    requires IsLast(fills, batch, true) && IsLast(locators, batch, false)
    requires forall key :: key in fills ==> fills[key].Described?
    requires forall key :: key in locators ==> locators[key].Described?
    ensures forall key :: RowOf(Inserted(Merged(rows, fills), locators), key)
                          == RowAfter(RowOf(rows, key), LastFill(batch, key), LastLocator(batch, key))
  {
  }

  // The map holds the last fill, or the last locator, of each key the batch has one for.
  ghost predicate IsLast(entries: map<string, StreamEntry>, batch: seq<StreamEntry>, fills: bool) {
    forall key :: (if key in entries then Some(entries[key]) else None)
                  == if fills then LastFill(batch, key) else LastLocator(batch, key)
  }

  // ---------- there is always such an end ----------

  // The last fill, or the last locator, of each key.
  function LastOfEach(batch: seq<StreamEntry>, fills: bool): map<string, StreamEntry> {
    if batch == [] then map[]
    else
      var earlier, last := LastOfEach(batch[..|batch| - 1], fills), batch[|batch| - 1];
      if last.Described? && last.filledAt.Some? == fills then earlier[last.key := last] else earlier
  }

  lemma {:induction false} LastOfEachIsLast(batch: seq<StreamEntry>, fills: bool)
    ensures IsLast(LastOfEach(batch, fills), batch, fills)
  {
    if batch != [] {
      LastOfEachIsLast(batch[..|batch| - 1], fills);
    }
  }

  lemma {:induction false} AddsLeft(added: seq<EntryPin>, entryPins: map<string, seq<string>>, left: set<string>)
    returns (all: seq<EntryPin>)
    requires left <= entryPins.Keys && AddedFor(added, entryPins, left)
    ensures AddedFor(all, entryPins, {})
    decreases left
  {
    all := added;
    if left != {} {
      var owner :| owner in left;
      AddsOwner(added, entryPins, left, owner);
      all := AddsLeft(added + EntryPins(owner, entryPins[owner]), entryPins, left - {owner});
    }
  }

  lemma {:induction false} SomePins(rows: seq<EntryPin>, batch: seq<StreamEntry>) returns (end: seq<EntryPin>)
    ensures forall key :: PinRowsOf(end, key) == PinsAfter(rows, LastFill(batch, key), key)
  {
    var fills := LastOfEach(batch, true);
    LastOfEachIsLast(batch, true);
    assert forall key :: key in fills ==> LastFill(batch, key) == Some(fills[key]) && fills[key].Described?;
    var entryPins := map key | key in fills :: Distinct(fills[key].filledUnder);
    var added := AddsLeft([], entryPins, entryPins.Keys);
    end := Without(rows, entryPins.Keys) + added;
    forall key ensures PinRowsOf(end, key) == PinsAfter(rows, LastFill(batch, key), key) {
      WithoutLeaves(rows, entryPins.Keys, key);
      PinRowsConcat(Without(rows, entryPins.Keys), added, key);
    }
  }

  lemma {:induction false} PersistsSome(t: Tables, batch: seq<StreamEntry>) returns (end: Tables)
    ensures Persists(t, batch, end)
  {
    var fills, locators := LastOfEach(batch, true), LastOfEach(batch, false);
    LastOfEachIsLast(batch, true);
    LastOfEachIsLast(batch, false);
    assert forall key :: key in fills ==> LastFill(batch, key) == Some(fills[key]);
    assert forall key :: key in locators ==> LastLocator(batch, key) == Some(locators[key]);
    var pins := SomePins(t.entryPins, batch);
    end := Tables(t.events + EventsOf(batch), Inserted(Merged(t.descriptors, fills), locators),
                  t.anomalies + AnomaliesOf(batch), t.purges + PurgesOf(batch), t.purgePins + PurgePinsOf(batch), pins);
    RowsAreAfter(t.descriptors, fills, locators, batch);
  }

  // ---------- a stream, however it is split ----------

  function Stream(batches: seq<seq<StreamEntry>>): seq<StreamEntry> {
    if batches == [] then [] else Stream(batches[..|batches| - 1]) + batches[|batches| - 1]
  }

  ghost predicate Drained(tables: seq<Tables>, batches: seq<seq<StreamEntry>>) {
    |tables| == |batches| + 1 && forall k :: 0 <= k < |batches| ==> Persists(tables[k], batches[k], tables[k + 1])
  }

  // The last locator of the first batch that holds one.
  function FirstLocator(batches: seq<seq<StreamEntry>>, key: string): (r: Option<StreamEntry>)
    ensures r.Some? ==> IsLocator(r.value, key)
  {
    if batches == [] then None
    else
      var earlier := FirstLocator(batches[..|batches| - 1], key);
      if earlier.Some? then earlier else LastLocator(batches[|batches| - 1], key)
  }

  lemma {:induction false} EventsConcat(a: seq<StreamEntry>, b: seq<StreamEntry>)
    ensures EventsOf(a + b) == EventsOf(a) + EventsOf(b)
  {
    if b == [] {
      assert a + b == a;
    } else {
      EventsConcat(a, b[..|b| - 1]);
      assert (a + b)[..|a + b| - 1] == a + b[..|b| - 1];
    }
  }

  lemma {:induction false} AnomaliesConcat(a: seq<StreamEntry>, b: seq<StreamEntry>)
    ensures AnomaliesOf(a + b) == AnomaliesOf(a) + AnomaliesOf(b)
  {
    if b == [] {
      assert a + b == a;
    } else {
      AnomaliesConcat(a, b[..|b| - 1]);
      assert (a + b)[..|a + b| - 1] == a + b[..|b| - 1];
    }
  }

  lemma {:induction false} PurgesConcat(a: seq<StreamEntry>, b: seq<StreamEntry>)
    ensures PurgesOf(a + b) == PurgesOf(a) + PurgesOf(b)
  {
    if b == [] {
      assert a + b == a;
    } else {
      PurgesConcat(a, b[..|b| - 1]);
      assert (a + b)[..|a + b| - 1] == a + b[..|b| - 1];
    }
  }

  lemma {:induction false} PurgePinsSnoc(batch: seq<StreamEntry>, last: StreamEntry)
    ensures PurgePinsOf(batch + [last]) == PurgePinsOf(batch) + PinsIn(last)
  {
    assert (batch + [last])[..|batch|] == batch;
  }

  lemma {:induction false} PurgePinsConcat(a: seq<StreamEntry>, b: seq<StreamEntry>)
    ensures PurgePinsOf(a + b) == PurgePinsOf(a) + PurgePinsOf(b)
  {
    if b == [] {
      assert a + b == a;
    } else {
      var init, last := b[..|b| - 1], b[|b| - 1];
      assert b == init + [last];
      InOneRow(a, init, [last]);
      PurgePinsConcat(a, init);
      PurgePinsSnoc(init, last);
      PurgePinsSnoc(a + init, last);
      InOneRow(PurgePinsOf(a), PurgePinsOf(init), PinsIn(last));
    }
  }

  lemma {:induction false} LastFillConcat(a: seq<StreamEntry>, b: seq<StreamEntry>, key: string)
    ensures LastFill(a + b, key) == if LastFill(b, key).Some? then LastFill(b, key) else LastFill(a, key)
  {
    if b == [] {
      assert a + b == a;
    } else {
      LastFillConcat(a, b[..|b| - 1], key);
      assert (a + b)[..|a + b| - 1] == a + b[..|b| - 1];
    }
  }

  lemma {:induction false} LastOf(tables: seq<Tables>, batches: seq<seq<StreamEntry>>)
    requires Drained(tables, batches) && batches != []
    ensures var n := |batches| - 1;
            && Drained(tables[..n + 1], batches[..n])
            && tables[..n + 1][0] == tables[0] && tables[..n + 1][n] == tables[n]
            && Persists(tables[n], batches[n], tables[n + 1]) && Stream(batches) == Stream(batches[..n]) + batches[n]
  {
    var n := |batches| - 1;
    var front, split := tables[..n + 1], batches[..n];
    forall k | 0 <= k < n ensures Persists(front[k], split[k], front[k + 1]) {
      assert front[k] == tables[k] && split[k] == batches[k] && front[k + 1] == tables[k + 1];
    }
  }

  lemma {:induction false} LogsMore(start: Tables, mid: Tables, end: Tables, stream: seq<StreamEntry>,
                                    batch: seq<StreamEntry>)
    requires Logged(start, mid, stream) && Logged(mid, end, batch)
    ensures Logged(start, end, stream + batch)
  {
    EventsConcat(stream, batch);
    AnomaliesConcat(stream, batch);
    PurgesConcat(stream, batch);
    PurgePinsConcat(stream, batch);
    InOneRow(start.events, EventsOf(stream), EventsOf(batch));
    InOneRow(start.anomalies, AnomaliesOf(stream), AnomaliesOf(batch));
    InOneRow(start.purges, PurgesOf(stream), PurgesOf(batch));
    InOneRow(start.purgePins, PurgePinsOf(stream), PurgePinsOf(batch));
  }

  // Whatever the batches of an in-order stream, they leave the logs of the whole stream.
  lemma {:induction false} BatchesLeaveLogs(tables: seq<Tables>, batches: seq<seq<StreamEntry>>)
    requires Drained(tables, batches)
    ensures Logged(tables[0], tables[|batches|], Stream(batches))
  {
    if batches != [] {
      var n := |batches| - 1;
      LastOf(tables, batches);
      BatchesLeaveLogs(tables[..n + 1], batches[..n]);
      LogsMore(tables[0], tables[n], tables[n + 1], Stream(batches[..n]), batches[n]);
    }
  }

  /**
   And each key described by the last fill of the stream, under exactly its pins, audited as before. A locator
   describes only a key neither the table nor the stream has a fill of: the last one of the first batch to hold any.
   */
  lemma {:induction false} BatchesLeaveLastFill(tables: seq<Tables>, batches: seq<seq<StreamEntry>>, key: string)
    requires Drained(tables, batches)
    ensures var start, end, stream := tables[0], tables[|batches|], Stream(batches);
            && RowOf(end.descriptors, key)
               == RowAfter(RowOf(start.descriptors, key), LastFill(stream, key), FirstLocator(batches, key))
            && PinRowsOf(end.entryPins, key) == PinsAfter(start.entryPins, LastFill(stream, key), key)
  {
    if batches != [] {
      var n := |batches| - 1;
      LastOf(tables, batches);
      BatchesLeaveLastFill(tables[..n + 1], batches[..n], key);
      LastFillConcat(Stream(batches[..n]), batches[n], key);
      assert RowOf(tables[n + 1].descriptors, key)
          == RowAfter(RowOf(tables[n].descriptors, key), LastFill(batches[n], key), LastLocator(batches[n], key));
    }
  }

  // Two splits of one stream agree on the logs, on every pin, and on every key filled in it or described before it.
  lemma {:induction false} SplitDoesNotMatter(a: seq<Tables>, splitA: seq<seq<StreamEntry>>, b: seq<Tables>,
                                              splitB: seq<seq<StreamEntry>>, key: string)
    requires Drained(a, splitA) && Drained(b, splitB) && a[0] == b[0] && Stream(splitA) == Stream(splitB)
    ensures var x, y := a[|splitA|], b[|splitB|];
            && x.events == y.events && x.anomalies == y.anomalies && x.purges == y.purges && x.purgePins == y.purgePins
            && PinRowsOf(x.entryPins, key) == PinRowsOf(y.entryPins, key)
            && (LastFill(Stream(splitA), key).Some? || key in a[0].descriptors ==>
                  RowOf(x.descriptors, key) == RowOf(y.descriptors, key))
  {
    BatchesLeaveLogs(a, splitA);
    BatchesLeaveLogs(b, splitB);
    BatchesLeaveLastFill(a, splitA, key);
    BatchesLeaveLastFill(b, splitB, key);
  }

  // For any other key it does: each of its locators describes it under some split.
  lemma {:induction false} AnyLocatorCanWin(t: Tables, mid: Tables, end: Tables, stream: seq<StreamEntry>,
                                            i: nat, key: string)
    requires i < |stream| && IsLocator(stream[i], key)
    requires Persists(t, stream[..i + 1], mid) && Persists(mid, stream[i + 1..], end)
    requires key !in t.descriptors && LastFill(stream, key).None?
    ensures RowOf(end.descriptors, key) == Some(Row(stream[i].about, None, None, None))
  {
    var front, back := stream[..i + 1], stream[i + 1..];
    assert front[|front| - 1] == stream[i] && front + back == stream;
    LastFillConcat(front, back, key);
    TwoRows(t, front, mid, back, end, key);
  }

  lemma {:induction false} TwoRows(t: Tables, front: seq<StreamEntry>, mid: Tables, back: seq<StreamEntry>,
                                   end: Tables, key: string)
    requires Persists(t, front, mid) && Persists(mid, back, end)
    ensures RowOf(mid.descriptors, key)
         == RowAfter(RowOf(t.descriptors, key), LastFill(front, key), LastLocator(front, key))
    ensures RowOf(end.descriptors, key)
         == RowAfter(RowOf(mid.descriptors, key), LastFill(back, key), LastLocator(back, key))
  {
  }
}
