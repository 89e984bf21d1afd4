/**
 What the drain of the event stream leaves in the tables (api/src/cache-events.ts:1003-1241), whatever its nodes do:
 the batches committed over a run, redelivered ones among them, persisted in that order.
 */
module StreamTables {
  import opened Options
  import opened Sequences
  import opened StreamBatch
  import opened StreamDrain

  // ---------- the tables a run leaves ----------

  function NoTables(): Tables {
    Tables([], map[], [], [], [], [])
  }

  // The run takes the tables from one state to the other: each commit persists its batch, no other step writes any.
  ghost predicate Leaves(t: Tables, d: Drain, steps: seq<Step>, end: Tables)
    requires Legal(d, steps)
    decreases |steps|
  {
    if steps == [] then t == end
    else if steps[0].Commit? then
      exists next :: Persists(t, EntriesAt(d.entries, d.nodes[steps[0].node].ids), next)
                     && Leaves(next, Stepped(d, steps[0]), steps[1..], end)
    else Leaves(t, Stepped(d, steps[0]), steps[1..], end)
  }

  lemma {:induction false} LeavesSome(t: Tables, d: Drain, steps: seq<Step>) returns (end: Tables)
    requires Legal(d, steps)
    ensures Leaves(t, d, steps, end)
    decreases |steps|
  {
    if steps == [] {
      end := t;
    } else if steps[0].Commit? {
      var next := PersistsSome(t, EntriesAt(d.entries, d.nodes[steps[0].node].ids));
      end := LeavesSome(next, Stepped(d, steps[0]), steps[1..]);
    } else {
      end := LeavesSome(t, Stepped(d, steps[0]), steps[1..]);
    }
  }

  // Persisting the batches in turn, from empty tables, comes to these.
  ghost predicate LeftBy(batches: seq<seq<StreamEntry>>, end: Tables) {
    exists tables :: Drained(tables, batches) && tables[0] == NoTables() && tables[|batches|] == end
  }

  lemma {:induction false} EntriesStay(entries: seq<StreamEntry>, entry: StreamEntry, ids: seq<nat>)
    requires Below(ids, |entries|)
    ensures EntriesAt(entries + [entry], ids) == EntriesAt(entries, ids)
  {
    if ids != [] {
      EntriesStay(entries, entry, ids[..|ids| - 1]);
    }
  }

  lemma {:induction false} BatchesStay(entries: seq<StreamEntry>, entry: StreamEntry, commits: seq<seq<nat>>)
    requires AllBelow(commits, |entries|)
    ensures Batches(entries + [entry], commits) == Batches(entries, commits)
  {
    if commits != [] {
      EntriesStay(entries, entry, commits[|commits| - 1]);
      BatchesStay(entries, entry, commits[..|commits| - 1]);
    }
  }

  lemma {:induction false} OneMoreBatch(batches: seq<seq<StreamEntry>>, t: Tables, batch: seq<StreamEntry>,
                                        next: Tables)
    requires LeftBy(batches, t) && Persists(t, batch, next)
    ensures LeftBy(batches + [batch], next)
  {
    var tables :| Drained(tables, batches) && tables[0] == NoTables() && tables[|batches|] == t;
    var more := tables + [next];
    assert Drained(more, batches + [batch]);
  }

  lemma {:induction false} RunLeaves(t: Tables, d: Drain, steps: seq<Step>, end: Tables)
    requires Invariant(d) && Legal(d, steps) && LeftBy(Batches(d.entries, d.commits), t) && Leaves(t, d, steps, end)
    ensures var ran := Ran(d, steps); LeftBy(Batches(ran.entries, ran.commits), end)
    decreases |steps|
  {
    if steps != [] {
      var step, next := steps[0], Stepped(d, steps[0]);
      StepKeepsInvariant(d, step);
      if step.Commit? {
        var ids := d.nodes[step.node].ids;
        var batch := EntriesAt(d.entries, ids);
        var after :| Persists(t, batch, after) && Leaves(after, next, steps[1..], end);
        assert (d.commits + [ids])[..|d.commits|] == d.commits;
        OneMoreBatch(Batches(d.entries, d.commits), t, batch, after);
        RunLeaves(after, next, steps[1..], end);
      } else {
        if step.Append? {
          BatchesStay(d.entries, step.entry, d.commits);
        }
        RunLeaves(t, next, steps[1..], end);
      }
    }
  }

  lemma {:induction false} RunFromStart(now: nat, steps: seq<Step>, end: Tables)
    requires Legal(Initial(now), steps) && Leaves(NoTables(), Initial(now), steps, end)
    ensures var d := Ran(Initial(now), steps); Invariant(d) && LeftBy(Batches(d.entries, d.commits), end)
  {
    assert Drained([NoTables()], []);
    RunKeepsInvariant(Initial(now), steps);
    RunLeaves(NoTables(), Initial(now), steps, end);
  }

  // ---------- purges ----------

  ghost predicate IsPurgeOf(entries: seq<StreamEntry>, ids: set<nat>, purge: Purge) {
    exists id :: id in ids && id < |entries| && entries[id].Purged? && entries[id].purge == purge
  }

  lemma {:induction false} PurgeOfEither(entries: seq<StreamEntry>, a: set<nat>, b: set<nat>, purge: Purge)
    ensures IsPurgeOf(entries, a + b, purge) <==> IsPurgeOf(entries, a, purge) || IsPurgeOf(entries, b, purge)
  {
  }

  lemma {:induction false} PurgesSnoc(batch: seq<StreamEntry>, last: StreamEntry)
    ensures PurgesOf(batch + [last]) == PurgesOf(batch) + if last.Purged? then [last.purge] else []
  {
    assert (batch + [last])[..|batch|] == batch;
  }

  // What the last of the ids adds.
  lemma {:induction false} EntriesSnoc(entries: seq<StreamEntry>, ids: seq<nat>)
    requires ids != []
    ensures var init, last := ids[..|ids| - 1], ids[|ids| - 1];
            && Ids(ids) == Ids(init) + {last}
            && EntriesAt(entries, ids)
               == if last < |entries| then EntriesAt(entries, init) + [entries[last]] else EntriesAt(entries, init)
  {
    var init, last := ids[..|ids| - 1], ids[|ids| - 1];
    assert ids == init + [last];
    assert EntriesAt(entries, init) + [] == EntriesAt(entries, init);
  }

  lemma {:induction false} PurgesOfAre(entries: seq<StreamEntry>, ids: seq<nat>, purge: Purge)
    ensures purge in PurgesOf(EntriesAt(entries, ids)) <==> IsPurgeOf(entries, Ids(ids), purge)
  {
    if ids != [] {
      var init, last := ids[..|ids| - 1], ids[|ids| - 1];
      PurgesOfAre(entries, init, purge);
      EntriesSnoc(entries, ids);
      PurgeOfEither(entries, Ids(init), {last}, purge);
      if last < |entries| {
        assert last in {last};
        PurgesSnoc(EntriesAt(entries, init), entries[last]);
      }
    }
  }

  lemma {:induction false} PurgesOfCommits(entries: seq<StreamEntry>, commits: seq<seq<nat>>, purge: Purge)
    ensures purge in PurgesOf(Stream(Batches(entries, commits))) <==> IsPurgeOf(entries, Committed(commits), purge)
  {
    if commits != [] {
      var init, last := commits[..|commits| - 1], commits[|commits| - 1];
      PurgesOfCommits(entries, init, purge);
      PurgesOfAre(entries, last, purge);
      PurgeOfEither(entries, Committed(init), Ids(last), purge);
      PurgesConcat(Stream(Batches(entries, init)), EntriesAt(entries, last));
      StreamOfBatches(entries, commits);
    }
  }

  lemma {:induction false} StreamOfBatches(entries: seq<StreamEntry>, commits: seq<seq<nat>>)
    requires commits != []
    ensures Stream(Batches(entries, commits))
         == Stream(Batches(entries, commits[..|commits| - 1])) + EntriesAt(entries, commits[|commits| - 1])
  {
    var batches := Batches(entries, commits);
    assert batches[..|batches| - 1] == Batches(entries, commits[..|commits| - 1]);
  }

  // The distinct rows of the purge table are the purges of the committed entries, however often delivered.
  lemma {:induction false} PurgesAreThoseCommitted(now: nat, steps: seq<Step>, end: Tables, purge: Purge)
    requires Legal(Initial(now), steps) && Leaves(NoTables(), Initial(now), steps, end)
    ensures var d := Ran(Initial(now), steps);
            purge in end.purges <==> IsPurgeOf(d.entries, Committed(d.commits), purge)
  {
    var d := Ran(Initial(now), steps);
    RunFromStart(now, steps, end);
    var batches := Batches(d.entries, d.commits);
    var tables :| Drained(tables, batches) && tables[0] == NoTables() && tables[|batches|] == end;
    BatchesLeaveLogs(tables, batches);
    PurgesOfCommits(d.entries, d.commits, purge);
  }

  // A batch committed before adds no distinct purge.
  lemma {:induction false} RedeliveryAddsNoPurge(d: Drain, node: nat, purge: Purge)
    requires Invariant(d) && Allowed(d, Commit(node)) && Ids(d.nodes[node].ids) <= Committed(d.commits)
    ensures var before, after := Batches(d.entries, d.commits), Batches(d.entries, Stepped(d, Commit(node)).commits);
            purge in PurgesOf(Stream(after)) <==> purge in PurgesOf(Stream(before))
  {
    var next := Stepped(d, Commit(node));
    assert next.commits[..|d.commits|] == d.commits;
    assert Committed(next.commits) == Committed(d.commits);
    PurgesOfCommits(d.entries, d.commits, purge);
    PurgesOfCommits(d.entries, next.commits, purge);
  }

  // ---------- descriptions ----------

  // The last of the ids to fill the key, in the order they are persisted in.
  function FillIn(entries: seq<StreamEntry>, ids: seq<nat>, key: string): (r: Option<nat>)
    ensures r.Some? ==> r.value in ids && r.value < |entries| && IsFill(entries[r.value], key)
  {
    if ids == [] then None
    else
      var last := ids[|ids| - 1];
      if last < |entries| && IsFill(entries[last], key) then Some(last) else FillIn(entries, ids[..|ids| - 1], key)
  }

  // And that of the last committed batch to fill it.
  function FilledBy(entries: seq<StreamEntry>, commits: seq<seq<nat>>, key: string): (r: Option<nat>)
    ensures r.Some? ==> r.value in Committed(commits) && r.value < |entries| && IsFill(entries[r.value], key)
  {
    if commits == [] then None
    else
      var here := FillIn(entries, commits[|commits| - 1], key);
      if here.Some? then here else FilledBy(entries, commits[..|commits| - 1], key)
  }

  function EntryOf(entries: seq<StreamEntry>, id: Option<nat>): Option<StreamEntry> {
    if id.Some? && id.value < |entries| then Some(entries[id.value]) else None
  }

  lemma {:induction false} LastFillSnoc(batch: seq<StreamEntry>, last: StreamEntry, key: string)
    ensures LastFill(batch + [last], key) == if IsFill(last, key) then Some(last) else LastFill(batch, key)
  {
    assert (batch + [last])[..|batch|] == batch;
  }

  lemma {:induction false} LastFillOfIds(entries: seq<StreamEntry>, ids: seq<nat>, key: string)
    ensures LastFill(EntriesAt(entries, ids), key) == EntryOf(entries, FillIn(entries, ids, key))
  {
    if ids != [] {
      var init, last := ids[..|ids| - 1], ids[|ids| - 1];
      LastFillOfIds(entries, init, key);
      EntriesSnoc(entries, ids);
      if last < |entries| {
        LastFillSnoc(EntriesAt(entries, init), entries[last], key);
      }
    }
  }

  lemma {:induction false} LastFillOfCommits(entries: seq<StreamEntry>, commits: seq<seq<nat>>, key: string)
    ensures LastFill(Stream(Batches(entries, commits)), key) == EntryOf(entries, FilledBy(entries, commits, key))
  {
    if commits != [] {
      var init, last := commits[..|commits| - 1], commits[|commits| - 1];
      LastFillOfCommits(entries, init, key);
      LastFillOfIds(entries, last, key);
      StreamOfBatches(entries, commits);
      LastFillConcat(Stream(Batches(entries, init)), EntriesAt(entries, last), key);
    }
  }

  ghost predicate Shows(t: Tables, key: string, fill: StreamEntry) {
    && fill.Described? && RowOf(t.descriptors, key) == Some(Row(fill.about, fill.filledAt, None, None))
    && PinRowsOf(t.entryPins, key) == EntryPins(key, Distinct(fill.filledUnder))
  }

  lemma {:induction false} LeftByLastFill(batches: seq<seq<StreamEntry>>, end: Tables, key: string)
    requires LeftBy(batches, end)
    ensures RowOf(end.descriptors, key) == RowAfter(None, LastFill(Stream(batches), key), FirstLocator(batches, key))
    ensures PinRowsOf(end.entryPins, key) == PinsAfter([], LastFill(Stream(batches), key), key)
  {
    var tables :| Drained(tables, batches) && tables[0] == NoTables() && tables[|batches|] == end;
    BatchesLeaveLastFill(tables, batches, key);
  }

  lemma {:induction false} LastFillShows(end: Tables, key: string, fill: Option<StreamEntry>,
                                         locator: Option<StreamEntry>)
    requires fill.Some? ==> IsFill(fill.value, key)
    requires locator.Some? ==> IsLocator(locator.value, key)
    requires RowOf(end.descriptors, key) == RowAfter(None, fill, locator)
    requires PinRowsOf(end.entryPins, key) == PinsAfter([], fill, key)
    ensures if fill.Some? then Shows(end, key, fill.value) else Undescribed(end, key)
  {
  }

  ghost predicate Undescribed(t: Tables, key: string) {
    PinRowsOf(t.entryPins, key) == [] && (key in t.descriptors ==> t.descriptors[key].lastFilled == None)
  }

  /**
   Whatever crashes and is redelivered: a key is described by the fill, under exactly the pins, of the last committed
   batch that fills it; a key none does has no pins, and no row but a locator's.
   */
  lemma {:induction false} DescribedByLastCommit(now: nat, steps: seq<Step>, end: Tables, key: string)
    requires Legal(Initial(now), steps) && Leaves(NoTables(), Initial(now), steps, end)
    ensures var d := Ran(Initial(now), steps);
            var id := FilledBy(d.entries, d.commits, key);
            if id.Some? then Shows(end, key, d.entries[id.value]) else Undescribed(end, key)
  {
    var d := Ran(Initial(now), steps);
    RunFromStart(now, steps, end);
    var batches := Batches(d.entries, d.commits);
    LeftByLastFill(batches, end, key);
    LastFillShows(end, key, LastFill(Stream(batches), key), FirstLocator(batches, key));
    LastFillOfCommits(d.entries, d.commits, key);
  }

  // ---------- and whether they are the newest ----------

  // No fill of the key committed so far was appended after the one that describes it.
  ghost predicate Newest(entries: seq<StreamEntry>, commits: seq<seq<nat>>, key: string) {
    forall id :: id in Committed(commits) && id < |entries| && IsFill(entries[id], key) ==>
                   FilledBy(entries, commits, key).Some? && id <= FilledBy(entries, commits, key).value
  }

  // A commit of an older fill than the one that describes the key.
  predicate GoesBack(d: Drain, step: Step, key: string)
    requires Allowed(d, step)
  {
    && step.Commit?
    && var was, fill := FilledBy(d.entries, d.commits, key), FillIn(d.entries, d.nodes[step.node].ids, key);
    was.Some? && fill.Some? && fill.value < was.value
  }

  lemma {:induction false} FillInIsLast(entries: seq<StreamEntry>, ids: seq<nat>, key: string, id: nat)
    requires forall j, k :: 0 <= j < k < |ids| ==> ids[j] < ids[k]
    requires id in ids && id < |entries| && IsFill(entries[id], key)
    ensures FillIn(entries, ids, key).Some? && id <= FillIn(entries, ids, key).value
  {
    if id != ids[|ids| - 1] {
      assert ids == ids[..|ids| - 1] + [ids[|ids| - 1]];
      FillInIsLast(entries, ids[..|ids| - 1], key, id);
    }
  }

  lemma {:induction false} CommitNewest(entries: seq<StreamEntry>, commits: seq<seq<nat>>, ids: seq<nat>, key: string)
    requires Newest(entries, commits, key) && forall j, k :: 0 <= j < k < |ids| ==> ids[j] < ids[k]
    ensures var was, fill := FilledBy(entries, commits, key), FillIn(entries, ids, key);
            Newest(entries, commits + [ids], key) <==> !(was.Some? && fill.Some? && fill.value < was.value)
  {
    var more := commits + [ids];
    assert more[..|commits|] == commits;
    assert Committed(more) == Committed(commits) + Ids(ids);
    forall id | id in ids && id < |entries| && IsFill(entries[id], key)
      ensures FillIn(entries, ids, key).Some? && id <= FillIn(entries, ids, key).value
    {
      FillInIsLast(entries, ids, key, id);
    }
  }

  lemma {:induction false} AppendNewest(d: Drain, entry: StreamEntry, key: string)
    requires Invariant(d)
    ensures Newest(d.entries + [entry], d.commits, key) <==> Newest(d.entries, d.commits, key)
  {
    var more := d.entries + [entry];
    assert forall id :: id in Committed(d.commits) ==> id in Done(d) && id < |d.entries| && more[id] == d.entries[id];
    FilledByStays(d.entries, entry, d.commits, key);
  }

  lemma {:induction false} FilledByStays(entries: seq<StreamEntry>, entry: StreamEntry, commits: seq<seq<nat>>,
                                         key: string)
    requires AllBelow(commits, |entries|)
    ensures FilledBy(entries + [entry], commits, key) == FilledBy(entries, commits, key)
  {
    if commits != [] {
      var last := commits[|commits| - 1];
      FillInStays(entries, entry, last, key);
      FilledByStays(entries, entry, commits[..|commits| - 1], key);
    }
  }

  lemma {:induction false} FillInStays(entries: seq<StreamEntry>, entry: StreamEntry, ids: seq<nat>, key: string)
    requires Below(ids, |entries|)
    ensures FillIn(entries + [entry], ids, key) == FillIn(entries, ids, key)
  {
    if ids != [] {
      FillInStays(entries, entry, ids[..|ids| - 1], key);
    }
  }

  lemma {:induction false} StepNewest(d: Drain, step: Step, key: string)
    requires Invariant(d) && Allowed(d, step) && Newest(d.entries, d.commits, key)
    ensures var next := Stepped(d, step); Newest(next.entries, next.commits, key) <==> !GoesBack(d, step, key)
  {
    if step.Commit? {
      assert InOrder(InHandsOf(d.nodes[step.node]), d.delivered);
      CommitNewest(d.entries, d.commits, d.nodes[step.node].ids, key);
    } else if step.Append? {
      AppendNewest(d, step.entry, key);
    }
  }

  ghost predicate AlwaysNewest(d: Drain, steps: seq<Step>, key: string)
    requires Legal(d, steps)
    decreases |steps|
  {
    Newest(d.entries, d.commits, key) && (steps == [] || AlwaysNewest(Stepped(d, steps[0]), steps[1..], key))
  }

  predicate EverGoesBack(d: Drain, steps: seq<Step>, key: string)
    requires Legal(d, steps)
    decreases |steps|
  {
    steps != [] && (GoesBack(d, steps[0], key) || EverGoesBack(Stepped(d, steps[0]), steps[1..], key))
  }

  /**
   A key is described by the newest committed fill all along a run exactly if no commit of the run goes back: the
   upsert does not compare when two fills were made.
   */
  lemma {:induction false} NewestUnlessGoesBack(d: Drain, steps: seq<Step>, key: string)
    requires Invariant(d) && Newest(d.entries, d.commits, key) && Legal(d, steps)
    ensures AlwaysNewest(d, steps, key) <==> !EverGoesBack(d, steps, key)
    decreases |steps|
  {
    if steps != [] {
      var next := Stepped(d, steps[0]);
      StepNewest(d, steps[0], key);
      if !GoesBack(d, steps[0], key) {
        StepKeepsInvariant(d, steps[0]);
        NewestUnlessGoesBack(next, steps[1..], key);
      }
    }
  }

  lemma {:induction false} EntryPinsTellPinsApart(key: string, a: seq<string>, b: seq<string>)
    ensures EntryPins(key, a) == EntryPins(key, b) <==> a == b
  {
    EntryPinsOf(key, a);
    EntryPinsOf(key, b);
    if EntryPins(key, a) == EntryPins(key, b) {
      assert |a| == |b|;
      forall k | 0 <= k < |a| ensures a[k] == b[k] {
        assert EntryPins(key, a)[k].pin == a[k] && EntryPins(key, b)[k].pin == b[k];
      }
    }
  }

  lemma {:induction false} EntryPinsOf(key: string, pins: seq<string>)
    ensures |EntryPins(key, pins)| == |pins|
    ensures forall k :: 0 <= k < |pins| ==> EntryPins(key, pins)[k].pin == pins[k]
  {
    if pins != [] {
      EntryPinsOf(key, pins[..|pins| - 1]);
    }
  }

  /**
   A batch redelivered once newer fills were persisted takes the description of its keys back to its own fills, unless
   they are alike, and leaves every other key as it is.
   */
  lemma {:induction false} RedeliveryRegresses(t0: Tables, t1: Tables, t2: Tables, t3: Tables, batch: seq<StreamEntry>,
                                               newer: seq<StreamEntry>, key: string)
    requires Drained([t0, t1, t2, t3], [batch, newer, batch])
    ensures var older, fill := LastFill(batch, key), LastFill(newer, key);
            if older.None? then
              RowOf(t3.descriptors, key) == RowOf(t2.descriptors, key)
              && PinRowsOf(t3.entryPins, key) == PinRowsOf(t2.entryPins, key)
            else
              && (fill.Some? ==>
                    (RowOf(t3.descriptors, key) == RowOf(t2.descriptors, key)
                     <==> older.value.about == fill.value.about && older.value.filledAt == fill.value.filledAt))
              && (fill.Some? ==>
                    (PinRowsOf(t3.entryPins, key) == PinRowsOf(t2.entryPins, key)
                     <==> Distinct(older.value.filledUnder) == Distinct(fill.value.filledUnder)))
  {
    var tables, batches := [t0, t1, t2, t3], [batch, newer, batch];
    assert Persists(tables[0], batches[0], tables[1]);
    assert Persists(tables[1], batches[1], tables[2]) && Persists(tables[2], batches[2], tables[3]);
    TwoRows(t0, batch, t1, newer, t2, key);
    TwoRows(t1, newer, t2, batch, t3, key);
    if LastFill(batch, key).Some? && LastFill(newer, key).Some? {
      EntryPinsTellPinsApart(key, Distinct(LastFill(batch, key).value.filledUnder),
                             Distinct(LastFill(newer, key).value.filledUnder));
    }
  }

  // ---------- a run that goes back ----------

  // Two entries, the first committed by node 0, dead since; and how far node 1 got.
  function SecondHeld(now: nat, a: StreamEntry, b: StreamEntry, at: nat, stream: set<nat>, pending: map<nat, nat>,
                      phase: Phase, commits: seq<seq<nat>>): Drain {
    Drain([a, b], stream, 2, pending, map[0 := Dead, 1 := phase], at, commits, {})
  }

  function SecondAppended(now: nat, a: StreamEntry, b: StreamEntry, nodes: map<nat, Phase>): Drain {
    Drain([a, b], {0, 1}, 1, map[0 := now], nodes, now, [[0]], {})
  }

  lemma {:induction false} SecondAppends(now: nat, a: StreamEntry, b: StreamEntry, end: Drain)
    requires Reaches(SecondAppended(now, a, b, map[0 := Dead, 1 := Idle]), end)
    ensures Reaches(One(now, a, map[0 := now], Settled([0]), [[0]]), end)
  {
    var d0 := One(now, a, map[0 := now], Settled([0]), [[0]]);
    var d1 := One(now, a, map[0 := now], Dead, [[0]]);
    var d2 := SecondAppended(now, a, b, map[0 := Dead]);
    Before(d2, Start(1), SecondAppended(now, a, b, map[0 := Dead, 1 := Idle]), end);
    Before(d1, Append(b), d2, end);
    Before(d0, Crash(0), d1, end);
  }

  lemma {:induction false} SecondReads(now: nat, a: StreamEntry, b: StreamEntry, end: Drain)
    requires Reaches(SecondHeld(now, a, b, now, {0, 1}, map[0 := now, 1 := now], Holding([1]), [[0]]), end)
    ensures Reaches(SecondAppended(now, a, b, map[0 := Dead, 1 := Idle]), end)
  {
    var d := SecondAppended(now, a, b, map[0 := Dead, 1 := Idle]);
    var next := SecondHeld(now, a, b, now, {0, 1}, map[0 := now, 1 := now], Holding([1]), [[0]]);
    assert From(1, 1) == [1];
    assert HandedOut(map[0 := now], [1], now) == map[0 := now, 1 := now];
    assert Unread(d) == 1 && d.nodes[1 := Holding([1])] == next.nodes;
    Before(d, Read(1), next, end);
  }

  lemma {:induction false} SecondDeletes(now: nat, a: StreamEntry, b: StreamEntry, end: Drain)
    requires Reaches(SecondHeld(now, a, b, now, {0}, map[0 := now], Idle, [[0], [1]]), end)
    ensures Reaches(SecondHeld(now, a, b, now, {0, 1}, map[0 := now, 1 := now], Holding([1]), [[0]]), end)
  {
    var d0 := SecondHeld(now, a, b, now, {0, 1}, map[0 := now, 1 := now], Holding([1]), [[0]]);
    var d1 := SecondHeld(now, a, b, now, {0, 1}, map[0 := now, 1 := now], Settled([1]), [[0], [1]]);
    var d2 := SecondHeld(now, a, b, now, {0, 1}, map[0 := now], Acked([1]), [[0], [1]]);
    var d3 := SecondHeld(now, a, b, now, {0}, map[0 := now], Idle, [[0], [1]]);
    assert Ids([1]) == {1};
    assert d1.pending - Ids([1]) == map[0 := now];
    assert d2.stream - Ids([1]) == {0};
    Before(d2, Delete(1), d3, end);
    Before(d1, Ack(1), d2, end);
    Before(d0, Commit(1), d1, end);
  }

  lemma {:induction false} FirstRedelivered(now: nat, a: StreamEntry, b: StreamEntry, end: Drain)
    requires var later := now + PENDING_RECLAIM_AFTER;
             end == SecondHeld(now, a, b, later, {0}, map[0 := later], Settled([0]), [[0], [1], [0]])
    ensures Reaches(SecondHeld(now, a, b, now, {0}, map[0 := now], Idle, [[0], [1]]), end)
  {
    var later := now + PENDING_RECLAIM_AFTER;
    var d0 := SecondHeld(now, a, b, now, {0}, map[0 := now], Idle, [[0], [1]]);
    var d1 := SecondHeld(now, a, b, later, {0}, map[0 := now], Idle, [[0], [1]]);
    var d2 := SecondHeld(now, a, b, later, {0}, map[0 := later], Holding([0]), [[0], [1]]);
    assert HandedOut(map[0 := now], [0], later) == map[0 := later];
    Arrived(end);
    assert d1.nodes[1 := Holding([0])] == d2.nodes && d2.nodes[1 := Settled([0])] == end.nodes;
    Before(d2, Commit(1), end, end);
    Before(d1, Reclaim(1, [0]), d2, end);
    Before(d0, Tick(PENDING_RECLAIM_AFTER), d1, end);
  }

  ghost predicate ShowsOlder(now: nat, a: StreamEntry, b: StreamEntry, steps: seq<Step>, key: string) {
    && Legal(Initial(now), steps) && Ran(Initial(now), steps).entries == [a, b]
    && Ran(Initial(now), steps).commits == [[0], [1], [0]]
    && (forall end :: Leaves(NoTables(), Initial(now), steps, end) ==> Shows(end, key, a))
    && exists end :: Leaves(NoTables(), Initial(now), steps, end)
  }

  /**
   A node that dies once it committed a fill, before acknowledging it, has the fill redelivered after a newer one was
   persisted: the key ends up described by the older.
   */
  lemma {:induction false} SomeRunGoesBack(now: nat, a: StreamEntry, b: StreamEntry, key: string)
    requires IsFill(a, key) && IsFill(b, key)
    ensures exists steps :: ShowsOlder(now, a, b, steps, key)
  {
    var later := now + PENDING_RECLAIM_AFTER;
    var d := SecondHeld(now, a, b, later, {0}, map[0 := later], Settled([0]), [[0], [1], [0]]);
    FirstRedelivered(now, a, b, d);
    SecondDeletes(now, a, b, d);
    SecondReads(now, a, b, d);
    SecondAppends(now, a, b, d);
    OneCommitted(now, a, d);
    var steps :| Legal(Initial(now), steps) && Ran(Initial(now), steps) == d;
    assert FillIn([a, b], [0], key) == Some(0);
    assert FilledBy([a, b], [[0], [1], [0]], key) == Some(0);
    forall end | Leaves(NoTables(), Initial(now), steps, end) ensures Shows(end, key, a) {
      DescribedByLastCommit(now, steps, end, key);
    }
    var left := LeavesSome(NoTables(), Initial(now), steps);
    assert ShowsOlder(now, a, b, steps, key);
  }
}
