/**
 The drain of the event stream through its consumer group (api/src/cache-events.ts:859-963, 1158-1241): each node reads
 entries no one was handed, reclaims those a dead one left pending, persists them, acknowledges them and deletes them.
 A run is any interleaving of those steps with crashes. The stream is not trimmed here.
 */
module StreamDrain {
  import opened StreamBatch

  const FLUSH_BATCH: nat := 500
  const PENDING_RECLAIM_AFTER: nat := 60_000

  // Where one node's drain stands with the batch it holds.
  datatype Phase =
    | Idle
    | Holding(ids: seq<nat>)
    | Settled(ids: seq<nat>) // committed, or rolled back and logged
    | Acked(ids: seq<nat>)
    | Dead

  datatype Drain = Drain(
    entries: seq<StreamEntry>, // all ever appended; an entry's place is its id
    stream: set<nat>,          // those not deleted
    delivered: nat,            // every id below was handed out
    pending: map<nat, nat>,    // the group's pending ids, with when each was last handed out
    nodes: map<nat, Phase>,
    now: nat,
    commits: seq<seq<nat>>,    // the batches committed, in order
    logged: set<nat>           // dropped to a warning
  )

  datatype Step =
    | Append(entry: StreamEntry)
    | Read(node: nat)
    | Reclaim(node: nat, ids: seq<nat>)
    | Commit(node: nat)
    | RollBack(node: nat)
    | Ack(node: nat)
    | Delete(node: nat)
    | GiveUp(node: nat) // a call to Redis throws: the drain ends
    | Crash(node: nat)
    | Start(node: nat)
    | Tick(ms: nat)

  function Unread(d: Drain): nat {
    if |d.entries| < d.delivered then 0
    else if |d.entries| - d.delivered < FLUSH_BATCH then |d.entries| - d.delivered else FLUSH_BATCH
  }

  predicate Stands(d: Drain, node: nat) {
    node in d.nodes && d.nodes[node] != Dead
  }

  predicate Allowed(d: Drain, step: Step) {
    match step
    case Append(_) => true
    case Read(node) => node in d.nodes && d.nodes[node] == Idle && Unread(d) > 0
    case Reclaim(node, ids) =>
      && node in d.nodes && d.nodes[node] == Idle && 0 < |ids| <= FLUSH_BATCH
      && (forall k :: 0 <= k < |ids| ==> ids[k] in d.pending && d.pending[ids[k]] + PENDING_RECLAIM_AFTER <= d.now)
      && (forall j, k :: 0 <= j < k < |ids| ==> ids[j] < ids[k])
    case Commit(node) => node in d.nodes && d.nodes[node].Holding?
    case RollBack(node) => node in d.nodes && d.nodes[node].Holding?
    case Ack(node) => node in d.nodes && d.nodes[node].Settled?
    case Delete(node) => node in d.nodes && d.nodes[node].Acked?
    case GiveUp(node) => Stands(d, node)
    case Crash(node) => Stands(d, node)
    case Start(node) => node !in d.nodes
    case Tick(_) => true
  }

  function Ids(ids: seq<nat>): set<nat> {
    set id | id in ids
  }

  function From(first: nat, count: nat): (ids: seq<nat>)
    ensures |ids| == count && forall id: nat :: id in ids <==> first <= id < first + count
    ensures forall k :: 0 <= k < count ==> ids[k] == first + k
  {
    if count == 0 then [] else From(first, count - 1) + [first + count - 1]
  }

  function HandedOut(pending: map<nat, nat>, ids: seq<nat>, now: nat): map<nat, nat> {
    map id | id in pending.Keys + Ids(ids) :: if id in ids then now else pending[id]
  }

  function EntriesAt(entries: seq<StreamEntry>, ids: seq<nat>): seq<StreamEntry> {
    if ids == [] then []
    else
      EntriesAt(entries, ids[..|ids| - 1]) + if ids[|ids| - 1] < |entries| then [entries[ids[|ids| - 1]]] else []
  }

  function Committed(commits: seq<seq<nat>>): set<nat> {
    if commits == [] then {} else Committed(commits[..|commits| - 1]) + Ids(commits[|commits| - 1])
  }

  function Batches(entries: seq<StreamEntry>, commits: seq<seq<nat>>): seq<seq<StreamEntry>> {
    if commits == [] then []
    else Batches(entries, commits[..|commits| - 1]) + [EntriesAt(entries, commits[|commits| - 1])]
  }

  function InHandsOf(phase: Phase): seq<nat> {
    if phase.Idle? || phase.Dead? then [] else phase.ids
  }

  // A batch is in the order its entries were appended in, and was handed out.
  ghost predicate Known(nodes: map<nat, Phase>, delivered: nat) {
    forall node :: node in nodes ==> InOrder(InHandsOf(nodes[node]), delivered)
  }

  ghost predicate InOrder(ids: seq<nat>, delivered: nat) {
    Below(ids, delivered) && forall j, k :: 0 <= j < k < |ids| ==> ids[j] < ids[k]
  }

  ghost predicate Below(ids: seq<nat>, bound: nat) {
    forall k :: 0 <= k < |ids| ==> ids[k] < bound
  }

  ghost predicate AllBelow(commits: seq<seq<nat>>, bound: nat) {
    forall k :: 0 <= k < |commits| ==> Below(commits[k], bound)
  }

  ghost predicate Ready(d: Drain) {
    d.delivered <= |d.entries| && Known(d.nodes, d.delivered) && AllBelow(d.commits, |d.entries|)
  }

  function Stepped(d: Drain, step: Step): Drain
    requires Allowed(d, step)
  {
    match step
    case Append(entry) => d.(entries := d.entries + [entry], stream := d.stream + {|d.entries|})
    case Read(node) =>
      var ids := From(d.delivered, Unread(d));
      d.(delivered := d.delivered + Unread(d), pending := HandedOut(d.pending, ids, d.now),
      nodes := d.nodes[node := Holding(ids)])
    case Reclaim(node, ids) => d.(pending := HandedOut(d.pending, ids, d.now), nodes := d.nodes[node := Holding(ids)])
    case Commit(node) =>
      var ids := d.nodes[node].ids;
      d.(nodes := d.nodes[node := Settled(ids)], commits := d.commits + [ids])
    case RollBack(node) =>
      var ids := d.nodes[node].ids;
      d.(nodes := d.nodes[node := Settled(ids)], logged := d.logged + Ids(ids))
    case Ack(node) =>
      var ids := d.nodes[node].ids;
      d.(nodes := d.nodes[node := Acked(ids)], pending := d.pending - Ids(ids))
    case Delete(node) => d.(nodes := d.nodes[node := Idle], stream := d.stream - Ids(d.nodes[node].ids))
    case GiveUp(node) => d.(nodes := d.nodes[node := Idle])
    case Crash(node) => d.(nodes := d.nodes[node := Dead])
    case Start(node) => d.(nodes := d.nodes[node := Idle])
    case Tick(ms) => d.(now := d.now + ms)
  }

  // ---------- what every step keeps ----------

  function Done(d: Drain): set<nat> {
    Committed(d.commits) + d.logged
  }

  // No entry leaves the stream, or the pending list once handed out, before it is committed or logged.
  ghost predicate Kept(d: Drain) {
    && (forall id :: 0 <= id < |d.entries| ==> id in d.stream || id in Done(d))
    && (forall id :: 0 <= id < d.delivered ==> id in d.pending || id in Done(d))
    && (forall id :: id in d.pending ==> id < d.delivered && id in d.stream)
    && (forall id :: id in Done(d) ==> id < d.delivered)
  }

  // A settled batch is done, an acknowledged one no longer pending.
  ghost predicate InHand(d: Drain) {
    && (forall node, k :: node in d.nodes && d.nodes[node].Settled? && 0 <= k < |d.nodes[node].ids| ==>
                            d.nodes[node].ids[k] in Done(d))
    && (forall node, k :: node in d.nodes && d.nodes[node].Acked? && 0 <= k < |d.nodes[node].ids| ==>
                            d.nodes[node].ids[k] in Done(d) && d.nodes[node].ids[k] !in d.pending)
  }

  ghost predicate Invariant(d: Drain) {
    Ready(d) && Kept(d) && InHand(d)
  }

  lemma {:induction false} CommittedSnoc(commits: seq<seq<nat>>, ids: seq<nat>)
    ensures Committed(commits + [ids]) == Committed(commits) + Ids(ids)
  {
    assert (commits + [ids])[..|commits|] == commits;
  }

  lemma {:induction false} DoneAfter(d: Drain, step: Step)
    requires Allowed(d, step)
    ensures Done(Stepped(d, step))
         == Done(d) + if step.Commit? || step.RollBack? then Ids(d.nodes[step.node].ids) else {}
  {
    if step.Commit? {
      CommittedSnoc(d.commits, d.nodes[step.node].ids);
    } else {
      assert Stepped(d, step).commits == d.commits;
    }
  }

  lemma {:induction false} StepKeepsReady(d: Drain, step: Step)
    requires Invariant(d) && Allowed(d, step)
    ensures Ready(Stepped(d, step))
  {
    var next := Stepped(d, step);
    forall node | node in next.nodes ensures InOrder(InHandsOf(next.nodes[node]), next.delivered) {
      if node in d.nodes {
        assert InOrder(InHandsOf(d.nodes[node]), d.delivered);
      }
    }
    if step.Commit? {
      assert InOrder(InHandsOf(d.nodes[step.node]), d.delivered);
    }
  }

  lemma {:induction false} StepKeepsKept(d: Drain, step: Step)
    requires Invariant(d) && Allowed(d, step)
    ensures Kept(Stepped(d, step))
  {
    DoneAfter(d, step);
    if step.Commit? || step.RollBack? {
      assert InOrder(InHandsOf(d.nodes[step.node]), d.delivered);
    }
  }

  lemma {:induction false} StepKeepsInHand(d: Drain, step: Step)
    requires Invariant(d) && Allowed(d, step)
    ensures InHand(Stepped(d, step))
  {
    DoneAfter(d, step);
  }

  lemma {:induction false} StepKeepsInvariant(d: Drain, step: Step)
    requires Invariant(d) && Allowed(d, step)
    ensures Invariant(Stepped(d, step))
  {
    StepKeepsReady(d, step);
    StepKeepsKept(d, step);
    StepKeepsInHand(d, step);
  }

  // ---------- any run ----------

  function Initial(now: nat): Drain {
    Drain([], {}, 0, map[], map[], now, [], {})
  }

  predicate Legal(d: Drain, steps: seq<Step>)
    decreases |steps|
  {
    steps == [] || (Allowed(d, steps[0]) && Legal(Stepped(d, steps[0]), steps[1..]))
  }

  function Ran(d: Drain, steps: seq<Step>): Drain
    requires Legal(d, steps)
    decreases |steps|
  {
    if steps == [] then d else Ran(Stepped(d, steps[0]), steps[1..])
  }

  lemma {:induction false} RunKeepsInvariant(d: Drain, steps: seq<Step>)
    requires Invariant(d) && Legal(d, steps)
    ensures Invariant(Ran(d, steps))
    decreases |steps|
  {
    if steps != [] {
      StepKeepsInvariant(d, steps[0]);
      RunKeepsInvariant(Stepped(d, steps[0]), steps[1..]);
    }
  }

  /**
   However many nodes crash, and wherever: an entry no batch committed or logged is still in the stream, unread or
   pending for any node to reclaim.
   */
  lemma {:induction false} NothingIsLost(now: nat, steps: seq<Step>, id: nat)
    requires Legal(Initial(now), steps)
    ensures var d := Ran(Initial(now), steps);
            id < |d.entries| && id !in Done(d) ==> id in d.stream && (d.delivered <= id || id in d.pending)
  {
    RunKeepsInvariant(Initial(now), steps);
  }

  /**
   A node is handed what comes next in the stream, at most 500 at once, or what was pending for a minute or more: then
   each is pending from now on.
   */
  lemma {:induction false} HandsOut(d: Drain, step: Step)
    requires Invariant(d) && Allowed(d, step) && (step.Read? || step.Reclaim?)
    ensures var next := Stepped(d, step);
            && next.nodes[step.node].Holding?
            && var ids := next.nodes[step.node].ids;
            && 0 < |ids| <= 500
            && (forall k :: 0 <= k < |ids| ==> ids[k] in next.pending && next.pending[ids[k]] == d.now)
            && (forall id :: id in d.pending && id !in ids ==> id in next.pending && next.pending[id] == d.pending[id])
            && (step.Read? ==>
                  && |ids| == (if |d.entries| - d.delivered < 500 then |d.entries| - d.delivered else 500)
                  && next.delivered == d.delivered + |ids|
                  && forall k :: 0 <= k < |ids| ==> ids[k] == d.delivered + k)
            && (step.Reclaim? ==>
                  next.delivered == d.delivered
                  && forall k :: 0 <= k < |ids| ==> ids[k] in d.pending && d.pending[ids[k]] + 60_000 <= d.now)
  {
  }

  /**
   An entry left pending for a minute goes through with any idle node: reclaimed, it is committed, acknowledged and
   deleted.
   */
  lemma {:induction false} PendingGoesThrough(d: Drain, node: nat, id: nat)
    requires Invariant(d) && id in d.pending && d.pending[id] + 60_000 <= d.now
    requires node in d.nodes && d.nodes[node] == Idle
    ensures var reclaimed := Stepped(d, Reclaim(node, [id]));
            && Allowed(reclaimed, Commit(node))
            && var committed := Stepped(reclaimed, Commit(node));
            && Allowed(committed, Ack(node))
            && var acked := Stepped(committed, Ack(node));
            && Allowed(acked, Delete(node))
            && var end := Stepped(acked, Delete(node));
            && end.nodes[node] == Idle && end.commits == d.commits + [[id]]
            && end.stream == d.stream - {id} && id !in end.pending
  {
    assert Ids([id]) == {id};
  }

  // A batch the database does not take is logged for good, and goes through all the same.
  lemma {:induction false} RolledBackGoesThrough(d: Drain, node: nat)
    requires node in d.nodes && d.nodes[node].Holding?
    ensures var ids, rolled := d.nodes[node].ids, Stepped(d, RollBack(node));
            && Allowed(rolled, Ack(node))
            && var acked := Stepped(rolled, Ack(node));
            && Allowed(acked, Delete(node))
            && var end := Stepped(acked, Delete(node));
            && end.nodes[node] == Idle && end.commits == d.commits
            && (forall id :: id in end.logged <==> id in d.logged || id in ids)
            && (forall id :: id in end.stream <==> id in d.stream && id !in ids)
            && (forall id :: id in end.pending <==> id in d.pending && id !in ids)
  {
  }

  // ---------- entries no node will delete ----------

  ghost predicate HasAcked(nodes: map<nat, Phase>, node: nat, id: nat) {
    node in nodes && nodes[node].Acked? && id in nodes[node].ids
  }

  ghost predicate AckedBySome(nodes: map<nat, Phase>, id: nat) {
    exists node :: HasAcked(nodes, node, id)
  }

  ghost predicate InHands(nodes: map<nat, Phase>, id: nat) {
    exists node :: node in nodes && id in InHandsOf(nodes[node])
  }

  // Settled with the group, but in the stream, and no node that acknowledged it is left to delete it.
  ghost predicate Orphaned(d: Drain, id: nat) {
    id in d.stream && id < d.delivered && id !in d.pending && !AckedBySome(d.nodes, id)
  }

  // And no node holds it from an earlier delivery either.
  ghost predicate Leaked(d: Drain, id: nat) {
    id in d.stream && id < d.delivered && id !in d.pending && !InHands(d.nodes, id)
  }

  // The only node to have acknowledged the entry dies, or its delete throws, with the entry in the stream.
  ghost predicate CutsOff(d: Drain, step: Step, id: nat) {
    && (step.Crash? || step.GiveUp?) && id in d.stream && HasAcked(d.nodes, step.node, id)
    && forall other :: other != step.node ==> !HasAcked(d.nodes, other, id)
  }

  lemma {:induction false} StepOrphans(d: Drain, step: Step, id: nat)
    requires Invariant(d) && Allowed(d, step) && !Orphaned(d, id)
    ensures Orphaned(Stepped(d, step), id) <==> CutsOff(d, step, id)
  {
    var next := Stepped(d, step);
    if CutsOff(d, step, id) {
      assert InOrder(InHandsOf(d.nodes[step.node]), d.delivered);
      forall node ensures !HasAcked(next.nodes, node, id) {
        assert node == step.node || !HasAcked(d.nodes, node, id);
      }
    } else if AckedBySome(d.nodes, id) && id in next.stream {
      KeepsAcked(d, step, id);
    } else if step.Ack? && id in d.nodes[step.node].ids {
      assert HasAcked(next.nodes, step.node, id);
    }
  }

  lemma {:induction false} KeepsAcked(d: Drain, step: Step, id: nat)
    requires Allowed(d, step) && AckedBySome(d.nodes, id) && id in Stepped(d, step).stream && id in d.stream
    requires !CutsOff(d, step, id)
    ensures AckedBySome(Stepped(d, step).nodes, id)
  {
    var nodes := Stepped(d, step).nodes;
    var node :| HasAcked(d.nodes, node, id);
    if (step.Crash? || step.GiveUp?) && step.node == node {
      var other :| other != node && HasAcked(d.nodes, other, id);
      assert HasAcked(nodes, other, id);
    } else {
      assert HasAcked(nodes, node, id);
    }
  }

  ghost predicate EverCutOff(d: Drain, steps: seq<Step>, id: nat)
    requires Legal(d, steps)
    decreases |steps|
  {
    steps != [] && (CutsOff(d, steps[0], id) || EverCutOff(Stepped(d, steps[0]), steps[1..], id))
  }

  lemma {:induction false} OrphanedOnlyIfCutOff(d: Drain, steps: seq<Step>, id: nat)
    requires Invariant(d) && Legal(d, steps) && !Orphaned(d, id) && !EverCutOff(d, steps, id)
    ensures !Orphaned(Ran(d, steps), id)
    decreases |steps|
  {
    if steps != [] {
      StepOrphans(d, steps[0], id);
      StepKeepsInvariant(d, steps[0]);
      OrphanedOnlyIfCutOff(Stepped(d, steps[0]), steps[1..], id);
    }
  }

  // Once acknowledged, an entry is never pending again.
  lemma {:induction false} StaysSettled(d: Drain, steps: seq<Step>, id: nat)
    requires id < d.delivered && id !in d.pending && Legal(d, steps)
    ensures var end := Ran(d, steps); id < end.delivered && id !in end.pending
    decreases |steps|
  {
    if steps != [] {
      var next := Stepped(d, steps[0]);
      assert id < next.delivered && id !in next.pending;
      StaysSettled(next, steps[1..], id);
    }
  }

  lemma {:induction false} CutOffIsSettled(d: Drain, steps: seq<Step>, id: nat)
    requires Invariant(d) && Legal(d, steps) && EverCutOff(d, steps, id)
    ensures var end := Ran(d, steps); id < end.delivered && id !in end.pending
    decreases |steps|
  {
    var next := Stepped(d, steps[0]);
    if CutsOff(d, steps[0], id) {
      assert InOrder(InHandsOf(d.nodes[steps[0].node]), d.delivered);
      StaysSettled(next, steps[1..], id);
    } else {
      StepKeepsInvariant(d, steps[0]);
      CutOffIsSettled(next, steps[1..], id);
    }
  }

  /**
   An entry is leaked exactly if the last node to have acknowledged it was cut off before deleting it, by its end or
   by a call that threw, and no node it was handed to before deleted it since or still holds it.
   */
  lemma {:induction false} LeakedExactly(now: nat, steps: seq<Step>, id: nat)
    requires Legal(Initial(now), steps)
    ensures var d := Ran(Initial(now), steps);
            Leaked(d, id) <==> EverCutOff(Initial(now), steps, id) && id in d.stream && !InHands(d.nodes, id)
  {
    var start, d := Initial(now), Ran(Initial(now), steps);
    if EverCutOff(start, steps, id) {
      CutOffIsSettled(start, steps, id);
    } else {
      OrphanedOnlyIfCutOff(start, steps, id);
      if node :| HasAcked(d.nodes, node, id) {
        assert id in InHandsOf(d.nodes[node]);
      }
    }
  }

  lemma {:induction false} StepKeepsLeaked(d: Drain, id: nat, step: Step)
    requires Leaked(d, id) && Allowed(d, step)
    ensures Leaked(Stepped(d, step), id)
  {
    var nodes := Stepped(d, step).nodes;
    forall node | node in nodes ensures id !in InHandsOf(nodes[node]) {
      assert node in d.nodes ==> id !in InHandsOf(d.nodes[node]);
    }
  }

  // And leaked it stays: no node ever deletes it.
  lemma {:induction false} LeakedForGood(d: Drain, id: nat, steps: seq<Step>)
    requires Leaked(d, id) && Legal(d, steps)
    ensures Leaked(Ran(d, steps), id)
    decreases |steps|
  {
    if steps != [] {
      StepKeepsLeaked(d, id, steps[0]);
      LeakedForGood(Stepped(d, steps[0]), id, steps[1..]);
    }
  }

  // ---------- runs that get there ----------

  ghost predicate Reaches(d: Drain, end: Drain) {
    exists steps :: Legal(d, steps) && Ran(d, steps) == end
  }

  lemma {:induction false} Arrived(d: Drain)
    ensures Reaches(d, d)
  {
    assert Legal(d, []) && Ran(d, []) == d;
  }

  lemma {:induction false} Before(d: Drain, step: Step, next: Drain, end: Drain)
    requires Allowed(d, step) && Stepped(d, step) == next && Reaches(next, end)
    ensures Reaches(d, end)
  {
    var steps :| Legal(next, steps) && Ran(next, steps) == end;
    var all := [step] + steps;
    assert all[1..] == steps && all[0] == step;
    assert Legal(d, all) && Ran(d, all) == end;
  }

  // One entry, held by node 0 in some phase.
  function One(now: nat, entry: StreamEntry, pending: map<nat, nat>, phase: Phase, commits: seq<seq<nat>>): Drain {
    Drain([entry], {0}, 1, pending, map[0 := phase], now, commits, {})
  }

  lemma {:induction false} OneCommitted(now: nat, entry: StreamEntry, end: Drain)
    requires Reaches(One(now, entry, map[0 := now], Settled([0]), [[0]]), end)
    ensures Reaches(Initial(now), end)
  {
    var d0 := Initial(now);
    var d1 := d0.(entries := [entry], stream := {0});
    var d2 := d1.(nodes := map[0 := Idle]);
    var d3 := One(now, entry, map[0 := now], Holding([0]), []);
    var d4 := One(now, entry, map[0 := now], Settled([0]), [[0]]);
    assert From(0, 1) == [0];
    assert HandedOut(map[], [0], now) == map[0 := now];
    Before(d3, Commit(0), d4, end);
    Before(d2, Read(0), d3, end);
    Before(d1, Start(0), d2, end);
    Before(d0, Append(entry), d1, end);
  }

  // A node that dies, or whose delete throws, once it acknowledged its batch leaks it.
  lemma {:induction false} SomeRunLeaks(now: nat, entry: StreamEntry, last: Step)
    requires last == Crash(0) || last == GiveUp(0)
    ensures exists d :: Reaches(Initial(now), d) && d.entries == [entry] && d.commits == [[0]] && Leaked(d, 0)
  {
    var d4 := One(now, entry, map[0 := now], Settled([0]), [[0]]);
    var d5 := One(now, entry, map[], Acked([0]), [[0]]);
    var d := Stepped(d5, last);
    assert d == One(now, entry, map[], if last.Crash? then Dead else Idle, [[0]]);
    assert d4.pending - Ids([0]) == map[];
    Arrived(d);
    Before(d5, last, d, d);
    Before(d4, Ack(0), d5, d);
    OneCommitted(now, entry, d);
  }
}
