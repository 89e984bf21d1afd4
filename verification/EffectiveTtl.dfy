/**
 Which TTL each bucket of a window was under (api/src/cache-events.ts:2349-2381): one pass over the buckets with a
 pointer into the changes, against the last change before each bucket ends.
 */
module EffectiveTtl {
  import opened Options

  datatype Change = Change(time: int, ttlMs: Option<nat>)

  // The end of a bucket, or of the window.
  datatype End = At(time: int) | Infinity

  predicate Precedes(time: int, end: End) {
    end.Infinity? || time < end.time
  }

  function Later(a: End, b: End): End {
    if a.Infinity? || (b.At? && b.time <= a.time) then a else b
  }

  function EndOf(bucketTimes: seq<int>, index: nat): End {
    if index + 1 < |bucketTimes| then At(bucketTimes[index + 1]) else Infinity
  }

  // ---------- the value a bucket closes on ----------

  // The latest of the changes before the end, the last recorded among those of one time.
  function LatestBefore(changes: seq<Change>, end: End): Option<Change> {
    if changes == [] then None
    else TakenOver(LatestBefore(changes[..|changes| - 1], end), changes[|changes| - 1], end)
  }

  function TakenOver(earlier: Option<Change>, last: Change, end: End): Option<Change> {
    if Precedes(last.time, end) && (earlier.None? || earlier.value.time <= last.time) then Some(last) else earlier
  }

  function InForce(changes: seq<Change>, end: End, seedTtlMs: Option<nat>): Option<nat> {
    var latest := LatestBefore(changes, end);
    if latest.Some? then latest.value.ttlMs else seedTtlMs
  }

  // Buckets out of order close no earlier than those before them.
  function Closed(bucketTimes: seq<int>, index: nat): End {
    if index == 0 then EndOf(bucketTimes, 0) else Later(Closed(bucketTimes, index - 1), EndOf(bucketTimes, index))
  }

  // Whether a change lands before this bucket is over: before the next one begins, or at any time in the last.
  ghost predicate LandsIn(bucketTimes: seq<int>, index: nat, time: int) {
    index + 1 >= |bucketTimes| || time < bucketTimes[index + 1]
  }

  // A bucket takes in every change that lands before it, or one listed ahead of it, is over.
  lemma {:induction false} BucketTakesIn(bucketTimes: seq<int>, index: nat, time: int)
    ensures Precedes(time, EndOf(bucketTimes, index)) <==> LandsIn(bucketTimes, index, time)
    ensures Precedes(time, Closed(bucketTimes, index)) <==> exists j: nat :: j <= index && LandsIn(bucketTimes, j, time)
  {
    if index > 0 {
      BucketTakesIn(bucketTimes, index - 1, time);
    } else {
      assert Precedes(time, Closed(bucketTimes, 0)) ==> LandsIn(bucketTimes, 0, time);
    }
    if LandsIn(bucketTimes, index, time) {
      assert index <= index && LandsIn(bucketTimes, index, time);
    }
  }

  // ---------- the changes in order ----------

  predicate InOrder(changes: seq<Change>) {
    forall i, j :: 0 <= i < j < |changes| ==> changes[i].time <= changes[j].time
  }

  // After every change no later than it: the sort is stable.
  function Placed(change: Change, ordered: seq<Change>): seq<Change> {
    if ordered == [] || ordered[|ordered| - 1].time <= change.time then ordered + [change]
    else Placed(change, ordered[..|ordered| - 1]) + [ordered[|ordered| - 1]]
  }

  function Ordered(changes: seq<Change>): seq<Change> {
    if changes == [] then [] else Placed(changes[|changes| - 1], Ordered(changes[..|changes| - 1]))
  }

  lemma {:induction false} PlacedKeepsOrder(change: Change, ordered: seq<Change>)
    requires InOrder(ordered)
    ensures InOrder(Placed(change, ordered))
    ensures forall c :: c in Placed(change, ordered) <==> c == change || c in ordered
  {
    if ordered != [] && ordered[|ordered| - 1].time > change.time {
      var init, last := ordered[..|ordered| - 1], ordered[|ordered| - 1];
      assert ordered == init + [last];
      PlacedKeepsOrder(change, init);
      forall k | 0 <= k < |Placed(change, init)| ensures Placed(change, init)[k].time <= last.time {
        assert Placed(change, init)[k] in Placed(change, init);
      }
    }
  }

  lemma {:induction false} OrderedIsInOrder(changes: seq<Change>)
    ensures InOrder(Ordered(changes))
  {
    if changes != [] {
      OrderedIsInOrder(changes[..|changes| - 1]);
      PlacedKeepsOrder(changes[|changes| - 1], Ordered(changes[..|changes| - 1]));
    }
  }

  // What `LatestBefore` means: one of them before the end, and none of those later than it.
  ghost predicate IsLatest(latest: Option<Change>, changes: seq<Change>, end: End) {
    match latest
    case None => forall c :: c in changes ==> !Precedes(c.time, end)
    case Some(l) =>
      l in changes && Precedes(l.time, end) && forall c :: c in changes && Precedes(c.time, end) ==> c.time <= l.time
  }

  lemma {:induction false} LatestIsOneOf(changes: seq<Change>, end: End)
    ensures IsLatest(LatestBefore(changes, end), changes, end)
  {
    if changes != [] {
      var init, last := changes[..|changes| - 1], changes[|changes| - 1];
      LatestIsOneOf(init, end);
      assert forall c :: c in changes <==> c in init || c == last;
    }
  }

  lemma {:induction false} LatestWithin(changes: seq<Change>, end: End, bound: int)
    requires forall k :: 0 <= k < |changes| ==> changes[k].time <= bound
    ensures var latest := LatestBefore(changes, end); latest.Some? ==> latest.value.time <= bound
  {
    LatestIsOneOf(changes, end);
  }

  // Where a change is placed, it takes over from the latest exactly when it would at the end.
  lemma {:induction false} PlacedLatest(change: Change, ordered: seq<Change>, end: End)
    requires InOrder(ordered)
    ensures LatestBefore(Placed(change, ordered), end) == TakenOver(LatestBefore(ordered, end), change, end)
  {
    if ordered != [] && ordered[|ordered| - 1].time > change.time {
      var init, last := ordered[..|ordered| - 1], ordered[|ordered| - 1];
      PlacedLatest(change, init, end);
      LatestWithin(init, end, last.time);
    } else {
    }
  }

  lemma {:induction false} OrderedLatest(changes: seq<Change>, end: End)
    ensures LatestBefore(Ordered(changes), end) == LatestBefore(changes, end)
  {
    if changes != [] {
      var init, last := changes[..|changes| - 1], changes[|changes| - 1];
      OrderedLatest(init, end);
      OrderedIsInOrder(init);
      PlacedLatest(last, Ordered(init), end);
    }
  }

  // The changes before the end are those before the pointer.
  ghost predicate Passed(ordered: seq<Change>, pending: nat, end: End) {
    && pending <= |ordered|
    && (forall k :: 0 <= k < pending ==> Precedes(ordered[k].time, end))
    && (pending < |ordered| ==> !Precedes(ordered[pending].time, end))
  }

  // In order, the latest is the last of them.
  lemma {:induction false} PointerIsLatest(ordered: seq<Change>, pending: nat, end: End)
    requires InOrder(ordered) && Passed(ordered, pending, end)
    ensures LatestBefore(ordered, end) == if pending == 0 then None else Some(ordered[pending - 1])
    decreases |ordered|
  {
    if ordered != [] {
      var init := ordered[..|ordered| - 1];
      PointerIsLatest(init, if pending == |ordered| then pending - 1 else pending, end);
    }
  }

  // ---------- the replay ----------

  function Set(ordered: seq<Change>, pending: nat, seedTtlMs: Option<nat>): Option<nat>
    requires pending <= |ordered|
  {
    if pending == 0 then seedTtlMs else ordered[pending - 1].ttlMs
  }

  // The inner loop: from the pointer on, every change landing before the bucket ends.
  method Replay(ordered: seq<Change>, from: nat, bucketEnd: End, was: Option<nat>, ghost seedTtlMs: Option<nat>)
    returns (pending: nat, inForce: Option<nat>)
    requires from <= |ordered| && was == Set(ordered, from, seedTtlMs)
    ensures from <= pending <= |ordered| && inForce == Set(ordered, pending, seedTtlMs)
    ensures forall k :: from <= k < pending ==> Precedes(ordered[k].time, bucketEnd)
    ensures pending < |ordered| ==> !Precedes(ordered[pending].time, bucketEnd)
  {
    pending, inForce := from, was;
    while pending < |ordered| && Precedes(ordered[pending].time, bucketEnd)
      invariant from <= pending <= |ordered| && inForce == Set(ordered, pending, seedTtlMs)
      invariant forall k :: from <= k < pending ==> Precedes(ordered[k].time, bucketEnd)
    {
      inForce := ordered[pending].ttlMs;
      pending := pending + 1;
    }
  }

  lemma {:induction false} PassesOn(ordered: seq<Change>, from: nat, pending: nat, closed: End, bucketEnd: End)
    requires InOrder(ordered) && Passed(ordered, from, closed) && from <= pending <= |ordered|
    requires forall k :: from <= k < pending ==> Precedes(ordered[k].time, bucketEnd)
    requires pending < |ordered| ==> !Precedes(ordered[pending].time, bucketEnd)
    ensures Passed(ordered, pending, Later(closed, bucketEnd))
  {
  }

  lemma {:induction false} SetIsInForce(changes: seq<Change>, pending: nat, closed: End, seedTtlMs: Option<nat>)
    requires Passed(Ordered(changes), pending, closed)
    ensures Set(Ordered(changes), pending, seedTtlMs) == InForce(changes, closed, seedTtlMs)
  {
    OrderedIsInOrder(changes);
    PointerIsLatest(Ordered(changes), pending, closed);
    OrderedLatest(changes, closed);
  }

  /**
   Each bucket holds what the last change before it closes set, or the seed before any: the two pointers come to the
   same as looking every bucket up.
   */
  method EffectiveTtlByBucket(bucketTimes: seq<int>, changes: seq<Change>, seedTtlMs: Option<nat>)
    returns (ttls: seq<Option<nat>>)
    ensures |ttls| == |bucketTimes|
    ensures forall i: nat :: i < |ttls| ==> ttls[i] == InForce(changes, Closed(bucketTimes, i), seedTtlMs)
  {
    var ordered := Ordered(changes);
    OrderedIsInOrder(changes);
    ttls := [];
    var pending := 0;
    var inForce := seedTtlMs;
    for index := 0 to |bucketTimes|
      invariant |ttls| == index && pending <= |ordered| && inForce == Set(ordered, pending, seedTtlMs)
      invariant forall i: nat :: i < index ==> ttls[i] == InForce(changes, Closed(bucketTimes, i), seedTtlMs)
      invariant if index == 0 then pending == 0 else Passed(ordered, pending, Closed(bucketTimes, index - 1))
    {
      var from := pending;
      pending, inForce := Replay(ordered, from, EndOf(bucketTimes, index), inForce, seedTtlMs);
      if index > 0 {
        PassesOn(ordered, from, pending, Closed(bucketTimes, index - 1), EndOf(bucketTimes, index));
      }
      SetIsInForce(changes, pending, Closed(bucketTimes, index), seedTtlMs);
      ttls := ttls + [inForce];
    }
  }

  // Buckets in order close where they end.
  lemma {:induction false} ClosedInOrder(bucketTimes: seq<int>, index: nat)
    requires forall i, j :: 0 <= i < j < |bucketTimes| ==> bucketTimes[i] <= bucketTimes[j]
    ensures Closed(bucketTimes, index) == EndOf(bucketTimes, index)
  {
    if index > 0 {
      ClosedInOrder(bucketTimes, index - 1);
    }
  }
}
