/**
 The audit's queue and the loop over it (api/src/cache-audit.ts:212-326, api/src/cache-events.ts:1483-1656): pages of
 the least recently verified descriptors, each taken entry stamped before it is replayed and each gone one retired,
 beside a drain that fills and other runs that stamp.
 */
module CacheAuditQueue {
  import opened Options
  import opened Sequences

  type Key = string

  datatype Row = Row(lastFilled: Option<nat>, auditedAt: Option<nat>, goneAt: Option<nat>, redisKey: string,
                     user: Option<string>, collection: Option<string>)

  datatype Filter = Filter(user: Option<string>, collection: Option<string>)

  const QUEUE_PAGE: nat := 500

  // When a row was last known to be right: as of its fill or its audit.
  function VerifiedAt(row: Row): nat
    requires row.lastFilled.Some?
  {
    if row.auditedAt.None? || row.auditedAt.value < row.lastFilled.value then row.lastFilled.value
    else row.auditedAt.value
  }

  predicate IsDue(row: Row, before: nat, filter: Filter) {
    && row.lastFilled.Some? && row.redisKey != "" && row.goneAt.None?
    && VerifiedAt(row) < before
    && (filter.user.Some? ==> row.user == filter.user)
    && (filter.collection.Some? ==> row.collection == filter.collection)
  }

  function Due(rows: map<Key, Row>, before: nat, filter: Filter): set<Key> {
    set key | key in rows && IsDue(rows[key], before, filter)
  }

  // The queue's order: verified earlier, then filled earlier.
  predicate NotAfter(a: Row, b: Row) {
    a.lastFilled.Some? && b.lastFilled.Some?
    && (VerifiedAt(a) < VerifiedAt(b) || (VerifiedAt(a) == VerifiedAt(b) && a.lastFilled.value <= b.lastFilled.value))
  }

  function Keys(keys: seq<Key>): set<Key> {
    set key | key in keys
  }

  // A page: as many of the due keys as asked for, in order, none left out before one let in.
  ghost predicate IsPage(page: seq<Key>, rows: map<Key, Row>, count: nat, before: nat, filter: Filter) {
    var due := Due(rows, before, filter);
    && PageOf(page, due - Keys(page), due, rows)
    && |page| == if count < |due| then count else |due|
  }

  // The page and what is left of the queue.
  ghost predicate PageOf(page: seq<Key>, left: set<Key>, due: set<Key>, rows: map<Key, Row>)
    requires forall key :: key in due ==> key in rows
  {
    && NoRepeats(page)
    && Keys(page) !! left && Keys(page) + left == due
    && (forall i, j :: 0 <= i < j < |page| ==> NotAfter(rows[page[i]], rows[page[j]]))
    && (forall i, key :: 0 <= i < |page| && key in left ==> page[i] in due && NotAfter(rows[page[i]], rows[key]))
  }

  // What the queue holds, condition by condition: filled and not audited since, held as far as is known, and of the
  // filter's user and collection.
  ghost predicate ToAudit(row: Row, before: nat, filter: Filter) {
    && row.lastFilled.Some? && row.lastFilled.value < before
    && (row.auditedAt.Some? ==> row.auditedAt.value < before)
    && row.goneAt == None && |row.redisKey| > 0
    && (filter.user == None || row.user == Some(filter.user.value))
    && (filter.collection == None || row.collection == Some(filter.collection.value))
  }

  ghost function LastKnown(row: Row): nat
    requires row.lastFilled.Some?
  {
    var filled, audited := row.lastFilled.value, row.auditedAt.GetOr(0);
    if filled > audited then filled else audited
  }

  // Of two rows: the first was known right earlier, or filled no later where they tie.
  ghost predicate NoLater(a: Row, b: Row)
    requires a.lastFilled.Some? && b.lastFilled.Some?
  {
    LastKnown(a) < LastKnown(b) || (LastKnown(a) == LastKnown(b) && a.lastFilled.value <= b.lastFilled.value)
  }

  lemma {:induction false} DueIsToAudit(row: Row, before: nat, filter: Filter)
    ensures IsDue(row, before, filter) <==> ToAudit(row, before, filter)
  {
  }

  lemma {:induction false} FewerDue(start: set<Key>, end: set<Key>)
    requires end < start
    ensures |end| < |start|
  {
    assert |start - end| > 0;
    assert end + (start - end) == start;
  }

  ghost function Waiting(rows: map<Key, Row>, before: nat, filter: Filter): set<Key> {
    set key | key in rows && ToAudit(rows[key], before, filter)
  }

  lemma {:induction false} DueAreWaiting(rows: map<Key, Row>, before: nat, filter: Filter)
    ensures Due(rows, before, filter) == Waiting(rows, before, filter)
  {
    forall key | key in rows ensures key in Due(rows, before, filter) <==> key in Waiting(rows, before, filter) {
      DueIsToAudit(rows[key], before, filter);
    }
  }

  // A page holds rows to audit and no other, each once, and leaves one out only where it is full.
  lemma {:induction false} PageIsToAudit(page: seq<Key>, rows: map<Key, Row>, count: nat, before: nat, filter: Filter)
    requires IsPage(page, rows, count, before, filter)
    ensures |page| <= count && NoRepeats(page)
    ensures forall key :: key in page ==> key in Waiting(rows, before, filter)
    ensures |page| < count ==> forall key :: key in Waiting(rows, before, filter) ==> key in page
  {
    var due := Due(rows, before, filter);
    DueAreWaiting(rows, before, filter);
    assert forall key :: key in page <==> key in Keys(page);
    if |page| < count {
      NoRepeatsCount(page);
      assert Keys(page) == set key | key in page;
      if Keys(page) < due {
        FewerDue(due, Keys(page));
      }
    }
  }

  // And it has them, and what it leaves out after them, in order.
  lemma {:induction false} PageIsInOrder(page: seq<Key>, rows: map<Key, Row>, count: nat, before: nat, filter: Filter,
                                         i: nat, key: Key)
    requires IsPage(page, rows, count, before, filter) && i < |page| && key in Waiting(rows, before, filter)
    requires key in page ==> exists j :: i <= j < |page| && page[j] == key
    ensures page[i] in rows && rows[page[i]].lastFilled.Some? && NoLater(rows[page[i]], rows[key])
  {
    DueAreWaiting(rows, before, filter);
    assert page[i] in Keys(page);
    if key in page {
      var j :| i <= j < |page| && page[j] == key;
      assert i < j ==> NotAfter(rows[page[i]], rows[page[j]]);
    } else {
      assert key in Due(rows, before, filter) - Keys(page);
    }
  }

  lemma {:induction false} PageGrows(page: seq<Key>, left: set<Key>, due: set<Key>, rows: map<Key, Row>, first: Key)
    requires forall key :: key in due ==> key in rows
    requires PageOf(page, left, due, rows) && first in left
    requires forall key :: key in left ==> NotAfter(rows[first], rows[key])
    ensures PageOf(page + [first], left - {first}, due, rows)
  {
    assert Keys(page + [first]) == Keys(page) + {first};
  }

  function Advanced(rows: map<Key, Row>, keys: seq<Key>, at: nat): map<Key, Row> {
    map key | key in rows :: if key in keys then rows[key].(auditedAt := Some(at)) else rows[key]
  }

  function Retired(rows: map<Key, Row>, keys: seq<Key>, askedAt: nat): map<Key, Row> {
    map key | key in rows ::
      if key in keys && rows[key].lastFilled.Some? && rows[key].lastFilled.value <= askedAt
      then rows[key].(goneAt := Some(askedAt)) else rows[key]
  }

  // A stamp no older than the run takes exactly the stamped keys out of its queue.
  lemma {:induction false} AdvancedLeaveQueue(rows: map<Key, Row>, keys: seq<Key>, at: nat, before: nat, filter: Filter)
    requires before <= at
    ensures Due(Advanced(rows, keys, at), before, filter) == Due(rows, before, filter) - Keys(keys)
  {
    var end := Advanced(rows, keys, at);
    forall key ensures key in Due(end, before, filter) <==> key in Due(rows, before, filter) && key !in keys {
      if key in rows && key in keys && end[key].lastFilled.Some? {
        assert VerifiedAt(end[key]) >= at;
      }
    }
  }

  // Retiring takes out exactly those of the keys not filled since the cache was asked, until they are filled again.
  lemma {:induction false} RetiredLeaveQueue(rows: map<Key, Row>, keys: seq<Key>, askedAt: nat, before: nat,
                                             filter: Filter, key: Key, at: nat)
    requires key in Due(rows, before, filter)
    ensures key in Due(Retired(rows, keys, askedAt), before, filter)
       <==> key !in keys || askedAt < rows[key].lastFilled.value
    ensures var row := rows[key];
            var refilled := Acted(Retired(rows, keys, askedAt), Fill(key, at, row.redisKey, row.user, row.collection));
            key in Due(refilled, before, filter) <==> at < before
  {
  }

  // What else writes the table while a run goes on.
  datatype Action =
    | Fill(key: Key, at: nat, redisKey: string, user: Option<string>, collection: Option<string>) // filled then
    | Stamp(keys: seq<Key>, at: nat)
    | Retire(keys: seq<Key>, askedAt: nat)

  function Acted(rows: map<Key, Row>, action: Action): map<Key, Row> {
    match action
    case Fill(key, at, redisKey, user, collection) =>
      rows[key := Row(Some(at), if key in rows then rows[key].auditedAt else None, None, redisKey, user, collection)]
    case Stamp(keys, at) => Advanced(rows, keys, at)
    case Retire(keys, askedAt) => Retired(rows, keys, askedAt)
  }

  function ActedAll(rows: map<Key, Row>, actions: seq<Action>): map<Key, Row> {
    if actions == [] then rows else Acted(ActedAll(rows, actions[..|actions| - 1]), actions[|actions| - 1])
  }

  // The other writers of a run that began at `before`: their stamps are no older than it.
  ghost predicate Current(action: Action, before: nat) {
    action.Stamp? ==> before <= action.at
  }

  // And their fills are none of those the run still waits for.
  ghost predicate CaughtUp(action: Action, before: nat) {
    action.Fill? ==> before <= action.at
  }

  ghost predicate IsStamped(rows: map<Key, Row>, key: Key, before: nat) {
    key in rows && rows[key].auditedAt.Some? && before <= rows[key].auditedAt.value
  }

  // No row went, and none stamped since `before` lost its stamp.
  ghost predicate KeepsStamps(rows: map<Key, Row>, end: map<Key, Row>, before: nat) {
    && rows.Keys <= end.Keys
    && forall key :: IsStamped(rows, key, before) ==> IsStamped(end, key, before)
  }

  // What the other writers do beside a run that began at `before`: only so many late fills come in.
  ghost predicate Beside(others: nat -> seq<Action>, before: nat, caughtUp: nat) {
    && (forall n: nat, k: nat :: k < |others(n)| ==> Current(others(n)[k], before))
    && (forall n: nat, k: nat :: caughtUp <= n && k < |others(n)| ==> CaughtUp(others(n)[k], before))
  }

  lemma {:induction false} ActionsKeepStamps(rows: map<Key, Row>, actions: seq<Action>, before: nat)
    requires forall k :: 0 <= k < |actions| ==> Current(actions[k], before)
    ensures KeepsStamps(rows, ActedAll(rows, actions), before)
  {
    if actions != [] {
      var init, last := actions[..|actions| - 1], actions[|actions| - 1];
      ActionsKeepStamps(rows, init, before);
    }
  }

  lemma {:induction false} ActionsAddNoneDue(rows: map<Key, Row>, actions: seq<Action>, before: nat, filter: Filter)
    requires forall k :: 0 <= k < |actions| ==> Current(actions[k], before) && CaughtUp(actions[k], before)
    ensures Due(ActedAll(rows, actions), before, filter) <= Due(rows, before, filter)
  {
    if actions != [] {
      var init, last := actions[..|actions| - 1], actions[|actions| - 1];
      ActionsAddNoneDue(rows, init, before, filter);
    }
  }

  // ---------- the descriptor table ----------

  class DescriptorTable {
    var rows: map<Key, Row>
    var awaits: nat
    const others: nat -> seq<Action> // what the other writers do before each await

    constructor (rows: map<Key, Row>, others: nat -> seq<Action>)
      ensures this.rows == rows && awaits == 0 && this.others == others
    {
      this.rows, this.others, awaits := rows, others, 0;
    }

    method Others()
      modifies this
      ensures rows == ActedAll(old(rows), others(old(awaits))) && awaits == old(awaits) + 1
    {
      rows, awaits := ActedAll(rows, others(awaits)), awaits + 1;
    }

    // The same, as far as a run that began at `before` cares.
    method Await(ghost before: nat, ghost filter: Filter, ghost caughtUp: nat)
      requires Beside(others, before, caughtUp)
      modifies this
      ensures awaits == old(awaits) + 1
      ensures KeepsStamps(old(rows), rows, before)
      ensures caughtUp <= old(awaits) ==> Due(rows, before, filter) <= Due(old(rows), before, filter)
      ensures others(old(awaits)) == [] ==> rows == old(rows)
    {
      ActionsKeepStamps(rows, others(awaits), before);
      if caughtUp <= awaits {
        ActionsAddNoneDue(rows, others(awaits), before, filter);
      }
      Others();
    }

    // The first due key left of the queue.
    method Next(left: set<Key>) returns (first: Key)
      requires left != {} && forall key :: key in left ==> key in rows && rows[key].lastFilled.Some?
      ensures first in left && forall key :: key in left ==> NotAfter(rows[first], rows[key])
    {
      first :| first in left;
      var rest := left - {first};
      while rest != {}
        invariant first in left && rest <= left
        invariant forall key :: key in left && key !in rest ==> NotAfter(rows[first], rows[key])
      {
        var key :| key in rest;
        rest := rest - {key};
        if !NotAfter(rows[first], rows[key]) {
          first := key;
        }
      }
    }

    method ReadQueue(count: nat, before: nat, filter: Filter) returns (page: seq<Key>)
      ensures IsPage(page, rows, count, before, filter)
    {
      page := [];
      var due := Due(rows, before, filter);
      var left := due;
      while |page| < count && left != {}
        invariant PageOf(page, left, due, rows)
        invariant |page| <= count && |left| + |page| == |due|
      {
        var first := Next(left);
        PageGrows(page, left, due, rows, first);
        page := page + [first];
        left := left - {first};
      }
      assert left == due - Keys(page);
    }

    method Advance(keys: seq<Key>, at: nat)
      modifies `rows
      ensures rows == Advanced(old(rows), keys, at)
    {
      rows := Advanced(rows, keys, at);
    }

    method RetireGone(keys: seq<Key>, askedAt: nat)
      modifies `rows
      ensures rows == Retired(old(rows), keys, askedAt)
    {
      rows := Retired(rows, keys, askedAt);
    }
  }

  // ---------- the run ----------

  // The keys the cache no longer holds, and those held that the limit has room for.
  method Sort(page: seq<Key>, held: Key -> bool, room: Option<nat>) returns (gone: seq<Key>, taken: seq<Key>)
    requires NoRepeats(page)
    ensures NoRepeats(taken) && Keys(gone) !! Keys(taken)
    ensures forall key :: key in gone ==> key in page && !held(key)
    ensures forall key :: key in taken ==> key in page && held(key)
    ensures room.Some? ==> |taken| <= room.value
    ensures |gone| + |taken| <= |page| && (room.None? ==> |gone| + |taken| == |page|)
    ensures page != [] && room != Some(0) ==> gone != [] || taken != []
    ensures (forall key :: key in page ==> held(key)) ==>
              gone == [] && taken == if room.Some? && room.value < |page| then page[..room.value] else page
  {
    gone, taken := [], [];
    for index := 0 to |page|
      invariant NoRepeats(taken)
      invariant forall key :: key in gone ==> key in page && !held(key)
      invariant forall key :: key in taken ==> key in page[..index] && held(key)
      invariant room.Some? ==> |taken| <= room.value
      invariant |gone| + |taken| <= index && (room.None? ==> |gone| + |taken| == index)
      invariant index > 0 && room != Some(0) ==> gone != [] || taken != []
      invariant (forall key :: key in page ==> held(key)) ==>
          gone == [] && taken == if room.Some? && room.value < index then page[..room.value] else page[..index]
    {
      if !held(page[index]) {
        gone := gone + [page[index]];
      } else if room.None? || |taken| < room.value {
        taken := taken + [page[index]];
      }
    }
  }

  // A run over entries nothing else touches and the cache holds: the least verified of what is due, up to the limit.
  ghost predicate Took(rows: map<Key, Row>, end: map<Key, Row>, examined: set<Key>, before: nat, limit: nat,
                       filter: Filter) {
    && TookSome(rows, end, examined, before, filter)
    && |examined| == if limit < |Due(rows, before, filter)| then limit else |Due(rows, before, filter)|
  }

  ghost predicate TookSome(rows: map<Key, Row>, end: map<Key, Row>, examined: set<Key>, before: nat, filter: Filter) {
    && examined <= Due(rows, before, filter)
    && LeastFirst(rows, examined, Due(rows, before, filter))
    && OnlyStamped(rows, end, examined, before)
  }

  ghost predicate LeastFirst(rows: map<Key, Row>, examined: set<Key>, due: set<Key>)
    requires examined <= due <= rows.Keys
  {
    forall e, d :: e in examined && d in due - examined ==> NotAfter(rows[e], rows[d])
  }

  ghost predicate OnlyStamped(rows: map<Key, Row>, end: map<Key, Row>, examined: set<Key>, before: nat) {
    && end.Keys == rows.Keys
    && (forall key :: key in rows && key !in examined ==> end[key] == rows[key])
    && (forall key :: key in examined ==>
                        IsStamped(end, key, before) && end[key] == rows[key].(auditedAt := end[key].auditedAt))
  }

  // A run left alone examines rows to audit and no other, before any that was known right later.
  lemma {:induction false} ExaminedAreToAudit(rows: map<Key, Row>, end: map<Key, Row>, examined: set<Key>, before: nat,
                                              filter: Filter, e: Key)
    requires TookSome(rows, end, examined, before, filter) && e in examined
    ensures e in Waiting(rows, before, filter)
    ensures forall d :: d in Waiting(rows, before, filter) && d !in examined ==> NoLater(rows[e], rows[d])
  {
    DueAreWaiting(rows, before, filter);
    forall d | d in Waiting(rows, before, filter) && d !in examined ensures NoLater(rows[e], rows[d]) {
      assert NotAfter(rows[e], rows[d]);
    }
  }

  lemma {:induction false} OnlyStampedLeaves(rows: map<Key, Row>, now: map<Key, Row>, examined: set<Key>,
                                             before: nat, filter: Filter)
    requires OnlyStamped(rows, now, examined, before)
    ensures Due(now, before, filter) == Due(rows, before, filter) - examined
  {
    forall key | key in examined ensures key !in Due(now, before, filter) {
    }
  }

  lemma {:induction false} QuietRound(rows: map<Key, Row>, now: map<Key, Row>, examined: set<Key>,
                                      taken: seq<Key>, at: nat,
                                      before: nat, filter: Filter)
    requires TookSome(rows, now, examined, before, filter) && before <= at
    requires Keys(taken) <= Due(now, before, filter) && LeastFirst(now, Keys(taken), Due(now, before, filter))
    ensures TookSome(rows, Advanced(now, taken, at), examined + Keys(taken), before, filter)
  {
    OnlyStampedLeaves(rows, now, examined, before, filter);
  }

  // What a page is split into, as of the table it was read from.
  ghost predicate Split(rows: map<Key, Row>, gone: seq<Key>, taken: seq<Key>, before: nat, filter: Filter) {
    && Keys(gone) + Keys(taken) <= Due(rows, before, filter)
    && NoRepeats(taken)
    && (gone == [] && taken == [] ==> Due(rows, before, filter) == {})
  }

  // Read a page, ask the cache for each of its entries.
  method Ask(table: DescriptorTable, held: Key -> bool, room: Option<nat>, before: nat, filter: Filter)
    returns (gone: seq<Key>, taken: seq<Key>)
    requires room != Some(0)
    ensures Split(table.rows, gone, taken, before, filter)
    ensures room.Some? ==> |taken| <= room.value
    ensures |gone| + |taken| <= 500
    ensures room.None? ==> var due := Due(table.rows, before, filter);
                           |gone| + |taken| == if |due| < 500 then |due| else 500
    ensures (forall key :: held(key)) ==>
              gone == [] && LeastFirst(table.rows, Keys(taken), Due(table.rows, before, filter))
  {
    var page := table.ReadQueue(QUEUE_PAGE, before, filter);
    gone, taken := Sort(page, held, room);
    assert Keys(gone) + Keys(taken) <= Keys(page);
    if forall key :: held(key) {
    }
  }

  // The writes of a round, on the table as the other writers have left it since its page was read.
  ghost predicate Wrote(read: map<Key, Row>, end: map<Key, Row>, gone: seq<Key>, taken: seq<Key>, before: nat,
                        filter: Filter, caughtUp: bool) {
    && KeepsStamps(read, end, before)
    && (forall key :: key in taken ==> IsStamped(end, key, before))
    && (caughtUp ==> Due(end, before, filter) <= Due(read, before, filter) - Keys(gone) - Keys(taken))
  }

  lemma {:induction false} WritesEnd(read: map<Key, Row>, writing: map<Key, Row>, end: map<Key, Row>,
                                     gone: seq<Key>, askedAt: nat,
                                     taken: seq<Key>, at: nat, before: nat, filter: Filter, caughtUp: bool)
    requires KeepsStamps(read, writing, before) && before <= at && before <= askedAt
    requires end == Advanced(Retired(writing, gone, askedAt), taken, at)
    requires Keys(taken) <= read.Keys
    requires caughtUp ==> Due(writing, before, filter) <= Due(read, before, filter)
    ensures Wrote(read, end, gone, taken, before, filter, caughtUp)
  {
    assert forall key :: key in taken ==> key in Keys(taken);
  }

  lemma {:induction false} SmallerQueue(start: set<Key>, read: set<Key>, end: set<Key>, gone: seq<Key>, taken: seq<Key>)
    requires end <= read - Keys(gone) - Keys(taken) && read <= start
    requires Keys(gone) + Keys(taken) <= read && (gone != [] || taken != [])
    ensures end < start
  {
    var key := if gone != [] then gone[0] else taken[0];
    assert key in Keys(gone) + Keys(taken);
  }

  lemma {:induction false} TakenAnew(start: map<Key, Row>, read: map<Key, Row>, gone: seq<Key>, taken: seq<Key>,
                                     before: nat, filter: Filter)
    requires KeepsStamps(start, read, before) && Split(read, gone, taken, before, filter)
    ensures forall key :: key in taken ==> !IsStamped(start, key, before)
  {
    forall key | key in taken ensures !IsStamped(start, key, before) {
      assert key in Keys(gone) + Keys(taken);
      if IsStamped(start, key, before) {
      }
    }
  }

  /**
   One page: what is taken of it is stamped, what is gone retired, and all of that is out of the queue. The other
   writers come in before the page is read and before it is written; when the cache is asked shows in neither.
   */
  method Round(table: DescriptorTable, held: nat -> Key -> bool, clock: nat -> nat, room: Option<nat>,
               before: nat, filter: Filter, ghost caughtUp: nat)
    returns (last: bool, taken: seq<Key>, ghost at: nat)
    requires forall m: nat, n: nat :: m <= n ==> clock(m) <= clock(n)
    requires Beside(table.others, before, caughtUp) && before <= clock(table.awaits) && room != Some(0)
    modifies table
    ensures old(table.awaits) < table.awaits && before <= at
    ensures last ==> taken == [] && Due(table.rows, before, filter) == {}
    ensures NoRepeats(taken) && (room.Some? ==> |taken| <= room.value)
    ensures KeepsStamps(old(table.rows), table.rows, before)
    ensures forall key :: key in taken ==>
                            IsStamped(table.rows, key, before) && !IsStamped(old(table.rows), key, before)
    ensures !last && caughtUp <= old(table.awaits) ==>
              Due(table.rows, before, filter) < Due(old(table.rows), before, filter)
    ensures Quiet(table.others, held) ==>
              && Keys(taken) <= Due(old(table.rows), before, filter)
              && LeastFirst(old(table.rows), Keys(taken), Due(old(table.rows), before, filter))
              && table.rows == Advanced(old(table.rows), taken, at)
  {
    ghost var start, began := table.rows, table.awaits;
    table.Await(before, filter, caughtUp);
    ghost var read := table.rows;
    var askedAt := clock(table.awaits);
    var gone;
    gone, taken := Ask(table, held(table.awaits), room, before, filter);
    TakenAnew(start, read, gone, taken, before, filter);
    if gone == [] && taken == [] {
      return true, [], before;
    }
    table.Await(before, filter, caughtUp);
    ghost var writing := table.rows;
    var now := clock(table.awaits);
    table.RetireGone(gone, askedAt);
    table.Advance(taken, now);
    WritesEnd(read, writing, table.rows, gone, askedAt, taken, now, before, filter, caughtUp <= began);
    if caughtUp <= began {
      SmallerQueue(Due(start, before, filter), Due(read, before, filter), Due(table.rows, before, filter), gone, taken);
    }
    return false, taken, now;
  }

  ghost predicate Quiet(others: nat -> seq<Action>, held: nat -> Key -> bool) {
    (forall n: nat :: others(n) == []) && (forall n: nat, key :: held(n)(key))
  }

  lemma {:induction false} AllTaken(taken: set<Key>, due: set<Key>)
    requires taken <= due && due - taken == {}
    ensures taken == due
  {
    assert due == taken + (due - taken);
  }

  // At the limit, or with nothing due any more, the run took as much as it could.
  lemma {:induction false} TookEnough(rows: map<Key, Row>, end: map<Key, Row>, examined: seq<Key>, before: nat,
                                      limit: nat, filter: Filter)
    requires NoRepeats(examined) && TookSome(rows, end, Keys(examined), before, filter)
    requires |examined| == limit || (|examined| < limit && Due(end, before, filter) == {})
    ensures Took(rows, end, Keys(examined), before, limit, filter)
  {
    var due := Due(rows, before, filter);
    NoRepeatsCount(examined);
    assert Keys(examined) == set key | key in examined;
    if |examined| == limit {
      if Keys(examined) < due {
        FewerDue(due, Keys(examined));
      } else {
        assert Keys(examined) == due;
      }
    } else {
      OnlyStampedLeaves(rows, end, Keys(examined), before, filter);
      AllTaken(Keys(examined), due);
    }
  }

  /**
   Pages of the queue until it is empty, the limit is reached or the time is up. Whatever else writes the table, it
   ends and examines no key twice; it stops short of what is due only at the limit or the time. Left alone, it takes
   just what was verified least recently.
   */
  method AuditCache(table: DescriptorTable, held: nat -> Key -> bool, clock: nat -> nat, limit: Option<nat>,
                    maxDurationMs: Option<nat>, filter: Filter, ghost caughtUp: nat)
    returns (examined: seq<Key>, timedOut: bool)
    requires forall m: nat, n: nat :: m <= n ==> clock(m) <= clock(n)
    requires Beside(table.others, clock(table.awaits), caughtUp)
    modifies table
    ensures NoRepeats(examined)
    ensures limit.Some? ==> |examined| <= limit.value
    ensures forall key :: key in examined ==> IsStamped(table.rows, key, clock(old(table.awaits)))
    ensures !timedOut && (limit.None? || |examined| < limit.value) ==>
              Due(table.rows, clock(old(table.awaits)), filter) == {}
    ensures timedOut ==> maxDurationMs.Some?
    ensures Quiet(table.others, held) ==>
              TookSome(old(table.rows), table.rows, Keys(examined), clock(old(table.awaits)), filter)
    ensures Quiet(table.others, held) && limit.Some? && maxDurationMs.None? ==>
              Took(old(table.rows), table.rows, Keys(examined), clock(old(table.awaits)), limit.value, filter)
  {
    var before := clock(table.awaits);
    examined, timedOut := [], false;
    var last := false;
    while !last
      invariant before <= clock(table.awaits)
      invariant NoRepeats(examined) && (limit.Some? ==> |examined| <= limit.value)
      invariant forall key :: key in examined ==> IsStamped(table.rows, key, before)
      invariant Quiet(table.others, held) ==> TookSome(old(table.rows), table.rows, Keys(examined), before, filter)
      invariant last ==> Due(table.rows, before, filter) == {}
      invariant !timedOut
      decreases !last, if table.awaits < caughtUp then caughtUp - table.awaits else 0, |Due(table.rows, before, filter)|
    {
      var room := if limit.None? then None else Some(limit.value - |examined|);
      if room == Some(0) {
        break;
      }
      ghost var was, began, at := table.rows, table.awaits, 0;
      var taken;
      last, taken, at := Round(table, held, clock, room, before, filter, caughtUp);
      if Quiet(table.others, held) {
        QuietRound(old(table.rows), was, Keys(examined), taken, at, before, filter);
        assert Keys(examined + taken) == Keys(examined) + Keys(taken);
      }
      NoRepeatsTogether(examined, taken);
      examined := examined + taken;
      if !last && caughtUp <= began {
        FewerDue(Due(was, before, filter), Due(table.rows, before, filter));
      }
      if !last && maxDurationMs.Some? && clock(table.awaits) - before >= maxDurationMs.value {
        timedOut := true;
        break;
      }
    }
    if Quiet(table.others, held) && limit.Some? && !timedOut {
      TookEnough(old(table.rows), table.rows, examined, before, limit.value, filter);
    }
  }

  // ---------- run after run ----------

  // The entries runs with this filter get to.
  function Queue(rows: map<Key, Row>, filter: Filter): set<Key> {
    set key | key in rows && rows[key].lastFilled.Some? && IsDue(rows[key], VerifiedAt(rows[key]) + 1, filter)
  }

  datatype AuditRun = AuditRun(before: nat, examined: set<Key>)

  function Examined(runs: seq<AuditRun>): set<Key> {
    if runs == [] then {} else runs[0].examined + Examined(runs[1..])
  }

  /**
   Runs one after the other over held entries nothing fills meanwhile, each begun once the clock is past every stamp,
   and none begun before `first`.
   */
  ghost predicate InTurn(tables: seq<map<Key, Row>>, runs: seq<AuditRun>, first: nat, limit: nat, filter: Filter) {
    && |tables| == |runs| + 1
    && (forall i :: 0 <= i < |runs| ==> first <= runs[i].before)
    && (forall i :: 0 <= i < |runs| ==> Took(tables[i], tables[i + 1], runs[i].examined, runs[i].before, limit, filter))
    && (forall i :: 0 <= i < |runs| ==> AllBefore(tables[i], runs[i].before, filter))
  }

  ghost predicate AllBefore(rows: map<Key, Row>, before: nat, filter: Filter) {
    forall key :: key in Queue(rows, filter) ==> VerifiedAt(rows[key]) < before
  }

  // What is left is what was verified before the first run.
  ghost predicate LeftSince(rows: map<Key, Row>, left: set<Key>, first: nat, filter: Filter) {
    && left <= Queue(rows, filter)
    && forall key :: key in Queue(rows, filter) ==> (key in left <==> VerifiedAt(rows[key]) < first)
  }

  lemma {:induction false} AllAreDue(rows: map<Key, Row>, before: nat, filter: Filter)
    requires AllBefore(rows, before, filter)
    ensures Due(rows, before, filter) == Queue(rows, filter)
  {
    assert forall key :: key in Due(rows, before, filter) ==> key in Queue(rows, filter);
  }

  // A run takes nothing a second time while something is left.
  lemma {:induction false} LeftGoesFirst(rows: map<Key, Row>, end: map<Key, Row>, run: AuditRun, left: set<Key>,
                                         first: nat, limit: nat, filter: Filter)
    requires LeftSince(rows, left, first, filter) && AllBefore(rows, run.before, filter)
    requires Took(rows, end, run.examined, run.before, limit, filter)
    ensures run.examined <= left || left <= run.examined
    ensures |left - run.examined| <= if limit < |left| then |left| - limit else 0
  {
    AllAreDue(rows, run.before, filter);
    var queue := Queue(rows, filter);
    if e :| e in run.examined - left {
      forall d | d in left ensures d in run.examined {
        assert d !in run.examined ==> NotAfter(rows[e], rows[d]);
      }
      assert left - run.examined == {};
    } else {
      assert run.examined <= left;
      assert |left - run.examined| == |left| - |run.examined|;
      if limit >= |queue| {
        if run.examined < queue {
          FewerDue(queue, run.examined);
        }
        assert left - run.examined == {};
      }
    }
  }

  lemma {:induction false} LeftAfter(rows: map<Key, Row>, end: map<Key, Row>, run: AuditRun, left: set<Key>,
                                     first: nat, limit: nat, filter: Filter)
    requires LeftSince(rows, left, first, filter) && first <= run.before
    requires Took(rows, end, run.examined, run.before, limit, filter)
    ensures Queue(end, filter) == Queue(rows, filter)
    ensures LeftSince(end, left - run.examined, first, filter)
  {
    forall key | key in rows ensures key in Queue(end, filter) <==> key in Queue(rows, filter) {
      assert key !in run.examined ==> end[key] == rows[key];
    }
  }

  // What so many runs have room for.
  function Room(runs: nat, limit: nat): nat {
    if runs == 0 then 0 else limit + Room(runs - 1, limit)
  }

  lemma {:induction false} RoomOf(runs: nat, limit: nat)
    ensures Room(runs, limit) == runs * limit
  {
    if runs > 0 {
      RoomOf(runs - 1, limit);
    }
  }

  lemma {:induction false} NextTurns(tables: seq<map<Key, Row>>, runs: seq<AuditRun>, first: nat, limit: nat,
                                     filter: Filter)
    requires InTurn(tables, runs, first, limit, filter) && runs != []
    ensures InTurn(tables[1..], runs[1..], first, limit, filter)
  {
    forall i | 0 <= i < |runs| - 1
      ensures Took(tables[1..][i], tables[1..][i + 1], runs[1..][i].examined, runs[1..][i].before, limit, filter)
      ensures AllBefore(tables[1..][i], runs[1..][i].before, filter) && first <= runs[1..][i].before
    {
      assert tables[1..][i] == tables[i + 1] && tables[1..][i + 1] == tables[i + 2] && runs[1..][i] == runs[i + 1];
    }
  }

  lemma {:induction false} RunsReachAll(tables: seq<map<Key, Row>>, runs: seq<AuditRun>, left: set<Key>,
                                        first: nat, limit: nat,
                                        filter: Filter)
    requires InTurn(tables, runs, first, limit, filter) && LeftSince(tables[0], left, first, filter)
    requires |left| <= Room(|runs|, limit)
    ensures left <= Examined(runs)
    decreases |runs|
  {
    if runs == [] {
      assert left == {};
    } else {
      LeftGoesFirst(tables[0], tables[1], runs[0], left, first, limit, filter);
      LeftAfter(tables[0], tables[1], runs[0], left, first, limit, filter);
      NextTurns(tables, runs, first, limit, filter);
      RunsReachAll(tables[1..], runs[1..], left - runs[0].examined, first, limit, filter);
    }
  }

  /**
   Rounds of the whole cache: any n / limit runs in a row, rounded up, examine every one of n held entries that
   nothing fills meanwhile.
   */
  lemma {:induction false} EveryEntryIsExamined(tables: seq<map<Key, Row>>, runs: seq<AuditRun>, limit: nat,
                                                filter: Filter)
    requires runs != [] && InTurn(tables, runs, runs[0].before, limit, filter)
    requires |Queue(tables[0], filter)| <= |runs| * limit
    ensures Queue(tables[0], filter) <= Examined(runs)
  {
    RoomOf(|runs|, limit);
    RunsReachAll(tables, runs, Queue(tables[0], filter), runs[0].before, limit, filter);
  }
}
