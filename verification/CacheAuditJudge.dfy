/**
 The verdict on one cached entry (api/src/cache-audit.ts): its body is compared with what a replay of its request
 answers, and where they differ the entry is stale only if it still stood there and a second replay says the same.
 Each await is an instant: what the cache holds at each, and what a replay made then would answer, is the
 environment's to choose.
 */
module CacheAuditJudge {
  import opened Options
  import opened Sequences
  import opened AuditJson
  import opened JsonDiff
  import opened PinKeys

  // A body's value is missing when it does not decompress.
  datatype Body = Body(fill: nat, value: Option<Value>)
  datatype Sidecar = Sidecar(fill: nat, createdAt: Option<int>, exp: Option<int>)

  // The two keys of an entry, which a fill writes and an eviction deletes.
  datatype Stored = Stored(body: Option<Body>, sidecar: Option<Sidecar>)

  datatype Reply =
    | Lost(reason: string)
    | Reply(status: nat, underPressure: bool, pins: Option<seq<string>>, body: Option<Value>)

  datatype Verdict =
    | Fresh
    | Expired
    | Raced
    | Unreplayable(reason: string)
    | TimeVarying(differences: seq<string>, pins: seq<string>)
    | PinDrift(pins: seq<string>)
    | Refused // stale too: the replay is answered 403
    | Stale(differences: seq<string>, pins: seq<string>)

  datatype Answer = Answered(body: Value, pins: seq<string>) | Settled(verdict: Verdict)

  // What a replay makes of a reply: a body with the pins it answered under, or a verdict of its own.
  function AnswerOf(reply: Reply): Answer {
    match reply
    case Lost(reason) => Settled(Unreplayable(reason))
    case Reply(status, underPressure, pins, body) =>
      if status == 403 then Settled(Refused)
      else if status == 503 && underPressure then Settled(Unreplayable("status_503_under_pressure"))
      else if status < 200 || status >= 300 then Settled(Unreplayable("status_" + Digits(status)))
      else if pins.None? then Settled(Unreplayable("replay_unrecognized"))
      else if body.None? then Settled(Unreplayable("body"))
      else Answered(body.value, pins.value)
  }

  datatype Snapshot = Snapshot(body: Option<Value>, createdAt: Option<int>, exp: Option<int>)

  // Bodies read at one instant, sidecars at another.
  function SnapshotOf(body: Body, sidecar: Option<Sidecar>): Snapshot {
    Snapshot(body.value, if sidecar.Some? then sidecar.value.createdAt else None,
             if sidecar.Some? then sidecar.value.exp else None)
  }

  datatype Moved = StillHeld | Refilled | Gone

  // What the judge is given: the pins of the fill, the clock, and why the entry cannot be replayed, if it cannot.
  datatype Entry = Entry(pins: seq<string>, now: int, unreplayable: Option<string>)

  type Diffing = (Value, Value) -> seq<string>

  // ---------- the verdict as a function of the timeline ----------

  // `has`, then the sidecar where the snapshot carries a fill time.
  function MovedSince(cache: nat -> Stored, at: nat, snapshot: Snapshot): Moved {
    if cache(at).body.None? then Gone
    else if snapshot.createdAt.None? then StillHeld
    else
      var sidecar := cache(at + 1).sidecar;
      if sidecar.Some? && sidecar.value.createdAt == snapshot.createdAt then StillHeld else Refilled
  }

  // The instants a check takes.
  function CheckTakes(cache: nat -> Stored, at: nat, snapshot: Snapshot): nat {
    if cache(at).body.None? || snapshot.createdAt.None? then 1 else 2
  }

  predicate HasBody(stored: Stored) {
    stored.body.Some? && stored.body.value.value.Some?
  }

  // What one attempt comes to: a verdict, and the instants it replayed the request at, or another go at a refill.
  datatype Turn = Over(verdict: Verdict, asked: seq<nat>) | Retry(at: nat, snapshot: Snapshot)

  // From a snapshot with a body: the replay at `at`, the check after it, and the second replay.
  ghost function TurnOf(cache: nat -> Stored, replies: nat -> Reply, diff: Diffing, entry: Entry, at: nat,
                        snapshot: Snapshot): (r: Turn)
    requires snapshot.body.Some?
    ensures r.Retry? ==> r.snapshot.body.Some?
  {
    match AnswerOf(replies(at))
    case Settled(verdict) => Over(verdict, [at])
    case Answered(body, pins) =>
      var differences := diff(snapshot.body.value, body);
      if differences == [] then Over(if SamePins(entry.pins, pins) then Fresh else PinDrift(pins), [at])
      else
        var next := at + 1 + CheckTakes(cache, at + 1, snapshot);
        match MovedSince(cache, at + 1, snapshot)
        case Gone => Over(Raced, [at])
        case Refilled =>
          if !HasBody(cache(next)) then Over(Raced, [at])
          else Retry(next + 2, SnapshotOf(cache(next).body.value, cache(next + 1).sidecar))
        case StillHeld =>
          match AnswerOf(replies(next))
          case Settled(verdict) => Over(verdict, [at, next])
          case Answered(second, _) =>
            Over(if diff(body, second) != [] then TimeVarying(differences, pins) else Stale(differences, pins),
                 [at, next])
  }

  ghost function Attempt(cache: nat -> Stored, replies: nat -> Reply, diff: Diffing, entry: Entry, at: nat,
                         snapshot: Snapshot, attempt: nat): Verdict
    requires snapshot.body.Some? && attempt <= 2
    decreases 2 - attempt
  {
    if attempt == 2 then Raced
    else
      match TurnOf(cache, replies, diff, entry, at, snapshot)
      case Over(verdict, _) => verdict
      case Retry(next, again) => Attempt(cache, replies, diff, entry, next, again, attempt + 1)
  }

  ghost function AttemptAsks(cache: nat -> Stored, replies: nat -> Reply, diff: Diffing, entry: Entry, at: nat,
                             snapshot: Snapshot, attempt: nat): seq<nat>
    requires snapshot.body.Some? && attempt <= 2
    decreases 2 - attempt
  {
    if attempt == 2 then []
    else
      match TurnOf(cache, replies, diff, entry, at, snapshot)
      case Over(_, asked) => asked
      case Retry(next, again) => [at] + AttemptAsks(cache, replies, diff, entry, next, again, attempt + 1)
  }

  // The instant both halves of the first snapshot are read, or its body where the page read found none.
  function FirstBody(cache: nat -> Stored): nat {
    if cache(0).body.Some? then 0 else 1
  }

  function FirstSidecar(cache: nat -> Stored): nat {
    if cache(0).body.Some? then 0 else 2
  }

  ghost function Judged(cache: nat -> Stored, replies: nat -> Reply, diff: Diffing, entry: Entry): Verdict {
    var body := cache(FirstBody(cache)).body;
    if body.None? then Raced
    else
      var snapshot := SnapshotOf(body.value, cache(FirstSidecar(cache)).sidecar);
      if snapshot.body.None? then Unreplayable("unreadable")
      else if snapshot.exp.Some? && snapshot.exp.value <= entry.now then Expired
      else if entry.unreplayable.Some? then Unreplayable(entry.unreplayable.value)
      else Attempt(cache, replies, diff, entry, FirstSidecar(cache) + 1, snapshot, 0)
  }

  ghost function Asks(cache: nat -> Stored, replies: nat -> Reply, diff: Diffing, entry: Entry): seq<nat> {
    var body := cache(FirstBody(cache)).body;
    if body.None? then []
    else
      var snapshot := SnapshotOf(body.value, cache(FirstSidecar(cache)).sidecar);
      if snapshot.body.None? || (snapshot.exp.Some? && snapshot.exp.value <= entry.now) || entry.unreplayable.Some?
      then []
      else AttemptAsks(cache, replies, diff, entry, FirstSidecar(cache) + 1, snapshot, 0)
  }

  // ---------- the judge ----------

  // A cache and a listener to ask, one instant a call.
  class World {
    const cache: nat -> Stored
    const replies: nat -> Reply
    var at: nat
    var asked: seq<nat> // when it replayed

    constructor (cache: nat -> Stored, replies: nat -> Reply)
      ensures at == 0 && asked == [] && this.cache == cache && this.replies == replies
    {
      this.cache, this.replies, at, asked := cache, replies, 0, [];
    }

    method ReadPage() returns (stored: Stored)
      modifies `at
      ensures stored == cache(old(at)) && at == old(at) + 1
    {
      stored := cache(at);
      at := at + 1;
    }

    method Get() returns (body: Option<Body>)
      modifies `at
      ensures body == cache(old(at)).body && at == old(at) + 1
    {
      body := cache(at).body;
      at := at + 1;
    }

    method GetSidecar() returns (sidecar: Option<Sidecar>)
      modifies `at
      ensures sidecar == cache(old(at)).sidecar && at == old(at) + 1
    {
      sidecar := cache(at).sidecar;
      at := at + 1;
    }

    method Replay() returns (answer: Answer)
      modifies `at, `asked
      ensures answer == AnswerOf(replies(old(at))) && at == old(at) + 1 && asked == old(asked) + [old(at)]
    {
      answer := AnswerOf(replies(at));
      at, asked := at + 1, asked + [at];
    }

    method TakeSnapshot(page: Stored) returns (snapshot: Option<Snapshot>)
      modifies `at
      ensures page.body.Some? ==> snapshot == Some(SnapshotOf(page.body.value, page.sidecar)) && at == old(at)
      ensures page.body.None? && cache(old(at)).body.None? ==> snapshot == None
      ensures page.body.None? && cache(old(at)).body.Some? ==>
                snapshot == Some(SnapshotOf(cache(old(at)).body.value, cache(old(at) + 1).sidecar)) && at == old(at) + 2
    {
      var body, sidecar := page.body, page.sidecar;
      if body.None? {
        body := Get();
        if body.None? {
          return None;
        }
        sidecar := GetSidecar();
      }
      return Some(SnapshotOf(body.value, sidecar));
    }

    method HasMoved(snapshot: Snapshot) returns (moved: Moved)
      modifies `at
      ensures moved == MovedSince(cache, old(at), snapshot) && at == old(at) + CheckTakes(cache, old(at), snapshot)
    {
      var body := Get();
      if body.None? {
        return Gone;
      }
      if snapshot.createdAt.None? {
        return StillHeld;
      }
      var sidecar := GetSidecar();
      moved := if sidecar.Some? && sidecar.value.createdAt == snapshot.createdAt then StillHeld else Refilled;
    }

    // At most three replays, and the verdict the timeline gives.
    method Judge(diff: Diffing, entry: Entry) returns (verdict: Verdict)
      requires at == 0 && asked == []
      modifies `at, `asked
      ensures verdict == Judged(cache, replies, diff, entry)
      ensures asked == Asks(cache, replies, diff, entry) && |asked| <= 3
    {
      var page := ReadPage();
      var snapshot := TakeSnapshot(page);
      if snapshot.None? {
        return Raced;
      }
      if snapshot.value.body.None? {
        return Unreplayable("unreadable");
      }
      if snapshot.value.exp.Some? && snapshot.value.exp.value <= entry.now {
        return Expired;
      }
      if entry.unreplayable.Some? {
        return Unreplayable(entry.unreplayable.value);
      }
      verdict := Compare(diff, entry, snapshot.value);
    }

    // Replay, check that the entry is the one the snapshot was taken of, replay again; on a refill, once more from a
    // new snapshot.
    method Compare(diff: Diffing, entry: Entry, first: Snapshot) returns (verdict: Verdict)
      requires asked == [] && first.body.Some?
      modifies `at, `asked
      ensures verdict == Attempt(cache, replies, diff, entry, old(at), first, 0)
      ensures asked == AttemptAsks(cache, replies, diff, entry, old(at), first, 0) && |asked| <= 3
    {
      var snapshot := first;
      var attempt := 0;
      while attempt < 2
        invariant 0 <= attempt <= 2 && |asked| == attempt && snapshot.body.Some?
        invariant Attempt(cache, replies, diff, entry, at, snapshot, attempt)
               == Attempt(cache, replies, diff, entry, old(at), first, 0)
        invariant asked + AttemptAsks(cache, replies, diff, entry, at, snapshot, attempt)
               == AttemptAsks(cache, replies, diff, entry, old(at), first, 0)
      {
        ghost var from, before := at, asked;
        var turn := Try(diff, entry, snapshot);
        if turn.Over? {
          return turn.verdict;
        }
        snapshot := turn.snapshot;
        attempt := attempt + 1;
        InOneRow(before, [from], AttemptAsks(cache, replies, diff, entry, at, snapshot, attempt));
      }
      return Raced;
    }

    method Try(diff: Diffing, entry: Entry, snapshot: Snapshot) returns (turn: Turn)
      requires snapshot.body.Some?
      modifies `at, `asked
      ensures turn == TurnOf(cache, replies, diff, entry, old(at), snapshot)
      ensures turn.Over? ==> asked == old(asked) + turn.asked && |turn.asked| <= 2
      ensures turn.Retry? ==> asked == old(asked) + [old(at)] && at == turn.at
    {
      var from := at;
      var replayed := Replay();
      if replayed.Settled? {
        return Over(replayed.verdict, [from]);
      }
      var differences := diff(snapshot.body.value, replayed.body);
      if differences == [] {
        var same := SamePinKeys(entry.pins, replayed.pins);
        return Over(if same then Fresh else PinDrift(replayed.pins), [from]);
      }
      var moved := HasMoved(snapshot);
      if moved == Gone {
        return Over(Raced, [from]);
      }
      if moved == Refilled {
        var refill := TakeSnapshot(Stored(None, None));
        if refill.None? || refill.value.body.None? {
          return Over(Raced, [from]);
        }
        return Retry(at, refill.value);
      }
      var second := at;
      var again := Replay();
      var instants := [from, second];
      if again.Settled? {
        return Over(again.verdict, instants);
      }
      if diff(replayed.body, again.body) != [] {
        return Over(TimeVarying(differences, replayed.pins), instants);
      }
      return Over(Stale(differences, replayed.pins), instants);
    }
  }

  // ---------- what the replies have to do with it ----------

  // A replay that can be compared: answered with success, under pins, with a body that parses.
  ghost predicate Succeeds(reply: Reply) {
    reply.Reply? && 200 <= reply.status <= 299 && reply.pins.Some? && reply.body.Some?
  }

  ghost predicate Forbidden(reply: Reply) {
    reply.Reply? && reply.status == 403
  }

  // Why any other cannot.
  ghost predicate Because(reply: Reply, reason: string) {
    if reply.Lost? then reason == reply.reason
    else if reply.status == 503 && reply.underPressure then reason == "status_503_under_pressure"
    else if reply.status < 200 || 299 < reply.status then reason == "status_" + Digits(reply.status)
    else if reply.pins.None? then reason == "replay_unrecognized"
    else reason == "body"
  }

  // Every replay but the last succeeded, and the last gave the verdict it calls for.
  ghost predicate FollowsFrom(replies: nat -> Reply, asked: seq<nat>, verdict: Verdict) {
    && (forall k :: 0 <= k < |asked| - 1 ==> Succeeds(replies(asked[k])))
    && if asked == [] then verdict.Raced? || verdict.Expired? || verdict.Unreplayable?
       else
         var last := replies(asked[|asked| - 1]);
         if Forbidden(last) then verdict == Refused
         else if Succeeds(last) then !verdict.Refused? && !verdict.Unreplayable? && !verdict.Expired?
         else verdict.Unreplayable? && Because(last, verdict.reason)
  }

  lemma {:induction false} AnswersAre(reply: Reply)
    ensures AnswerOf(reply).Answered? <==> Succeeds(reply)
    ensures Forbidden(reply) ==> AnswerOf(reply) == Settled(Refused)
    ensures !Succeeds(reply) && !Forbidden(reply) ==>
              AnswerOf(reply).Settled? && AnswerOf(reply).verdict.Unreplayable?
              && Because(reply, AnswerOf(reply).verdict.reason)
  {
  }

  lemma {:induction false} AskedFirst(replies: nat -> Reply, at: nat, asked: seq<nat>, verdict: Verdict)
    requires Succeeds(replies(at))
    requires FollowsFrom(replies, asked, verdict) && (asked == [] ==> verdict.Raced?)
    ensures FollowsFrom(replies, [at] + asked, verdict)
  {
    var all := [at] + asked;
    forall k | 0 <= k < |all| - 1 ensures Succeeds(replies(all[k])) {
      assert k > 0 ==> all[k] == asked[k - 1];
    }
    assert asked != [] ==> all[|all| - 1] == asked[|asked| - 1];
  }

  lemma {:induction false} TurnFollows(cache: nat -> Stored, replies: nat -> Reply, diff: Diffing, entry: Entry,
                                       at: nat, snapshot: Snapshot)
    requires snapshot.body.Some?
    ensures var turn := TurnOf(cache, replies, diff, entry, at, snapshot);
            if turn.Over? then turn.asked != [] && FollowsFrom(replies, turn.asked, turn.verdict)
            else Succeeds(replies(at))
  {
    AnswersAre(replies(at));
    AnswersAre(replies(at + 1 + CheckTakes(cache, at + 1, snapshot)));
  }

  lemma {:induction false} AttemptFollows(cache: nat -> Stored, replies: nat -> Reply, diff: Diffing, entry: Entry,
                                          at: nat, snapshot: Snapshot, attempt: nat)
    requires snapshot.body.Some? && attempt <= 2
    ensures var asked, verdict := AttemptAsks(cache, replies, diff, entry, at, snapshot, attempt),
                                  Attempt(cache, replies, diff, entry, at, snapshot, attempt);
            FollowsFrom(replies, asked, verdict) && (asked == [] ==> verdict.Raced?)
    decreases 2 - attempt
  {
    if attempt < 2 {
      var turn := TurnOf(cache, replies, diff, entry, at, snapshot);
      TurnFollows(cache, replies, diff, entry, at, snapshot);
      if turn.Retry? {
        AttemptFollows(cache, replies, diff, entry, turn.at, turn.snapshot, attempt + 1);
        AskedFirst(replies, at, AttemptAsks(cache, replies, diff, entry, turn.at, turn.snapshot, attempt + 1),
                   Attempt(cache, replies, diff, entry, turn.at, turn.snapshot, attempt + 1));
      }
    }
  }

  /**
   Whatever the timeline: the entry is refused, and so stale, exactly if a replay the judge made is answered 403; it is
   judged on a body or on pins only where every replay was answered with success; and any other answer leaves it
   unreplayable, for its own reason.
   */
  lemma {:induction false} VerdictFollowsReplies(cache: nat -> Stored, replies: nat -> Reply, diff: Diffing,
                                                 entry: Entry)
    ensures var asked, verdict := Asks(cache, replies, diff, entry), Judged(cache, replies, diff, entry);
            && FollowsFrom(replies, asked, verdict)
            && (verdict == Refused <==> exists k :: 0 <= k < |asked| && Forbidden(replies(asked[k])))
            && (verdict.Fresh? || verdict.PinDrift? || verdict.TimeVarying? || verdict.Stale? ==>
                  asked != [] && forall k :: 0 <= k < |asked| ==> Succeeds(replies(asked[k])))
  {
    var body := cache(FirstBody(cache)).body;
    if body.Some? && body.value.value.Some? {
      var snapshot := SnapshotOf(body.value, cache(FirstSidecar(cache)).sidecar);
      AttemptFollows(cache, replies, diff, entry, FirstSidecar(cache) + 1, snapshot, 0);
    }
    var asked, verdict := Asks(cache, replies, diff, entry), Judged(cache, replies, diff, entry);
    LastSays(replies, asked, verdict);
  }

  lemma {:induction false} LastSays(replies: nat -> Reply, asked: seq<nat>, verdict: Verdict)
    requires FollowsFrom(replies, asked, verdict)
    ensures verdict == Refused <==> exists k :: 0 <= k < |asked| && Forbidden(replies(asked[k]))
    ensures verdict.Fresh? || verdict.PinDrift? || verdict.TimeVarying? || verdict.Stale? ==>
              asked != [] && forall k :: 0 <= k < |asked| ==> Succeeds(replies(asked[k]))
  {
    if verdict == Refused {
      assert Forbidden(replies(asked[|asked| - 1]));
    }
  }

  // The verdict an entry has before any replay: none is made of one gone, unreadable, out of date or not replayable.
  ghost predicate Unasked(body: Option<Body>, sidecar: Option<Sidecar>, entry: Entry, asked: seq<nat>,
                          verdict: Verdict) {
    var readable := body.Some? && body.value.value.Some?;
    var outdated := sidecar.Some? && sidecar.value.exp.Some? && sidecar.value.exp.value <= entry.now;
    && (asked == [] <==> !readable || outdated || entry.unreplayable.Some?)
    && (body.None? ==> verdict == Raced)
    && (body.Some? && body.value.value.None? ==> verdict == Unreplayable("unreadable"))
    && (verdict == Expired <==> readable && outdated)
    && (readable && !outdated && entry.unreplayable.Some? ==> verdict == Unreplayable(entry.unreplayable.value))
  }

  lemma {:induction false} JudgedUnasked(cache: nat -> Stored, replies: nat -> Reply, diff: Diffing, entry: Entry)
    ensures var onPage := cache(0).body.Some?;
            Unasked(if onPage then cache(0).body else cache(1).body,
                    if onPage then cache(0).sidecar else cache(2).sidecar, entry,
                    Asks(cache, replies, diff, entry), Judged(cache, replies, diff, entry))
  {
    VerdictFollowsReplies(cache, replies, diff, entry);
  }

  // ---------- what a stale verdict means ----------

  // What is in the cache of an entry at one instant belongs to one fill.
  ghost predicate Paired(cache: nat -> Stored) {
    forall t: nat :: cache(t).body.Some? && cache(t).sidecar.Some? ==>
                       cache(t).body.value.fill == cache(t).sidecar.value.fill
  }

  // Its sidecar says when it was filled, and no two fills say the same.
  ghost predicate Dated(cache: nat -> Stored) {
    && (forall t: nat :: cache(t).sidecar.Some? ==> cache(t).sidecar.value.createdAt.Some?)
    && forall t: nat, u: nat :: cache(t).sidecar.Some? && cache(u).sidecar.Some?
                                && cache(t).sidecar.value.createdAt == cache(u).sidecar.value.createdAt
                                ==> cache(t).sidecar.value.fill == cache(u).sidecar.value.fill
  }

  // How a stale verdict came about: the instants of the body and sidecar compared, of the two replays and of the check
  // between.
  datatype Trace = Trace(body: nat, sidecar: nat, replay: nat, check: nat, second: nat)

  ghost predicate Explains(t: Trace, cache: nat -> Stored, replies: nat -> Reply, diff: Diffing, snapshot: Snapshot,
                           verdict: Verdict) {
    && verdict.Stale? && snapshot.body.Some?
    && t.replay < t.check < t.second
    && cache(t.check).body.Some?
    && (snapshot.createdAt.Some? ==>
          && t.check + 1 < t.second
          && cache(t.check + 1).sidecar.Some? && cache(t.check + 1).sidecar.value.createdAt == snapshot.createdAt)
    && Succeeds(replies(t.replay)) && Succeeds(replies(t.second))
    && verdict.differences != [] && Some(verdict.pins) == replies(t.replay).pins
    && verdict.differences == diff(snapshot.body.value, replies(t.replay).body.value)
    && diff(replies(t.replay).body.value, replies(t.second).body.value) == []
  }

  ghost predicate ReadAt(t: Trace, cache: nat -> Stored, snapshot: Snapshot) {
    && t.body <= t.sidecar < t.replay
    && cache(t.body).body.Some? && snapshot == SnapshotOf(cache(t.body).body.value, cache(t.sidecar).sidecar)
  }

  // A stale verdict is given only on an entry still held, once a second replay agreed with the first.
  lemma {:induction false} TurnExplained(cache: nat -> Stored, replies: nat -> Reply, diff: Diffing, entry: Entry,
                                         at: nat, snapshot: Snapshot, from: Trace)
    requires snapshot.body.Some? && from.replay == at
    ensures var turn := TurnOf(cache, replies, diff, entry, at, snapshot);
            var next := at + 1 + CheckTakes(cache, at + 1, snapshot);
            && (turn.Over? && turn.verdict.Stale? ==>
                  Explains(from.(check := at + 1, second := next), cache, replies, diff, snapshot, turn.verdict))
            && (turn.Retry? ==>
                  ReadAt(Trace(next, next + 1, next + 2, next + 3, next + 4), cache, turn.snapshot)
                  && turn.at == next + 2)
  {
  }

  lemma {:induction false} AttemptExplained(cache: nat -> Stored, replies: nat -> Reply, diff: Diffing, entry: Entry,
                                            at: nat, snapshot: Snapshot, attempt: nat, from: Trace)
    returns (t: Trace, judged: Snapshot)
    requires snapshot.body.Some? && attempt <= 2 && from.replay == at && ReadAt(from, cache, snapshot)
    requires Attempt(cache, replies, diff, entry, at, snapshot, attempt).Stale?
    ensures ReadAt(t, cache, judged)
    ensures Explains(t, cache, replies, diff, judged, Attempt(cache, replies, diff, entry, at, snapshot, attempt))
    ensures (t.body == from.body && t.sidecar == from.sidecar) || t.sidecar == t.body + 1
    decreases 2 - attempt
  {
    var next := at + 1 + CheckTakes(cache, at + 1, snapshot);
    var turn := TurnOf(cache, replies, diff, entry, at, snapshot);
    TurnExplained(cache, replies, diff, entry, at, snapshot, from);
    if turn.Retry? {
      t, judged := AttemptExplained(cache, replies, diff, entry, turn.at, turn.snapshot, attempt + 1,
                                    Trace(next, next + 1, next + 2, next + 3, next + 4));
    } else {
      t, judged := from.(check := at + 1, second := next), snapshot;
    }
  }

  /**
   A diff makes an entry stale only if two replays agreed on what differs from its body, the entry was in the cache
   between them, and the fill its sidecar dated before the first replay is the one it dates after it. The body compared
   is of that fill exactly if it is of the fill of the sidecar read beside it: always, where both were read at once.
   */
  lemma {:induction false} StaleWasHeld(cache: nat -> Stored, replies: nat -> Reply, diff: Diffing, entry: Entry)
    returns (t: Trace, judged: Snapshot)
    requires Judged(cache, replies, diff, entry).Stale?
    ensures ReadAt(t, cache, judged)
    ensures Explains(t, cache, replies, diff, judged, Judged(cache, replies, diff, entry))
    ensures t.body == t.sidecar == 0 || t.sidecar == t.body + 1
    ensures Dated(cache) && cache(t.sidecar).sidecar.Some? ==>
              && cache(t.check + 1).sidecar.Some?
              && cache(t.check + 1).sidecar.value.fill == cache(t.sidecar).sidecar.value.fill
              && (cache(t.body).body.value.fill == cache(t.check + 1).sidecar.value.fill
                  <==> cache(t.body).body.value.fill == cache(t.sidecar).sidecar.value.fill)
    ensures Dated(cache) && Paired(cache) && cache(t.sidecar).sidecar.Some?
            && (t.body == t.sidecar || cache(t.body).sidecar == cache(t.sidecar).sidecar) ==>
              cache(t.body).body.value.fill == cache(t.check + 1).sidecar.value.fill
  {
    var b, s := FirstBody(cache), FirstSidecar(cache);
    var snapshot := SnapshotOf(cache(b).body.value, cache(s).sidecar);
    t, judged := AttemptExplained(cache, replies, diff, entry, s + 1, snapshot, 0, Trace(b, s, s + 1, s + 2, s + 3));
  }

  // ---------- and the other way: an entry nothing moves ----------

  // The instant of the second replay when nothing moves.
  function SecondReplay(sidecar: Option<Sidecar>): nat {
    if sidecar.Some? && sidecar.value.createdAt.Some? then 4 else 3
  }

  /**
   An entry nothing moves, which can be replayed, is never raced, and it is stale exactly when a replay differs from
   it and a second replay agrees with the first.
   */
  lemma {:induction false} UnmovedIsJudgedOnItsBody(cache: nat -> Stored, replies: nat -> Reply, diff: Diffing,
                                                    entry: Entry, body: Value)
    requires forall t: nat :: cache(t) == cache(0)
    requires cache(0).body.Some? && cache(0).body.value.value == Some(body)
    requires cache(0).sidecar.Some? && cache(0).sidecar.value.exp.Some? ==> entry.now < cache(0).sidecar.value.exp.value
    requires entry.unreplayable.None?
    requires Succeeds(replies(1)) && Succeeds(replies(SecondReplay(cache(0).sidecar)))
    ensures var verdict, pins := Judged(cache, replies, diff, entry), replies(1).pins.value;
            var first, second := replies(1).body.value, replies(SecondReplay(cache(0).sidecar)).body.value;
            && verdict != Raced
            && (verdict == Stale(diff(body, first), pins) <==> diff(body, first) != [] && diff(first, second) == [])
            && (verdict == TimeVarying(diff(body, first), pins)
                <==> diff(body, first) != [] && diff(first, second) != [])
            && (verdict == Fresh <==> diff(body, first) == [] && SamePins(entry.pins, pins))
            && (verdict == PinDrift(pins) <==> diff(body, first) == [] && !SamePins(entry.pins, pins))
  {
  }

  // ---------- what does not hold ----------

  function FillAt(t: nat): nat {
    if t == 0 then 0 else if t <= 4 then 1 else 2
  }

  function RefilledTwice(before: Value, after: Value): nat -> Stored {
    (t: nat) => Stored(Some(Body(FillAt(t), Some(if FillAt(t) == 2 then after else before))),
                       Some(Sidecar(FillAt(t), Some(FillAt(t)), None)))
  }

  // Exact diffs, fills told apart, and an entry found stale whose body is what every replay answered.
  ghost predicate StaleThoughRight(cache: nat -> Stored, replies: nat -> Reply, diff: Diffing, right: Value,
                                   pins: seq<string>) {
    && Paired(cache) && Dated(cache)
    && (forall a, b :: diff(a, b) == [] <==> a == b)
    && Judged(cache, replies, diff, Entry(pins, 0, None)).Stale?
    && cache(5).body == cache(8).body && cache(8).body.Some? && cache(8).body.value.value == Some(right)
    && cache(5).sidecar == cache(8).sidecar
    && forall t :: Succeeds(replies(t)) && replies(t).body == Some(right) && replies(t).pins == Some(pins)
  }

  /**
   The retry reads the body and its sidecar in two calls: a refill between them leaves the old fill's body beside
   the new fill's date, and an entry that serves just what both replays answered is found stale.
   */
  lemma {:induction false} RetryComparesOlderBody(before: Value, after: Value, pins: seq<string>)
    requires before != after
    ensures exists cache, replies, diff :: StaleThoughRight(cache, replies, diff, after, pins)
  {
    var cache := RefilledTwice(before, after);
    var replies := (t: nat) => Reply(200, false, Some(pins), Some(after));
    var diff: Diffing := (a: Value, b: Value) => if a == b then [] else ["/"];
    var entry := Entry(pins, 0, None);
    var again := Snapshot(Some(before), Some(2), None);
    assert Attempt(cache, replies, diff, entry, 6, again, 1).Stale?;
    assert Attempt(cache, replies, diff, entry, 1, Snapshot(Some(before), Some(0), None), 0).Stale?;
    assert Judged(cache, replies, diff, entry).Stale?;
    assert StaleThoughRight(cache, replies, diff, after, pins);
  }
}
