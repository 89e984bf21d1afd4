/**
 The buffer captured events wait in for the next pipelined write (api/src/cache-events.ts:431-515): flushed once full,
 or at the end of the tick, by one flight at a time, dropping what comes while a full buffer waits for a flight.
 */
module EventBuffer {
  import opened Sequences

  const CAP: nat := 1000

  // The module's variables, the callbacks `setImmediate` holds, and the batches handed to a pipeline.
  datatype Buffering<E> = Buffering(buffer: seq<E>, scheduled: bool, inProgress: bool, dropped: nat, immediates: nat,
                                    handed: seq<seq<E>>)

  function Empty<E>(): Buffering<E> {
    Buffering([], false, false, 0, 0, [])
  }

  // ---------- what each call does ----------

  function FlushBegun<E>(s: Buffering<E>): Buffering<E> {
    if s.inProgress then s
    else if s.buffer == [] then s.(scheduled := false)
    else s.(scheduled := false, inProgress := true, buffer := [], handed := s.handed + [s.buffer])
  }

  function FlightEnded<E>(s: Buffering<E>): Buffering<E> {
    s.(inProgress := false, immediates := s.immediates + if s.buffer != [] then 1 else 0)
  }

  predicate Drops<E>(s: Buffering<E>) {
    s.inProgress && |s.buffer| >= CAP
  }

  function Added<E>(s: Buffering<E>, event: E): Buffering<E> {
    if Drops(s) then s.(dropped := s.dropped + 1)
    else
      var pushed := s.(buffer := s.buffer + [event]);
      if |pushed.buffer| >= CAP then FlushBegun(pushed)
      else if pushed.scheduled then pushed
      else pushed.(scheduled := true, immediates := pushed.immediates + 1)
  }

  class CacheEventBuffer<E> {
    var buffer: seq<E>
    var scheduled: bool
    var inProgress: bool
    var dropped: nat
    var immediates: nat
    var handed: seq<seq<E>>

    ghost function State(): Buffering<E> reads this {
      Buffering(buffer, scheduled, inProgress, dropped, immediates, handed)
    }

    constructor ()
      ensures State() == Empty()
    {
      buffer, scheduled, inProgress, dropped, immediates, handed := [], false, false, 0, 0, [];
    }

    method Xadd(event: E)
      modifies this
      ensures State() == Added(old(State()), event)
    {
      if inProgress && |buffer| >= CAP {
        dropped := dropped + 1;
        return;
      }
      buffer := buffer + [event];
      if |buffer| >= CAP {
        BeginFlush();
      } else if !scheduled {
        scheduled := true;
        immediates := immediates + 1;
      }
    }

    // A flush, up to the pipeline's answer.
    method BeginFlush()
      modifies this
      ensures State() == FlushBegun(old(State()))
    {
      if inProgress {
        return;
      }
      scheduled := false;
      if buffer == [] {
        return;
      }
      inProgress := true;
      var batch := buffer;
      buffer := [];
      handed := handed + [batch];
    }

    // And from there, whatever it answered.
    method EndFlight()
      requires inProgress
      modifies this
      ensures State() == FlightEnded(old(State()))
    {
      inProgress := false;
      if |buffer| > 0 {
        immediates := immediates + 1;
      }
    }

    method RunImmediate()
      requires immediates > 0
      modifies this
      ensures State() == ImmediateRan(old(State()))
    {
      immediates := immediates - 1;
      BeginFlush();
    }

    // No more events: the flight in progress and one callback hand over all that is buffered.
    method Settle()
      requires Awake(State())
      modifies this
      ensures buffer == [] && Flat(handed) == Flat(old(handed)) + old(buffer)
      ensures dropped == old(dropped)
    {
      if buffer != [] {
        HandsOver(State());
        if inProgress {
          EndFlight();
        }
        RunImmediate();
      }
    }
  }

  // ---------- any run ----------

  // A flush is also called for as the process is told to end.
  datatype Step<E> = Capture(event: E) | Immediate | Flush | Answer

  function ImmediateRan<E>(s: Buffering<E>): Buffering<E>
    requires s.immediates > 0
  {
    FlushBegun(s.(immediates := s.immediates - 1))
  }

  predicate Allowed<E>(s: Buffering<E>, step: Step<E>) {
    match step
    case Capture(_) => true
    case Immediate => s.immediates > 0
    case Flush => true
    case Answer => s.inProgress
  }

  function Stepped<E>(s: Buffering<E>, step: Step<E>): Buffering<E>
    requires Allowed(s, step)
  {
    match step
    case Capture(event) => Added(s, event)
    case Immediate => ImmediateRan(s)
    case Flush => FlushBegun(s)
    case Answer => FlightEnded(s)
  }

  predicate Legal<E>(s: Buffering<E>, steps: seq<Step<E>>)
    decreases |steps|
  {
    steps == [] || (Allowed(s, steps[0]) && Legal(Stepped(s, steps[0]), steps[1..]))
  }

  function Ran<E>(s: Buffering<E>, steps: seq<Step<E>>): Buffering<E>
    requires Legal(s, steps)
    decreases |steps|
  {
    if steps == [] then s else Ran(Stepped(s, steps[0]), steps[1..])
  }

  // What a run accepted, in order, and how much it captured.
  function Accepted<E>(s: Buffering<E>, steps: seq<Step<E>>): seq<E>
    requires Legal(s, steps)
    decreases |steps|
  {
    if steps == [] then []
    else
      (if steps[0].Capture? && !Drops(s) then [steps[0].event] else []) + Accepted(Stepped(s, steps[0]), steps[1..])
  }

  function Captured<E>(steps: seq<Step<E>>): nat {
    if steps == [] then 0 else (if steps[0].Capture? then 1 else 0) + Captured(steps[1..])
  }

  function Flat<E>(batches: seq<seq<E>>): seq<E> {
    if batches == [] then [] else Flat(batches[..|batches| - 1]) + batches[|batches| - 1]
  }

  /**
   The buffer is within its cap; while it holds anything a flush is in flight or a callback is pending, also when
   `scheduled` kept a capture from asking for one; and no batch is empty or more than one over the cap.
   */
  ghost predicate Awake<E>(s: Buffering<E>) {
    && |s.buffer| <= CAP
    && (s.buffer != [] ==> s.inProgress || s.immediates > 0)
    && (s.scheduled ==> s.buffer != [])
    && forall k :: 0 <= k < |s.handed| ==> 0 < |s.handed[k]| <= CAP + 1
  }

  lemma {:induction false} StepKeepsAwake<E>(s: Buffering<E>, step: Step<E>)
    requires Awake(s) && Allowed(s, step)
    ensures Awake(Stepped(s, step))
  {
  }

  lemma {:induction false} StepLosesNothing<E>(s: Buffering<E>, step: Step<E>)
    requires Allowed(s, step)
    ensures var next := Stepped(s, step);
            && Flat(next.handed) + next.buffer
               == Flat(s.handed) + s.buffer + (if step.Capture? && !Drops(s) then [step.event] else [])
            && next.dropped == s.dropped + if step.Capture? && Drops(s) then 1 else 0
  {
    var next := Stepped(s, step);
    if next.handed != s.handed {
      var batch := next.handed[|next.handed| - 1];
      assert next.handed == s.handed + [batch];
      assert next.handed[..|s.handed|] == s.handed;
      assert Flat(next.handed) == Flat(s.handed) + batch;
    }
  }

  /**
   Over any run: the buffer stays within its cap and awake, the batches handed over followed by what is buffered are
   the accepted events in order, and accepted and dropped are all that was captured.
   */
  lemma {:induction false} RunLosesNothing<E>(s: Buffering<E>, steps: seq<Step<E>>)
    requires Awake(s) && Legal(s, steps)
    ensures var end := Ran(s, steps);
            && Awake(end)
            && Flat(end.handed) + end.buffer == Flat(s.handed) + s.buffer + Accepted(s, steps)
            && end.dropped + |Accepted(s, steps)| == s.dropped + Captured(steps)
    decreases |steps|
  {
    if steps != [] {
      StepKeepsAwake(s, steps[0]);
      StepLosesNothing(s, steps[0]);
      var next, rest := Stepped(s, steps[0]), steps[1..];
      RunLosesNothing(next, rest);
      var taken := if steps[0].Capture? && !Drops(s) then [steps[0].event] else [];
      InOneRow(Flat(s.handed) + s.buffer, taken, Accepted(next, rest));
    }
  }

  // Wherever a run stands, ending its flight and running one callback hands over the whole buffer.
  lemma {:induction false} HandsOver<E>(s: Buffering<E>)
    requires Awake(s) && s.buffer != []
    ensures var ended := if s.inProgress then FlightEnded(s) else s;
            && ended.immediates > 0
            && var end := ImmediateRan(ended);
            end.buffer == [] && Flat(end.handed) == Flat(s.handed) + s.buffer && end.dropped == s.dropped
  {
    assert (s.handed + [s.buffer])[..|s.handed|] == s.handed;
  }

  // ---------- batches over the cap ----------

  function Overlong<E>(handed: seq<seq<E>>): nat {
    if handed == [] then 0
    else Overlong(handed[..|handed| - 1]) + if |handed[|handed| - 1]| > CAP then 1 else 0
  }

  // The buffer filled up during a flight and its end woke nobody yet: the next capture is taken on top.
  predicate Overfills<E>(s: Buffering<E>, step: Step<E>) {
    step.Capture? && !s.inProgress && |s.buffer| == CAP
  }

  function Overfilled<E>(s: Buffering<E>, steps: seq<Step<E>>): nat
    requires Legal(s, steps)
    decreases |steps|
  {
    if steps == [] then 0
    else (if Overfills(s, steps[0]) then 1 else 0) + Overfilled(Stepped(s, steps[0]), steps[1..])
  }

  // A step hands over a batch longer than the cap exactly if it captures on a full buffer with no flight to wait for.
  lemma {:induction false} OneOverTheCap<E>(s: Buffering<E>, step: Step<E>)
    requires Awake(s) && Allowed(s, step)
    ensures Overlong(Stepped(s, step).handed) == Overlong(s.handed) + if Overfills(s, step) then 1 else 0
    ensures Overfills(s, step) ==> Stepped(s, step).handed == s.handed + [s.buffer + [step.event]]
  {
    var handed := Stepped(s, step).handed;
    if handed != s.handed {
      assert handed[..|s.handed|] == s.handed;
    }
  }

  // So a run hands over one such batch for each such capture, and none otherwise.
  lemma {:induction false} RunOverfills<E>(s: Buffering<E>, steps: seq<Step<E>>)
    requires Awake(s) && Legal(s, steps)
    ensures Overlong(Ran(s, steps).handed) == Overlong(s.handed) + Overfilled(s, steps)
    decreases |steps|
  {
    if steps != [] {
      OneOverTheCap(s, steps[0]);
      StepKeepsAwake(s, steps[0]);
      RunOverfills(Stepped(s, steps[0]), steps[1..]);
    }
  }

  function Captures<E>(events: seq<E>): seq<Step<E>> {
    if events == [] then [] else [Capture(events[0])] + Captures(events[1..])
  }

  lemma {:induction false} RunOn<E>(s: Buffering<E>, first: seq<Step<E>>, later: seq<Step<E>>)
    requires Legal(s, first) && Legal(Ran(s, first), later)
    ensures Legal(s, first + later) && Ran(s, first + later) == Ran(Ran(s, first), later)
    decreases |first|
  {
    if first == [] {
      assert first + later == later;
    } else {
      RunOn(Stepped(s, first[0]), first[1..], later);
      assert (first + later)[1..] == first[1..] + later;
    }
  }

  // Captures that do not fill the buffer, or that a flight keeps from being flushed, wait in it.
  lemma {:induction false} CapturesWait<E>(s: Buffering<E>, events: seq<E>)
    requires |s.buffer| + |events| < CAP || (s.inProgress && |s.buffer| + |events| <= CAP)
    ensures Legal(s, Captures(events))
    ensures var end := Ran(s, Captures(events));
            end.buffer == s.buffer + events && end.inProgress == s.inProgress && end.handed == s.handed
    decreases |events|
  {
    if events != [] {
      var next := Stepped(s, Capture(events[0]));
      CapturesWait(next, events[1..]);
      assert Captures(events)[1..] == Captures(events[1..]);
      assert next.buffer == s.buffer + [events[0]];
      InOneRow(s.buffer, [events[0]], events[1..]);
      assert [events[0]] + events[1..] == events;
    }
  }

  // From the empty buffer: a flight begun by the last of a full load of captures, then as many more behind it.
  lemma {:induction false} FillsBehindAFlight<E>(events: seq<E>)
    requires |events| == 2 * CAP
    ensures exists steps :: FillsUp(events, steps)
  {
    var start := Empty<E>();
    var load, last, more := events[..CAP - 1], [Capture(events[CAP - 1])], events[CAP..];
    CapturesWait(start, load);
    var loaded := Ran(start, Captures(load));
    var flying := Stepped(loaded, last[0]);
    assert loaded.handed == [] && loaded.buffer == load && load + [events[CAP - 1]] == events[..CAP];
    assert flying.inProgress && flying.handed == [load + [events[CAP - 1]]];
    assert last[1..] == [] && Ran(flying, []) == flying;
    RunOn(start, Captures(load), last);
    CapturesWait(flying, more);
    RunOn(start, Captures(load) + last, Captures(more));
    assert FillsUp(events, Captures(load) + last + Captures(more));
  }

  ghost predicate FillsUp<E>(events: seq<E>, steps: seq<Step<E>>)
    requires |events| == 2 * CAP
  {
    var start := Empty<E>();
    && Legal(start, steps)
    && var end := Ran(start, steps); end.inProgress && end.buffer == events[CAP..] && end.handed == [events[..CAP]]
  }

  ghost predicate HandsOverTwo<E>(first: seq<E>, second: seq<E>, steps: seq<Step<E>>) {
    var start := Empty<E>();
    Legal(start, steps) && Ran(start, steps).handed == [first, second]
  }

  // And a flight can end with one more capture before the callback: its batch is one over the cap.
  lemma {:induction false} EmptyBufferOverfills<E>(events: seq<E>)
    requires |events| == 2001
    ensures exists steps :: HandsOverTwo(events[..1000], events[1000..], steps) && |events[1000..]| == 1001
  {
    var full, last := events[..2 * CAP], events[2 * CAP];
    FillsBehindAFlight(full);
    var steps :| FillsUp(full, steps);
    assert full[..CAP] == events[..CAP] && full[CAP..] + [last] == events[CAP..];
    var start := Empty<E>();
    AnswerThenCapture(Ran(start, steps), last);
    RunOn(start, steps, [Answer, Capture(last)]);
    assert HandsOverTwo(events[..CAP], events[CAP..], steps + [Answer, Capture(last)]);
  }

  lemma {:induction false} AnswerThenCapture<E>(s: Buffering<E>, event: E)
    requires s.inProgress && |s.buffer| == CAP
    ensures var steps: seq<Step<E>> := [Answer, Capture(event)];
            Legal(s, steps) && Ran(s, steps).handed == s.handed + [s.buffer + [event]]
  {
    var steps: seq<Step<E>> := [Answer, Capture(event)];
    var next := Stepped(s, steps[0]);
    assert steps[1..] == [Capture(event)] && steps[1..][1..] == [];
    assert Legal(next, steps[1..]);
    var end := Stepped(next, steps[1]);
    assert Ran(end, []) == end;
    assert Ran(next, steps[1..]) == end;
  }
}
