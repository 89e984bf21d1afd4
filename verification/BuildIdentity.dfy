/**
 "Flush once per deploy" (api/src/cache-build-identity.ts): instances booting side by side read the recorded
 build, claim the flush lock, read again under it, flush, record their build and release. A run is any
 interleaving of those steps, with throws, crashes and the clock.
 */
module BuildIdentity {
  import opened Options
  import opened CacheLock

  const FLUSH_LOCK_MS: nat := 30_000

  // Where one boot stands. The budget a boot waits for its flush only frees the boot: the flush goes on.
  datatype Phase =
    | Booting    // nothing read yet
    | Differing  // read another build than its own
    | Claimed    // holds the lock, to read again
    | Matched    // read its own build under the lock, to release it
    | Flushing
    | Flushed    // its flush returned, its build not recorded yet
    | Leaving    // after the flush: recorded or failed, to release the lock
    | Done
    | Dead

  type Build = nat

  // An instance's flush token is its own id: tokens are drawn at random.
  datatype Instance = Instance(build: Build, phase: Phase)

  datatype Deploy = Deploy(
    lock: Lock<nat>,
    now: nat,
    stored: Option<Build>,
    instances: map<nat, Instance>,
    // What happened so far.
    starts: nat,           // flushes begun
    failed: nat,           // flushes that threw, were not recorded, or died with their process
    returned: set<Build>,  // builds a flush returned for
    recorded: seq<Build>   // the identities written
  )

  datatype Step =
    | Boot(p: nat, build: Build)
    | Read(p: nat)
    | Claim(p: nat)
    | ClaimUnanswered(p: nat) // the claim lands, its answer is lost
    | Reread(p: nat)
    | Refresh(p: nat)
    | FlushReturns(p: nat)
    | Record(p: nat)          // the write lands, answered or not
    | Release(p: nat)
    | Throw(p: nat)           // the pending call throws, with nothing done
    | Crash(p: nat)
    | Tick(ms: nat)

  const IDLE := {Done, Dead}

  predicate InFlight(phase: Phase) {
    phase == Flushing || phase == Flushed
  }

  // Counting on the lock to keep every other instance from flushing.
  predicate Guarded(phase: Phase) {
    phase == Claimed || InFlight(phase)
  }

  predicate Allowed(d: Deploy, step: Step) {
    match step
    case Boot(p, _) => p !in d.instances
    case Read(p) => p in d.instances && d.instances[p].phase == Booting
    case Claim(p) => p in d.instances && d.instances[p].phase == Differing
    case ClaimUnanswered(p) => p in d.instances && d.instances[p].phase == Differing
    case Reread(p) => p in d.instances && d.instances[p].phase == Claimed
    case Refresh(p) => p in d.instances && (InFlight(d.instances[p].phase) || d.instances[p].phase == Leaving)
    case FlushReturns(p) => p in d.instances && d.instances[p].phase == Flushing
    case Record(p) => p in d.instances && d.instances[p].phase == Flushed
    case Release(p) => p in d.instances && d.instances[p].phase in {Matched, Leaving}
    case Throw(p) => p in d.instances && d.instances[p].phase !in IDLE
    case Crash(p) => p in d.instances && d.instances[p].phase !in IDLE
    case Tick(_) => true
  }

  // Each refresh lands in time: the clock never runs past the lock of an instance counting on it.
  predicate Timely(d: Deploy, step: Step) {
    step.Tick? && d.lock.HeldBy? && d.lock.token in d.instances && Guarded(d.instances[d.lock.token].phase)
    ==> d.now + step.ms <= d.lock.expiresAt
  }

  function AfterThrow(phase: Phase): Phase {
    if InFlight(phase) then Leaving else Done
  }

  function To(instances: map<nat, Instance>, p: nat, phase: Phase): map<nat, Instance>
    requires p in instances
  {
    instances[p := Instance(instances[p].build, phase)]
  }

  function Stepped(d: Deploy, step: Step): Deploy
    requires Allowed(d, step)
  {
    match step
    case Boot(p, build) => d.(instances := d.instances[p := Instance(build, Booting)])
    case Read(p) =>
      d.(instances := To(d.instances, p, if d.stored == Some(d.instances[p].build) then Done else Differing))
    case Claim(p) =>
      var (lock, held) := Hold(d.lock, d.now, p, FLUSH_LOCK_MS);
      d.(lock := lock, instances := To(d.instances, p, if held then Claimed else Done))
    case ClaimUnanswered(p) =>
      d.(lock := Hold(d.lock, d.now, p, FLUSH_LOCK_MS).0, instances := To(d.instances, p, Done))
    case Reread(p) =>
      if d.stored == Some(d.instances[p].build) then d.(instances := To(d.instances, p, Matched))
      else d.(instances := To(d.instances, p, Flushing), starts := d.starts + 1)
    case Refresh(p) => d.(lock := Hold(d.lock, d.now, p, FLUSH_LOCK_MS).0)
    case FlushReturns(p) =>
      d.(instances := To(d.instances, p, Flushed), returned := d.returned + {d.instances[p].build})
    case Record(p) =>
      var build := d.instances[p].build;
      d.(instances := To(d.instances, p, Leaving), stored := Some(build), recorded := d.recorded + [build])
    case Release(p) =>
      d.(lock := CacheLock.Release(d.lock, d.now, p), instances := To(d.instances, p, Done))
    case Throw(p) =>
      d.(instances := To(d.instances, p, AfterThrow(d.instances[p].phase)),
      failed := d.failed + if InFlight(d.instances[p].phase) then 1 else 0)
    case Crash(p) =>
      d.(instances := To(d.instances, p, Dead),
      failed := d.failed + if InFlight(d.instances[p].phase) then 1 else 0)
    case Tick(ms) => d.(now := d.now + ms)
  }

  // The lock is the instance's for half a minute, unless another has it.
  ghost predicate Takes(d: Deploy, next: Deploy, p: nat) {
    if Holder(d.lock, d.now) == None || Holder(d.lock, d.now) == Some(p)
    then next.lock == HeldBy(p, d.now + 30_000)
    else next.lock == d.lock
  }

  // A claim, answered or not, and each refresh take the lock; only an answered claim that took it goes on.
  lemma {:induction false} ClaimsTake(d: Deploy, step: Step)
    requires Allowed(d, step) && (step.Claim? || step.ClaimUnanswered? || step.Refresh?)
    ensures Takes(d, Stepped(d, step), step.p)
    ensures !step.Refresh? ==>
              var taken := Holder(d.lock, d.now) == None || Holder(d.lock, d.now) == Some(step.p);
              Stepped(d, step).instances[step.p].phase == if step.Claim? && taken then Claimed else Done
  {
  }

  // An instance that finds its build stored once it has the lock flushes nothing and frees it; any other flushes.
  lemma {:induction false} RereadDecides(d: Deploy, p: nat)
    requires Allowed(d, Reread(p))
    ensures var read := Stepped(d, Reread(p));
            if d.stored == Some(d.instances[p].build)
            then
              && read.starts == d.starts && Allowed(read, Release(p))
              && var end := Stepped(read, Release(p));
              Holder(end.lock, end.now) != Some(p) && end.instances[p].phase == Done
            else read.starts == d.starts + 1 && Allowed(read, FlushReturns(p)) && Allowed(read, Refresh(p))
  {
  }

  // A flush that throws frees the lock all the same; a throw before it, or in the release, leaves it to lapse.
  lemma {:induction false} ThrowFreesLock(d: Deploy, p: nat)
    requires Allowed(d, Throw(p))
    ensures var thrown := Stepped(d, Throw(p));
            if d.instances[p].phase == Flushing || d.instances[p].phase == Flushed
            then
              && thrown.failed == d.failed + 1 && Allowed(thrown, Refresh(p)) && Allowed(thrown, Release(p))
              && var end := Stepped(thrown, Release(p));
              Holder(end.lock, end.now) != Some(p) && end.instances[p].phase == Done
            else thrown == d.(instances := d.instances[p := Instance(d.instances[p].build, Done)])
  {
  }

  function Initial(stored: Option<Build>, now: nat): Deploy {
    Deploy(Free, now, stored, map[], 0, 0, {}, [])
  }

  predicate Legal(d: Deploy, steps: seq<Step>)
    decreases |steps|
  {
    steps == [] || (Allowed(d, steps[0]) && Legal(Stepped(d, steps[0]), steps[1..]))
  }

  predicate AllTimely(d: Deploy, steps: seq<Step>)
    requires Legal(d, steps)
    decreases |steps|
  {
    steps == [] || (Timely(d, steps[0]) && AllTimely(Stepped(d, steps[0]), steps[1..]))
  }

  function Ran(d: Deploy, steps: seq<Step>): Deploy
    requires Legal(d, steps)
    decreases |steps|
  {
    if steps == [] then d else Ran(Stepped(d, steps[0]), steps[1..])
  }

  // ---------- what holds with no assumption on time ----------

  function Flights(instances: map<nat, Instance>): set<nat> {
    set p | p in instances && InFlight(instances[p].phase)
  }

  ghost predicate Sound(initial: Option<Build>, d: Deploy) {
    && Balanced(d.starts, |d.recorded|, d.failed, d.instances)
    && (forall k :: 0 <= k < |d.recorded| ==> d.recorded[k] in d.returned)
    && (forall p :: p in d.instances && d.instances[p].phase == Flushed ==> d.instances[p].build in d.returned)
    && d.stored == Latest(initial, d.recorded)
  }

  // The identity stored, as far as the instances write it.
  function Latest(initial: Option<Build>, recorded: seq<Build>): Option<Build> {
    if recorded == [] then initial else Some(recorded[|recorded| - 1])
  }

  lemma {:induction false} FlightsMove(instances: map<nat, Instance>, p: nat, i: Instance)
    ensures Flights(instances[p := i])
         == if InFlight(i.phase) then Flights(instances) + {p} else Flights(instances) - {p}
  {
    var after := instances[p := i];
    forall q ensures q in Flights(after) <==> if q == p then InFlight(i.phase) else q in Flights(instances) {
      if q == p {
        assert after[q] == i;
      } else {
        assert q in instances ==> after[q] == instances[q];
      }
    }
  }

  lemma {:induction false} PlusOne(s: set<nat>, p: nat)
    ensures |s + {p}| == |s| + if p in s then 0 else 1
    ensures |s - {p}| == |s| - if p in s then 1 else 0
  {
    if p in s {
      assert s + {p} == s && s == (s - {p}) + {p};
    } else {
      assert s - {p} == s;
    }
  }

  // The books of the run balance.
  ghost predicate Balanced(starts: nat, recorded: nat, failed: nat, instances: map<nat, Instance>) {
    starts == recorded + failed + |Flights(instances)|
  }

  lemma {:induction false} StepKeepsBalance(d: Deploy, step: Step)
    requires Allowed(d, step) && Balanced(d.starts, |d.recorded|, d.failed, d.instances)
    ensures var next := Stepped(d, step); Balanced(next.starts, |next.recorded|, next.failed, next.instances)
  {
    if !step.Tick? && !step.Refresh? {
      var i := Stepped(d, step).instances[step.p];
      PhaseMoves(d, step);
      FlightsMove(d.instances, step.p, i);
      PlusOne(Flights(d.instances), step.p);
      assert step.p in Flights(d.instances) <==> step.p in d.instances && InFlight(d.instances[step.p].phase);
    }
  }

  // Only the stepping instance moves, and the books follow it.
  lemma {:induction false} PhaseMoves(d: Deploy, step: Step)
    requires Allowed(d, step) && !step.Tick? && !step.Refresh?
    ensures var next := Stepped(d, step);
            && step.p in next.instances && next.instances == d.instances[step.p := next.instances[step.p]]
            && next.starts + |d.recorded| + d.failed
               + (if step.p in d.instances && InFlight(d.instances[step.p].phase) then 1 else 0)
               == d.starts + |next.recorded| + next.failed + (if InFlight(next.instances[step.p].phase) then 1 else 0)
  {
  }

  lemma {:induction false} StepKeepsSound(initial: Option<Build>, d: Deploy, step: Step)
    requires Sound(initial, d) && Allowed(d, step)
    ensures Sound(initial, Stepped(d, step))
  {
    StepKeepsBalance(d, step);
  }

  lemma {:induction false} RunKeepsSound(initial: Option<Build>, d: Deploy, steps: seq<Step>)
    requires Sound(initial, d) && Legal(d, steps)
    ensures Sound(initial, Ran(d, steps))
    decreases |steps|
  {
    if steps != [] {
      StepKeepsSound(initial, d, steps[0]);
      RunKeepsSound(initial, Stepped(d, steps[0]), steps[1..]);
    }
  }

  /**
   Whatever interleaves, throws, crashes or lapses: the identity stored is the one the deploy began with, or it
   names a build a flush already returned for; and every flush begun was recorded, failed or is in flight.
   */
  lemma {:induction false} StoredNamesFlushedBuild(stored: Option<Build>, now: nat, steps: seq<Step>)
    requires Legal(Initial(stored, now), steps)
    ensures var d := Ran(Initial(stored, now), steps);
            && (d.stored == stored || (d.stored.Some? && d.stored.value in d.returned))
            && d.starts == |d.recorded| + d.failed + |Flights(d.instances)|
  {
    assert Flights(Initial(stored, now).instances) == {};
    RunKeepsSound(stored, Initial(stored, now), steps);
  }

  // ---------- what timely refreshes add ----------

  ghost predicate Exclusive(d: Deploy) {
    && (forall p :: p in d.instances && Guarded(d.instances[p].phase) ==> Holder(d.lock, d.now) == Some(p))
    && (forall p :: p in d.instances && InFlight(d.instances[p].phase) ==> d.stored != Some(d.instances[p].build))
  }

  // The identity the k-th one written replaced.
  function Replaced(initial: Option<Build>, recorded: seq<Build>, k: nat): Option<Build>
    requires k < |recorded|
  {
    if k == 0 then initial else Some(recorded[k - 1])
  }

  // Each identity written differs from the one it replaced.
  ghost predicate Changing(initial: Option<Build>, recorded: seq<Build>) {
    forall k :: 0 <= k < |recorded| ==> Replaced(initial, recorded, k) != Some(recorded[k])
  }

  lemma {:induction false} StepKeepsExclusive(d: Deploy, step: Step)
    requires Exclusive(d) && Allowed(d, step) && Timely(d, step)
    ensures Exclusive(Stepped(d, step))
  {
  }

  lemma {:induction false} OnlyRecordRecords(d: Deploy, step: Step)
    requires Allowed(d, step)
    ensures Stepped(d, step).recorded == if step.Record? then d.recorded + [d.instances[step.p].build] else d.recorded
  {
  }

  lemma {:induction false} StepKeepsChanging(initial: Option<Build>, d: Deploy, step: Step)
    requires Changing(initial, d.recorded) && Allowed(d, step)
    requires step.Record? ==> Latest(initial, d.recorded) != Some(d.instances[step.p].build)
    ensures Changing(initial, Stepped(d, step).recorded)
  {
    OnlyRecordRecords(d, step);
    if step.Record? {
    }
  }

  lemma {:induction false} RunKeepsExclusive(initial: Option<Build>, d: Deploy, steps: seq<Step>)
    requires Sound(initial, d) && Exclusive(d) && Changing(initial, d.recorded)
    requires Legal(d, steps) && AllTimely(d, steps)
    ensures var end := Ran(d, steps); Exclusive(end) && Changing(initial, end.recorded)
    decreases |steps|
  {
    if steps != [] {
      StepKeepsExclusive(d, steps[0]);
      StepKeepsSound(initial, d, steps[0]);
      StepKeepsChanging(initial, d, steps[0]);
      RunKeepsExclusive(initial, Stepped(d, steps[0]), steps[1..]);
    }
  }

  /**
   With refreshes landing in time, at most one instance ever flushes, or is about to: it holds the lock, and no
   flush is spent on the build already recorded. Each identity written replaces another one.
   */
  lemma {:induction false} OneFlushAtATime(stored: Option<Build>, now: nat, steps: seq<Step>, p: nat)
    requires Legal(Initial(stored, now), steps) && AllTimely(Initial(stored, now), steps)
    ensures var d := Ran(Initial(stored, now), steps);
            && Changing(stored, d.recorded)
            && (forall q :: p in d.instances && q in d.instances ==>
                              !Guarded(d.instances[p].phase) || !Guarded(d.instances[q].phase) || p == q)
            && (p in d.instances && InFlight(d.instances[p].phase) ==> d.stored != Some(d.instances[p].build))
  {
    assert Flights(Initial(stored, now).instances) == {};
    RunKeepsExclusive(stored, Initial(stored, now), steps);
  }

  // ---------- replicas of one build ----------

  ghost predicate OneBuild(d: Deploy, build: Build) {
    && (forall p :: p in d.instances ==> d.instances[p].build == build)
    && (forall k :: 0 <= k < |d.recorded| ==> d.recorded[k] == build)
  }

  ghost predicate Boots(steps: seq<Step>, build: Build) {
    forall k :: 0 <= k < |steps| && steps[k].Boot? ==> steps[k].build == build
  }

  lemma {:induction false} RunKeepsOneBuild(d: Deploy, steps: seq<Step>, build: Build)
    requires OneBuild(d, build) && Legal(d, steps) && Boots(steps, build)
    ensures OneBuild(Ran(d, steps), build)
    decreases |steps|
  {
    if steps != [] {
      assert OneBuild(Stepped(d, steps[0]), build);
      RunKeepsOneBuild(Stepped(d, steps[0]), steps[1..], build);
    }
  }

  // Replicas of one build flush once: only a flush that failed is followed by another.
  lemma {:induction false} OneBuildFlushesOnce(stored: Option<Build>, now: nat, steps: seq<Step>, build: Build)
    requires Legal(Initial(stored, now), steps) && AllTimely(Initial(stored, now), steps) && Boots(steps, build)
    ensures var d := Ran(Initial(stored, now), steps); d.starts <= d.failed + 1
  {
    var d := Ran(Initial(stored, now), steps);
    assert Flights(Initial(stored, now).instances) == {};
    RunKeepsOneBuild(Initial(stored, now), steps, build);
    RunKeepsSound(stored, Initial(stored, now), steps);
    RunKeepsExclusive(stored, Initial(stored, now), steps);
    RecordedOnce(stored, d, build);
    if p :| p in Flights(d.instances) {
      assert forall q :: q in Flights(d.instances) ==> q == p;
      assert Flights(d.instances) == {p};
    }
  }

  lemma {:induction false} Changes(initial: Option<Build>, recorded: seq<Build>, k: nat)
    requires Changing(initial, recorded) && k < |recorded|
    ensures Replaced(initial, recorded, k) != Some(recorded[k])
  {
  }

  lemma {:induction false} RecordedOnce(initial: Option<Build>, d: Deploy, build: Build)
    requires OneBuild(d, build) && Changing(initial, d.recorded)
    ensures |d.recorded| <= 1
    ensures initial == Some(build) ==> d.recorded == []
  {
    if |d.recorded| > 1 {
      Changes(initial, d.recorded, 1);
    }
    if d.recorded != [] {
      Changes(initial, d.recorded, 0);
    }
  }

  ghost predicate NothingToFlush(d: Deploy, build: Build) {
    d.stored == Some(build) && d.starts == 0 && forall p :: p in d.instances ==> !InFlight(d.instances[p].phase)
  }

  // A restart of the recorded build never flushes, whatever the clock does.
  lemma {:induction false} RestartNeverFlushes(d: Deploy, steps: seq<Step>, build: Build)
    requires NothingToFlush(d, build) && OneBuild(d, build) && Legal(d, steps) && Boots(steps, build)
    ensures Ran(d, steps).starts == 0
    decreases |steps|
  {
    if steps != [] {
      var next := Stepped(d, steps[0]);
      assert NothingToFlush(next, build) && OneBuild(next, build);
      RestartNeverFlushes(next, steps[1..], build);
    }
  }

  // ---------- and they do flush ----------

  // No call throws or goes unanswered, and no process dies.
  ghost predicate Calm(steps: seq<Step>) {
    forall k :: 0 <= k < |steps| ==> Quiet(steps[k])
  }

  predicate Quiet(step: Step) {
    !step.Throw? && !step.Crash? && !step.ClaimUnanswered?
  }

  // A flush some boot returned without is recorded, or an instance is on its way to it.
  ghost predicate Owed(d: Deploy, build: Build) {
    && d.failed == 0
    && (Holder(d.lock, d.now).Some? ==>
          var p := Holder(d.lock, d.now).value;
          p in d.instances && d.instances[p].phase !in {Booting, Differing, Done, Dead})
    && (forall p :: p in d.instances ==> d.instances[p].phase != Dead)
    && (forall p :: p in d.instances && d.instances[p].phase in {Matched, Leaving} ==> d.stored == Some(build))
    && (d.stored == Some(build) || (forall p :: p in d.instances ==> d.instances[p].phase != Done)
        || exists p :: p in d.instances && Guarded(d.instances[p].phase))
  }

  lemma {:induction false} StepKeepsOwed(d: Deploy, step: Step, build: Build)
    requires OneBuild(d, build) && Exclusive(d) && Owed(d, build)
    requires Allowed(d, step) && Timely(d, step) && Quiet(step) && (step.Boot? ==> step.build == build)
    ensures Owed(Stepped(d, step), build)
  {
    var next := Stepped(d, step);
    if next.stored != Some(build) && exists p :: p in d.instances && Guarded(d.instances[p].phase) {
      var p :| p in d.instances && Guarded(d.instances[p].phase);
      assert p in next.instances && Guarded(next.instances[p].phase);
    }
    if step.Claim? && !Hold(d.lock, d.now, step.p, FLUSH_LOCK_MS).1 {
      var p := d.lock.token;
      assert p in d.instances && (d.stored == Some(build) || Guarded(d.instances[p].phase));
      assert p in next.instances && next.instances[p] == d.instances[p];
    } else if step.Claim? {
      assert Guarded(next.instances[step.p].phase);
    }
  }

  lemma {:induction false} RunKeepsOwed(d: Deploy, steps: seq<Step>, build: Build)
    requires OneBuild(d, build) && Exclusive(d) && Owed(d, build)
    requires Legal(d, steps) && AllTimely(d, steps) && Calm(steps) && Boots(steps, build)
    ensures Owed(Ran(d, steps), build)
    decreases |steps|
  {
    if steps != [] {
      StepKeepsOwed(d, steps[0], build);
      StepKeepsExclusive(d, steps[0]);
      RunKeepsOwed(Stepped(d, steps[0]), steps[1..], build);
    }
  }

  /**
   Exactly once: when replicas of a new build boot and nothing fails, by the time they are all done one flush has
   run and the build is recorded.
   */
  lemma {:induction false} DeployFlushesExactlyOnce(stored: Option<Build>, now: nat, steps: seq<Step>, build: Build)
    requires Legal(Initial(stored, now), steps) && AllTimely(Initial(stored, now), steps)
    requires Calm(steps) && Boots(steps, build) && stored != Some(build)
    requires var d := Ran(Initial(stored, now), steps);
             d.instances != map[] && forall p :: p in d.instances ==> d.instances[p].phase in IDLE
    ensures var d := Ran(Initial(stored, now), steps);
            d.starts == 1 && d.recorded == [build] && d.stored == Some(build) && build in d.returned
  {
    var start := Initial(stored, now);
    var d := Ran(start, steps);
    assert Flights(start.instances) == {};
    RunKeepsOneBuild(start, steps, build);
    RunKeepsSound(stored, start, steps);
    RunKeepsExclusive(stored, start, steps);
    RunKeepsOwed(start, steps, build);
    RecordedOnce(stored, d, build);
    assert Flights(d.instances) == {};
    var p :| p in d.instances;
    assert d.instances[p].phase == Done;
  }

  // ---------- several builds ----------

  // The build is found stored by one of its instances, or recorded by one.
  predicate Serves(d: Deploy, step: Step, build: Build)
    requires Allowed(d, step)
  {
    && (step.Read? || step.Reread? || step.Record?) && d.instances[step.p].build == build
    && (step.Record? || d.stored == Some(build))
  }

  predicate Served(d: Deploy, steps: seq<Step>, build: Build)
    requires Legal(d, steps)
    decreases |steps|
  {
    steps != [] && (Serves(d, steps[0], build) || Served(Stepped(d, steps[0]), steps[1..], build))
  }

  // The instance is refused the lock while one of another build holds it.
  predicate Outrun(d: Deploy, step: Step, p: nat) {
    && step == Claim(p) && p in d.instances && Holder(d.lock, d.now).Some?
    && var q := Holder(d.lock, d.now).value; q in d.instances && d.instances[q].build != d.instances[p].build
  }

  predicate WasOutrun(d: Deploy, steps: seq<Step>, p: nat)
    requires Legal(d, steps)
    decreases |steps|
  {
    steps != [] && (Outrun(d, steps[0], p) || WasOutrun(Stepped(d, steps[0]), steps[1..], p))
  }

  predicate Over(instances: map<nat, Instance>) {
    forall p :: p in instances ==> instances[p].phase in IDLE
  }

  lemma {:induction false} InstancesStay(d: Deploy, steps: seq<Step>, p: nat)
    requires Legal(d, steps) && p in d.instances
    ensures p in Ran(d, steps).instances && Ran(d, steps).instances[p].build == d.instances[p].build
    decreases |steps|
  {
    if steps != [] {
      InstancesStay(Stepped(d, steps[0]), steps[1..], p);
    }
  }

  // An instance the lock was granted to finds its build stored, or flushes and records it.
  lemma {:induction false} GrantedServes(d: Deploy, steps: seq<Step>, p: nat)
    requires Legal(d, steps) && Calm(steps) && Over(Ran(d, steps).instances)
    requires p in d.instances && Guarded(d.instances[p].phase)
    ensures Served(d, steps, d.instances[p].build)
    decreases |steps|
  {
    if steps != [] && !Serves(d, steps[0], d.instances[p].build) {
      assert Quiet(steps[0]);
      GrantedServes(Stepped(d, steps[0]), steps[1..], p);
    }
  }

  // Who holds the lock is on its way to recording its build, or already had it stored; `served` says which ones have.
  ghost predicate Minded(d: Deploy, served: bool, build: Build) {
    && (Holder(d.lock, d.now).Some? ==>
          var p := Holder(d.lock, d.now).value;
          p in d.instances && d.instances[p].phase !in {Booting, Differing, Done, Dead})
    && (forall p :: p in d.instances && d.instances[p].phase in {Matched, Leaving} && d.instances[p].build == build ==>
                      served)
  }

  lemma {:induction false} StepKeepsMinded(d: Deploy, step: Step, served: bool, build: Build)
    requires Minded(d, served, build) && Allowed(d, step) && Quiet(step)
    ensures Minded(Stepped(d, step), served || Serves(d, step, build), build)
  {
  }

  // An instance no other build's holder refused finds its own stored, or has it recorded by whoever holds the lock.
  lemma {:induction false} NotOutrunIsServed(d: Deploy, steps: seq<Step>, served: bool, p: nat)
    requires Legal(d, steps) && Calm(steps) && Over(Ran(d, steps).instances) && p in Ran(d, steps).instances
    requires p in d.instances ==> d.instances[p].phase in {Booting, Differing}
    requires Minded(d, served, Ran(d, steps).instances[p].build) && !WasOutrun(d, steps, p)
    ensures served || Served(d, steps, Ran(d, steps).instances[p].build)
    decreases |steps|
  {
    var build := Ran(d, steps).instances[p].build;
    if steps != [] && !Serves(d, steps[0], build) {
      assert Quiet(steps[0]);
      var step, next := steps[0], Stepped(d, steps[0]);
      if p in d.instances {
        InstancesStay(d, steps, p);
      }
      if step == Claim(p) {
        ClaimServes(d, steps, served, p);
      } else {
        StepKeepsMinded(d, step, served, build);
        NotOutrunIsServed(next, steps[1..], served, p);
      }
    }
  }

  lemma {:induction false} ClaimServes(d: Deploy, steps: seq<Step>, served: bool, p: nat)
    requires Legal(d, steps) && Calm(steps) && Over(Ran(d, steps).instances) && steps != [] && steps[0] == Claim(p)
    requires Minded(d, served, d.instances[p].build) && !Outrun(d, steps[0], p)
    ensures served || Served(d, steps, d.instances[p].build)
  {
    var next, build := Stepped(d, steps[0]), d.instances[p].build;
    if Hold(d.lock, d.now, p, FLUSH_LOCK_MS).1 {
      GrantedServes(next, steps[1..], p);
    } else {
      var q := Holder(d.lock, d.now).value;
      assert d.instances[q].build == build;
      if Guarded(d.instances[q].phase) {
        GrantedServes(next, steps[1..], q);
      }
    }
  }

  // Past its claim, an instance is not refused again.
  lemma {:induction false} NotOutrunLater(d: Deploy, steps: seq<Step>, p: nat)
    requires Legal(d, steps) && p in d.instances && d.instances[p].phase !in {Booting, Differing}
    ensures !WasOutrun(d, steps, p)
    decreases |steps|
  {
    if steps != [] {
      NotOutrunLater(Stepped(d, steps[0]), steps[1..], p);
    }
  }

  lemma {:induction false} ServedByNotOutrun(d: Deploy, steps: seq<Step>, build: Build) returns (p: nat)
    requires Legal(d, steps) && Served(d, steps, build)
    ensures p in Ran(d, steps).instances && Ran(d, steps).instances[p].build == build && !WasOutrun(d, steps, p)
    ensures p in d.instances ==> d.instances[p].phase !in IDLE
    decreases |steps|
  {
    var next := Stepped(d, steps[0]);
    if Serves(d, steps[0], build) {
      p := steps[0].p;
      NotOutrunLater(next, steps[1..], p);
      InstancesStay(d, steps, p);
    } else {
      p := ServedByNotOutrun(next, steps[1..], build);
    }
  }

  /**
   Deploys of any number of builds, with nothing thrown, lost or dead: by the time every instance is done, a build was
   found stored or recorded exactly if some instance of it was not refused the lock by one of another build. A build
   all of whose instances were is never recorded.
   */
  lemma {:induction false} ServedUnlessOutrun(stored: Option<Build>, now: nat, steps: seq<Step>, build: Build)
    requires Legal(Initial(stored, now), steps) && Calm(steps) && Over(Ran(Initial(stored, now), steps).instances)
    ensures var start, instances := Initial(stored, now), Ran(Initial(stored, now), steps).instances;
            Served(start, steps, build)
            <==> exists p :: p in instances && instances[p].build == build && !WasOutrun(start, steps, p)
    ensures build in Ran(Initial(stored, now), steps).recorded ==> Served(Initial(stored, now), steps, build)
  {
    var start, instances := Initial(stored, now), Ran(Initial(stored, now), steps).instances;
    if p :| p in instances && instances[p].build == build && !WasOutrun(start, steps, p) {
      NotOutrunIsServed(start, steps, false, p);
    }
    if Served(start, steps, build) {
      var p := ServedByNotOutrun(start, steps, build);
    }
    if build in Ran(start, steps).recorded {
      RecordedIsServed(start, steps, build);
    }
  }

  lemma {:induction false} RecordedIsServed(d: Deploy, steps: seq<Step>, build: Build)
    requires Legal(d, steps) && build in Ran(d, steps).recorded && build !in d.recorded
    ensures Served(d, steps, build)
    decreases |steps|
  {
    var next := Stepped(d, steps[0]);
    OnlyRecordRecords(d, steps[0]);
    if !Serves(d, steps[0], build) {
      RecordedIsServed(next, steps[1..], build);
    }
  }

  // ---------- what does not hold ----------

  // Some run with nothing thrown, lost or dead leads from one state to the other.
  ghost predicate Leads(d: Deploy, end: Deploy, timely: bool) {
    exists steps :: Legal(d, steps) && Ran(d, steps) == end && Calm(steps) && (timely ==> AllTimely(d, steps))
  }

  lemma {:induction false} Arrives(d: Deploy, timely: bool)
    ensures Leads(d, d, timely)
  {
    assert Legal(d, []) && Ran(d, []) == d && Calm([]) && AllTimely(d, []);
  }

  lemma {:induction false} Before(d: Deploy, step: Step, next: Deploy, end: Deploy, timely: bool)
    requires Allowed(d, step) && Stepped(d, step) == next && Leads(next, end, timely)
    requires Quiet(step) && (timely ==> Timely(d, step))
    ensures Leads(d, end, timely)
  {
    var steps :| Legal(next, steps) && Ran(next, steps) == end && Calm(steps) && (timely ==> AllTimely(next, steps));
    var all := [step] + steps;
    assert all[1..] == steps && all[0] == step;
    assert Legal(d, all) && Ran(d, all) == end && Calm(all) && (timely ==> AllTimely(d, all));
  }

  function Two(d: Deploy, build: Build, p: Phase, other: Build, q: Phase): Deploy {
    d.(instances := map[0 := Instance(build, p), 1 := Instance(other, q)])
  }

  lemma {:induction false} LapsesUnderFlush(d: Deploy, b: Build)
    requires d == Two(d, b, Flushing, b, Differing) && d.lock == HeldBy(0, d.now + FLUSH_LOCK_MS) && d.stored == None
    ensures exists end :: Leads(d, end, false) && end.starts == d.starts + 1 && end.failed == d.failed
  {
    var d1 := Stepped(d, Tick(FLUSH_LOCK_MS + 1));
    var d2 := Two(d1, b, Flushing, b, Claimed).(lock := HeldBy(1, d1.now + FLUSH_LOCK_MS));
    var end := Two(d2, b, Flushing, b, Flushing).(starts := d.starts + 1);
    Arrives(end, false);
    Before(d2, Reread(1), end, end, false);
    Before(d1, Claim(1), d2, end, false);
    Before(d, Tick(FLUSH_LOCK_MS + 1), d1, end, false);
  }

  function BothBooting(a: Build, b: Build, now: nat): Deploy {
    Two(Initial(None, now), a, Booting, b, Booting)
  }

  // The first instance flushing under the lock, the second about to claim it.
  function OneFlushing(a: Build, b: Build, now: nat): Deploy {
    Two(Initial(None, now).(lock := HeldBy(0, now + FLUSH_LOCK_MS), starts := 1), a, Flushing, b, Differing)
  }

  function BothDiffering(a: Build, b: Build, now: nat): Deploy {
    Two(Initial(None, now), a, Differing, b, Differing)
  }

  lemma {:induction false} BothDiffer(a: Build, b: Build, now: nat, end: Deploy, timely: bool)
    requires Leads(BothDiffering(a, b, now), end, timely)
    ensures Leads(BothBooting(a, b, now), end, timely)
  {
    var d0 := BothBooting(a, b, now);
    var d1 := Two(d0, a, Differing, b, Booting);
    assert Stepped(d0, Read(0)) == d1;
    assert Stepped(d1, Read(1)) == BothDiffering(a, b, now);
    Before(d1, Read(1), BothDiffering(a, b, now), end, timely);
    Before(d0, Read(0), d1, end, timely);
  }

  lemma {:induction false} FirstFlushes(a: Build, b: Build, now: nat, end: Deploy, timely: bool)
    requires Leads(OneFlushing(a, b, now), end, timely)
    ensures Leads(BothDiffering(a, b, now), end, timely)
  {
    var d := BothDiffering(a, b, now);
    var claimed := Two(d, a, Claimed, b, Differing).(lock := HeldBy(0, now + FLUSH_LOCK_MS));
    assert Stepped(d, Claim(0)) == claimed;
    FirstFinds(claimed, a, b, end, timely);
    Before(d, Claim(0), claimed, end, timely);
  }

  lemma {:induction false} FirstFinds(d: Deploy, a: Build, b: Build, end: Deploy, timely: bool)
    requires d == Two(d, a, Claimed, b, Differing) && d.stored == None
    requires Leads(Two(d, a, Flushing, b, Differing).(starts := d.starts + 1), end, timely)
    ensures Leads(d, end, timely)
  {
    var next := Two(d, a, Flushing, b, Differing).(starts := d.starts + 1);
    assert Stepped(d, Reread(0)) == next;
    Before(d, Reread(0), next, end, timely);
  }

  lemma {:induction false} FlushEnds(d: Deploy, a: Build, b: Build, end: Deploy)
    requires d == Two(d, a, Flushed, b, Done) && d.lock == HeldBy(0, d.now + FLUSH_LOCK_MS)
    requires end == Two(d, a, Done, b, Done).(stored := Some(a), recorded := d.recorded + [a], lock := Free)
    ensures Leads(d, end, true)
  {
    var d1 := Two(d, a, Leaving, b, Done).(stored := Some(a), recorded := d.recorded + [a]);
    assert Stepped(d, Record(0)) == d1;
    assert Stepped(d1, Step.Release(0)) == end;
    Arrives(end, true);
    Before(d1, Step.Release(0), end, end, true);
    Before(d, Record(0), d1, end, true);
  }

  lemma {:induction false} DroppedWhileFlushing(d: Deploy, a: Build, b: Build)
    requires d == Two(d, a, Flushing, b, Differing) && d.lock == HeldBy(0, d.now + FLUSH_LOCK_MS)
    ensures exists end :: Leads(d, end, true) && end.recorded == d.recorded + [a]
                          && end.instances == map[0 := Instance(a, Done), 1 := Instance(b, Done)]
  {
    var d1 := Two(d, a, Flushing, b, Done);
    var d2 := Two(d, a, Flushed, b, Done).(returned := d.returned + {a});
    var end := Two(d2, a, Done, b, Done).(stored := Some(a), recorded := d.recorded + [a], lock := Free);
    assert Stepped(d, Claim(1)) == d1;
    assert Stepped(d1, FlushReturns(0)) == d2;
    FlushEnds(d2, a, b, end);
    Before(d1, FlushReturns(0), d2, end, true);
    Before(d, Claim(1), d1, end, true);
  }

  // A lock left to lapse under its flush gives the same build a second one, with none failed.
  lemma {:induction false} LapsedLockFlushesTwice(b: Build, now: nat)
    ensures exists end :: Leads(BothBooting(b, b, now), end, false) && end.starts == 2 && end.failed == 0
  {
    LapsesUnderFlush(OneFlushing(b, b, now), b);
    var end :| Leads(OneFlushing(b, b, now), end, false) && end.starts == 2 && end.failed == 0;
    FirstFlushes(b, b, now, end, false);
    BothDiffer(b, b, now, end, false);
  }

  // Two deploys inside one flush drop the later one: its instance loses the claim, and nothing flushes for it.
  lemma {:induction false} LaterDeployDropped(a: Build, b: Build, now: nat)
    requires a != b
    ensures exists end :: Leads(BothBooting(a, b, now), end, true) && end.recorded == [a]
                          && end.instances == map[0 := Instance(a, Done), 1 := Instance(b, Done)]
  {
    DroppedWhileFlushing(OneFlushing(a, b, now), a, b);
    var end :| Leads(OneFlushing(a, b, now), end, true) && end.recorded == [a]
               && end.instances == map[0 := Instance(a, Done), 1 := Instance(b, Done)];
    FirstFlushes(a, b, now, end, true);
    BothDiffer(a, b, now, end, true);
  }
}
