/**
 Extension reloads (api/src/extensions/manager.ts:166-176, 446-532, api/src/utils/job-queue.ts): one job runs at a time,
 and whoever asks while another waits shares the waiting one, which loads with all they asked for.
 */
module ReloadQueue {
  import opened Options

  // What is left out of them reads as false.
  datatype ReloadOptions = ReloadOptions(forceSync: bool, migrate: bool)

  function Either(a: ReloadOptions, b: ReloadOptions): ReloadOptions {
    ReloadOptions(a.forceSync || b.forceSync, a.migrate || b.migrate)
  }

  const NEITHER := ReloadOptions(false, false)

  // What happened, promise by promise.
  datatype Entry =
    | Called(promise: nat, options: ReloadOptions) // a caller was handed this promise
    | Started(promise: nat, options: ReloadOptions)
    | Settled(promise: nat, ok: bool)

  datatype Reloads = Reloads(
    queued: Option<nat>,                  // the promise of a reload called but not begun
    queuedOptions: Option<ReloadOptions>,
    jobs: seq<nat>,
    running: bool,                        // the job queue's loop is on
    current: Option<nat>,                 // the promise of the job it awaits, until that settles
    promises: nat,
    log: seq<Entry>
  )

  // ---------- what each step does ----------

  // The front job, up to its first await.
  function JobStarted(s: Reloads): Reloads
    requires s.jobs != []
  {
    s.(jobs := s.jobs[1..], running := true, current := Some(s.jobs[0]), queued := None, queuedOptions := None,
    log := s.log + [Started(s.jobs[0], s.queuedOptions.GetOr(NEITHER))])
  }

  // A call that shares the queued reload, or queues one, which starts at once where none runs.
  function ReloadCalled(s: Reloads, options: Option<ReloadOptions>): Reloads {
    if s.queued.Some? then
      s.(queuedOptions := Some(Either(s.queuedOptions.GetOr(NEITHER), options.GetOr(NEITHER))),
      log := s.log + [Called(s.queued.value, options.GetOr(NEITHER))])
    else
      var asked := s.(queued := Some(s.promises), queuedOptions := options, jobs := s.jobs + [s.promises],
                   promises := s.promises + 1, log := s.log + [Called(s.promises, options.GetOr(NEITHER))]);
      if s.running then asked else JobStarted(asked)
  }

  function JobSettled(s: Reloads, ok: bool): Reloads
    requires s.current.Some?
  {
    s.(current := None, log := s.log + [Settled(s.current.value, ok)])
  }

  function LoopedOn(s: Reloads): Reloads {
    if s.jobs == [] then s.(running := false) else JobStarted(s)
  }

  class ExtensionManager {
    var queuedReload: Option<nat>
    var queuedReloadOptions: Option<ReloadOptions>
    var jobs: seq<nat>
    var running: bool
    var current: Option<nat>
    var promises: nat
    ghost var log: seq<Entry>

    ghost function State(): Reloads reads this {
      Reloads(queuedReload, queuedReloadOptions, jobs, running, current, promises, log)
    }

    constructor ()
      ensures State() == Initial()
    {
      queuedReload, queuedReloadOptions, jobs, running, current, promises, log := None, None, [], false, None, 0, [];
    }

    method Reload(options: Option<ReloadOptions>) returns (promise: nat)
      modifies this
      ensures State() == ReloadCalled(old(State()), options)
      ensures promise == (if old(queuedReload).Some? then old(queuedReload).value else old(promises))
      ensures old(log) + [Called(promise, options.GetOr(NEITHER))] <= log
    {
      if queuedReload.Some? {
        queuedReloadOptions := Some(Either(queuedReloadOptions.GetOr(NEITHER), options.GetOr(NEITHER)));
        log := log + [Called(queuedReload.value, options.GetOr(NEITHER))];
        return queuedReload.value;
      }
      promise := promises;
      promises := promises + 1;
      queuedReload := Some(promise);
      queuedReloadOptions := options;
      log := log + [Called(promise, options.GetOr(NEITHER))];
      Enqueue(promise);
    }

    method Enqueue(job: nat)
      modifies this
      ensures var pushed := old(State()).(jobs := old(jobs) + [job]);
              State() == if old(running) then pushed else JobStarted(pushed)
    {
      jobs := jobs + [job];
      if !running {
        StartJob();
      }
    }

    method StartJob()
      requires jobs != []
      modifies this
      ensures State() == JobStarted(old(State()))
    {
      running := true;
      var job := jobs[0];
      jobs := jobs[1..];
      current := Some(job);
      var reloadOptions := queuedReloadOptions;
      queuedReload := None;
      queuedReloadOptions := None;
      log := log + [Started(job, reloadOptions.GetOr(NEITHER))];
    }

    // The running job loads, or fails to.
    method Settle(ok: bool)
      requires current.Some?
      modifies this
      ensures State() == JobSettled(old(State()), ok)
    {
      log := log + [Settled(current.value, ok)];
      current := None;
    }

    // And the queue's loop goes on.
    method LoopOn()
      requires running && current.None?
      modifies this
      ensures State() == LoopedOn(old(State()))
    {
      if |jobs| > 0 {
        StartJob();
      } else {
        running := false;
      }
    }
  }

  // ---------- any run ----------

  datatype Step = Call(options: Option<ReloadOptions>) | Settle(ok: bool) | Loop

  function Initial(): Reloads {
    Reloads(None, None, [], false, None, 0, [])
  }

  predicate Allowed(s: Reloads, step: Step) {
    match step
    case Call(_) => true
    case Settle(_) => s.current.Some?
    case Loop => s.running && s.current.None?
  }

  function Stepped(s: Reloads, step: Step): Reloads
    requires Allowed(s, step)
  {
    match step
    case Call(options) => ReloadCalled(s, options)
    case Settle(ok) => JobSettled(s, ok)
    case Loop => LoopedOn(s)
  }

  predicate Legal(s: Reloads, steps: seq<Step>)
    decreases |steps|
  {
    steps == [] || (Allowed(s, steps[0]) && Legal(Stepped(s, steps[0]), steps[1..]))
  }

  function Ran(s: Reloads, steps: seq<Step>): Reloads
    requires Legal(s, steps)
    decreases |steps|
  {
    if steps == [] then s else Ran(Stepped(s, steps[0]), steps[1..])
  }

  // ---------- the log of one promise ----------

  // Everything its callers asked for.
  function Wanted(log: seq<Entry>, promise: nat): ReloadOptions {
    if log == [] then NEITHER
    else
      var before, last := Wanted(log[..|log| - 1], promise), log[|log| - 1];
      if last.Called? && last.promise == promise then Either(before, last.options) else before
  }

  function Calls(log: seq<Entry>, promise: nat): nat {
    if log == [] then 0
    else
      var last := log[|log| - 1];
      Calls(log[..|log| - 1], promise) + if last.Called? && last.promise == promise then 1 else 0
  }

  function Starts(log: seq<Entry>, promise: nat): nat {
    if log == [] then 0
    else
      var last := log[|log| - 1];
      Starts(log[..|log| - 1], promise) + if last.Started? && last.promise == promise then 1 else 0
  }

  function Settles(log: seq<Entry>, promise: nat): nat {
    if log == [] then 0
    else
      var last := log[|log| - 1];
      Settles(log[..|log| - 1], promise) + if last.Settled? && last.promise == promise then 1 else 0
  }

  /**
   In the log of a promise, every call comes before its job starts, the job starts with all that was asked of it, and
   the promise settles once the job started, and once.
   */
  predicate Ordered(log: seq<Entry>, promise: nat) {
    log == []
    || var before, last := log[..|log| - 1], log[|log| - 1];
       Ordered(before, promise) && (last.promise == promise ==> InTurn(before, last))
  }

  predicate InTurn(before: seq<Entry>, last: Entry) {
    match last
    case Called(promise, _) => Starts(before, promise) == 0
    case Started(promise, options) => Starts(before, promise) == 0 && options == Wanted(before, promise)
    case Settled(promise, _) => Starts(before, promise) == 1 && Settles(before, promise) == 0
  }

  // ---------- what every step keeps ----------

  ghost predicate Sound(s: Reloads, promise: nat) {
    && Ordered(s.log, promise)
    && (promise >= s.promises ==>
          Calls(s.log, promise) == 0 && Starts(s.log, promise) == 0 && Settles(s.log, promise) == 0
          && Wanted(s.log, promise) == NEITHER)
    && (promise < s.promises ==>
          && Calls(s.log, promise) > 0
          && Starts(s.log, promise) == (if s.queued == Some(promise) then 0 else 1)
          && Settles(s.log, promise) == (if s.queued == Some(promise) || s.current == Some(promise) then 0 else 1)
          && (s.queued == Some(promise) ==> s.queuedOptions.GetOr(NEITHER) == Wanted(s.log, promise)))
  }

  // At most one job waits, and only behind a running one.
  ghost predicate OneQueued(s: Reloads) {
    && s.jobs == (if s.queued.Some? then [s.queued.value] else [])
    && (s.queued.Some? ==> s.running && s.queued.value < s.promises)
    && (s.current.Some? ==> s.running && s.current.value < s.promises && s.current != s.queued)
  }

  // What one more entry changes in the log of a promise.
  lemma {:induction false} Logged(log: seq<Entry>, entry: Entry, promise: nat)
    ensures var all, own := log + [entry], entry.promise == promise;
            && Wanted(all, promise)
               == (if own && entry.Called? then Either(Wanted(log, promise), entry.options) else Wanted(log, promise))
            && Calls(all, promise) == Calls(log, promise) + (if own && entry.Called? then 1 else 0)
            && Starts(all, promise) == Starts(log, promise) + (if own && entry.Started? then 1 else 0)
            && Settles(all, promise) == Settles(log, promise) + (if own && entry.Settled? then 1 else 0)
            && (Ordered(all, promise) <==> Ordered(log, promise) && (own ==> InTurn(log, entry)))
  {
    assert (log + [entry])[..|log|] == log;
  }

  lemma {:induction false} StartKeepsSound(s: Reloads, promise: nat)
    requires OneQueued(s) && Sound(s, promise) && s.jobs != [] && s.current.None?
    ensures Sound(JobStarted(s), promise)
  {
    Logged(s.log, Started(s.jobs[0], s.queuedOptions.GetOr(NEITHER)), promise);
  }

  lemma {:induction false} CallKeepsSound(s: Reloads, options: Option<ReloadOptions>, promise: nat)
    requires OneQueued(s) && Sound(s, promise)
    ensures Sound(ReloadCalled(s, options), promise)
  {
    var wanted := options.GetOr(NEITHER);
    if s.queued.Some? {
      Logged(s.log, Called(s.queued.value, wanted), promise);
    } else {
      Logged(s.log, Called(s.promises, wanted), promise);
      if !s.running {
        Logged(s.log + [Called(s.promises, wanted)], Started(s.promises, wanted), promise);
      }
    }
  }

  lemma {:induction false} StepKeepsSound(s: Reloads, step: Step, promise: nat)
    requires OneQueued(s) && Sound(s, promise) && Allowed(s, step)
    ensures Sound(Stepped(s, step), promise)
  {
    match step
    case Call(options) => CallKeepsSound(s, options, promise);
    case Settle(ok) => Logged(s.log, Settled(s.current.value, ok), promise);
    case Loop =>
      if s.jobs != [] {
        StartKeepsSound(s, promise);
      }
  }

  lemma {:induction false} RunKeepsSound(s: Reloads, steps: seq<Step>, promise: nat)
    requires OneQueued(s) && Sound(s, promise) && Legal(s, steps)
    ensures OneQueued(Ran(s, steps)) && Sound(Ran(s, steps), promise)
    decreases |steps|
  {
    if steps != [] {
      StepKeepsSound(s, steps[0], promise);
      RunKeepsSound(Stepped(s, steps[0]), steps[1..], promise);
    }
  }

  // ---------- what a caller gets ----------

  lemma {:induction false} Counted(log: seq<Entry>, k: nat)
    requires k < |log|
    ensures log[k].Called? ==> Calls(log, log[k].promise) > 0
    ensures log[k].Started? ==> Starts(log, log[k].promise) > 0
    ensures log[k].Settled? ==> Settles(log, log[k].promise) > 0
  {
    if k < |log| - 1 {
      Counted(log[..|log| - 1], k);
    }
  }

  lemma {:induction false} WantedHas(log: seq<Entry>, k: nat)
    requires k < |log| && log[k].Called?
    ensures var all := Wanted(log, log[k].promise);
            (log[k].options.forceSync ==> all.forceSync) && (log[k].options.migrate ==> all.migrate)
  {
    if k < |log| - 1 {
      WantedHas(log[..|log| - 1], k);
    }
  }

  // The job of a caller's promise starts after the call, with at least what the caller asked for.
  lemma {:induction false} CallIsServed(log: seq<Entry>, k: nat, j: nat)
    requires k < |log| && j < |log| && log[k].Called? && log[j].Started? && log[j].promise == log[k].promise
    requires Ordered(log, log[k].promise)
    ensures k < j
    ensures log[k].options.forceSync ==> log[j].options.forceSync
    ensures log[k].options.migrate ==> log[j].options.migrate
  {
    var init := log[..|log| - 1];
    if j == |log| - 1 {
      WantedHas(init, k);
    } else if k == |log| - 1 {
      Counted(init, j);
    } else {
      CallIsServed(init, k, j);
    }
  }

  // One of the first callers of the promise asked for it.
  ghost predicate SyncAsked(log: seq<Entry>, promise: nat, n: nat) {
    exists k: nat :: k < n && k < |log| && log[k].Called? && log[k].promise == promise && log[k].options.forceSync
  }

  ghost predicate MigrationAsked(log: seq<Entry>, promise: nat, n: nat) {
    exists k: nat :: k < n && k < |log| && log[k].Called? && log[k].promise == promise && log[k].options.migrate
  }

  lemma {:induction false} WantedWasAsked(log: seq<Entry>, promise: nat)
    ensures Wanted(log, promise).forceSync ==> SyncAsked(log, promise, |log|)
    ensures Wanted(log, promise).migrate ==> MigrationAsked(log, promise, |log|)
  {
    if log != [] {
      var init, n := log[..|log| - 1], |log| - 1;
      WantedWasAsked(init, promise);
      if k: nat :| k < n && init[k].Called? && init[k].promise == promise && init[k].options.forceSync {
        assert log[k] == init[k];
      }
      if k: nat :| k < n && init[k].Called? && init[k].promise == promise && init[k].options.migrate {
        assert log[k] == init[k];
      }
      assert log[n].Called? ==> n < |log|;
    }
  }

  // And the job starts with nothing that none of its callers asked for.
  lemma {:induction false} OptionWasAsked(log: seq<Entry>, j: nat)
    requires j < |log| && log[j].Started? && Ordered(log, log[j].promise)
    ensures log[j].options.forceSync <==> SyncAsked(log, log[j].promise, j)
    ensures log[j].options.migrate <==> MigrationAsked(log, log[j].promise, j)
  {
    var init := log[..|log| - 1];
    if j == |log| - 1 {
      WantedWasAsked(init, log[j].promise);
    } else {
      OptionWasAsked(init, j);
    }
    if k: nat :| k < j && log[k].Called? && log[k].promise == log[j].promise && log[k].options.forceSync {
      CallIsServed(log, k, j);
    }
    if k: nat :| k < j && log[k].Called? && log[k].promise == log[j].promise && log[k].options.migrate {
      CallIsServed(log, k, j);
    }
  }

  // A promise settles once, and after its job started.
  lemma {:induction false} SettlesOnce(log: seq<Entry>, i: nat, j: nat)
    requires i < j < |log| && log[i].promise == log[j].promise && log[j].Settled? && Ordered(log, log[j].promise)
    ensures !log[i].Settled?
  {
    var init := log[..|log| - 1];
    if j == |log| - 1 {
      if log[i].Settled? {
        Counted(init, i);
      }
    } else {
      SettlesOnce(init, i, j);
    }
  }

  /**
   Whatever the run of calls, failures and loops: a caller's job starts after its call and with its options, starts
   and settles at most once, and has done both by the time the queue is idle. No more than one job waits.
   */
  lemma {:induction false} EveryReloadIsServed(steps: seq<Step>, promise: nat)
    requires Legal(Initial(), steps)
    ensures var s := Ran(Initial(), steps);
            && |s.jobs| <= 1
            && Ordered(s.log, promise)
            && Settles(s.log, promise) <= Starts(s.log, promise) <= 1
            && (Calls(s.log, promise) > 0 <==> promise < s.promises)
            && (!s.running && promise < s.promises ==> Starts(s.log, promise) == 1 && Settles(s.log, promise) == 1)
  {
    RunKeepsSound(Initial(), steps, promise);
  }

  // And the queue gets idle: each loop either stops it or starts the one job that waits.
  lemma {:induction false} QueueGetsIdle(s: Reloads)
    requires OneQueued(s) && s.running
    ensures var settled := if s.current.Some? then JobSettled(s, true) else s;
            && Allowed(settled, Loop)
            && var next := Stepped(settled, Loop);
            && (s.jobs == [] ==> !next.running)
            && (s.jobs != [] ==> Allowed(next, Settle(true)) && !Stepped(Stepped(next, Settle(true)), Loop).running)
  {
  }
}
