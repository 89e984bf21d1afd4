/**
 Audit runs and the listings that close what died (api/src/cache-audit-runs.ts), over a Redis lock cache: a run
 claims the lock, opens its row, renews while it goes on, closes its row and releases. A listing that finds the
 lock held by no one closes the rows still open, and a reap closes those past their budget. A run of the model is
 any interleaving of their calls, on one clock.
 */
module CacheAuditRuns {
  import opened Options
  import opened CacheLock

  const RUN_LOCK_TTL_MS: nat := 120_000
  const UNCLAIMED_MARGIN_MS: nat := 5_000
  const ORPHAN_GRACE_MS: nat := 3_600_000

  datatype Phase =
    | Claimed                  // about to open its row
    | Stamped(startedAt: nat)  // `started_at` read off the clock, its insert on the way
    | Opened                   // auditing
    | Closing                  // about to release
    | Over
    | Dead

  // `claimed`: its claim took the lock, answered or not. One that is not answered starts the run all the same.
  datatype Run = Run(claimed: bool, claimedAt: nat, budget: nat, phase: Phase)

  datatype Ending = Unfinished | Finished | Died

  datatype Row = Row(startedAt: nat, budget: nat, ending: Ending)

  datatype Listing =
    | ReadNone(at: nat)   // the lock named no one
    | Cutting(now: nat)   // and this is what it then took for now

  datatype Audits = Audits(
    lock: Lock<nat>,
    now: nat,
    runs: map<nat, Run>,         // by token
    rows: map<nat, Row>,         // by the token of the run that opened them
    listings: map<nat, Listing>, // under way
    reaps: map<nat, set<nat>>    // under way: the rows each found past their budget
  )

  datatype Step =
    | Claim(p: nat, budget: nat)
    | ClaimUnanswered(p: nat, budget: nat, landed: bool)
    | Stamp(p: nat)
    | Insert(p: nat)
    | Renew(p: nat)
    | Finish(p: nat)           // its report or its failure is in its row
    | GiveUp(p: nat)           // its insert, or both of the writes that close its row, failed
    | Release(p: nat, landed: bool)
    | Crash(p: nat)
    | ReadHolder(l: nat)
    | TakeNow(l: nat)
    | CloseUnclaimed(l: nat)
    | ReapSelect(l: nat)
    | ReapClose(l: nat)
    | ClearLocks
    | Tick(ms: nat)

  predicate Alive(phase: Phase) {
    phase != Over && phase != Dead
  }

  predicate InPhase(d: Audits, p: nat, phase: Phase) {
    p in d.runs && d.runs[p].phase == phase
  }

  predicate Allowed(d: Audits, step: Step) {
    match step
    case Claim(p, _) => p !in d.runs && p !in d.rows
    case ClaimUnanswered(p, _, _) => p !in d.runs && p !in d.rows
    case Stamp(p) => InPhase(d, p, Claimed)
    case Insert(p) => p in d.runs && d.runs[p].phase.Stamped?
    case Renew(p) => p in d.runs && Alive(d.runs[p].phase)
    case Finish(p) => InPhase(d, p, Opened) && p in d.rows
    case GiveUp(p) => p in d.runs && (d.runs[p].phase.Stamped? || d.runs[p].phase == Opened)
    case Release(p, _) => InPhase(d, p, Closing)
    case Crash(p) => p in d.runs && Alive(d.runs[p].phase)
    case ReadHolder(l) => l !in d.listings && Holder(d.lock, d.now) == None
    case TakeNow(l) => l in d.listings && d.listings[l].ReadNone?
    case CloseUnclaimed(l) => l in d.listings && d.listings[l].Cutting?
    case ReapSelect(l) => l !in d.reaps
    case ReapClose(l) => l in d.reaps
    case ClearLocks => true
    case Tick(_) => true
  }

  predicate PastBudget(row: Row, now: nat) {
    row.startedAt + 2 * row.budget + ORPHAN_GRACE_MS < now
  }

  function EndedWhere(rows: map<nat, Row>, ids: set<nat>): map<nat, Row> {
    map p | p in rows :: if p in ids then rows[p].(ending := Died) else rows[p]
  }

  function Unclaimed(rows: map<nat, Row>, now: nat): set<nat> {
    set p | p in rows && rows[p].ending == Unfinished && rows[p].startedAt + UNCLAIMED_MARGIN_MS < now
  }

  function Orphans(rows: map<nat, Row>, now: nat): set<nat> {
    set p | p in rows && rows[p].ending == Unfinished && PastBudget(rows[p], now)
  }

  function To(d: Audits, p: nat, phase: Phase): map<nat, Run>
    requires p in d.runs
  {
    d.runs[p := d.runs[p].(phase := phase)]
  }

  function Stepped(d: Audits, step: Step): Audits
    requires Allowed(d, step)
  {
    match step
    case Claim(p, budget) =>
      var (lock, held) := Hold(d.lock, d.now, p, RUN_LOCK_TTL_MS);
      if held then d.(lock := lock, runs := d.runs[p := Run(true, d.now, budget, Claimed)]) else d
    case ClaimUnanswered(p, budget, landed) =>
      var (lock, held) := if landed then Hold(d.lock, d.now, p, RUN_LOCK_TTL_MS) else (d.lock, false);
      d.(lock := lock, runs := d.runs[p := Run(held, d.now, budget, Claimed)])
    case Stamp(p) => d.(runs := To(d, p, Stamped(d.now)))
    case Insert(p) =>
      d.(runs := To(d, p, Opened), rows := d.rows[p := Row(d.runs[p].phase.startedAt, d.runs[p].budget, Unfinished)])
    case Renew(p) => d.(lock := Hold(d.lock, d.now, p, RUN_LOCK_TTL_MS).0)
    case Finish(p) => d.(runs := To(d, p, Closing), rows := d.rows[p := d.rows[p].(ending := Finished)])
    case GiveUp(p) => d.(runs := To(d, p, Closing))
    case Release(p, landed) =>
      d.(lock := if landed then CacheLock.Release(d.lock, d.now, p) else d.lock, runs := To(d, p, Over))
    case Crash(p) => d.(runs := To(d, p, Dead))
    case ReadHolder(l) => d.(listings := d.listings[l := ReadNone(d.now)])
    case TakeNow(l) => d.(listings := d.listings[l := Cutting(d.now)])
    case CloseUnclaimed(l) =>
      d.(listings := d.listings - {l}, rows := EndedWhere(d.rows, Unclaimed(d.rows, d.listings[l].now)))
    case ReapSelect(l) => d.(reaps := d.reaps[l := Orphans(d.rows, d.now)])
    case ReapClose(l) => d.(reaps := d.reaps - {l}, rows := EndedWhere(d.rows, d.reaps[l]))
    case ClearLocks => d.(lock := Free)
    case Tick(ms) => d.(now := d.now + ms)
  }

  // Renewals land within the TTL, the holder read takes less than the margin, and no one clears the locks.
  predicate Assumed(d: Audits, step: Step) {
    && (step.Tick? && d.lock.HeldBy? && d.lock.token in d.runs && Owning(d.runs[d.lock.token])
        ==> d.now + step.ms <= d.lock.expiresAt)
    && (step.TakeNow? && step.l in d.listings && d.listings[step.l].ReadNone?
        ==> d.now <= d.listings[step.l].at + UNCLAIMED_MARGIN_MS)
    && !step.ClearLocks?
  }

  predicate Owning(run: Run) {
    run.claimed && Alive(run.phase)
  }

  function Initial(now: nat): Audits {
    Audits(Free, now, map[], map[], map[], map[])
  }

  predicate Legal(d: Audits, steps: seq<Step>)
    decreases |steps|
  {
    steps == [] || (Allowed(d, steps[0]) && Assumed(d, steps[0]) && Legal(Stepped(d, steps[0]), steps[1..]))
  }

  function Ran(d: Audits, steps: seq<Step>): Audits
    requires Legal(d, steps)
    decreases |steps|
  {
    if steps == [] then d else Ran(Stepped(d, steps[0]), steps[1..])
  }

  // ---------- what every step keeps ----------

  ghost predicate Exclusive(lock: Lock<nat>, now: nat, runs: map<nat, Run>) {
    forall p :: p in runs && Owning(runs[p]) ==> Holder(lock, now) == Some(p)
  }

  ghost predicate RunsDated(now: nat, runs: map<nat, Run>) {
    forall p :: p in runs ==>
                  runs[p].claimedAt <= now && (runs[p].phase.Stamped? ==> runs[p].claimedAt <= runs[p].phase.startedAt)
  }

  ghost predicate NoRowYet(runs: map<nat, Run>, rows: map<nat, Row>) {
    forall p :: p in runs && (runs[p].phase.Stamped? || runs[p].phase == Claimed) ==> p !in rows
  }

  // No row is older than its run's claim.
  ghost predicate RowsDated(runs: map<nat, Run>, rows: map<nat, Row>) {
    forall p :: p in rows ==> p in runs && runs[p].claimedAt <= rows[p].startedAt && rows[p].budget == runs[p].budget
  }

  ghost predicate Dated(now: nat, runs: map<nat, Run>, rows: map<nat, Row>) {
    RunsDated(now, runs) && NoRowYet(runs, rows) && RowsDated(runs, rows)
  }

  // What a listing found missing was claimed, if at all, too late for it to close.
  ghost predicate Spared(listing: Listing, run: Run) {
    match listing
    case ReadNone(at) => at <= run.claimedAt
    case Cutting(cut) => cut <= run.claimedAt + UNCLAIMED_MARGIN_MS
  }

  ghost predicate Sparing(now: nat, listings: map<nat, Listing>, runs: map<nat, Run>) {
    && (forall l :: l in listings ==> (if listings[l].ReadNone? then listings[l].at else listings[l].now) <= now)
    && (forall l, p :: l in listings && p in runs && Owning(runs[p]) ==> Spared(listings[l], runs[p]))
  }

  // A reap under way holds only rows past their budget.
  ghost predicate Overdue(now: nat, reaps: map<nat, set<nat>>, rows: map<nat, Row>) {
    forall l, p :: l in reaps && p in reaps[l] ==> p in rows && PastBudget(rows[p], now)
  }

  ghost predicate Safe(d: Audits) {
    && Exclusive(d.lock, d.now, d.runs)
    && Dated(d.now, d.runs, d.rows)
    && Sparing(d.now, d.listings, d.runs)
    && Overdue(d.now, d.reaps, d.rows)
  }

  lemma {:induction false} StepKeepsExclusive(d: Audits, step: Step)
    requires Allowed(d, step) && Assumed(d, step) && Exclusive(d.lock, d.now, d.runs)
    ensures var next := Stepped(d, step); Exclusive(next.lock, next.now, next.runs)
  {
  }

  lemma {:induction false} StepKeepsRunsDated(d: Audits, step: Step)
    requires Allowed(d, step) && RunsDated(d.now, d.runs)
    ensures RunsDated(Stepped(d, step).now, Stepped(d, step).runs)
  {
  }

  lemma {:induction false} StepKeepsNoRowYet(d: Audits, step: Step)
    requires Allowed(d, step) && NoRowYet(d.runs, d.rows)
    ensures NoRowYet(Stepped(d, step).runs, Stepped(d, step).rows)
  {
  }

  lemma {:induction false} StepKeepsRowsDated(d: Audits, step: Step)
    requires Allowed(d, step) && RunsDated(d.now, d.runs) && RowsDated(d.runs, d.rows)
    ensures RowsDated(Stepped(d, step).runs, Stepped(d, step).rows)
  {
  }

  lemma {:induction false} StepKeepsDates(d: Audits, step: Step)
    requires Allowed(d, step) && Dated(d.now, d.runs, d.rows)
    ensures var next := Stepped(d, step); Dated(next.now, next.runs, next.rows)
  {
    StepKeepsRunsDated(d, step);
    StepKeepsNoRowYet(d, step);
    StepKeepsRowsDated(d, step);
  }

  lemma {:induction false} StepKeepsSparing(d: Audits, step: Step)
    requires Allowed(d, step) && Assumed(d, step)
    requires Exclusive(d.lock, d.now, d.runs) && Dated(d.now, d.runs, d.rows) && Sparing(d.now, d.listings, d.runs)
    ensures var next := Stepped(d, step); Sparing(next.now, next.listings, next.runs)
  {
  }

  lemma {:induction false} StepKeepsOverdue(d: Audits, step: Step)
    requires Allowed(d, step) && Dated(d.now, d.runs, d.rows) && Overdue(d.now, d.reaps, d.rows)
    ensures var next := Stepped(d, step); Overdue(next.now, next.reaps, next.rows)
  {
  }

  lemma {:induction false} StepKeepsSafe(d: Audits, step: Step)
    requires Allowed(d, step) && Assumed(d, step) && Safe(d)
    ensures Safe(Stepped(d, step))
  {
    StepKeepsExclusive(d, step);
    StepKeepsDates(d, step);
    StepKeepsSparing(d, step);
    StepKeepsOverdue(d, step);
  }

  lemma {:induction false} RunKeepsSafe(d: Audits, steps: seq<Step>)
    requires Safe(d) && Legal(d, steps)
    ensures Safe(Ran(d, steps))
    decreases |steps|
  {
    if steps != [] {
      StepKeepsSafe(d, steps[0]);
      RunKeepsSafe(Stepped(d, steps[0]), steps[1..]);
    }
  }

  /**
   The row of a run that is alive and whose claim took the lock is ended by nothing but that run, or by a reap once
   twice its budget and an hour are past: no listing closes it, whatever claims, inserts, renewals, crashes, releases
   and other listings come in between.
   */
  lemma {:induction false} LiveRowIsNotClosed(now: nat, steps: seq<Step>, step: Step, p: nat)
    requires Legal(Initial(now), steps)
    requires var d := Ran(Initial(now), steps);
             && Allowed(d, step) && Assumed(d, step)
             && p in d.runs && Owning(d.runs[p]) && p in d.rows && d.rows[p].ending == Unfinished
    ensures var d := Ran(Initial(now), steps);
            && p in Stepped(d, step).rows
            && (Stepped(d, step).rows[p] == d.rows[p] || step == Finish(p)
                || (step.ReapClose? && d.rows[p].startedAt + 2 * d.rows[p].budget + 3_600_000 < d.now))
  {
    var d := Ran(Initial(now), steps);
    RunKeepsSafe(Initial(now), steps);
    OneStepSpares(d, step, p);
  }

  lemma {:induction false} OneStepSpares(d: Audits, step: Step, p: nat)
    requires Safe(d) && Allowed(d, step)
    requires p in d.runs && Owning(d.runs[p]) && p in d.rows
    ensures p in Stepped(d, step).rows
    ensures Stepped(d, step).rows[p] == d.rows[p] || step == Finish(p)
            || (step.ReapClose? && PastBudget(d.rows[p], d.now))
  {
    if step.CloseUnclaimed? {
      assert Spared(d.listings[step.l], d.runs[p]);
      assert p !in Unclaimed(d.rows, d.listings[step.l].now);
    }
  }

  /**
   No reap, and no other step, ends the row of a run that is alive and whose claim took the lock until twice its budget
   and an hour are past its claim: only its own end does.
   */
  lemma {:induction false} InTimeIsNotReaped(now: nat, steps: seq<Step>, step: Step, p: nat)
    requires Legal(Initial(now), steps)
    requires var d := Ran(Initial(now), steps);
             && Allowed(d, step) && Assumed(d, step)
             && p in d.runs && Owning(d.runs[p]) && p in d.rows
             && d.now <= d.runs[p].claimedAt + 2 * d.runs[p].budget + 3_600_000
    ensures var d := Ran(Initial(now), steps);
            p in Stepped(d, step).rows && (Stepped(d, step).rows[p] == d.rows[p] || step == Finish(p))
  {
    RunKeepsSafe(Initial(now), steps);
    OneStepSpares(Ran(Initial(now), steps), step, p);
  }

  // And the other way: an open row older than that is ended by a reap, in its two steps, whatever came of its run.
  lemma {:induction false} OverdueIsReaped(d: Audits, l: nat, p: nat)
    requires l !in d.reaps && p in d.rows && d.rows[p].ending == Unfinished
    ensures var selected := Stepped(d, ReapSelect(l));
            && Allowed(d, ReapSelect(l)) && Allowed(selected, ReapClose(l))
            && Stepped(selected, ReapClose(l)).reaps == d.reaps
            && Stepped(selected, ReapClose(l)).rows[p]
               == (if d.rows[p].startedAt + 2 * d.rows[p].budget + 3_600_000 < d.now
                   then d.rows[p].(ending := Died) else d.rows[p])
  {
  }

  // A claim that lands on a lock nobody holds, or on the run's own, keeps it for two minutes; no other takes it.
  ghost predicate Takes(d: Audits, next: Audits, p: nat, landed: bool) {
    var free := Holder(d.lock, d.now) == None || Holder(d.lock, d.now) == Some(p);
    if landed && free
    then next.lock == HeldBy(p, d.now + 120_000)
    else next.lock == d.lock
  }

  // So a run counts as claimed exactly if it has the lock, and starts if it does or if it was not told.
  lemma {:induction false} ClaimsTake(d: Audits, p: nat, budget: nat, landed: bool)
    requires p !in d.runs && p !in d.rows && Holder(d.lock, d.now) != Some(p)
    ensures var free := Holder(d.lock, d.now) == None;
            var next, unanswered := Stepped(d, Claim(p, budget)), Stepped(d, ClaimUnanswered(p, budget, landed));
            && Takes(d, next, p, true) && Takes(d, unanswered, p, landed)
            && next.runs == (if free then d.runs[p := Run(true, d.now, budget, Claimed)] else d.runs)
            && unanswered.runs == d.runs[p := Run(landed && free, d.now, budget, Claimed)]
  {
  }

  // A renewal takes it again, and a release that lands gives it up.
  lemma {:induction false} RenewsAndReleases(d: Audits, p: nat, landed: bool)
    requires p in d.runs && Alive(d.runs[p].phase)
    ensures Takes(d, Stepped(d, Renew(p)), p, true)
    ensures d.runs[p].phase == Closing ==>
              var next := Stepped(d, Release(p, landed));
              && next.runs == d.runs[p := d.runs[p].(phase := Over)]
              && (landed ==> Holder(next.lock, d.now) != Some(p))
              && (!landed || Holder(d.lock, d.now) != Some(p) ==> next.lock == d.lock)
  {
  }

  /**
   A run nothing comes in the way of opens its row and ends it; one whose insert fails leaves none, and one whose end
   cannot be written leaves it open, for a listing to close. Each leaves the lock free.
   */
  lemma {:induction false} RunsEnd(now: nat, p: nat, budget: nat)
    ensures var done := [Claim(p, budget), Stamp(p), Insert(p), Finish(p), Release(p, true)];
            EndsWith(now, done, p, map[p := Row(now, budget, Finished)])
    ensures var unwritten := [Claim(p, budget), Stamp(p), Insert(p), GiveUp(p), Release(p, true)];
            EndsWith(now, unwritten, p, map[p := Row(now, budget, Unfinished)])
    ensures EndsWith(now, [Claim(p, budget), Stamp(p), GiveUp(p), Release(p, true)], p, map[])
  {
    var start := [Claim(p, budget), Stamp(p)];
    var claimed := RunStarts(now, p, budget);
    var stamped := claimed.(runs := map[p := Run(true, now, budget, Stamped(now))]);
    FailsToInsert(Initial(now), start, stamped, p);
    var begun := claimed.(runs := map[p := Run(true, now, budget, Opened)],
                          rows := map[p := Row(now, budget, Unfinished)]);
    OneStep(stamped, Insert(p));
    RunsOn(Initial(now), start, [Insert(p)]);
    EndsRow(Initial(now), start + [Insert(p)], begun, p);
    assert start + [GiveUp(p), Release(p, true)] == [Claim(p, budget), Stamp(p), GiveUp(p), Release(p, true)];
    assert start + [Insert(p)] + [GiveUp(p), Release(p, true)]
        == [Claim(p, budget), Stamp(p), Insert(p), GiveUp(p), Release(p, true)];
    assert start + [Insert(p)] + [Finish(p), Release(p, true)]
        == [Claim(p, budget), Stamp(p), Insert(p), Finish(p), Release(p, true)];
  }

  lemma {:induction false} RunStarts(now: nat, p: nat, budget: nat) returns (claimed: Audits)
    ensures claimed
         == Initial(now).(lock := HeldBy(p, now + RUN_LOCK_TTL_MS), runs := map[p := Run(true, now, budget, Claimed)])
    ensures Legal(Initial(now), [Claim(p, budget), Stamp(p)])
    ensures Ran(Initial(now), [Claim(p, budget), Stamp(p)])
         == claimed.(runs := map[p := Run(true, now, budget, Stamped(now))])
  {
    var d := Initial(now);
    claimed := Stepped(d, Claim(p, budget));
    assert claimed.runs == map[p := Run(true, now, budget, Claimed)];
    OneStep(d, Claim(p, budget));
    OneStep(claimed, Stamp(p));
    RunsOn(d, [Claim(p, budget)], [Stamp(p)]);
    assert [Claim(p, budget)] + [Stamp(p)] == [Claim(p, budget), Stamp(p)];
  }

  lemma {:induction false} FailsToInsert(d: Audits, start: seq<Step>, stamped: Audits, p: nat)
    requires Legal(d, start) && Ran(d, start) == stamped
    requires p in stamped.runs && stamped.runs[p].phase.Stamped? && Holder(stamped.lock, stamped.now) == Some(p)
    ensures Legal(d, start + [GiveUp(p), Release(p, true)])
    ensures var end := Ran(d, start + [GiveUp(p), Release(p, true)]);
            end.lock == Free && InPhase(end, p, Over) && end.rows == stamped.rows
  {
    Closes(stamped, GiveUp(p), p);
    RunsOn(d, start, [GiveUp(p), Release(p, true)]);
  }

  lemma {:induction false} EndsRow(d: Audits, open: seq<Step>, begun: Audits, p: nat)
    requires Legal(d, open) && Ran(d, open) == begun
    requires InPhase(begun, p, Opened) && p in begun.rows && Holder(begun.lock, begun.now) == Some(p)
    ensures Legal(d, open + [Finish(p), Release(p, true)]) && Legal(d, open + [GiveUp(p), Release(p, true)])
    ensures var end := Ran(d, open + [Finish(p), Release(p, true)]);
            end.lock == Free && InPhase(end, p, Over)
            && end.rows == begun.rows[p := begun.rows[p].(ending := Finished)]
    ensures var end := Ran(d, open + [GiveUp(p), Release(p, true)]);
            end.lock == Free && InPhase(end, p, Over) && end.rows == begun.rows
  {
    Closes(begun, Finish(p), p);
    RunsOn(d, open, [Finish(p), Release(p, true)]);
    Closes(begun, GiveUp(p), p);
    RunsOn(d, open, [GiveUp(p), Release(p, true)]);
  }

  ghost predicate EndsWith(now: nat, steps: seq<Step>, p: nat, rows: map<nat, Row>) {
    && Legal(Initial(now), steps)
    && var end := Ran(Initial(now), steps);
    end.lock == Free && InPhase(end, p, Over) && end.rows == rows
  }

  lemma {:induction false} Closes(d: Audits, last: Step, p: nat)
    requires Allowed(d, last) && Assumed(d, last) && InPhase(Stepped(d, last), p, Closing)
    ensures var closing := Stepped(d, last);
            Legal(d, [last, Release(p, true)]) && Ran(d, [last, Release(p, true)]) == Stepped(closing, Release(p, true))
  {
    OneStep(d, last);
    OneStep(Stepped(d, last), Release(p, true));
    RunsOn(d, [last], [Release(p, true)]);
    assert [last] + [Release(p, true)] == [last, Release(p, true)];
  }

  // At most one run whose claim took the lock is alive at a time.
  lemma {:induction false} OneRunAtATime(now: nat, steps: seq<Step>, p: nat, q: nat)
    requires Legal(Initial(now), steps)
    requires var runs := Ran(Initial(now), steps).runs;
             p in runs && q in runs && Owning(runs[p]) && Owning(runs[q])
    ensures p == q
  {
    RunKeepsSafe(Initial(now), steps);
  }

  function Listed(l: nat): seq<Step> {
    [ReadHolder(l), TakeNow(l), CloseUnclaimed(l)]
  }

  // What a listing is for: with the lock free, it ends in its three steps the row of a run that died more than five
  // seconds in, and no younger one.
  lemma {:induction false} DeadRowIsClosed(d: Audits, l: nat, p: nat)
    requires Holder(d.lock, d.now) == None && l !in d.listings
    requires p in d.rows && d.rows[p].ending == Unfinished
    ensures Legal(d, Listed(l))
    ensures var end := Ran(d, Listed(l));
            && end.runs == d.runs && end.listings == d.listings && p in end.rows
            && end.rows[p] == if d.rows[p].startedAt + 5_000 < d.now then d.rows[p].(ending := Died) else d.rows[p]
  {
    var steps := Listed(l);
    var d1 := Stepped(d, steps[0]);
    var d2 := Stepped(d1, steps[1]);
    assert steps[1..] == [TakeNow(l), CloseUnclaimed(l)];
    assert steps[1..][1..] == [CloseUnclaimed(l)];
    var d3 := Stepped(d2, steps[2]);
    assert [CloseUnclaimed(l)][1..] == [];
    assert Legal(d3, []) && Ran(d3, []) == d3;
    assert Legal(d2, [CloseUnclaimed(l)]) && Ran(d2, [CloseUnclaimed(l)]) == d3;
    assert Legal(d1, [TakeNow(l), CloseUnclaimed(l)]);
  }

  // ---------- and a row no claim protects ----------

  lemma {:induction false} RunsOn(d: Audits, first: seq<Step>, more: seq<Step>)
    requires Legal(d, first) && Legal(Ran(d, first), more)
    ensures Legal(d, first + more) && Ran(d, first + more) == Ran(Ran(d, first), more)
    decreases |first|
  {
    if first == [] {
      assert first + more == more;
    } else {
      RunsOn(Stepped(d, first[0]), first[1..], more);
      assert (first + more)[1..] == first[1..] + more;
    }
  }

  lemma {:induction false} OneStep(d: Audits, step: Step)
    requires Allowed(d, step) && Assumed(d, step)
    ensures Legal(d, [step]) && Ran(d, [step]) == Stepped(d, step)
  {
    assert [step][1..] == [];
    assert Legal(Stepped(d, step), []) && Ran(Stepped(d, step), []) == Stepped(d, step);
  }

  lemma {:induction false} OneMore(ids: set<nat>) returns (l: nat)
    ensures forall id :: id in ids ==> id < l
  {
    l := 0;
    if ids != {} {
      var id :| id in ids;
      var bound := OneMore(ids - {id});
      assert forall other :: other in ids ==> other == id || other in ids - {id};
      l := if id < bound then bound else id + 1;
    }
  }

  // Nothing that lives holds the lock.
  ghost predicate Lapsing(d: Audits) {
    d.lock.HeldBy? && d.lock.token in d.runs ==> !Owning(d.runs[d.lock.token])
  }

  ghost predicate NoReaps(steps: seq<Step>) {
    forall k :: 0 <= k < |steps| ==> !steps[k].ReapClose?
  }

  lemma {:induction false} NoReapsTogether(first: seq<Step>, more: seq<Step>)
    requires NoReaps(first) && NoReaps(more)
    ensures NoReaps(first + more)
  {
  }

  // Past the lock's expiry and the row's margin.
  function Patience(lock: Lock<nat>, row: Row): nat {
    (if lock.HeldBy? then lock.expiresAt else 0) + row.startedAt + UNCLAIMED_MARGIN_MS + 1
  }

  lemma {:induction false} Lapses(d: Audits, wait: nat)
    requires Lapsing(d) && (d.lock.HeldBy? ==> d.lock.expiresAt < wait)
    ensures Legal(d, [Tick(wait)])
    ensures Ran(d, [Tick(wait)]) == d.(now := d.now + wait) && Holder(d.lock, d.now + wait) == None
  {
    OneStep(d, Tick(wait));
  }

  // Without any other run to keep the lock, it lapses, and a listing ends the row.
  lemma {:induction false} LapsesAndCloses(d: Audits, p: nat) returns (more: seq<Step>)
    requires Lapsing(d) && p in d.rows && d.rows[p].ending == Unfinished
    ensures Legal(d, more) && NoReaps(more)
    ensures var end := Ran(d, more);
            end.runs == d.runs && p in end.rows && end.rows[p] == d.rows[p].(ending := Died)
  {
    var l := OneMore(d.listings.Keys);
    var wait := Patience(d.lock, d.rows[p]);
    Lapses(d, wait);
    DeadRowIsClosed(d.(now := d.now + wait), l, p);
    RunsOn(d, [Tick(wait)], Listed(l));
    NoReapsTogether([Tick(wait)], Listed(l));
    more := [Tick(wait)] + Listed(l);
  }

  // So the row of a run whose claim never took the lock can be ended while it audits: any other run can die first.
  lemma {:induction false} UnclaimedCanBeClosed(d: Audits, p: nat) returns (more: seq<Step>)
    requires Safe(d) && p in d.runs && !d.runs[p].claimed && p in d.rows && d.rows[p].ending == Unfinished
    ensures Legal(d, more) && NoReaps(more)
    ensures var end := Ran(d, more);
            && p in end.runs && end.runs[p] == d.runs[p]
            && p in end.rows && end.rows[p] == d.rows[p].(ending := Died)
  {
    if Lapsing(d) {
      more := LapsesAndCloses(d, p);
    } else {
      var q := d.lock.token;
      OneStep(d, Crash(q));
      var rest := LapsesAndCloses(Stepped(d, Crash(q)), p);
      RunsOn(d, [Crash(q)], rest);
      NoReapsTogether([Crash(q)], rest);
      more := [Crash(q)] + rest;
    }
  }

  lemma {:induction false} StaysDead(d: Audits, steps: seq<Step>, p: nat)
    requires Legal(d, steps) && p in d.runs && !Alive(d.runs[p].phase)
    ensures p in Ran(d, steps).runs && !Alive(Ran(d, steps).runs[p].phase)
    decreases |steps|
  {
    if steps != [] {
      StaysDead(Stepped(d, steps[0]), steps[1..], p);
    }
  }

  lemma {:induction false} ClaimedIsSpared(d: Audits, steps: seq<Step>, p: nat)
    requires Safe(d) && Legal(d, steps) && NoReaps(steps)
    requires p in d.runs && d.runs[p].claimed && p in d.rows && d.rows[p].ending != Died
    requires p in Ran(d, steps).runs && Alive(Ran(d, steps).runs[p].phase)
    ensures p in Ran(d, steps).rows && Ran(d, steps).rows[p].ending != Died
    decreases |steps|
  {
    if steps != [] {
      var next := Stepped(d, steps[0]);
      if !Alive(d.runs[p].phase) {
        StaysDead(d, steps, p);
      }
      OneStepSpares(d, steps[0], p);
      StepKeepsSafe(d, steps[0]);
      assert NoReaps(steps[1..]);
      ClaimedIsSpared(next, steps[1..], p);
    }
  }

  // Some way on from here a listing ends the row with its run alive: no reap is part of it.
  ghost predicate CanBeClosedUnder(d: Audits, p: nat) {
    exists more :: ClosesUnder(d, p, more)
  }

  ghost predicate ClosesUnder(d: Audits, p: nat, more: seq<Step>) {
    && Legal(d, more) && NoReaps(more)
    && var end := Ran(d, more);
    p in end.runs && Alive(end.runs[p].phase) && p in end.rows && end.rows[p].ending == Died
  }

  /**
   After any run: the open row of a run that is alive can be ended under it by a listing exactly if the claim of that
   run did not take the lock. That its claim was answered is not needed, that it landed is.
   */
  lemma {:induction false} ClosedUnderUnlessClaimed(now: nat, steps: seq<Step>, p: nat)
    requires Legal(Initial(now), steps)
    requires var d := Ran(Initial(now), steps);
             p in d.runs && Alive(d.runs[p].phase) && p in d.rows && d.rows[p].ending == Unfinished
    ensures var d := Ran(Initial(now), steps); CanBeClosedUnder(d, p) <==> !d.runs[p].claimed
  {
    var d := Ran(Initial(now), steps);
    RunKeepsSafe(Initial(now), steps);
    if d.runs[p].claimed {
      forall more | Legal(d, more) && NoReaps(more) ensures !ClosesUnder(d, p, more) {
        var end := Ran(d, more);
        if p in end.runs && Alive(end.runs[p].phase) {
          ClaimedIsSpared(d, more, p);
        }
      }
    } else {
      var more := UnclaimedCanBeClosed(d, p);
      assert ClosesUnder(d, p, more);
    }
  }

  // A run whose claim went unanswered, auditing a while later.
  function Unanswered(now: nat, budget: nat): Audits {
    var later := now + UNCLAIMED_MARGIN_MS + 1;
    Audits(Free, later, map[0 := Run(false, now, budget, Opened)], map[0 := Row(now, budget, Unfinished)], map[], map[])
  }

  lemma {:induction false} GetsUnanswered(now: nat, budget: nat) returns (steps: seq<Step>)
    ensures Legal(Initial(now), steps) && Ran(Initial(now), steps) == Unanswered(now, budget)
  {
    var d0 := Initial(now);
    steps := [ClaimUnanswered(0, budget, false), Stamp(0), Insert(0), Tick(UNCLAIMED_MARGIN_MS + 1)];
    var d1 := d0.(runs := map[0 := Run(false, now, budget, Claimed)]);
    var d2 := d0.(runs := map[0 := Run(false, now, budget, Stamped(now))]);
    var d3 := Unanswered(now, budget).(now := now);
    assert Stepped(d0, steps[0]) == d1 && Stepped(d1, steps[1]) == d2 && Stepped(d2, steps[2]) == d3;
    LastStep(d3, steps[3..]);
    assert steps[2..][1..] == steps[3..];
    assert Legal(d2, steps[2..]) && Ran(d2, steps[2..]) == Unanswered(now, budget);
    assert steps[1..][1..] == steps[2..];
    assert Legal(d1, steps[1..]) && Ran(d1, steps[1..]) == Unanswered(now, budget);
  }

  lemma {:induction false} LastStep(d: Audits, steps: seq<Step>)
    requires |steps| == 1 && Allowed(d, steps[0]) && Assumed(d, steps[0])
    ensures Legal(d, steps) && Ran(d, steps) == Stepped(d, steps[0])
  {
    assert Legal(Stepped(d, steps[0]), steps[1..]);
  }

  // And there is such a run: one whose claim was lost on the way, its row ended while it audits.
  lemma {:induction false} UnansweredRunIsClosed(now: nat, budget: nat)
    ensures exists steps ::
              Legal(Initial(now), steps)
              && var d := Ran(Initial(now), steps);
              Legal(d, Listed(0)) && var end := Ran(d, Listed(0));
                                  && 0 in end.runs && end.runs[0].phase == Opened
                                  && 0 in end.rows && end.rows[0].ending == Died
  {
    var steps := GetsUnanswered(now, budget);
    DeadRowIsClosed(Unanswered(now, budget), 0, 0);
  }
}
