/**
 Which entry every statement of a run lands in and what the entry then holds, read off the events alone, and
 the proof that the recorder of api/src/database/query-audit.ts holds exactly that: its per-statement audits,
 kept one addition at a time, are the grouping of the runs in order.
 */
module QueryAuditLog {
  import opened Options
  import opened Sequences
  import AuditJson
  import opened QueryAuditItems
  import opened QueryAuditEntries
  import opened QueryAuditRecorder
  import opened QueryAuditRuns

  // An entry as the events tell it: begun by a BEGIN or a statement alone, and every run on it in order.
  datatype Logged = Logged(
    c: Connection, begun: bool, startedAt: nat, wait: nat, runs: seq<Run>,
    outcome: Option<Outcome>, ms: Option<nat>, error: Option<string>)

  // An entry just begun: only a BEGIN's has a wait of its own, since a statement's is its run's.
  function NewLogged(c: Connection, begun: bool, now: nat, wait: nat, runs: seq<Run>): Logged {
    Logged(c, begun, now, wait, runs, None, None, None)
  }

  // The latest entry of a connection; past the last when it has none.
  function LastOf(log: seq<Logged>, c: Connection): (r: nat)
    ensures r <= |log|
    ensures r < |log| ==> log[r].c == c && forall i :: r < i < |log| ==> log[i].c != c
    ensures r == |log| ==> forall i :: 0 <= i < |log| ==> log[i].c != c
  {
    if log == [] then 0
    else if log[|log| - 1].c == c then |log| - 1
    else
      var earlier := LastOf(log[..|log| - 1], c);
      if earlier == |log| - 1 then |log| else earlier
  }

  // The wait a connection's next statement reports: what the pool last took to hand it out.
  function Pending(t: Trace, c: Connection): nat {
    if t == [] then 0
    else
      var before := t[..|t| - 1];
      match t[|t| - 1]
      case Acquired(given, ms) => if given == Some(c) then ms else Pending(before, c)
      case Started(d, _, _, _) => if d == c then 0 else Pending(before, c)
      case Answered(_, _) => Pending(before, c)
  }

  function LastRunAnswered(l: Logged, ms: nat, answer: Answer): Logged {
    if l.runs == [] then l else l.(runs := l.runs[|l.runs| - 1 := FinishedRun(l.runs[|l.runs| - 1], ms, answer)])
  }

  // A statement alone gives its entry its own time.
  function RunAnswered(l: Logged, startedAt: nat, inTransaction: bool, answer: Answer): Logged {
    var ms := Since(startedAt, answer.now);
    LastRunAnswered(l, ms, answer).(ms := if inTransaction then l.ms else Some(ms))
  }

  // What an answer adds to the latest entry of its connection.
  function LoggedAnswer(l: Logged, flight: Flight, inTransaction: bool, answer: Answer): Logged {
    match flight.kind
    case Begin =>
      if answer.error.None? then l
      else l.(outcome := Some(Rollback), error := answer.error, ms := Some(Since(flight.startedAt, answer.now)))
    case OtherTransactionWord => l
    case Ordinary => RunAnswered(l, flight.startedAt, inTransaction, answer)
    case _ =>
      if !inTransaction then l
      else
        l.(outcome := Some(if Committed(flight.kind.CommitAll?, answer) then Commit else Rollback),
        error := if answer.error.Some? then answer.error else l.error, ms := Some(Since(l.startedAt, answer.now)))
  }

  function NewRun(s: bool, sql: Sql, wait: nat, bound: Option<AuditJson.Json>): Run {
    Run(if s then sql.text else sql.cutStmt, sql.cutStmt, None, wait, None, None, bound)
  }

  function Joined(l: Logged, run: Run): Logged {
    l.(runs := l.runs + [run])
  }

  function LogStep(s: bool, t: Trace, log: seq<Logged>, e: Event): seq<Logged> {
    match e
    case Acquired(_, _) => log
    case Started(c, sql, bound, now) =>
      var run, i := NewRun(s, sql, Pending(t, c), bound), LastOf(log, c);
      if sql.kind.Begin? then log + [NewLogged(c, true, now, Pending(t, c), [])]
      else if !sql.kind.Ordinary? then log
      else if c in InTransaction(t) && i < |log| then log[i := Joined(log[i], run)]
      else log + [NewLogged(c, false, now, 0, [run])]
    case Answered(c, answer) =>
      var i := LastOf(log, c);
      if c in InFlight(t) && i < |log|
      then log[i := LoggedAnswer(log[i], InFlight(t)[c], c in InTransaction(t), answer)] else log
  }

  // `s` says whether statements are logged under their text, or cut.
  function Log(s: bool, t: Trace): seq<Logged> {
    if t == [] then [] else LogStep(s, t[..|t| - 1], Log(s, t[..|t| - 1]), t[|t| - 1])
  }

  // ---------- one entry's statements are the grouping of its runs ----------

  function RunItem(run: Run): Item {
    Item(run.stmt, run.cutStmt, 1, run.ms, run.wait, run.rows, run.error,
         Some(if run.bindings.Some? then [run.bindings.value] else []))
  }

  function RunItems(runs: seq<Run>): (r: seq<Item>)
    ensures |r| == |runs|
  {
    seq(|runs|, i requires 0 <= i < |runs| => RunItem(runs[i]))
  }

  // A statement's `ms` starts at 0, a run's only once it is answered.
  function Timed(item: Item): Item {
    item.(ms := Some(item.ms.GetOr(0)))
  }

  function Grouped(runs: seq<Run>): (r: seq<Item>)
    ensures |r| == |Merged(RunItems(runs))|
  {
    var merged := Merged(RunItems(runs));
    seq(|merged|, i requires 0 <= i < |merged| => Timed(merged[i]))
  }

  lemma {:induction false} IndexIsFirst(items: seq<Item>, stmt: string, i: nat)
    requires i < |items| && items[i].stmt == stmt
    requires forall j :: 0 <= j < i ==> items[j].stmt != stmt
    ensures IndexOf(items, stmt) == i
  {
    if i > 0 {
      IndexIsFirst(items[1..], stmt, i - 1);
    }
  }

  // Where one more run goes: into the group of its statement, or into one of its own after the others.
  lemma {:induction false} GroupedSnoc(runs: seq<Run>, run: Run)
    ensures var groups, i := Merged(RunItems(runs)), IndexOf(Grouped(runs), run.stmt);
            Merged(RunItems(runs + [run]))
            == if i < |groups| then groups[i := MergeTwo(groups[i], RunItem(run))] else groups + [RunItem(run)]
  {
    var items, grouped := RunItems(runs), Grouped(runs);
    assert RunItems(runs + [run]) == items + [RunItem(run)];
    MergedIsByStatement(items);
    var i := MergedSnoc(items, RunItem(run));
    var order := FirstSeen(items);
    forall j | 0 <= j < |grouped| ensures grouped[j].stmt == order[j] {
    }
    if i < |grouped| {
      IndexIsFirst(grouped, run.stmt, i);
    } else {
      SnocIsNew(items, RunItem(run), i);
    }
  }

  lemma {:induction false} GroupedMore(runs: seq<Run>, run: Run)
    ensures var groups, grouped, i := Merged(RunItems(runs)), Grouped(runs), IndexOf(Grouped(runs), run.stmt);
            Grouped(runs + [run])
            == if i < |groups| then grouped[i := Timed(MergeTwo(groups[i], RunItem(run)))]
            else grouped + [Timed(RunItem(run))]
  {
    GroupedSnoc(runs, run);
  }

  lemma {:induction false} SnocIsNew(items: seq<Item>, last: Item, i: nat)
    requires Merged(items + [last]) == Merged(items) + [last]
    ensures forall j :: 0 <= j < |Merged(items)| ==> Merged(items)[j].stmt != last.stmt
  {
    MergedIsByStatement(items);
    MergedIsByStatement(items + [last]);
    var all := Merged(items + [last]);
    assert all[|Merged(items)|] == last;
  }

  lemma {:induction false} GroupsAreBound(runs: seq<Run>, i: nat)
    requires i < |Grouped(runs)|
    ensures Merged(RunItems(runs))[i].bindings.Some?
  {
    GroupBindings(RunItems(runs), FirstSeen(RunItems(runs))[i]);
  }

  lemma {:induction false} MergeStarted(group: Item, run: Run)
    requires group.bindings.Some? && run.ms.None? && run.rows.None? && run.error.None?
    ensures Timed(MergeTwo(group, RunItem(run))) == Counted(Timed(group), run.wait, run.bindings)
  {
    assert group.bindings.value + [] == group.bindings.value;
  }

  // A run started: its statement is counted as if the runs were grouped again.
  lemma {:induction false} StartKeepsGrouping(runs: seq<Run>, t: Transaction, run: Run, recordsRuns: bool)
    requires t.statements == Grouped(runs)
    requires run.ms.None? && run.rows.None? && run.error.None?
    ensures StartIn(t, run.stmt, run.cutStmt, run.wait, run.bindings, recordsRuns).statements == Grouped(runs + [run])
  {
    GroupedMore(runs, run);
    var groups, i := Merged(RunItems(runs)), IndexOf(t.statements, run.stmt);
    if i < |groups| {
      GroupsAreBound(runs, i);
      MergeStarted(groups[i], run);
    } else {
      assert run.bindings.Some? ==> [] + [run.bindings.value] == [run.bindings.value];
      assert Timed(RunItem(run)) == Counted(NewItem(run.stmt, run.cutStmt), run.wait, run.bindings);
    }
  }

  lemma {:induction false} MergeAnswered(group: Item, run: Run, ms: nat, answer: Answer)
    requires run.ms.None? && run.rows.None? && run.error.None?
    ensures Timed(MergeTwo(group, RunItem(FinishedRun(run, ms, answer))))
         == Finished(Timed(MergeTwo(group, RunItem(run))), ms, answer)
  {
  }

  // The answer of a run that joined a group, and of one that began its own.
  lemma {:induction false} JoinedAnswer(grouped: seq<Item>, group: Item, run: Run, at: nat, ms: nat, answer: Answer)
    requires at < |grouped| && run.ms.None? && run.rows.None? && run.error.None?
    ensures var started := Timed(MergeTwo(group, RunItem(run)));
            grouped[at := Timed(MergeTwo(group, RunItem(FinishedRun(run, ms, answer))))]
            == grouped[at := started][at := Finished(started, ms, answer)]
  {
    var started := Timed(MergeTwo(group, RunItem(run)));
    MergeAnswered(group, run, ms, answer);
    UpdatedTwice(grouped, at, started, Finished(started, ms, answer));
  }

  lemma {:induction false} OwnAnswer(grouped: seq<Item>, run: Run, ms: nat, answer: Answer)
    requires run.ms.None? && run.rows.None? && run.error.None?
    ensures var started := Timed(RunItem(run));
            grouped + [Timed(RunItem(FinishedRun(run, ms, answer)))]
            == (grouped + [started])[|grouped| := Finished(started, ms, answer)]
  {
    var started := Timed(RunItem(run));
    assert Timed(RunItem(FinishedRun(run, ms, answer))) == Finished(started, ms, answer);
    LastUpdated(grouped, started, Finished(started, ms, answer));
  }

  // The last run answered: its statement grows as if the runs were grouped again.
  lemma {:induction false} AnswerKeepsGrouping(runs: seq<Run>, run: Run, ms: nat, answer: Answer)
    requires run.ms.None? && run.rows.None? && run.error.None?
    ensures var grouped, at := Grouped(runs + [run]), IndexOf(Grouped(runs), run.stmt);
            at < |grouped|
            && Grouped(runs + [FinishedRun(run, ms, answer)]) == grouped[at := Finished(grouped[at], ms, answer)]
  {
    var finished := FinishedRun(run, ms, answer);
    assert finished.stmt == run.stmt;
    GroupedMore(runs, run);
    GroupedMore(runs, finished);
    var groups, grouped, i := Merged(RunItems(runs)), Grouped(runs), IndexOf(Grouped(runs), run.stmt);
    if i < |groups| {
      JoinedAnswer(grouped, groups[i], run, i, ms, answer);
    } else {
      OwnAnswer(grouped, run, ms, answer);
    }
  }

  // ---------- the record and the log ----------

  ghost predicate EntryHolds(t: Transaction, l: Logged, recordsRuns: bool) {
    && t.outside == !l.begun && t.startedAt == l.startedAt && t.wait == l.wait
    && t.outcome == l.outcome && t.ms == l.ms && t.error == l.error
    && t.statements == Grouped(l.runs)
    && t.runs == if recordsRuns then l.runs else []
  }

  ghost predicate Unanswered(run: Run) {
    run.ms.None? && run.rows.None? && run.error.None?
  }

  // A statement in flight: the last run of its entry, which the answer on its connection completes.
  ghost predicate Awaits(f: Finisher, l: Logged, recordsRuns: bool, inTransaction: bool, startedAt: nat)
    requires f.AfterStatement?
  {
    && l.runs != []
    && Unanswered(l.runs[|l.runs| - 1])
    && f.at == IndexOf(Grouped(l.runs[..|l.runs| - 1]), l.runs[|l.runs| - 1].stmt)
    && f.run == (if recordsRuns then Some(|l.runs| - 1) else None)
    && f.startedAt == startedAt && f.alone == !inTransaction
  }

  // The finisher of a statement in flight refers to the latest entry of its connection.
  ghost predicate RefersToLatest(f: Finisher, c: Connection, log: seq<Logged>, recordsRuns: bool,
                                 inTransaction: bool, startedAt: nat) {
    match f
    case AfterBegin(_, tx, began) => tx == LastOf(log, c) < |log| && began == startedAt
    case AfterEnd(_, tx, _) => tx == LastOf(log, c) < |log|
    case AfterStatement(_, tx, _, _, _, _) =>
      tx == LastOf(log, c) < |log| && Awaits(f, log[tx], recordsRuns, inTransaction, startedAt)
    case _ => true
  }

  ghost predicate EntriesMatch(ts: seq<Transaction>, log: seq<Logged>, recordsRuns: bool) {
    |ts| == |log| && forall i :: 0 <= i < |log| ==> EntryHolds(ts[i], log[i], recordsRuns)
  }

  ghost predicate FinishersMatch(finishers: map<Connection, Finisher>, flights: map<Connection, Flight>,
                                 inTransaction: set<Connection>, log: seq<Logged>, recordsRuns: bool)
  {
    finishers.Keys == flights.Keys
    && forall c :: c in finishers ==>
                     RefersToLatest(finishers[c], c, log, recordsRuns, c in inTransaction, flights[c].startedAt)
  }

  // An open transaction is the latest entry of its connection.
  ghost predicate LatestIsOpen(open: map<Connection, nat>, inTransaction: set<Connection>, log: seq<Logged>) {
    && (forall c :: c in inTransaction ==> LastOf(log, c) < |log| && log[LastOf(log, c)].begun)
    && (forall c :: c in open ==> open[c] == LastOf(log, c))
  }

  ghost predicate WaitsMatch(waits: map<Connection, nat>, t: Trace) {
    forall c :: Get(waits, c) == Pending(t, c)
  }

  ghost predicate Matches(s: bool, r: bool, w: World, t: Trace, log: seq<Logged>) {
    && w.audit.recordsStatements == s && w.audit.recordsRuns == r
    && EntriesMatch(w.audit.transactions, log, w.audit.recordsRuns)
    && FinishersMatch(w.finishers, InFlight(t), InTransaction(t), log, w.audit.recordsRuns)
    && LatestIsOpen(w.audit.openTransactions, InTransaction(t), log)
    && WaitsMatch(w.audit.connectionWaits, t)
  }

  lemma {:induction false} LastOfAppend(log: seq<Logged>, l: Logged, c: Connection)
    ensures LastOf(log + [l], c)
         == if l.c == c then |log| else if LastOf(log, c) == |log| then |log| + 1 else LastOf(log, c)
  {
    assert (log + [l])[..|log|] == log;
  }

  lemma {:induction false} LastOfUpdate(log: seq<Logged>, i: nat, l: Logged, c: Connection)
    requires i < |log| && l.c == log[i].c
    ensures LastOf(log[i := l], c) == LastOf(log, c)
  {
    var n := |log| - 1;
    if i < n {
      LastOfUpdate(log[..n], i, l, c);
      assert log[i := l][..n] == log[..n][i := l];
    } else {
      assert log[i := l][..n] == log[..n];
    }
  }

  function WaitsAfter(waits: map<Connection, nat>, e: Event): map<Connection, nat> {
    match e
    case Acquired(c, ms) => if c.Some? then waits[c.value := ms] else waits
    case Started(c, _, _, _) => waits - {c}
    case Answered(_, _) => waits
  }

  lemma {:induction false} StepWaits(w: World, t: Trace, e: Event)
    requires WellFormed(w) && Follows(w, t) && Allowed(t, e)
    ensures Step(w, e).audit.connectionWaits == WaitsAfter(w.audit.connectionWaits, e)
  {
    if e.Answered? {
      FinishHolds(w.audit, w.finishers[e.c], e.answer);
    }
  }

  lemma {:induction false} WaitsStep(w: World, t: Trace, e: Event)
    requires WellFormed(w) && Follows(w, t) && Allowed(t, e) && WaitsMatch(w.audit.connectionWaits, t)
    ensures WaitsMatch(Step(w, e).audit.connectionWaits, t + [e])
  {
    assert (t + [e])[..|t|] == t;
    StepWaits(w, t, e);
  }

  // ---------- a statement starts ----------

  // A connection's latest entry is left alone.
  ghost predicate LatestKept(log: seq<Logged>, log': seq<Logged>, d: Connection) {
    LastOf(log, d) < |log| ==> LastOf(log', d) == LastOf(log, d) < |log'| && log'[LastOf(log, d)] == log[LastOf(log, d)]
  }

  lemma {:induction false} FinishersAfterStart(finishers: map<Connection, Finisher>, flights: map<Connection, Flight>,
                                               inTransaction: set<Connection>, inTransaction': set<Connection>,
                                               c: Connection, flight: Flight, f: Finisher,
                                               log: seq<Logged>, log': seq<Logged>, recordsRuns: bool)
    requires FinishersMatch(finishers, flights, inTransaction, log, recordsRuns) && c !in flights
    requires forall d :: d != c ==> (d in inTransaction <==> d in inTransaction') && LatestKept(log, log', d)
    requires RefersToLatest(f, c, log', recordsRuns, c in inTransaction', flight.startedAt)
    ensures FinishersMatch(finishers[c := f], flights[c := flight], inTransaction', log', recordsRuns)
  {
    forall d | d in finishers
      ensures RefersToLatest(finishers[d], d, log', recordsRuns, d in inTransaction', flights[d].startedAt)
    {
      assert LatestKept(log, log', d);
    }
  }

  lemma {:induction false} AppendKeepsOthers(log: seq<Logged>, l: Logged)
    ensures forall d :: d != l.c ==> LatestKept(log, log + [l], d)
    ensures LastOf(log + [l], l.c) == |log|
  {
    forall d ensures LastOf(log + [l], d)
                  == if l.c == d then |log| else if LastOf(log, d) == |log| then |log| + 1 else LastOf(log, d)
    {
      LastOfAppend(log, l, d);
    }
  }

  lemma {:induction false} UpdateKeepsOthers(log: seq<Logged>, i: nat, l: Logged, log': seq<Logged>)
    requires i < |log| && l.c == log[i].c && log' == log[i := l]
    ensures forall d :: LastOf(log', d) == LastOf(log, d)
    ensures forall d :: d != l.c ==> LatestKept(log, log', d)
  {
    forall d ensures LastOf(log', d) == LastOf(log, d) {
      LastOfUpdate(log, i, l, d);
    }
  }

  lemma {:induction false} UpdateMatches(ts: seq<Transaction>, log: seq<Logged>, i: nat, u: Transaction,
                                         l: Logged, recordsRuns: bool)
    requires EntriesMatch(ts, log, recordsRuns) && i < |log| && EntryHolds(u, l, recordsRuns)
    ensures EntriesMatch(ts[i := u], log[i := l], recordsRuns)
  {
  }

  // What a started statement of each kind leaves: the entries as logged, and its finisher on the latest of them.
  ghost predicate StartKept(ts: seq<Transaction>, f: Finisher, c: Connection, log: seq<Logged>, recordsRuns: bool,
                            inTransaction: bool, now: nat)
  {
    EntriesMatch(ts, log, recordsRuns) && RefersToLatest(f, c, log, recordsRuns, inTransaction, now)
  }

  lemma {:induction false} BeginKeeps(en: Entries, c: Connection, wait: nat, now: nat, log: seq<Logged>)
    requires EntriesMatch(en.transactions, log, en.recordsRuns)
    ensures StartKept(en.transactions + [NewTransaction(now, wait, false)], AfterBegin(c, |en.transactions|, now), c,
                      log + [NewLogged(c, true, now, wait, [])], en.recordsRuns, true, now)
  {
    AppendKeepsOthers(log, NewLogged(c, true, now, wait, []));
    assert Grouped([]) == [];
  }

  lemma {:induction false} StartInKeeps(t: Transaction, l: Logged, run: Run, recordsRuns: bool)
    requires EntryHolds(t, l, recordsRuns) && Unanswered(run)
    ensures EntryHolds(StartIn(t, run.stmt, run.cutStmt, run.wait, run.bindings, recordsRuns), Joined(l, run),
                       recordsRuns)
  {
    StartKeepsGrouping(l.runs, t, run, recordsRuns);
  }

  // A run begun in an entry is the one its finisher awaits.
  lemma {:induction false} RunAwaits(t: Transaction, l: Logged, run: Run, f: Finisher, recordsRuns: bool,
                                     inTransaction: bool, now: nat)
    requires EntryHolds(t, l, recordsRuns) && Unanswered(run) && f.AfterStatement?
    requires f.at == IndexOf(t.statements, run.stmt) && f.run == (if recordsRuns then Some(|t.runs|) else None)
    requires f.startedAt == now && f.alone == !inTransaction
    ensures Awaits(f, Joined(l, run), recordsRuns, inTransaction, now)
  {
    assert Joined(l, run).runs[..|l.runs|] == l.runs;
  }

  // A statement alone begins its entry with its run.
  lemma {:induction false} AloneHolds(c: Connection, run: Run, recordsRuns: bool, now: nat)
    requires Unanswered(run)
    ensures EntryHolds(NewTransaction(now, 0, true), NewLogged(c, false, now, 0, []), recordsRuns)
    ensures Joined(NewLogged(c, false, now, 0, []), run) == NewLogged(c, false, now, 0, [run])
  {
    assert Grouped([]) == [];
    assert [] + [run] == [run];
  }

  lemma {:induction false} AppendMatches(ts: seq<Transaction>, log: seq<Logged>, u: Transaction, l: Logged,
                                         recordsRuns: bool)
    requires EntriesMatch(ts, log, recordsRuns) && EntryHolds(u, l, recordsRuns)
    ensures EntriesMatch(ts + [u], log + [l], recordsRuns)
  {
  }

  lemma {:induction false} AloneKeeps(en: Entries, sql: Sql, c: Connection, wait: nat,
                                      bound: Option<AuditJson.Json>, now: nat, log: seq<Logged>)
    requires InRange(en) && EntriesMatch(en.transactions, log, en.recordsRuns) && c !in en.openTransactions
    ensures var (ts, f) := StartOrdinary(en, sql, c, wait, bound, now);
            StartKept(ts, f, c, log + [NewLogged(c, false, now, 0, [NewRun(en.recordsStatements, sql, wait, bound)])],
                      en.recordsRuns, false, now)
  {
    var run := NewRun(en.recordsStatements, sql, wait, bound);
    var l, was := NewLogged(c, false, now, 0, []), NewTransaction(now, 0, true);
    AppendKeepsOthers(log, Joined(l, run));
    AloneHolds(c, run, en.recordsRuns, now);
    StartInKeeps(was, l, run, en.recordsRuns);
    var t := StartIn(was, run.stmt, run.cutStmt, wait, bound, en.recordsRuns);
    AppendMatches(en.transactions, log, t, Joined(l, run), en.recordsRuns);
    var (ts, f) := StartOrdinary(en, sql, c, wait, bound, now);
    assert ts == en.transactions + [t] && f.tx == |log|;
    RunAwaits(was, l, run, f, en.recordsRuns, false, now);
  }

  lemma {:induction false} JoinKeeps(en: Entries, sql: Sql, c: Connection, wait: nat,
                                     bound: Option<AuditJson.Json>, now: nat, log: seq<Logged>)
    requires InRange(en) && EntriesMatch(en.transactions, log, en.recordsRuns) && c in en.openTransactions
    requires en.openTransactions[c] == LastOf(log, c) < |log|
    ensures var (ts, f) := StartOrdinary(en, sql, c, wait, bound, now);
            var i := LastOf(log, c);
            StartKept(ts, f, c, log[i := Joined(log[i], NewRun(en.recordsStatements, sql, wait, bound))],
                      en.recordsRuns, true, now)
  {
    var run, i := NewRun(en.recordsStatements, sql, wait, bound), LastOf(log, c);
    var l, was := Joined(log[i], run), en.transactions[i];
    assert EntryHolds(was, log[i], en.recordsRuns);
    LastOfUpdate(log, i, l, c);
    StartInKeeps(was, log[i], run, en.recordsRuns);
    var t := StartIn(was, run.stmt, run.cutStmt, wait, bound, en.recordsRuns);
    UpdateMatches(en.transactions, log, i, t, l, en.recordsRuns);
    var (ts, f) := StartOrdinary(en, sql, c, wait, bound, now);
    assert ts == en.transactions[i := t] && f.tx == i;
    RunAwaits(was, log[i], run, f, en.recordsRuns, true, now);
  }

  // Entries and runs are only added.
  ghost predicate RunsGrow(log: seq<Logged>, log': seq<Logged>) {
    |log| <= |log'| && forall i :: 0 <= i < |log| ==> log'[i].(runs := []) == log[i].(runs := [])
  }

  lemma {:induction false} AppendGrows(log: seq<Logged>, l: Logged)
    ensures RunsGrow(log, log + [l])
  {
  }

  lemma {:induction false} JoinGrows(log: seq<Logged>, i: nat, run: Run)
    requires i < |log|
    ensures RunsGrow(log, log[i := Joined(log[i], run)])
  {
  }

  // A start adds an entry or a run, and changes no outcome.
  lemma {:induction false} StartLog(s: bool, t: Trace, e: Event, log: seq<Logged>)
    requires e.Started?
    ensures var log' := LogStep(s, t, log, e);
            && RunsGrow(log, log')
            && (forall d :: d != e.c ==> LatestKept(log, log', d))
            && (LastOf(log', e.c) == LastOf(log, e.c) < |log| ==>
                  !e.sql.kind.Begin? && (e.sql.kind.Ordinary? ==> e.c in InTransaction(t)))
            && (e.sql.kind.Begin? ==> LastOf(log', e.c) == |log|)
            && (e.c in InTransaction(t) && !e.sql.kind.Begin? && LastOf(log, e.c) < |log| ==>
                  LastOf(log', e.c) == LastOf(log, e.c))
  {
    var c := e.c;
    var run, i := NewRun(s, e.sql, Pending(t, c), e.bound), LastOf(log, c);
    if e.sql.kind.Begin? {
      AppendKeepsOthers(log, NewLogged(c, true, e.now, Pending(t, c), []));
      AppendGrows(log, NewLogged(c, true, e.now, Pending(t, c), []));
    } else if e.sql.kind.Ordinary? {
      if c in InTransaction(t) && i < |log| {
        UpdateKeepsOthers(log, i, Joined(log[i], run), LogStep(s, t, log, e));
        JoinGrows(log, i, run);
      } else {
        AppendKeepsOthers(log, NewLogged(c, false, e.now, 0, [run]));
        AppendGrows(log, NewLogged(c, false, e.now, 0, [run]));
      }
    }
  }

  // The entries after any start are those of the log.
  lemma {:induction false} StartKindKeeps(en: Entries, t: Trace, e: Event, log: seq<Logged>)
    requires e.Started? && InRange(en) && EntriesMatch(en.transactions, log, en.recordsRuns)
    requires LatestIsOpen(en.openTransactions, InTransaction(t), log)
    requires (e.c in InTransaction(t)) == (e.c in en.openTransactions)
    ensures var log' := LogStep(en.recordsStatements, t, log, e);
            var (ts, open, f) := StartKind(en, e.sql, e.c, Pending(t, e.c), e.bound, e.now);
            StartKept(ts, f, e.c, log', en.recordsRuns, e.sql.kind.Begin? || e.c in InTransaction(t), e.now)
  {
    var c, wait := e.c, Pending(t, e.c);
    match e.sql.kind
    case Begin => BeginKeeps(en, c, wait, e.now, log);
    case OtherTransactionWord =>
    case Ordinary =>
      if c in en.openTransactions {
        JoinKeeps(en, e.sql, c, wait, e.bound, e.now, log);
      } else {
        AloneKeeps(en, e.sql, c, wait, e.bound, e.now, log);
      }
    case _ =>
  }

  lemma {:induction false} LatestAfterStart(open: map<Connection, nat>, open': map<Connection, nat>,
                                            inTransaction: set<Connection>,
                                            inTransaction': set<Connection>, c: Connection, log: seq<Logged>,
                                            log': seq<Logged>)
    requires LatestIsOpen(open, inTransaction, log)
    requires forall d :: d != c ==> LatestKept(log, log', d) && (d in inTransaction <==> d in inTransaction')
    requires c in inTransaction' ==> LastOf(log', c) < |log'| && log'[LastOf(log', c)].begun
    requires forall d :: d in open' && d != c ==> d in inTransaction && d in open && open'[d] == open[d]
    requires c in open' ==> open'[c] == LastOf(log', c)
    ensures LatestIsOpen(open', inTransaction', log')
  {
    forall d | d in inTransaction' ensures LastOf(log', d) < |log'| && log'[LastOf(log', d)].begun {
      assert d != c ==> LatestKept(log, log', d);
    }
    forall d | d in open' ensures open'[d] == LastOf(log', d) {
      assert d != c ==> LatestKept(log, log', d);
    }
  }

  lemma {:induction false} StartMatches(s: bool, r: bool, w: World, t: Trace, e: Event, log: seq<Logged>)
    requires WellFormed(w) && Follows(w, t) && Matches(s, r, w, t, log) && e.Started? && Allowed(t, e)
    ensures Matches(s, r, Step(w, e), t + [e], LogStep(s, t, log, e))
  {
    var all, c, en := t + [e], e.c, EntriesOf(w.audit);
    var log' := LogStep(s, t, log, e);
    assert all[..|t|] == t;
    WaitsStep(w, t, e);
    assert c in InTransaction(t) <==> c in en.openTransactions;
    StartKindKeeps(en, t, e, log);
    StartLog(s, t, e, log);
    var (ts, open, f) := StartKind(en, e.sql, c, Pending(t, c), e.bound, e.now);
    FinishersAfterStart(w.finishers, InFlight(t), InTransaction(t), InTransaction(all), c, Flight(e.sql.kind, e.now), f,
                        log, log', r);
    StartKindFollows(en, e.sql, c, Pending(t, c), e.bound, e.now);
    LatestAfterStart(en.openTransactions, open, InTransaction(t), InTransaction(all), c, log, log');
  }

  // ---------- a statement is answered ----------

  lemma {:induction false} AnswerInKeeps(t: Transaction, l: Logged, f: Finisher, recordsRuns: bool,
                                         inTransaction: bool, startedAt: nat, answer: Answer)
    requires EntryHolds(t, l, recordsRuns) && f.AfterStatement? && Awaits(f, l, recordsRuns, inTransaction, startedAt)
    requires f.at < |t.statements|
    ensures EntryHolds(FinishIn(t, f, answer), RunAnswered(l, startedAt, inTransaction, answer), recordsRuns)
  {
    var n, ms := |l.runs| - 1, Since(startedAt, answer.now);
    var earlier, last := l.runs[..n], l.runs[n];
    assert l.runs == earlier + [last];
    AnswerKeepsGrouping(earlier, last, ms, answer);
    assert l.runs[n := FinishedRun(last, ms, answer)] == earlier + [FinishedRun(last, ms, answer)];
  }

  lemma {:induction false} AnswerKeeps(ts: seq<Transaction>, f: Finisher, c: Connection, flight: Flight,
                                       inTransaction: bool,
                                       answer: Answer, log: seq<Logged>, recordsRuns: bool)
    requires EntriesMatch(ts, log, recordsRuns) && Refers(f, ts)
    requires FinishesKind(f, c, flight.kind, inTransaction)
    requires RefersToLatest(f, c, log, recordsRuns, inTransaction, flight.startedAt)
    ensures var i := LastOf(log, c);
            EntriesMatch(AnsweredEntries(ts, f, answer),
                         if i < |log| then log[i := LoggedAnswer(log[i], flight, inTransaction, answer)] else log,
                         recordsRuns)
  {
    var i := LastOf(log, c);
    if i < |log| {
      var t, l := ts[i], log[i];
      assert EntryHolds(t, l, recordsRuns);
      if f.AfterStatement? {
        AnswerInKeeps(t, l, f, recordsRuns, inTransaction, flight.startedAt, answer);
        UpdateMatches(ts, log, i, FinishIn(t, f, answer), LoggedAnswer(l, flight, inTransaction, answer), recordsRuns);
      } else if f.AfterEnd? {
        UpdateMatches(ts, log, i, Ended(t, f.commits, answer), LoggedAnswer(l, flight, inTransaction, answer),
                      recordsRuns);
      } else if f.AfterBegin? && answer.error.Some? {
        UpdateMatches(ts, log, i, Refused(t, f.startedAt, answer), LoggedAnswer(l, flight, inTransaction, answer),
                      recordsRuns);
      } else {
        SameEntry(log, i);
      }
    }
  }

  lemma {:induction false} SameEntry(log: seq<Logged>, i: nat)
    requires i < |log|
    ensures log[i := log[i]] == log
  {
  }

  lemma {:induction false} FinishersAfterAnswer(finishers: map<Connection, Finisher>, flights: map<Connection, Flight>,
                                                inTransaction: set<Connection>, inTransaction': set<Connection>,
                                                c: Connection, log: seq<Logged>, log': seq<Logged>, recordsRuns: bool)
    requires FinishersMatch(finishers, flights, inTransaction, log, recordsRuns)
    requires forall d :: d != c ==> (d in inTransaction <==> d in inTransaction') && LatestKept(log, log', d)
    ensures FinishersMatch(finishers - {c}, flights - {c}, inTransaction', log', recordsRuns)
  {
    forall d | d in finishers && d != c
      ensures RefersToLatest(finishers[d], d, log', recordsRuns, d in inTransaction', flights[d].startedAt)
    {
      assert LatestKept(log, log', d);
    }
  }

  // The log and the entries after any answer.
  lemma {:induction false} AnswerEntries(s: bool, r: bool, t: Trace, e: Event, log: seq<Logged>,
                                         ts: seq<Transaction>, f: Finisher)
    requires e.Answered? && Allowed(t, e) && EntriesMatch(ts, log, r) && Refers(f, ts)
    requires FinishesKind(f, e.c, InFlight(t)[e.c].kind, e.c in InTransaction(t))
    requires RefersToLatest(f, e.c, log, r, e.c in InTransaction(t), InFlight(t)[e.c].startedAt)
    ensures EntriesMatch(AnsweredEntries(ts, f, e.answer), LogStep(s, t, log, e), r)
  {
    AnswerKeeps(ts, f, e.c, InFlight(t)[e.c], e.c in InTransaction(t), e.answer, log, r);
  }

  // An answer changes no other connection's latest entry, and none's place.
  lemma {:induction false} AnswerLog(s: bool, t: Trace, e: Event, log: seq<Logged>)
    requires e.Answered?
    ensures var log' := LogStep(s, t, log, e);
            |log'| == |log| && (forall i :: 0 <= i < |log| ==> log'[i].begun == log[i].begun)
            && (forall d :: LastOf(log', d) == LastOf(log, d)) && (forall d :: d != e.c ==> LatestKept(log, log', d))
  {
    var i := LastOf(log, e.c);
    if e.c in InFlight(t) && i < |log| {
      UpdateKeepsOthers(log, i, LoggedAnswer(log[i], InFlight(t)[e.c], e.c in InTransaction(t), e.answer),
                        LogStep(s, t, log, e));
    }
  }

  lemma {:induction false} AnswerOthers(s: bool, r: bool, t: Trace, e: Event, log: seq<Logged>,
                                        finishers: map<Connection, Finisher>,
                                        open: map<Connection, nat>, open': map<Connection, nat>)
    requires e.Answered? && Allowed(t, e)
    requires FinishersMatch(finishers, InFlight(t), InTransaction(t), log, r)
    requires LatestIsOpen(open, InTransaction(t), log)
    requires open' == open || open' == open - {e.c}
    ensures var all, log' := t + [e], LogStep(s, t, log, e);
            FinishersMatch(finishers - {e.c}, InFlight(all), InTransaction(all), log', r)
            && LatestIsOpen(open', InTransaction(all), log')
  {
    var all, log' := t + [e], LogStep(s, t, log, e);
    assert all[..|t|] == t;
    AnswerLog(s, t, e, log);
    FinishersAfterAnswer(finishers, InFlight(t), InTransaction(t), InTransaction(all), e.c, log, log', r);
  }

  lemma {:induction false} AnswerMatches(s: bool, r: bool, w: World, t: Trace, e: Event, log: seq<Logged>)
    requires WellFormed(w) && Follows(w, t) && Matches(s, r, w, t, log) && e.Answered? && Allowed(t, e)
    ensures Matches(s, r, Step(w, e), t + [e], LogStep(s, t, log, e))
  {
    var f := w.finishers[e.c];
    WaitsStep(w, t, e);
    FinishHolds(w.audit, f, e.answer);
    FinishOpens(w.audit, f, e.answer);
    FinishEntries(w.audit, f, e.answer);
    AnswerEntries(s, r, t, e, log, w.audit.transactions, f);
    AnswerOthers(s, r, t, e, log, w.finishers, w.audit.openTransactions, Finish(w.audit, f, e.answer).openTransactions);
  }

  lemma {:induction false} RunMatches(s: bool, r: bool, t: Trace)
    requires Legal(t)
    ensures Matches(s, r, Recorded(s, r, t), t, Log(s, t))
  {
    if t != [] {
      var before, e := t[..|t| - 1], t[|t| - 1];
      assert t == before + [e];
      RunMatches(s, r, before);
      RunFollows(s, r, before);
      var w := Recorded(s, r, before);
      if e.Started? {
        StartMatches(s, r, w, before, e, Log(s, before));
      } else if e.Answered? {
        AnswerMatches(s, r, w, before, e, Log(s, before));
      } else {
        WaitsStep(w, before, e);
      }
    }
  }

  /**
   Every statement lands in the transaction open on its own connection when it started, or in an entry of its
   own; every entry's outcome, error, time and wait are what its own BEGIN and end answered; and its per-statement
   audits are at every moment the grouping of its runs in order, whether or not the runs themselves are recorded.
   */
  lemma {:induction false} RecordsWhatHappened(s: bool, r: bool, t: Trace, i: nat)
    requires Legal(t) && i < |Log(s, t)|
    ensures var ts, l := Recorded(s, r, t).audit.transactions, Log(s, t)[i];
            |ts| == |Log(s, t)|
            && ts[i].outside == !l.begun && ts[i].startedAt == l.startedAt && ts[i].wait == l.wait
            && ts[i].outcome == l.outcome && ts[i].ms == l.ms && ts[i].error == l.error
            && ts[i].statements == Grouped(l.runs) && ts[i].runs == (if r then l.runs else [])
  {
    RunMatches(s, r, t);
  }

  // Once every run is answered, grouping the ordered runs gives the incremental audits themselves.
  lemma {:induction false} GroupingFinishedRuns(s: bool, t: Trace, i: nat)
    requires Legal(t) && i < |Log(s, t)|
    requires forall k :: 0 <= k < |Log(s, t)[i].runs| ==> Log(s, t)[i].runs[k].ms.Some?
    ensures |Recorded(s, true, t).audit.transactions| == |Log(s, t)|
    ensures Merged(RunItems(Recorded(s, true, t).audit.transactions[i].runs))
         == Recorded(s, true, t).audit.transactions[i].statements
  {
    RecordsWhatHappened(s, true, t, i);
    var items := RunItems(Log(s, t)[i].runs);
    forall k | 0 <= k < |Merged(items)| ensures Merged(items)[k].ms.Some? {
      GroupIsTimed(items, FirstSeen(items)[k]);
    }
    assert Grouped(Log(s, t)[i].runs) == Merged(items);
  }

  lemma {:induction false} GroupIsTimed(items: seq<Item>, stmt: string)
    requires stmt in FirstSeen(items) && forall k :: 0 <= k < |items| ==> items[k].ms.Some?
    ensures Group(items, stmt).ms.Some?
  {
    var earlier := items[..|items| - 1];
    if stmt in FirstSeen(earlier) {
      GroupIsTimed(earlier, stmt);
    }
  }

  // The k-th event answers, without error or ROLLBACK, a COMMIT that ran in the transaction of the i-th entry.
  ghost predicate CommitAnswered(s: bool, t: Trace, i: nat, k: nat) {
    && k < |t| && t[k].Answered? && t[k].answer.error.None? && t[k].answer.command != Some("ROLLBACK")
    && var before, c := t[..k], t[k].c;
    && c in InFlight(before) && InFlight(before)[c].kind.CommitAll? && c in InTransaction(before)
    && i < |Log(s, before)| && LastOf(Log(s, before), c) == i
  }

  ghost predicate IsCommitted(log: seq<Logged>, i: nat) {
    i < |log| && log[i].outcome == Some(Commit)
  }

  lemma {:induction false} OnlyCommitCommits(s: bool, t: Trace, log: seq<Logged>, e: Event, i: nat)
    requires IsCommitted(LogStep(s, t, log, e), i) && !IsCommitted(log, i)
    ensures e.Answered? && e.answer.error.None? && e.answer.command != Some("ROLLBACK")
    ensures e.c in InFlight(t) && InFlight(t)[e.c].kind.CommitAll? && e.c in InTransaction(t)
    ensures i < |log| && LastOf(log, e.c) == i
  {
  }

  lemma {:induction false} CommitWasAnswered(s: bool, t: Trace, i: nat) returns (k: nat)
    requires IsCommitted(Log(s, t), i)
    ensures CommitAnswered(s, t, i, k)
  {
    var before, n := t[..|t| - 1], |t| - 1;
    if IsCommitted(Log(s, before), i) {
      k := CommitWasAnswered(s, before, i);
      assert before[..k] == t[..k];
    } else {
      k := n;
      OnlyCommitCommits(s, before, Log(s, before), t[n], i);
    }
  }

  // Committed, and nothing still to come on its connection ends the entry again.
  ghost predicate SettledAsCommit(log: seq<Logged>, i: nat, flights: map<Connection, Flight>,
                                  inTransaction: set<Connection>) {
    && IsCommitted(log, i)
    && var c := log[i].c;
    LastOf(log, c) == i ==> c !in inTransaction && !(c in flights && flights[c].kind.Begin?)
  }

  lemma {:induction false} AnswerStaysCommitted(s: bool, t: Trace, e: Event, i: nat)
    requires e.Answered? && SettledAsCommit(Log(s, t), i, InFlight(t), InTransaction(t))
    ensures SettledAsCommit(LogStep(s, t, Log(s, t), e), i, InFlight(t + [e]), InTransaction(t + [e]))
  {
    assert (t + [e])[..|t|] == t;
    AnswerLog(s, t, e, Log(s, t));
  }

  lemma {:induction false} StartStaysCommitted(s: bool, t: Trace, e: Event, i: nat)
    requires e.Started? && SettledAsCommit(Log(s, t), i, InFlight(t), InTransaction(t))
    ensures SettledAsCommit(LogStep(s, t, Log(s, t), e), i, InFlight(t + [e]), InTransaction(t + [e]))
  {
    assert (t + [e])[..|t|] == t;
    StartLog(s, t, e, Log(s, t));
    var log := Log(s, t);
    var log', d := LogStep(s, t, log, e), log[i].c;
    if d != e.c {
      assert LatestKept(log, log', d);
    }
  }

  lemma {:induction false} StaysCommitted(s: bool, t: Trace, e: Event, i: nat)
    requires SettledAsCommit(Log(s, t), i, InFlight(t), InTransaction(t))
    ensures var all := t + [e]; SettledAsCommit(Log(s, all), i, InFlight(all), InTransaction(all))
  {
    assert (t + [e])[..|t|] == t;
    if e.Answered? {
      AnswerStaysCommitted(s, t, e, i);
    } else if e.Started? {
      StartStaysCommitted(s, t, e, i);
    }
  }

  lemma {:induction false} AnsweredIsCommitted(s: bool, t: Trace, i: nat, k: nat)
    requires Legal(t) && CommitAnswered(s, t, i, k)
    ensures SettledAsCommit(Log(s, t), i, InFlight(t), InTransaction(t))
  {
    var before, e := t[..|t| - 1], t[|t| - 1];
    assert t == before + [e];
    if k < |before| {
      assert before[..k] == t[..k];
      AnsweredIsCommitted(s, before, i, k);
      StaysCommitted(s, before, e, i);
    } else {
      AnswerLog(s, before, e, Log(s, before));
    }
  }

  // The record reads `commit` on an entry exactly if a COMMIT in its own transaction was so answered.
  lemma {:induction false} CommitsAreThoseAnswered(s: bool, r: bool, t: Trace, i: nat)
    requires Legal(t) && i < |Log(s, t)|
    ensures var ts := Recorded(s, r, t).audit.transactions;
            |ts| == |Log(s, t)| && (ts[i].outcome == Some(Commit) <==> exists k :: CommitAnswered(s, t, i, k))
  {
    RecordsWhatHappened(s, r, t, i);
    if Log(s, t)[i].outcome == Some(Commit) {
      var k := CommitWasAnswered(s, t, i);
    }
    if k :| CommitAnswered(s, t, i, k) {
      AnsweredIsCommitted(s, t, i, k);
    }
  }
}
