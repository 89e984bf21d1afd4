/**
 The times a request's audit keeps (api/src/database/query-audit.ts, auditStatementStart), against the events they are
 measured between: every one is what passed from a start to its own answer.
 */
module QueryAuditTimes {
  import opened Options
  import opened AuditJson
  import opened QueryAuditItems
  import opened QueryAuditEntries
  import opened QueryAuditRecorder
  import opened QueryAuditRuns
  import opened QueryAuditLog

  // What passed between two instants, on a clock that does not go back.
  ghost predicate Took(ms: Option<nat>, from: nat, to: nat) {
    from <= to ==> ms.Some? && from + ms.value == to
  }

  // The last statement started on a connection; past the last event when there is none.
  function LastStart(t: Trace, c: Connection): (r: nat)
    ensures r <= |t|
    ensures r < |t| ==> t[r].Started? && t[r].c == c && forall k :: r < k < |t| ==> !(t[k].Started? && t[k].c == c)
  {
    if t == [] then 0
    else if t[|t| - 1].Started? && t[|t| - 1].c == c then |t| - 1
    else
      var earlier := LastStart(t[..|t| - 1], c);
      if earlier == |t| - 1 then |t| else earlier
  }

  lemma {:induction false} StartSnoc(t: Trace, e: Event, c: Connection)
    ensures LastStart(t + [e], c)
         == if e.Started? && e.c == c then |t| else if LastStart(t, c) == |t| then |t| + 1 else LastStart(t, c)
  {
    assert (t + [e])[..|t|] == t;
  }

  // A statement in flight is the last one started on its connection.
  lemma {:induction false} FlightIsLastStart(t: Trace, c: Connection)
    requires c in InFlight(t)
    ensures var a := LastStart(t, c);
            a < |t| && t[a].now == InFlight(t)[c].startedAt && t[a].sql.kind == InFlight(t)[c].kind
  {
    var before, e := t[..|t| - 1], t[|t| - 1];
    assert t == before + [e];
    StartSnoc(before, e, c);
    if !(e.Started? && e.c == c) {
      FlightIsLastStart(before, c);
    }
  }

  // ---------- runs ----------

  // The b-th event answers the j-th run of the i-th entry, the last statement started on its connection.
  ghost predicate AnswersRun(s: bool, t: Trace, i: nat, j: nat, b: nat) {
    && b < |t| && t[b].Answered?
    && var before, c := t[..b], t[b].c;
    && c in InFlight(before) && InFlight(before)[c].kind.Ordinary?
    && i < |Log(s, before)| && LastOf(Log(s, before), c) == i && |Log(s, before)[i].runs| == j + 1
    && LastStart(before, c) < b
  }

  ghost predicate AnswersLast(t: Trace, log: seq<Logged>, e: Event, i: nat, j: nat) {
    && e.Answered? && e.c in InFlight(t) && InFlight(t)[e.c].kind.Ordinary?
    && i < |log| && LastOf(log, e.c) == i && |log[i].runs| == j + 1
  }

  lemma {:induction false} OnlyItsAnswerTimesARun(s: bool, t: Trace, log: seq<Logged>, e: Event, i: nat, j: nat)
    requires var log' := LogStep(s, t, log, e); i < |log'| && j < |log'[i].runs| && log'[i].runs[j].ms.Some?
    ensures if AnswersLast(t, log, e, i, j)
            then LogStep(s, t, log, e)[i].runs[j]
                 == FinishedRun(log[i].runs[j], Since(InFlight(t)[e.c].startedAt, e.answer.now), e.answer)
            else i < |log| && j < |log[i].runs| && log[i].runs[j] == LogStep(s, t, log, e)[i].runs[j]
  {
  }

  // What the database answered a statement with, in the time it took.
  ghost predicate Returned(run: Run, from: nat, answer: Answer) {
    Took(run.ms, from, answer.now) && run.rows == answer.rows && run.error == answer.error
  }

  lemma {:induction false} LastIsUnanswered(s: bool, t: Trace, e: Event, i: nat, j: nat)
    requires Legal(t) && AnswersLast(t, Log(s, t), e, i, j)
    ensures Unanswered(Log(s, t)[i].runs[j])
  {
    RunMatches(s, true, t);
    RunFollows(s, true, t);
    FlightsFinish(s, true, Recorded(s, true, t), t, Log(s, t), e.c);
  }

  lemma {:induction false} RunTook(s: bool, t: Trace, i: nat, j: nat) returns (b: nat)
    requires Legal(t) && i < |Log(s, t)| && j < |Log(s, t)[i].runs| && Log(s, t)[i].runs[j].ms.Some?
    ensures AnswersRun(s, t, i, j, b)
    ensures Returned(Log(s, t)[i].runs[j], t[LastStart(t[..b], t[b].c)].now, t[b].answer)
  {
    var before, n := t[..|t| - 1], |t| - 1;
    var log, e := Log(s, before), t[n];
    assert t == before + [e];
    OnlyItsAnswerTimesARun(s, before, log, e, i, j);
    if AnswersLast(before, log, e, i, j) {
      b := n;
      FlightIsLastStart(before, e.c);
      LastIsUnanswered(s, before, e, i, j);
    } else {
      b := RunTook(s, before, i, j);
      assert before[..b] == t[..b];
    }
  }

  ghost predicate IsTimed(log: seq<Logged>, i: nat, j: nat) {
    i < |log| && j < |log[i].runs| && log[i].runs[j].ms.Some?
  }

  lemma {:induction false} StepTimesLast(s: bool, t: Trace, log: seq<Logged>, e: Event, i: nat, j: nat)
    requires AnswersLast(t, log, e, i, j)
    ensures IsTimed(LogStep(s, t, log, e), i, j)
  {
  }

  lemma {:induction false} StepKeepsTimed(s: bool, t: Trace, log: seq<Logged>, e: Event, i: nat, j: nat)
    requires IsTimed(log, i, j)
    ensures IsTimed(LogStep(s, t, log, e), i, j)
  {
  }

  lemma {:induction false} AnsweredRunIsTimed(s: bool, t: Trace, i: nat, j: nat, b: nat)
    requires AnswersRun(s, t, i, j, b)
    ensures IsTimed(Log(s, t), i, j)
  {
    var before, e := t[..|t| - 1], t[|t| - 1];
    if b < |before| {
      assert before[..b] == t[..b];
      AnsweredRunIsTimed(s, before, i, j, b);
      StepKeepsTimed(s, before, Log(s, before), e, i, j);
    } else {
      StepTimesLast(s, before, Log(s, before), e, i, j);
    }
  }

  // ---------- the statement a run is of ----------

  // The a-th event started the j-th run of the i-th entry.
  ghost predicate StartsRun(s: bool, t: Trace, i: nat, j: nat, a: nat) {
    && a < |t| && t[a].Started?
    && i < |Log(s, t[..a + 1])| && |Log(s, t[..a + 1])[i].runs| == j + 1
    && Log(s, t[..a + 1])[i].runs[j].cutStmt == t[a].sql.cutStmt
    && (|Log(s, t[..a])| <= i || |Log(s, t[..a])[i].runs| == j)
  }

  // What a statement in flight began in the log: an entry with its time, or a run of one.
  ghost predicate Began(s: bool, t: Trace, c: Connection) {
    var log, a := Log(s, t), LastStart(t, c);
    var i := LastOf(log, c);
    && a < |t| && i < |log|
    && (t[a].sql.kind.Begin? || c !in InTransaction(t) ==> log[i].startedAt == t[a].now)
    && (t[a].sql.kind.Ordinary? ==> log[i].runs != [] && StartsRun(s, t, i, |log[i].runs| - 1, a))
  }

  lemma {:induction false} StartIsLatest(s: bool, t: Trace, e: Event)
    requires e.Started? && (e.sql.kind.Begin? || e.sql.kind.Ordinary?)
    ensures var log' := LogStep(s, t, Log(s, t), e);
            LastOf(log', e.c)
            == if e.sql.kind.Ordinary? && e.c in InTransaction(t) && LastOf(Log(s, t), e.c) < |Log(s, t)|
               then LastOf(Log(s, t), e.c) else |Log(s, t)|
  {
    var log := Log(s, t);
    var run, i := NewRun(s, e.sql, Pending(t, e.c), e.bound), LastOf(log, e.c);
    if e.sql.kind.Begin? {
      AppendKeepsOthers(log, NewLogged(e.c, true, e.now, Pending(t, e.c), []));
    } else if e.c in InTransaction(t) && i < |log| {
      UpdateKeepsOthers(log, i, QueryAuditLog.Joined(log[i], run), LogStep(s, t, log, e));
    } else {
      AppendKeepsOthers(log, NewLogged(e.c, false, e.now, 0, [run]));
    }
  }

  // What a start leaves of the entry it lands in.
  lemma {:induction false} StartedEntry(s: bool, t: Trace, e: Event, i: nat)
    requires e.Started? && (e.sql.kind.Begin? || e.sql.kind.Ordinary?)
    requires i == LastOf(LogStep(s, t, Log(s, t), e), e.c)
    ensures var log, log' := Log(s, t), LogStep(s, t, Log(s, t), e);
            && i < |log'| && (e.sql.kind.Begin? || e.c !in InTransaction(t) ==> log'[i].startedAt == e.now)
            && (e.sql.kind.Ordinary? ==>
                  && log'[i].runs != [] && log'[i].runs[|log'[i].runs| - 1].cutStmt == e.sql.cutStmt
                  && (|log| <= i || |log[i].runs| == |log'[i].runs| - 1))
  {
    StartIsLatest(s, t, e);
  }

  lemma {:induction false} StartBegins(s: bool, t: Trace, e: Event)
    requires e.Started? && (e.sql.kind.Begin? || e.sql.kind.Ordinary?)
    ensures Began(s, t + [e], e.c)
  {
    var all := t + [e];
    assert all[..|t|] == t && all[..|t| + 1] == all;
    StartSnoc(t, e, e.c);
    StartedEntry(s, t, e, LastOf(Log(s, all), e.c));
    if e.sql.kind.Ordinary? {
      StartKeepsOpen(t, e);
    }
  }

  lemma {:induction false} StartKeepsOpen(t: Trace, e: Event)
    requires e.Started? && e.sql.kind.Ordinary?
    ensures InTransaction(t + [e]) == InTransaction(t)
  {
    assert (t + [e])[..|t|] == t;
  }

  lemma {:induction false} OthersKeepOpen(t: Trace, e: Event, c: Connection)
    requires e.Acquired? || e.c != c
    ensures c in InTransaction(t + [e]) <==> c in InTransaction(t)
  {
    assert (t + [e])[..|t|] == t;
  }

  lemma {:induction false} OthersKeepLatest(s: bool, t: Trace, e: Event, c: Connection)
    requires LastOf(Log(s, t), c) < |Log(s, t)| && (e.Acquired? || e.c != c)
    ensures LatestKept(Log(s, t), Log(s, t + [e]), c)
    ensures c in InTransaction(t + [e]) <==> c in InTransaction(t)
  {
    OthersKeepOpen(t, e, c);
    assert (t + [e])[..|t|] == t;
    if e.Started? {
      StartLog(s, t, e, Log(s, t));
    } else if e.Answered? {
      AnswerLog(s, t, e, Log(s, t));
    }
  }

  lemma {:induction false} StaysStarted(s: bool, t: Trace, e: Event, i: nat, j: nat, a: nat)
    requires StartsRun(s, t, i, j, a)
    ensures StartsRun(s, t + [e], i, j, a)
  {
    assert (t + [e])[..a] == t[..a] && (t + [e])[..a + 1] == t[..a + 1];
  }

  lemma {:induction false} OthersKeepBegun(s: bool, t: Trace, e: Event, c: Connection)
    requires Began(s, t, c) && (e.Acquired? || e.c != c)
    ensures Began(s, t + [e], c)
  {
    var log, a := Log(s, t), LastStart(t, c);
    var i := LastOf(log, c);
    StartSnoc(t, e, c);
    OthersKeepLatest(s, t, e, c);
    assert Log(s, t + [e])[i] == log[i] && (t + [e])[a] == t[a];
    if t[a].sql.kind.Ordinary? {
      StaysStarted(s, t, e, i, |log[i].runs| - 1, a);
    }
  }

  lemma {:induction false} InFlightBegan(s: bool, t: Trace, c: Connection)
    requires c in InFlight(t) && (InFlight(t)[c].kind.Begin? || InFlight(t)[c].kind.Ordinary?)
    ensures Began(s, t, c)
  {
    var before, e := t[..|t| - 1], t[|t| - 1];
    assert t == before + [e];
    if e.Started? && e.c == c {
      StartBegins(s, before, e);
    } else {
      InFlightBegan(s, before, c);
      OthersKeepBegun(s, before, e, c);
    }
  }

  // A run's answer is the one given to the statement that began it, on its connection.
  lemma {:induction false} RunTookItsTime(s: bool, t: Trace, i: nat, j: nat) returns (a: nat, b: nat)
    requires Legal(t) && i < |Log(s, t)| && j < |Log(s, t)[i].runs| && Log(s, t)[i].runs[j].ms.Some?
    ensures a < b && StartsRun(s, t, i, j, a) && AnswersRun(s, t, i, j, b) && t[a].c == t[b].c
    ensures Returned(Log(s, t)[i].runs[j], t[a].now, t[b].answer)
  {
    b := RunTook(s, t, i, j);
    a := LastStart(t[..b], t[b].c);
    FlightIsLastStart(t[..b], t[b].c);
    InFlightBegan(s, t[..b], t[b].c);
    assert t[..b][..a] == t[..a] && t[..b][..a + 1] == t[..a + 1];
  }

  // ---------- entries ----------

  // The a-th event began the i-th entry: its BEGIN, or the statement that stands alone.
  ghost predicate BeginsEntry(s: bool, t: Trace, i: nat, a: nat) {
    && a < |t| && t[a].Started? && |Log(s, t[..a])| == i && i < |Log(s, t[..a + 1])|
    && Log(s, t[..a + 1])[i].c == t[a].c
    && Log(s, t[..a + 1])[i].begun == t[a].sql.kind.Begin?
  }

  lemma {:induction false} EntryBegins(s: bool, t: Trace, i: nat) returns (a: nat)
    requires i < |Log(s, t)|
    ensures BeginsEntry(s, t, i, a)
    ensures Log(s, t)[i].startedAt == t[a].now && Log(s, t)[i].c == t[a].c
    ensures Log(s, t)[i].begun == t[a].sql.kind.Begin?
  {
    var before, n := t[..|t| - 1], |t| - 1;
    assert t == before + [t[n]] && t[..n + 1] == t;
    if i < |Log(s, before)| {
      a := EntryBegins(s, before, i);
      assert before[..a] == t[..a] && before[..a + 1] == t[..a + 1];
      EntryStays(s, before, t[n], i);
    } else {
      a := n;
    }
  }

  // Where and when an entry began does not change.
  ghost predicate SameBeginning(l: Logged, m: Logged) {
    l.startedAt == m.startedAt && l.c == m.c && l.begun == m.begun
  }

  lemma {:induction false} StepKeepsBeginnings(s: bool, t: Trace, log: seq<Logged>, e: Event, i: nat)
    requires i < |log|
    ensures i < |LogStep(s, t, log, e)| && SameBeginning(log[i], LogStep(s, t, log, e)[i])
  {
  }

  lemma {:induction false} EntryStays(s: bool, t: Trace, e: Event, i: nat)
    requires i < |Log(s, t)|
    ensures i < |Log(s, t + [e])| && SameBeginning(Log(s, t)[i], Log(s, t + [e])[i])
  {
    assert (t + [e])[..|t|] == t;
    StepKeepsBeginnings(s, t, Log(s, t), e, i);
  }

  // The b-th event ended the i-th entry: the answer of its end, of a BEGIN the database refused, or of the statement
  // that stands alone.
  ghost predicate EndsEntry(s: bool, t: Trace, i: nat, b: nat) {
    b < |t| && Ending(t[..b], Log(s, t[..b]), t[b], i)
  }

  ghost predicate Ending(t: Trace, log: seq<Logged>, e: Event, i: nat) {
    && e.Answered? && e.c in InFlight(t) && i < |log| && LastOf(log, e.c) == i
    && match InFlight(t)[e.c].kind
       case Begin => e.answer.error.Some?
       case OtherTransactionWord => false
       case Ordinary => e.c !in InTransaction(t)
       case _ => e.c in InTransaction(t)
  }

  lemma {:induction false} OnlyItsEndTimesAnEntry(s: bool, t: Trace, log: seq<Logged>, e: Event, i: nat)
    requires i < |LogStep(s, t, log, e)| && LogStep(s, t, log, e)[i].ms.Some?
    ensures if Ending(t, log, e, i)
            then LogStep(s, t, log, e)[i].ms
                 == Some(Since(if Ends(InFlight(t)[e.c].kind) then log[i].startedAt else InFlight(t)[e.c].startedAt,
                               e.answer.now))
            else i < |log| && log[i].ms == LogStep(s, t, log, e)[i].ms
  {
  }

  lemma {:induction false} EntryEnds(s: bool, t: Trace, i: nat) returns (b: nat)
    requires i < |Log(s, t)| && Log(s, t)[i].ms.Some?
    ensures EndsEntry(s, t, i, b) && Took(Log(s, t)[i].ms, Log(s, t)[i].startedAt, t[b].answer.now)
  {
    var before, n := t[..|t| - 1], |t| - 1;
    var log, e := Log(s, before), t[n];
    assert t == before + [e];
    OnlyItsEndTimesAnEntry(s, before, log, e, i);
    if Ending(before, log, e, i) {
      b := n;
      EntryStays(s, before, e, i);
      if !Ends(InFlight(before)[e.c].kind) {
        FlightIsLastStart(before, e.c);
        InFlightBegan(s, before, e.c);
      }
    } else {
      b := EntryEnds(s, before, i);
      assert before[..b] == t[..b];
      EntryStays(s, before, e, i);
    }
  }

  ghost predicate IsOver(log: seq<Logged>, i: nat) {
    i < |log| && log[i].ms.Some?
  }

  lemma {:induction false} StepEnds(s: bool, t: Trace, log: seq<Logged>, e: Event, i: nat)
    requires IsOver(log, i) || Ending(t, log, e, i)
    ensures IsOver(LogStep(s, t, log, e), i)
  {
  }

  lemma {:induction false} EndedIsTimed(s: bool, t: Trace, i: nat, b: nat)
    requires EndsEntry(s, t, i, b)
    ensures IsOver(Log(s, t), i)
  {
    var before := t[..|t| - 1];
    if b < |before| {
      assert before[..b] == t[..b];
      EndedIsTimed(s, before, i, b);
    }
    StepEnds(s, before, Log(s, before), t[|t| - 1], i);
  }

  // ---------- and what the record says of them ----------

  ghost predicate Ended(s: bool, t: Trace, i: nat) {
    exists b: nat :: EndsEntry(s, t, i, b)
  }

  ghost predicate EntryPassed(s: bool, t: Trace, i: nat, ms: Option<nat>) {
    exists a: nat, b: nat :: BeginsEntry(s, t, i, a) && EndsEntry(s, t, i, b) && Took(ms, t[a].now, t[b].answer.now)
  }

  ghost predicate RunAnsweredOnce(s: bool, t: Trace, i: nat, j: nat) {
    exists b: nat :: AnswersRun(s, t, i, j, b)
  }

  ghost predicate RunReturned(s: bool, t: Trace, i: nat, j: nat, run: Run) {
    exists a: nat, b: nat ::
      StartsRun(s, t, i, j, a) && AnswersRun(s, t, i, j, b) && t[a].c == t[b].c && Returned(run, t[a].now, t[b].answer)
  }

  lemma {:induction false} EntryTook(s: bool, t: Trace, i: nat)
    requires i < |Log(s, t)|
    ensures Log(s, t)[i].ms.Some? <==> Ended(s, t, i)
    ensures Ended(s, t, i) ==> EntryPassed(s, t, i, Log(s, t)[i].ms)
  {
    if Log(s, t)[i].ms.Some? {
      var a := EntryBegins(s, t, i);
      var b := EntryEnds(s, t, i);
    }
    if b: nat :| EndsEntry(s, t, i, b) {
      EndedIsTimed(s, t, i, b);
    }
  }

  lemma {:induction false} RunsTook(s: bool, t: Trace, i: nat, j: nat)
    requires Legal(t) && i < |Log(s, t)| && j < |Log(s, t)[i].runs|
    ensures Log(s, t)[i].runs[j].ms.Some? <==> RunAnsweredOnce(s, t, i, j)
    ensures RunAnsweredOnce(s, t, i, j) ==> RunReturned(s, t, i, j, Log(s, t)[i].runs[j])
  {
    if Log(s, t)[i].runs[j].ms.Some? {
      var a, b := RunTookItsTime(s, t, i, j);
    }
    if b: nat :| AnswersRun(s, t, i, j, b) {
      AnsweredRunIsTimed(s, t, i, j, b);
    }
  }

  // An entry has a time on the record once it ended, and that time is what passed between its BEGIN and the answer of
  // its end, or between the start and the answer of the statement that stands alone.
  lemma {:induction false} EntryTimeIsPassed(s: bool, r: bool, t: Trace, i: nat)
    requires Legal(t) && i < |Log(s, t)|
    ensures |Recorded(s, r, t).audit.transactions| == |Log(s, t)|
    ensures var ms := Recorded(s, r, t).audit.transactions[i].ms;
            (ms.Some? <==> Ended(s, t, i)) && (Ended(s, t, i) ==> EntryPassed(s, t, i, ms))
  {
    RecordsWhatHappened(s, r, t, i);
    EntryTook(s, t, i);
  }

  // A run has one once it was answered: what passed between its own start and its own answer, whose rows and error
  // it keeps.
  lemma {:induction false} RunTimeIsPassed(s: bool, t: Trace, i: nat, j: nat)
    requires Legal(t) && i < |Log(s, t)| && j < |Log(s, t)[i].runs|
    ensures |Recorded(s, true, t).audit.transactions| == |Log(s, t)|
    ensures var runs := Recorded(s, true, t).audit.transactions[i].runs;
            && j < |runs| && (runs[j].ms.Some? <==> RunAnsweredOnce(s, t, i, j))
            && (RunAnsweredOnce(s, t, i, j) ==> RunReturned(s, t, i, j, runs[j]))
  {
    RecordsWhatHappened(s, true, t, i);
    RunsTook(s, t, i, j);
  }

  // What passed in all between the starts and the answers of the ordinary statements answered.
  function PassedInStatements(t: Trace): nat {
    if t == [] then 0
    else
      var before, e := t[..|t| - 1], t[|t| - 1];
      PassedInStatements(before)
      + if e.Answered? && e.c in InFlight(before) && InFlight(before)[e.c].kind.Ordinary?
           && LastStart(before, e.c) < |before| && before[LastStart(before, e.c)].now < e.answer.now
        then e.answer.now - before[LastStart(before, e.c)].now else 0
  }

  lemma {:induction false} FinishDbMs(a: Audit, f: Finisher, answer: Answer)
    requires Sound(a) && Refers(f, a.transactions)
    ensures Finish(a, f, answer).dbMs
         == a.dbMs + if f.AfterStatement? then Since(f.startedAt, answer.now) else 0
  {
  }

  lemma {:induction false} StartDbMs(a: Audit, sql: Sql, c: Connection, bound: Option<Json>, now: nat)
    requires Sound(a)
    ensures Start(a, sql, c, bound, now).0.dbMs == a.dbMs
  {
  }

  lemma {:induction false} StepDbMs(w: World, e: Event)
    requires WellFormed(w)
    ensures Step(w, e).audit.dbMs
         == w.audit.dbMs + if e.Answered? && e.c in w.finishers && w.finishers[e.c].AfterStatement?
                           then Since(w.finishers[e.c].startedAt, e.answer.now) else 0
  {
    if e.Answered? && e.c in w.finishers {
      FinishDbMs(w.audit, w.finishers[e.c], e.answer);
    } else if e.Started? {
      StartDbMs(w.audit, e.sql, e.c, e.bound, e.now);
    }
  }

  lemma {:induction false} FlightsFinish(s: bool, r: bool, w: World, t: Trace, log: seq<Logged>, c: Connection)
    requires WellFormed(w) && Follows(w, t) && Matches(s, r, w, t, log) && c in InFlight(t)
    ensures c in w.finishers && (w.finishers[c].AfterStatement? <==> InFlight(t)[c].kind.Ordinary?)
    ensures w.finishers[c].AfterStatement? ==> w.finishers[c].startedAt == InFlight(t)[c].startedAt
  {
    assert RefersToLatest(w.finishers[c], c, log, r, c in InTransaction(t), InFlight(t)[c].startedAt);
  }

  lemma {:induction false} PassedSnoc(t: Trace, e: Event)
    ensures PassedInStatements(t + [e])
         == PassedInStatements(t)
            + if e.Answered? && e.c in InFlight(t) && InFlight(t)[e.c].kind.Ordinary?
              then Since(InFlight(t)[e.c].startedAt, e.answer.now) else 0
  {
    assert (t + [e])[..|t|] == t;
    if e.Answered? && e.c in InFlight(t) {
      FlightIsLastStart(t, e.c);
    }
  }

  // The time spent in the database is the time of all those, each counted once.
  lemma {:induction false} DbMsIsPassedInStatements(s: bool, r: bool, t: Trace)
    requires Legal(t)
    ensures Recorded(s, r, t).audit.dbMs == PassedInStatements(t)
  {
    if t != [] {
      var before, e := t[..|t| - 1], t[|t| - 1];
      assert t == before + [e];
      DbMsIsPassedInStatements(s, r, before);
      RunFollows(s, r, before);
      RunMatches(s, r, before);
      var w := Recorded(s, r, before);
      StepDbMs(w, e);
      PassedSnoc(before, e);
      if e.Answered? {
        FlightsFinish(s, r, w, before, Log(s, before), e.c);
      }
    }
  }
}
