/**
 Every millisecond a request waited for a pool connection is accounted for (api/src/database/query-audit.ts,
 auditConnectionWait and auditStatementStart): reported by one entry, still pending on its connection, or
 lost with an acquisition that no statement reports. And what closing the audit leaves.
 */
module QueryAuditWaits {
  import opened Options
  import AuditJson
  import opened QueryAuditItems
  import opened QueryAuditRecorder
  import opened QueryAuditRuns
  import opened QueryAuditLog

  ghost function MapSum(m: map<Connection, nat>): nat {
    if m == map[] then 0
    else
      var c :| c in m;
      m[c] + MapSum(m - {c})
  }

  lemma {:induction false} MapSumWithout(m: map<Connection, nat>, c: Connection)
    requires c in m
    ensures MapSum(m) == m[c] + MapSum(m - {c})
  {
    var d :| d in m && MapSum(m) == m[d] + MapSum(m - {d});
    if d != c {
      MapSumWithout(m - {d}, c);
      MapSumWithout(m - {c}, d);
      assert m - {c} - {d} == m - {d} - {c};
    }
  }

  lemma {:induction false} MapSumRemove(m: map<Connection, nat>, c: Connection)
    ensures MapSum(m) == Get(m, c) + MapSum(m - {c})
  {
    if c in m {
      MapSumWithout(m, c);
    } else {
      assert m - {c} == m;
    }
  }

  lemma {:induction false} MapSumSet(m: map<Connection, nat>, c: Connection, ms: nat)
    ensures MapSum(m[c := ms]) + Get(m, c) == MapSum(m) + ms
  {
    MapSumRemove(m, c);
    MapSumRemove(m[c := ms], c);
    assert m[c := ms] - {c} == m - {c};
  }

  // The waits the entries report.
  function Reported(ts: seq<Transaction>): nat {
    if ts == [] then 0
    else Reported(ts[..|ts| - 1]) + ts[|ts| - 1].wait + Sum(Waits, ts[|ts| - 1].statements)
  }

  lemma {:induction false} ReportedUpdate(ts: seq<Transaction>, i: nat, t: Transaction)
    requires i < |ts|
    ensures Reported(ts[i := t]) + ts[i].wait + Sum(Waits, ts[i].statements)
         == Reported(ts) + t.wait + Sum(Waits, t.statements)
  {
    var n := |ts| - 1;
    if i == n {
      assert ts[i := t][..n] == ts[..n];
    } else {
      ReportedUpdate(ts[..n], i, t);
      assert ts[i := t][..n] == ts[..n][i := t];
    }
  }

  lemma {:induction false} ReportedSnoc(ts: seq<Transaction>, t: Transaction)
    ensures Reported(ts + [t]) == Reported(ts) + t.wait + Sum(Waits, t.statements)
  {
    assert (ts + [t])[..|ts|] == ts;
  }

  /**
   The waits no statement reports: of an acquisition that failed, of one the pool answered again before any
   statement ran, and of one a COMMIT, a ROLLBACK or a savepoint ran on.
   */
  function Lost(t: Trace): nat {
    if t == [] then 0
    else
      var before, e := t[..|t| - 1], t[|t| - 1];
      Lost(before) + match e
                     case Acquired(given, ms) => if given.None? then ms else Pending(before, given.value)
                     case Started(c, sql, _, _) =>
                       if sql.kind.Begin? || sql.kind.Ordinary? then 0 else Pending(before, c)
                     case Answered(_, _) => 0
  }

  lemma {:induction false} StartInReports(t: Transaction, stmt: string, cutStmt: string, wait: nat,
                                          bound: Option<AuditJson.Json>, r: bool)
    ensures Sum(Waits, StartIn(t, stmt, cutStmt, wait, bound, r).statements) == Sum(Waits, t.statements) + wait
  {
    var at := IndexOf(t.statements, stmt);
    if at < |t.statements| {
      SumUpdate(Waits, t.statements, at, Counted(t.statements[at], wait, bound));
    } else {
      SumSnoc(Waits, t.statements, Counted(NewItem(stmt, cutStmt), wait, bound));
    }
  }

  lemma {:induction false} OrdinaryReports(en: Entries, sql: Sql, c: Connection, wait: nat,
                                           bound: Option<AuditJson.Json>, now: nat)
    requires InRange(en)
    ensures Reported(StartOrdinary(en, sql, c, wait, bound, now).0) == Reported(en.transactions) + wait
  {
    var ts, stmt := en.transactions, if en.recordsStatements then sql.text else sql.cutStmt;
    if c in en.openTransactions {
      var i := en.openTransactions[c];
      StartInReports(ts[i], stmt, sql.cutStmt, wait, bound, en.recordsRuns);
      ReportedUpdate(ts, i, StartIn(ts[i], stmt, sql.cutStmt, wait, bound, en.recordsRuns));
    } else {
      var t := NewTransaction(now, 0, true);
      StartInReports(t, stmt, sql.cutStmt, wait, bound, en.recordsRuns);
      ReportedSnoc(ts, StartIn(t, stmt, sql.cutStmt, wait, bound, en.recordsRuns));
      assert Sum(Waits, t.statements) == 0;
    }
  }

  lemma {:induction false} StartReports(en: Entries, sql: Sql, c: Connection, wait: nat,
                                        bound: Option<AuditJson.Json>, now: nat)
    requires InRange(en)
    ensures Reported(StartKind(en, sql, c, wait, bound, now).0)
         == Reported(en.transactions) + if sql.kind.Begin? || sql.kind.Ordinary? then wait else 0
  {
    if sql.kind.Begin? {
      ReportedSnoc(en.transactions, NewTransaction(now, wait, false));
    } else if sql.kind.Ordinary? {
      OrdinaryReports(en, sql, c, wait, bound, now);
    }
  }

  lemma {:induction false} AnswerReports(ts: seq<Transaction>, f: Finisher, answer: Answer)
    requires Refers(f, ts)
    ensures Reported(AnsweredEntries(ts, f, answer)) == Reported(ts)
  {
    match f
    case AfterBegin(_, tx, startedAt) => ReportedUpdate(ts, tx, Refused(ts[tx], startedAt, answer));
    case AfterEnd(_, tx, commits) => ReportedUpdate(ts, tx, Ended(ts[tx], commits, answer));
    case AfterStatement(_, tx, at, _, startedAt, _) =>
      ReportedUpdate(ts, tx, FinishIn(ts[tx], f, answer));
      SumUpdate(Waits, ts[tx].statements, at, Finished(ts[tx].statements[at], Since(startedAt, answer.now), answer));
    case _ =>
  }

  ghost predicate Balanced(a: Audit, t: Trace) {
    a.waitMs == Reported(a.transactions) + MapSum(a.connectionWaits) + Lost(t)
  }

  lemma {:induction false} StartBalances(w: World, t: Trace, e: Event)
    requires WellFormed(w) && Follows(w, t) && WaitsMatch(w.audit.connectionWaits, t)
    requires e.Started? && Balanced(w.audit, t)
    ensures Balanced(Step(w, e).audit, t + [e])
  {
    assert (t + [e])[..|t|] == t;
    MapSumRemove(w.audit.connectionWaits, e.c);
    StartReports(EntriesOf(w.audit), e.sql, e.c, Get(w.audit.connectionWaits, e.c), e.bound, e.now);
  }

  lemma {:induction false} AnswerBalances(w: World, t: Trace, e: Event)
    requires WellFormed(w) && Follows(w, t) && Allowed(t, e) && e.Answered? && Balanced(w.audit, t)
    ensures Balanced(Step(w, e).audit, t + [e])
  {
    assert (t + [e])[..|t|] == t;
    var f := w.finishers[e.c];
    FinishHolds(w.audit, f, e.answer);
    FinishEntries(w.audit, f, e.answer);
    AnswerReports(w.audit.transactions, f, e.answer);
  }

  lemma {:induction false} AcquireBalances(a: Audit, t: Trace, e: Event)
    requires e.Acquired? && !a.closed && WaitsMatch(a.connectionWaits, t) && Balanced(a, t)
    ensures Balanced(Waited(a, e.given, e.ms), t + [e])
  {
    assert (t + [e])[..|t|] == t;
    if e.given.Some? {
      MapSumSet(a.connectionWaits, e.given.value, e.ms);
    }
  }

  lemma {:induction false} BalancedStep(w: World, t: Trace, e: Event)
    requires WellFormed(w) && Follows(w, t) && Allowed(t, e) && WaitsMatch(w.audit.connectionWaits, t)
    requires Balanced(w.audit, t)
    ensures Balanced(Step(w, e).audit, t + [e])
  {
    if e.Started? {
      StartBalances(w, t, e);
    } else if e.Answered? {
      AnswerBalances(w, t, e);
    } else {
      AcquireBalances(w.audit, t, e);
    }
  }

  /** Waits reported, waits pending and waits lost are together exactly the request's `waitMs`. */
  lemma {:induction false} WaitsAreAccounted(s: bool, r: bool, t: Trace)
    requires Legal(t)
    ensures Balanced(Recorded(s, r, t).audit, t)
  {
    if t != [] {
      var before, e := t[..|t| - 1], t[|t| - 1];
      assert t == before + [e];
      WaitsAreAccounted(s, r, before);
      RunFollows(s, r, before);
      RunMatches(s, r, before);
      BalancedStep(Recorded(s, r, before), before, e);
    }
  }

  // ---------- a closed audit ----------

  ghost predicate Shut(a: Audit) {
    a.closed && a.connectionHolds == map[] && a.connectionWaits == map[] && a.openTransactions == map[]
  }

  function Played(w: World, t: Trace): (v: World)
    requires WellFormed(w)
    ensures WellFormed(v)
  {
    if t == [] then w
    else
      var before := Played(w, t[..|t| - 1]);
      StepIsWellFormed(before, t[|t| - 1]);
      Step(before, t[|t| - 1])
  }

  lemma {:induction false} FinishStaysShut(a: Audit, f: Finisher, answer: Answer)
    requires Sound(a) && Refers(f, a.transactions) && Shut(a)
    ensures Shut(Finish(a, f, answer)) && |Finish(a, f, answer).transactions| == |a.transactions|
    ensures Finish(a, f, answer).maxPoolConnections == a.maxPoolConnections && Finish(a, f, answer).waitMs == a.waitMs
  {
    if !f.Nothing? {
      FinishHolds(a, f, answer);
      FinishOpens(a, f, answer);
      FinishEntries(a, f, answer);
      assert a.connectionHolds - {f.c} == map[];
    }
  }

  /**
   Once closed, whatever still starts or finishes adds no entry and no wait, moves no peak, and leaves nothing
   held, pending or open.
   */
  lemma {:induction false} ClosedRecordsNothing(w: World, t: Trace)
    requires WellFormed(w)
    ensures var shut := w.(audit := Close(w.audit));
            WellFormed(shut)
            && Shut(Played(shut, t).audit)
            && |Played(shut, t).audit.transactions| == |w.audit.transactions|
            && Played(shut, t).audit.maxPoolConnections == w.audit.maxPoolConnections
            && Played(shut, t).audit.waitMs == w.audit.waitMs
  {
    var shut := w.(audit := Close(w.audit));
    assert WellFormed(shut);
    if t != [] {
      ClosedRecordsNothing(w, t[..|t| - 1]);
      var before, e := Played(shut, t[..|t| - 1]), t[|t| - 1];
      if e.Answered? && e.c in before.finishers {
        FinishStaysShut(before.audit, before.finishers[e.c], e.answer);
      }
    }
  }
}
