/**
 From the recorder to whoever reads the header: what the events of a request say comes out under the header's own words
 (api/src/database/query-audit.ts, auditEntryOf, formatQueryAudit and entryValueOf).
 */
module QueryAuditReport {
  import opened Options
  import opened AuditJson
  import opened QueryAuditItems
  import opened QueryAuditEntries
  import opened QueryAuditCuts
  import opened QueryAuditFormat
  import opened QueryAuditHeader
  import opened QueryAuditReading
  import opened QueryAuditRecorder
  import opened QueryAuditRuns
  import opened QueryAuditLog
  import opened QueryAuditLevels
  import QueryAuditTimes

  function ReportOf(ts: seq<Transaction>, level: Level): (r: seq<Entry>)
    ensures |r| == |ts|
  {
    seq(|ts|, i requires 0 <= i < |ts| => EntryOf(ts[i], level))
  }

  // ---------- the entry of each level ----------

  /**
   At every level an entry has its outcome, error, time and wait from the events; only `bindings` and `full` show a
   bound value, only `counts` cuts every text.
   */
  lemma {:induction false} EntryIsLogged(s: bool, r: bool, t: Trace, level: Level, i: nat)
    requires Legal(t) && i < |Log(s, t)|
    ensures |Recorded(s, r, t).audit.transactions| == |Log(s, t)|
    ensures var e, l := EntryOf(Recorded(s, r, t).audit.transactions[i], level), Log(s, t)[i];
            && (e.transaction.None? <==> !l.begun)
            && (l.begun ==> e.error == l.error)
            && (l.begun ==> (e.transaction == Some(Open) <==> l.outcome == None || l.outcome == Some(Open)))
            && (!l.begun ==> e.error == None)
            && e.ms == l.ms && e.wait == l.wait
            && e.runsGrouped == None && e.bindingsDropped == None && e.statementsCut == None
            && (level == Counts || level == Statements ==>
                  forall k :: 0 <= k < |e.items| ==> e.items[k].bindings == None)
            && (e.runsInOrder <==> level == Full)
            && (level == Full && r ==>
                  |e.items| == |l.runs| && forall k :: 0 <= k < |l.runs| ==> IsOfRun(e.items[k], l.runs[k]))
  {
    RecordsWhatHappened(s, r, t, i);
  }

  // A run shown by itself.
  ghost predicate IsOfRun(item: Item, run: Run) {
    && item.stmt == run.stmt && item.cutStmt == run.cutStmt && item.count == 1
    && item.ms == run.ms && item.wait == run.wait && item.rows == run.rows && item.error == run.error
    && item.bindings == Some([if run.bindings.Some? then run.bindings.value else Arr([])])
  }

  // ---------- the words of an outcome ----------

  function ValueShown(q: Request, maxSize: int, entries: seq<Entry>, i: nat): Json
    requires i < |ShownOf(RequestFields(q), ValueIn(q), maxSize, entries)|
  {
    EntryValue(ShownOf(RequestFields(q), ValueIn(q), maxSize, entries)[i], q.timings)
  }

  lemma {:induction false} ShownKeepsTransaction(own: seq<Field>, valueOf: ValueOf, maxSize: int, entries: seq<Entry>,
                                                 i: nat)
    requires i < |ShownOf(own, valueOf, maxSize, entries)|
    ensures i < |entries| && ShownOf(own, valueOf, maxSize, entries)[i].transaction == entries[i].transaction
  {
    CutsConserve(FitsIn(own, valueOf, maxSize), Waits, entries, i);
  }

  lemma {:induction false} OutcomeSaid(e: Entry, timings: bool)
    ensures EntryValue(e, timings).Obj?
    ensures var said := Lookup(EntryValue(e, timings).fields, "transaction");
            && (said == Some(Str("commit")) <==> e.transaction == Some(Commit))
            && (said == Some(Str("rollback")) <==> e.transaction == Some(Rollback))
            && (said == Some(Str("open")) <==> e.transaction == Some(Open))
            && (said == None <==> e.transaction == None)
  {
    EntryReads(e, timings, "transaction");
  }

  lemma {:induction false} StaysBegun(s: bool, t: Trace, i: nat, k: nat)
    requires k <= |t| && i < |Log(s, t[..k])| && Log(s, t[..k])[i].begun
    ensures i < |Log(s, t)| && Log(s, t)[i].begun
  {
    if k == |t| {
      assert t[..k] == t;
    } else {
      var before := t[..|t| - 1];
      assert before[..k] == t[..k] && t == before + [t[|t| - 1]];
      StaysBegun(s, before, i, k);
      QueryAuditTimes.EntryStays(s, before, t[|t| - 1], i);
    }
  }

  lemma {:induction false} PrefixIsLegal(t: Trace, k: nat)
    requires Legal(t) && k <= |t|
    ensures Legal(t[..k])
  {
    if k == |t| {
      assert t[..k] == t;
    } else {
      var before := t[..|t| - 1];
      PrefixIsLegal(before, k);
      assert before[..k] == t[..k];
    }
  }

  lemma {:induction false} CommittedIsBegun(s: bool, t: Trace, i: nat)
    requires Legal(t) && i < |Log(s, t)| && Log(s, t)[i].outcome == Some(Commit)
    ensures Log(s, t)[i].begun
  {
    var k := CommitWasAnswered(s, t, i);
    PrefixIsLegal(t, k);
    RunMatches(s, true, t[..k]);
    StaysBegun(s, t, i, k);
  }

  // ---------- a transaction is open until its end ----------

  ghost predicate StandsAlone(log: seq<Logged>, c: Connection) {
    LastOf(log, c) < |log| && !log[LastOf(log, c)].begun
  }

  // A statement in flight outside a transaction has an entry no BEGIN began.
  lemma {:induction false} AloneIsNotBegun(s: bool, t: Trace, c: Connection)
    requires c in InFlight(t) && InFlight(t)[c].kind.Ordinary? && c !in InTransaction(t)
    ensures StandsAlone(Log(s, t), c)
  {
    var before, e := t[..|t| - 1], t[|t| - 1];
    assert t == before + [e];
    if e.Started? && e.c == c {
      QueryAuditTimes.StartIsLatest(s, before, e);
    } else {
      AloneBefore(before, e, c);
      AloneIsNotBegun(s, before, c);
      QueryAuditTimes.OthersKeepLatest(s, before, e, c);
    }
  }

  lemma {:induction false} AloneBefore(t: Trace, e: Event, c: Connection)
    requires c in InFlight(t + [e]) && c !in InTransaction(t + [e]) && !(e.Started? && e.c == c)
    ensures c in InFlight(t) && InFlight(t)[c] == InFlight(t + [e])[c] && c !in InTransaction(t)
    ensures e.Acquired? || e.c != c
  {
    assert (t + [e])[..|t|] == t;
  }

  // A transaction has its outcome with its time.
  ghost predicate OpenUntilOver(l: Logged) {
    && l.outcome != Some(Open)
    && (l.begun ==> (l.outcome.None? <==> l.ms.None?))
  }

  lemma {:induction false} StepKeepsOpen(s: bool, t: Trace, log: seq<Logged>, e: Event, i: nat)
    requires i < |LogStep(s, t, log, e)| && (i < |log| ==> OpenUntilOver(log[i]))
    requires e.Answered? && e.c in InFlight(t) && InFlight(t)[e.c].kind.Ordinary? && e.c !in InTransaction(t) ==>
               StandsAlone(log, e.c)
    ensures OpenUntilOver(LogStep(s, t, log, e)[i])
  {
  }

  lemma {:induction false} TransactionIsOpenUntilOver(s: bool, t: Trace, i: nat)
    requires i < |Log(s, t)|
    ensures OpenUntilOver(Log(s, t)[i])
  {
    var before, e := t[..|t| - 1], t[|t| - 1];
    if i < |Log(s, before)| {
      TransactionIsOpenUntilOver(s, before, i);
    }
    if e.Answered? && e.c in InFlight(before) && InFlight(before)[e.c].kind.Ordinary? && e.c !in InTransaction(before) {
      AloneIsNotBegun(s, before, e.c);
    }
    StepKeepsOpen(s, before, Log(s, before), e, i);
  }

  ghost predicate CommitCame(s: bool, t: Trace, i: nat) {
    exists k: nat :: CommitAnswered(s, t, i, k)
  }

  // What a header says of an entry, by the events.
  ghost predicate SaysWhatCame(said: Option<Json>, s: bool, t: Trace, i: nat)
    requires i < |Log(s, t)|
  {
    var begun, ended := Log(s, t)[i].begun, QueryAuditTimes.Ended(s, t, i);
    && (said == Some(Str("commit")) <==> CommitCame(s, t, i))
    && (said == Some(Str("rollback")) <==> begun && ended && !CommitCame(s, t, i))
    && (said == Some(Str("open")) <==> begun && !ended)
    && (said == None <==> !begun)
  }

  lemma {:induction false} OutcomeCame(s: bool, r: bool, t: Trace, level: Level, i: nat)
    requires Legal(t) && i < |Log(s, t)|
    ensures |Recorded(s, r, t).audit.transactions| == |Log(s, t)|
    ensures var e := EntryOf(Recorded(s, r, t).audit.transactions[i], level);
            var begun, ended := Log(s, t)[i].begun, QueryAuditTimes.Ended(s, t, i);
            && (e.transaction == Some(Commit) <==> CommitCame(s, t, i))
            && (e.transaction == Some(Open) <==> begun && !ended)
            && (e.transaction == None <==> !begun)
  {
    EntryIsLogged(s, r, t, level, i);
    RecordsWhatHappened(s, r, t, i);
    CommitsAreThoseAnswered(s, r, t, i);
    TransactionIsOpenUntilOver(s, t, i);
    QueryAuditTimes.EntryTook(s, t, i);
    if Log(s, t)[i].outcome == Some(Commit) {
      CommittedIsBegun(s, t, i);
    }
  }

  /**
   The word a header gives a transaction, over any run of the recorder, at every level and size: `commit` exactly if a
   COMMIT in that transaction was answered without error or ROLLBACK, `open` exactly while nothing ended it, and
   `rollback` exactly if it ended otherwise. An entry that was no transaction has none.
   */
  lemma {:induction false} HeaderSaysWhatCame(q: Request, maxSize: int, level: Level, s: bool, r: bool, t: Trace,
                                              i: nat)
    requires Legal(t)
    requires i < |ShownOf(RequestFields(q), ValueIn(q), maxSize, ReportOf(Recorded(s, r, t).audit.transactions, level))|
    ensures i < |Log(s, t)|
    ensures var value := ValueShown(q, maxSize, ReportOf(Recorded(s, r, t).audit.transactions, level), i);
            value.Obj? && SaysWhatCame(Lookup(value.fields, "transaction"), s, t, i)
  {
    var ts := Recorded(s, r, t).audit.transactions;
    RunMatches(s, r, t);
    ShownKeepsTransaction(RequestFields(q), ValueIn(q), maxSize, ReportOf(ts, level), i);
    OutcomeCame(s, r, t, level, i);
    SaidOfShown(ShownOf(RequestFields(q), ValueIn(q), maxSize, ReportOf(ts, level))[i], q.timings,
                EntryOf(ts[i], level), s, t, i);
  }

  lemma {:induction false} SaidOfShown(shown: Entry, timings: bool, e: Entry, s: bool, t: Trace, i: nat)
    requires i < |Log(s, t)| && shown.transaction == e.transaction
    requires var begun, ended := Log(s, t)[i].begun, QueryAuditTimes.Ended(s, t, i);
             && (e.transaction == Some(Commit) <==> CommitCame(s, t, i))
             && (e.transaction == Some(Open) <==> begun && !ended)
             && (e.transaction == None <==> !begun)
    ensures EntryValue(shown, timings).Obj?
    ensures SaysWhatCame(Lookup(EntryValue(shown, timings).fields, "transaction"), s, t, i)
  {
    OutcomeSaid(shown, timings);
  }
}
