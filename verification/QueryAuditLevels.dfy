/**
 The entry a transaction is reported as at each level (api/src/database/query-audit.ts, auditEntryOf), and how
 the levels agree.
 */
module QueryAuditLevels {
  import opened Options
  import opened AuditJson
  import opened QueryAuditItems
  import opened QueryAuditEntries
  import opened QueryAuditRecorder
  import opened QueryAuditRuns
  import opened QueryAuditLog

  datatype Level = Counts | Statements | Bindings | Full

  predicate CarriesBindings(level: Level) {
    level.Bindings? || level.Full?
  }

  // One run, reported with its own bound values, an empty list where they were not recorded.
  function FullItem(run: Run): Item {
    RunItem(run).(bindings := Some([run.bindings.GetOr(Arr([]))]))
  }

  function EntryItems(t: Transaction, level: Level): seq<Item> {
    var items :=
      if level.Full? then seq(|t.runs|, i requires 0 <= i < |t.runs| => FullItem(t.runs[i])) else t.statements;
    var levelItems := if level.Counts? then Merged(Cut(items)) else items;
    if CarriesBindings(level) then levelItems else Unbound(levelItems)
  }

  function EntryOf(t: Transaction, level: Level): Entry {
    Entry(if t.outside then None else Some(t.outcome.GetOr(Open)), if t.outside then None else t.error,
          t.ms, t.wait, level.Full?, EntryItems(t, level), None, None, None)
  }

  /**
   Of an entry whose every run is answered and recorded with its values, the first cut of level `full` gives
   exactly the entry of level `bindings`, marked with the number of runs it grouped.
   */
  lemma {:induction false} GroupedFullIsBindings(s: bool, t: Trace, i: nat)
    requires Legal(t) && i < |Log(s, t)|
    requires forall k :: 0 <= k < |Log(s, t)[i].runs| ==>
                           Log(s, t)[i].runs[k].ms.Some? && Log(s, t)[i].runs[k].bindings.Some?
    ensures |Recorded(s, true, t).audit.transactions| == |Log(s, t)|
    ensures var tx := Recorded(s, true, t).audit.transactions[i];
            Drop(GroupRuns, EntryOf(tx, Full)) == EntryOf(tx, Bindings).(runsGrouped := Some(|tx.runs|))
  {
    RecordsWhatHappened(s, true, t, i);
    GroupingFinishedRuns(s, t, i);
    var tx := Recorded(s, true, t).audit.transactions[i];
    assert EntryItems(tx, Full) == RunItems(tx.runs);
  }

  // Every level reports the same runs, times, waits and rows of an entry, whatever it leaves of the rest.
  lemma {:induction false} LevelsAgree(s: bool, t: Trace, i: nat, level: Level, m: Measure)
    requires Legal(t) && i < |Log(s, t)| && m != BoundRuns
    ensures |Recorded(s, true, t).audit.transactions| == |Log(s, t)|
    ensures Sum(m, EntryItems(Recorded(s, true, t).audit.transactions[i], level)) == Sum(m, RunItems(Log(s, t)[i].runs))
  {
    RecordsWhatHappened(s, true, t, i);
    var tx, items := Recorded(s, true, t).audit.transactions[i], RunItems(Log(s, t)[i].runs);
    var base := if level.Full? then EntryItems(tx, Full) else tx.statements;
    assert Sum(m, base) == Sum(m, items) by {
      if level.Full? {
        SumIsPointwise(m, EntryItems(tx, Full), items);
      } else {
        MergedConserves(m, items);
        SumIsPointwise(m, tx.statements, Merged(items));
      }
    }
    if level.Counts? {
      SumIsPointwise(m, Cut(base), base);
      MergedConserves(m, Cut(base));
      SumIsPointwise(m, Unbound(Merged(Cut(base))), Merged(Cut(base)));
    } else if level.Statements? {
      SumIsPointwise(m, Unbound(base), base);
    }
  }
}
