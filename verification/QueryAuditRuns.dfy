/**
 Whole runs of one request's statements over its pool connections, and what the recorder of
 api/src/database/query-audit.ts has noted after any of them. A connection runs one statement at a time and
 opens no transaction inside another; everything else interleaves freely.
 */
module QueryAuditRuns {
  import opened Options
  import opened AuditJson
  import opened QueryAuditRecorder

  datatype Event =
    | Acquired(given: Option<Connection>, ms: nat)
    | Started(c: Connection, sql: Sql, bound: Option<Json>, now: nat)
    | Answered(c: Connection, answer: Answer)

  type Trace = seq<Event>

  // ---------- what happened, read off the events alone ----------

  datatype Flight = Flight(kind: Kind, startedAt: nat)

  // The connections with a statement in flight, and which.
  function InFlight(t: Trace): map<Connection, Flight> {
    if t == [] then map[]
    else
      var before := InFlight(t[..|t| - 1]);
      match t[|t| - 1]
      case Acquired(_, _) => before
      case Started(c, sql, _, now) => before[c := Flight(sql.kind, now)]
      case Answered(c, _) => before - {c}
  }

  // The connections a BEGIN was sent on, less those since told it failed or its transaction is over.
  function InTransaction(t: Trace): set<Connection> {
    if t == [] then {}
    else
      var before, flight := InTransaction(t[..|t| - 1]), InFlight(t[..|t| - 1]);
      match t[|t| - 1]
      case Acquired(_, _) => before
      case Started(c, sql, _, _) => if sql.kind.Begin? then before + {c} else before
      case Answered(c, answer) =>
        if c in flight && (Ends(flight[c].kind) || (flight[c].kind.Begin? && answer.error.Some?)) then before - {c}
        else before
  }

  function Busy(t: Trace): set<Connection> {
    InFlight(t).Keys + InTransaction(t)
  }

  // The most connections busy at once, up to now.
  function Peak(t: Trace): nat {
    if t == [] then 0 else Max(Peak(t[..|t| - 1]), |Busy(t)|)
  }

  ghost predicate Allowed(t: Trace, e: Event) {
    match e
    case Acquired(_, _) => true
    case Started(c, sql, _, _) => c !in InFlight(t) && (sql.kind.Begin? ==> c !in InTransaction(t))
    case Answered(c, _) => c in InFlight(t)
  }

  ghost predicate Legal(t: Trace) {
    t == [] || (Legal(t[..|t| - 1]) && Allowed(t[..|t| - 1], t[|t| - 1]))
  }

  // ---------- what the recorder does with it ----------

  // The record, and the finishers of the statements in flight.
  datatype World = World(audit: Audit, finishers: map<Connection, Finisher>)

  ghost predicate WellFormed(w: World) {
    Sound(w.audit) && forall c :: c in w.finishers ==> Refers(w.finishers[c], w.audit.transactions)
  }

  function Step(w: World, e: Event): World
    requires WellFormed(w)
  {
    match e
    case Acquired(c, ms) => w.(audit := Waited(w.audit, c, ms))
    case Started(c, sql, bound, now) =>
      var (audit, finisher) := Start(w.audit, sql, c, bound, now);
      World(audit, w.finishers[c := finisher])
    case Answered(c, answer) =>
      if c !in w.finishers then w
      else World(Finish(w.audit, w.finishers[c], answer), w.finishers - {c})
  }

  // Entries are only added to, so a finisher never loses what it refers to.
  ghost predicate Grown(ts: seq<Transaction>, us: seq<Transaction>) {
    |ts| <= |us|
    && forall i :: 0 <= i < |ts| ==> |ts[i].statements| <= |us[i].statements| && |ts[i].runs| <= |us[i].runs|
  }

  lemma {:induction false} StartKindGrows(a: Entries, sql: Sql, c: Connection, wait: nat, bound: Option<Json>, now: nat)
    requires InRange(a)
    ensures Grown(a.transactions, StartKind(a, sql, c, wait, bound, now).0)
  {
  }

  lemma {:induction false} StartGrows(a: Audit, sql: Sql, c: Connection, bound: Option<Json>, now: nat)
    requires Sound(a)
    ensures Grown(a.transactions, Start(a, sql, c, bound, now).0.transactions)
  {
    StartKindGrows(EntriesOf(a), sql, c, Get(a.connectionWaits, c), bound, now);
  }

  lemma {:induction false} FinishGrows(a: Audit, f: Finisher, answer: Answer)
    requires Sound(a) && Refers(f, a.transactions)
    ensures Grown(a.transactions, Finish(a, f, answer).transactions)
  {
    FinishEntries(a, f, answer);
  }

  lemma {:induction false} StillRefers(finishers: map<Connection, Finisher>, ts: seq<Transaction>, us: seq<Transaction>)
    requires forall c :: c in finishers ==> Refers(finishers[c], ts)
    requires Grown(ts, us)
    ensures forall c :: c in finishers ==> Refers(finishers[c], us)
  {
  }

  lemma {:induction false} StepIsWellFormed(w: World, e: Event)
    requires WellFormed(w)
    ensures WellFormed(Step(w, e))
  {
    match e
    case Acquired(_, _) =>
      StillRefers(w.finishers, w.audit.transactions, Step(w, e).audit.transactions);
    case Started(c, sql, bound, now) =>
      StartIsSound(w.audit, sql, c, bound, now);
      StartGrows(w.audit, sql, c, bound, now);
      StillRefers(w.finishers, w.audit.transactions, Start(w.audit, sql, c, bound, now).0.transactions);
    case Answered(c, answer) =>
      if c in w.finishers {
        FinishIsSound(w.audit, w.finishers[c], answer);
        FinishGrows(w.audit, w.finishers[c], answer);
        StillRefers(w.finishers, w.audit.transactions, Finish(w.audit, w.finishers[c], answer).transactions);
      }
  }

  function Recorded(recordsStatements: bool, recordsRuns: bool, t: Trace): (w: World)
    ensures WellFormed(w)
  {
    if t == [] then World(Empty(recordsStatements, recordsRuns), map[])
    else
      var before := Recorded(recordsStatements, recordsRuns, t[..|t| - 1]);
      StepIsWellFormed(before, t[|t| - 1]);
      Step(before, t[|t| - 1])
  }

  // ---------- the connections held ----------

  // The finisher of a statement in flight is that of its kind.
  ghost predicate FinishesKind(f: Finisher, c: Connection, kind: Kind, inTransaction: bool) {
    !f.Nothing? && f.c == c
    && match kind
       case Begin => f.AfterBegin? && inTransaction
       case Ordinary => f.AfterStatement?
       case OtherTransactionWord => f.AfterOther?
       case _ => if inTransaction then f.AfterEnd? && f.commits == kind.CommitAll? else f.AfterOther?
  }

  // A transaction is open from its BEGIN until its end starts.
  function OpenIn(t: Trace): set<Connection> {
    set c | c in InTransaction(t) && !(c in InFlight(t) && Ends(InFlight(t)[c].kind))
  }

  function Flag(b: bool): nat {
    if b then 1 else 0
  }

  ghost predicate Follows(w: World, t: Trace) {
    !w.audit.closed && FinishersFollow(w.finishers, w.audit.openTransactions, t)
  }

  lemma {:induction false} StartKindFollows(a: Entries, sql: Sql, c: Connection, wait: nat, bound: Option<Json>,
                                            now: nat)
    requires InRange(a)
    ensures var (ts, open, f) := StartKind(a, sql, c, wait, bound, now);
            && open.Keys == (if sql.kind.Begin? then a.openTransactions.Keys + {c}
                             else if Ends(sql.kind) then a.openTransactions.Keys - {c} else a.openTransactions.Keys)
            && (forall d :: d in open && d != c ==> d in a.openTransactions && open[d] == a.openTransactions[d])
            && FinishesKind(f, c, sql.kind, sql.kind.Begin? || c in a.openTransactions)
            && (sql.kind.Begin? ==> open[c] == f.tx)
  {
  }

  // The finishers, and the entries they refer to, while a statement starts.
  ghost predicate FinishersFollow(finishers: map<Connection, Finisher>, open: map<Connection, nat>, t: Trace) {
    && finishers.Keys == InFlight(t).Keys
    && open.Keys == OpenIn(t)
    && (forall c :: c in InFlight(t) ==> FinishesKind(finishers[c], c, InFlight(t)[c].kind, c in InTransaction(t)))
    && (forall c :: c in InFlight(t) && InFlight(t)[c].kind.Begin? ==> open[c] == finishers[c].tx)
  }

  lemma {:induction false} StartingFollows(t: Trace, e: Event, finishers: map<Connection, Finisher>,
                                           open: map<Connection, nat>, after: map<Connection, nat>, f: Finisher)
    requires e.Started? && Allowed(t, e) && FinishersFollow(finishers, open, t)
    requires after.Keys == (if e.sql.kind.Begin? then open.Keys + {e.c}
                            else if Ends(e.sql.kind) then open.Keys - {e.c} else open.Keys)
    requires forall d :: d in after && d != e.c ==> d in open && after[d] == open[d]
    requires FinishesKind(f, e.c, e.sql.kind, e.sql.kind.Begin? || e.c in open)
    requires e.sql.kind.Begin? ==> after[e.c] == f.tx
    ensures FinishersFollow(finishers[e.c := f], after, t + [e])
  {
    var all := t + [e];
    assert all[..|t|] == t;
    forall c | c in InFlight(all) && InFlight(all)[c].kind.Begin? ensures after[c] == finishers[e.c := f][c].tx {
      assert c != e.c ==> c in OpenIn(t);
    }
  }

  lemma {:induction false} StartFollows(w: World, t: Trace, e: Event)
    requires WellFormed(w) && Follows(w, t) && e.Started? && Allowed(t, e)
    ensures Follows(Step(w, e), t + [e])
  {
    var wait := Get(w.audit.connectionWaits, e.c);
    StartKindFollows(EntriesOf(w.audit), e.sql, e.c, wait, e.bound, e.now);
    var (ts, open, f) := StartKind(EntriesOf(w.audit), e.sql, e.c, wait, e.bound, e.now);
    StartingFollows(t, e, w.finishers, w.audit.openTransactions, open, f);
  }

  lemma {:induction false} AnswerFollows(w: World, t: Trace, e: Event)
    requires WellFormed(w) && Follows(w, t) && e.Answered? && Allowed(t, e)
    ensures Follows(Step(w, e), t + [e])
  {
    FinishHolds(w.audit, w.finishers[e.c], e.answer);
    FinishOpens(w.audit, w.finishers[e.c], e.answer);
  }

  lemma {:induction false} RunFollows(s: bool, r: bool, t: Trace)
    requires Legal(t)
    ensures Follows(Recorded(s, r, t), t)
  {
    if t != [] {
      var before, e := t[..|t| - 1], t[|t| - 1];
      assert t == before + [e];
      RunFollows(s, r, before);
      if e.Started? {
        StartFollows(Recorded(s, r, before), before, e);
      } else if e.Answered? {
        AnswerFollows(Recorded(s, r, before), before, e);
      }
    }
  }

  // One hold for a statement in flight, one for a transaction.
  ghost predicate HoldsMatch(holds: map<Connection, nat>, t: Trace) {
    forall c :: Get(holds, c) == Flag(c in InFlight(t)) + Flag(c in InTransaction(t))
                && (c in holds ==> holds[c] > 0)
  }

  lemma {:induction false} ClosesWhatLeaves(t: Trace, e: Event, f: Finisher)
    requires e.Answered? && Allowed(t, e) && FinishesKind(f, e.c, InFlight(t)[e.c].kind, e.c in InTransaction(t))
    ensures ClosesTransaction(f, e.answer) <==> e.c in InTransaction(t) && e.c !in InTransaction(t + [e])
  {
    assert (t + [e])[..|t|] == t;
  }

  lemma {:induction false} StartHolds(holds: map<Connection, nat>, t: Trace, e: Event)
    requires e.Started? && Allowed(t, e) && HoldsMatch(holds, t)
    ensures HoldsMatch(if e.sql.kind.Begin? then Held(Held(holds, e.c), e.c) else Held(holds, e.c), t + [e])
  {
    assert (t + [e])[..|t|] == t;
  }

  lemma {:induction false} AnswerHolds(holds: map<Connection, nat>, t: Trace, e: Event)
    requires e.Answered? && Allowed(t, e) && HoldsMatch(holds, t)
    ensures var closes := e.c in InTransaction(t) && e.c !in InTransaction(t + [e]);
            HoldsMatch(if closes then Released(Released(holds, e.c), e.c) else Released(holds, e.c), t + [e])
  {
    assert (t + [e])[..|t|] == t;
  }

  lemma {:induction false} HoldsStep(w: World, t: Trace, e: Event)
    requires WellFormed(w) && Follows(w, t) && Allowed(t, e) && HoldsMatch(w.audit.connectionHolds, t)
    ensures HoldsMatch(Step(w, e).audit.connectionHolds, t + [e])
  {
    if e.Started? {
      StartHolds(w.audit.connectionHolds, t, e);
    } else if e.Answered? {
      FinishHolds(w.audit, w.finishers[e.c], e.answer);
      ClosesWhatLeaves(t, e, w.finishers[e.c]);
      AnswerHolds(w.audit.connectionHolds, t, e);
    } else {
      assert (t + [e])[..|t|] == t;
    }
  }

  lemma {:induction false} HeldAreBusy(holds: map<Connection, nat>, t: Trace)
    requires HoldsMatch(holds, t)
    ensures holds.Keys == Busy(t)
  {
    forall c ensures c in holds <==> c in Busy(t) {
      assert Get(holds, c) == Flag(c in InFlight(t)) + Flag(c in InTransaction(t));
    }
  }

  lemma {:induction false} SubsetSize(a: set<Connection>, b: set<Connection>)
    requires a <= b
    ensures |a| <= |b|
  {
    if a != {} {
      var c :| c in a;
      SubsetSize(a - {c}, b - {c});
    }
  }

  lemma {:induction false} PeakStep(t: Trace, e: Event, most: nat, mostAfter: nat)
    requires Allowed(t, e) && most == Peak(t)
    requires mostAfter == if e.Started? then Max(most, |Busy(t + [e])|) else most
    ensures mostAfter == Peak(t + [e])
  {
    assert (t + [e])[..|t|] == t;
    if !e.Started? {
      assert Busy(t + [e]) <= Busy(t);
      SubsetSize(Busy(t + [e]), Busy(t));
      assert t == [] ==> Busy(t) == {};
    }
  }

  lemma {:induction false} MostHeldStep(w: World, e: Event)
    requires WellFormed(w) && !w.audit.closed
    requires e.Answered? ==> e.c in w.finishers && !w.finishers[e.c].Nothing?
    ensures var v := Step(w, e);
            v.audit.maxPoolConnections
            == if e.Started? then Max(w.audit.maxPoolConnections, |v.audit.connectionHolds.Keys|)
            else w.audit.maxPoolConnections
  {
    if e.Started? {
      var holds := Held(w.audit.connectionHolds, e.c);
      assert Held(holds, e.c).Keys == holds.Keys;
      assert |holds.Keys| == |holds|;
    } else if e.Answered? {
      FinishHolds(w.audit, w.finishers[e.c], e.answer);
    }
  }

  /**
   For every interleaving, the connections held are exactly those with a statement in flight or a transaction
   open, and `maxPoolConnections` is exactly the most of them at once.
   */
  lemma {:induction false} HeldExactlyWhileBusy(s: bool, r: bool, t: Trace)
    requires Legal(t)
    ensures HoldsMatch(Recorded(s, r, t).audit.connectionHolds, t)
    ensures Recorded(s, r, t).audit.connectionHolds.Keys == Busy(t)
    ensures Recorded(s, r, t).audit.maxPoolConnections == Peak(t)
  {
    if t != [] {
      var before, e := t[..|t| - 1], t[|t| - 1];
      assert t == before + [e];
      HeldExactlyWhileBusy(s, r, before);
      RunFollows(s, r, before);
      HoldsStep(Recorded(s, r, before), before, e);
      HeldAreBusy(Recorded(s, r, t).audit.connectionHolds, t);
      MostHeldStep(Recorded(s, r, before), e);
      PeakStep(before, e, Recorded(s, r, before).audit.maxPoolConnections, Recorded(s, r, t).audit.maxPoolConnections);
    }
  }
}
