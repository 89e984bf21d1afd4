/**
 The recorder of the query audit: statements, transactions and pool connections of one request, interleaved
 over many connections (api/src/database/query-audit.ts, auditStatementStart and its finishers).
 `Audit` and the functions over it say what each call does to the record; class `QueryAudit` does it in place.
 */
module QueryAuditRecorder {
  import opened Options
  import opened AuditJson
  import opened QueryAuditItems
  import opened QueryAuditEntries

  type Connection = string

  // What the leading keyword of a statement makes of it.
  datatype Kind = Begin | CommitAll | RollbackAll | OtherTransactionWord | Ordinary

  predicate Ends(k: Kind) {
    k.CommitAll? || k.RollbackAll?
  }

  datatype Sql = Sql(kind: Kind, text: string, cutStmt: string)

  // What the driver answered, at the time `now`.
  datatype Answer = Answer(rows: Option<nat>, error: Option<string>, command: Option<string>, now: nat)

  datatype Run = Run(
    stmt: string, cutStmt: string, ms: Option<nat>, wait: nat,
    rows: Option<nat>, error: Option<string>, bindings: Option<Json>)

  // `statements` in the insertion order of the source's Map, one per statement.
  datatype Transaction = Transaction(
    startedAt: nat, ms: Option<nat>, wait: nat, outcome: Option<Outcome>, error: Option<string>,
    outside: bool, statements: seq<Item>, runs: seq<Run>)

  // What a started statement's returned function still has to do.
  datatype Finisher =
    | Nothing
    | AfterBegin(c: Connection, tx: nat, startedAt: nat)
    | AfterEnd(c: Connection, tx: nat, commits: bool)
    | AfterOther(c: Connection)
    | AfterStatement(c: Connection, tx: nat, at: nat, run: Option<nat>, startedAt: nat, alone: bool)

  datatype Audit = Audit(
    recordsStatements: bool, recordsRuns: bool, closed: bool, dbMs: nat, waitMs: nat,
    connectionWaits: map<Connection, nat>, connectionHolds: map<Connection, nat>, maxPoolConnections: nat,
    transactions: seq<Transaction>, openTransactions: map<Connection, nat>)

  // The part of the record a starting statement adds to.
  datatype Entries = Entries(
    recordsStatements: bool, recordsRuns: bool, transactions: seq<Transaction>, openTransactions: map<Connection, nat>)

  function EntriesOf(a: Audit): Entries {
    Entries(a.recordsStatements, a.recordsRuns, a.transactions, a.openTransactions)
  }

  // Every reference into `transactions` is one of its entries, as a reference held by a closure is.
  ghost predicate InRange(a: Entries) {
    forall c :: c in a.openTransactions ==> a.openTransactions[c] < |a.transactions|
  }

  ghost predicate Sound(a: Audit) {
    InRange(EntriesOf(a))
  }

  ghost predicate Refers(f: Finisher, ts: seq<Transaction>) {
    match f
    case AfterBegin(_, tx, _) => tx < |ts|
    case AfterEnd(_, tx, _) => tx < |ts|
    case AfterStatement(_, tx, at, run, _, _) =>
      tx < |ts| && at < |ts[tx].statements| && (run.Some? ==> run.value < |ts[tx].runs|)
    case _ => true
  }

  function Empty(recordsStatements: bool, recordsRuns: bool): Audit {
    Audit(recordsStatements, recordsRuns, false, 0, 0, map[], map[], 0, [], map[])
  }

  function Get(m: map<Connection, nat>, c: Connection): nat {
    if c in m then m[c] else 0
  }

  function Max(a: nat, b: nat): nat {
    if a < b then b else a
  }

  function Since(startedAt: nat, now: nat): nat {
    if startedAt <= now then now - startedAt else 0
  }

  // ---------- what each call does ----------

  function Held(holds: map<Connection, nat>, c: Connection): map<Connection, nat> {
    holds[c := Get(holds, c) + 1]
  }

  function Hold(a: Audit, c: Connection): Audit {
    var holds := Held(a.connectionHolds, c);
    a.(connectionHolds := holds, maxPoolConnections := Max(a.maxPoolConnections, |holds|))
  }

  function Released(holds: map<Connection, nat>, c: Connection): map<Connection, nat> {
    if Get(holds, c) > 1 then holds[c := holds[c] - 1] else holds - {c}
  }

  function Release(a: Audit, c: Connection): Audit {
    a.(connectionHolds := Released(a.connectionHolds, c))
  }

  function Waited(a: Audit, c: Option<Connection>, ms: nat): Audit {
    if a.closed then a
    else a.(waitMs := a.waitMs + ms,
         connectionWaits := if c.Some? then a.connectionWaits[c.value := ms] else a.connectionWaits)
  }

  function Close(a: Audit): Audit {
    a.(closed := true, connectionWaits := map[], connectionHolds := map[], openTransactions := map[])
  }

  function NewTransaction(startedAt: nat, wait: nat, outside: bool): Transaction {
    Transaction(startedAt, None, wait, None, None, outside, [], [])
  }

  function IndexOf(items: seq<Item>, stmt: string): (r: nat)
    ensures r <= |items|
    ensures r < |items| ==> items[r].stmt == stmt
    ensures forall i :: 0 <= i < r ==> items[i].stmt != stmt
  {
    if items == [] || items[0].stmt == stmt then 0 else 1 + IndexOf(items[1..], stmt)
  }

  // One more run of a statement, counted when it starts.
  function Counted(item: Item, wait: nat, bound: Option<Json>): Item {
    item.(count := item.count + 1, wait := item.wait + wait,
    bindings := if bound.Some? then Some(item.bindings.GetOr([]) + [bound.value]) else item.bindings)
  }

  function NewItem(stmt: string, cutStmt: string): Item {
    Item(stmt, cutStmt, 0, Some(0), 0, None, None, Some([]))
  }

  function StartIn(t: Transaction, stmt: string, cutStmt: string, wait: nat, bound: Option<Json>, recordsRuns: bool)
    : (r: Transaction)
    ensures IndexOf(t.statements, stmt) < |r.statements|
    ensures |r.runs| == |t.runs| + if recordsRuns then 1 else 0
  {
    var at := IndexOf(t.statements, stmt);
    t.(statements := if at < |t.statements| then t.statements[at := Counted(t.statements[at], wait, bound)]
    else t.statements + [Counted(NewItem(stmt, cutStmt), wait, bound)],
         runs := if recordsRuns then t.runs + [Run(stmt, cutStmt, None, wait, None, None, bound)]
         else t.runs)
  }

  // A statement other than BEGIN, COMMIT and the like joins the connection's open entry or begins one.
  function StartOrdinary(a: Entries, sql: Sql, c: Connection, wait: nat, bound: Option<Json>, now: nat)
    : (r: (seq<Transaction>, Finisher))
    requires InRange(a)
    ensures |r.0| >= |a.transactions| && r.1.AfterStatement?
    ensures Refers(r.1, r.0)
  {
    var alone := c !in a.openTransactions;
    var tx := if alone then |a.transactions| else a.openTransactions[c];
    var t := if alone then NewTransaction(now, 0, true) else a.transactions[tx];
    var stmt := if a.recordsStatements then sql.text else sql.cutStmt;
    var started := StartIn(t, stmt, sql.cutStmt, wait, bound, a.recordsRuns);
    (if alone then a.transactions + [started] else a.transactions[tx := started],
     AfterStatement(c, tx, IndexOf(t.statements, stmt), if a.recordsRuns then Some(|t.runs|) else None, now, alone))
  }

  // The entries, the open transactions and the finisher once a statement has started.
  function StartKind(a: Entries, sql: Sql, c: Connection, wait: nat, bound: Option<Json>, now: nat)
    : (seq<Transaction>, map<Connection, nat>, Finisher)
    requires InRange(a)
  {
    var n, open := |a.transactions|, a.openTransactions;
    match sql.kind
    case Begin => (a.transactions + [NewTransaction(now, wait, false)], open[c := n], AfterBegin(c, n, now))
    case OtherTransactionWord => (a.transactions, open, AfterOther(c))
    case Ordinary => var (transactions, f) := StartOrdinary(a, sql, c, wait, bound, now); (transactions, open, f)
    case _ =>
      if c !in open then (a.transactions, open, AfterOther(c))
      else (a.transactions, open - {c}, AfterEnd(c, open[c], sql.kind.CommitAll?))
  }

  // A statement starts on a connection; `bound` is its bound values where they may be recorded.
  function Start(a: Audit, sql: Sql, c: Connection, bound: Option<Json>, now: nat): (Audit, Finisher)
    requires Sound(a)
  {
    if a.closed then (a, Nothing)
    else
      var held := Held(a.connectionHolds, c);
      var (transactions, open, finisher) := StartKind(EntriesOf(a), sql, c, Get(a.connectionWaits, c), bound, now);
      (a.(connectionWaits := a.connectionWaits - {c},
       connectionHolds := if sql.kind.Begin? then Held(held, c) else held,
       maxPoolConnections := Max(a.maxPoolConnections, |held|),
       transactions := transactions, openTransactions := open), finisher)
  }

  lemma {:induction false} StartKindIsSound(a: Entries, sql: Sql, c: Connection, wait: nat, bound: Option<Json>,
                                            now: nat)
    requires InRange(a)
    ensures var (ts, open, f) := StartKind(a, sql, c, wait, bound, now);
            Refers(f, ts) && forall d :: d in open ==> open[d] < |ts|
  {
  }

  lemma {:induction false} StartIsSound(a: Audit, sql: Sql, c: Connection, bound: Option<Json>, now: nat)
    requires Sound(a)
    ensures Sound(Start(a, sql, c, bound, now).0)
    ensures Refers(Start(a, sql, c, bound, now).1, Start(a, sql, c, bound, now).0.transactions)
  {
    StartKindIsSound(EntriesOf(a), sql, c, Get(a.connectionWaits, c), bound, now);
  }

  function Finished(item: Item, ms: nat, answer: Answer): Item {
    item.(ms := Some(item.ms.GetOr(0) + ms),
    rows := if answer.rows.Some? then Some(item.rows.GetOr(0) + answer.rows.value) else item.rows,
    error := if item.error.Some? then item.error else answer.error)
  }

  function FinishedRun(run: Run, ms: nat, answer: Answer): Run {
    run.(ms := Some(ms), rows := if answer.rows.Some? then answer.rows else run.rows,
    error := if answer.error.Some? then answer.error else run.error)
  }

  // Whether the end of a transaction committed it.
  predicate Committed(commits: bool, answer: Answer) {
    commits && answer.error.None? && answer.command != Some("ROLLBACK")
  }

  function Ended(t: Transaction, commits: bool, answer: Answer): Transaction {
    t.(outcome := Some(if Committed(commits, answer) then Commit else Rollback),
    error := if answer.error.Some? then answer.error else t.error,
    ms := Some(Since(t.startedAt, answer.now)))
  }

  function FinishIn(t: Transaction, f: Finisher, answer: Answer): Transaction
    requires f.AfterStatement? && f.at < |t.statements| && (f.run.Some? ==> f.run.value < |t.runs|)
  {
    var ms := Since(f.startedAt, answer.now);
    t.(statements := t.statements[f.at := Finished(t.statements[f.at], ms, answer)],
    runs := if f.run.Some? then t.runs[f.run.value := FinishedRun(t.runs[f.run.value], ms, answer)] else t.runs,
    ms := if f.alone then Some(ms) else t.ms)
  }

  // The entry of a BEGIN the database refused, ended as it stands.
  function Refused(t: Transaction, startedAt: nat, answer: Answer): Transaction {
    t.(outcome := Some(Rollback), error := answer.error, ms := Some(Since(startedAt, answer.now)))
  }

  // The driver answered the statement.
  function Finish(a: Audit, f: Finisher, answer: Answer): Audit
    requires Sound(a) && Refers(f, a.transactions)
  {
    match f
    case Nothing => a
    case AfterOther(c) => Release(a, c)
    case AfterBegin(c, tx, startedAt) =>
      if answer.error.None? then Release(a, c)
      else
        var stillOpen := c in a.openTransactions && a.openTransactions[c] == tx;
        Release(Release(a, c).(
                openTransactions := if stillOpen then a.openTransactions - {c} else a.openTransactions,
                transactions := a.transactions[tx := Refused(a.transactions[tx], startedAt, answer)]), c)
    case AfterEnd(c, tx, commits) =>
      Release(Release(a.(transactions := a.transactions[tx := Ended(a.transactions[tx], commits, answer)]), c), c)
    case AfterStatement(c, tx, _, _, startedAt, _) =>
      Release(a.(dbMs := a.dbMs + Since(startedAt, answer.now),
              transactions := a.transactions[tx := FinishIn(a.transactions[tx], f, answer)]), c)
  }

  lemma {:induction false} FinishIsSound(a: Audit, f: Finisher, answer: Answer)
    requires Sound(a) && Refers(f, a.transactions)
    ensures Sound(Finish(a, f, answer))
  {
  }

  // ---------- the effect of a call, field by field ----------

  // Whether the answer ends a transaction, or refuses one.
  predicate ClosesTransaction(f: Finisher, answer: Answer) {
    f.AfterEnd? || (f.AfterBegin? && answer.error.Some?)
  }

  lemma {:induction false} FinishHolds(a: Audit, f: Finisher, answer: Answer)
    requires Sound(a) && Refers(f, a.transactions) && !f.Nothing?
    ensures var b, once := Finish(a, f, answer), Released(a.connectionHolds, f.c);
            && b.connectionHolds == (if ClosesTransaction(f, answer) then Released(once, f.c) else once)
            && b.maxPoolConnections == a.maxPoolConnections && b.connectionWaits == a.connectionWaits
            && b.waitMs == a.waitMs && b.closed == a.closed
            && b.recordsRuns == a.recordsRuns && b.recordsStatements == a.recordsStatements
  {
  }

  lemma {:induction false} FinishOpens(a: Audit, f: Finisher, answer: Answer)
    requires Sound(a) && Refers(f, a.transactions) && !f.Nothing?
    ensures Finish(a, f, answer).openTransactions
         == if f.AfterBegin? && answer.error.Some? && f.c in a.openTransactions && a.openTransactions[f.c] == f.tx
            then a.openTransactions - {f.c} else a.openTransactions
  {
  }

  // What the answer makes of the entries.
  function AnsweredEntries(ts: seq<Transaction>, f: Finisher, answer: Answer): seq<Transaction>
    requires Refers(f, ts)
  {
    match f
    case AfterBegin(_, tx, startedAt) => if answer.error.None? then ts else ts[tx := Refused(ts[tx], startedAt, answer)]
    case AfterEnd(_, tx, commits) => ts[tx := Ended(ts[tx], commits, answer)]
    case AfterStatement(_, tx, _, _, _, _) => ts[tx := FinishIn(ts[tx], f, answer)]
    case _ => ts
  }

  lemma {:induction false} FinishEntries(a: Audit, f: Finisher, answer: Answer)
    requires Sound(a) && Refers(f, a.transactions)
    ensures Finish(a, f, answer).transactions == AnsweredEntries(a.transactions, f, answer)
  {
  }

  // ---------- the record kept in place ----------

  class QueryAudit {
    const recordsStatements: bool
    const recordsRuns: bool
    var closed: bool
    var dbMs: nat
    var waitMs: nat
    var connectionWaits: map<Connection, nat>
    var connectionHolds: map<Connection, nat>
    var maxPoolConnections: nat
    var transactionAudits: seq<Transaction>
    var openTransactionAudits: map<Connection, nat>

    function State(): Audit
      reads this
    {
      Audit(recordsStatements, recordsRuns, closed, dbMs, waitMs, connectionWaits, connectionHolds,
            maxPoolConnections, transactionAudits, openTransactionAudits)
    }

    constructor (recordsStatements: bool, recordsRuns: bool)
      ensures State() == Empty(recordsStatements, recordsRuns)
    {
      this.recordsStatements, this.recordsRuns := recordsStatements, recordsRuns;
      closed, dbMs, waitMs, maxPoolConnections := false, 0, 0, 0;
      connectionWaits, connectionHolds, openTransactionAudits := map[], map[], map[];
      transactionAudits := [];
    }

    method AuditConnectionWait(connectionId: Option<Connection>, ms: nat)
      modifies this
      ensures State() == Waited(old(State()), connectionId, ms)
    {
      if closed {
        return;
      }
      waitMs := waitMs + ms;
      if connectionId.Some? {
        connectionWaits := connectionWaits[connectionId.value := ms];
      }
    }

    method CloseQueryAudit()
      modifies this
      ensures State() == Close(old(State()))
    {
      closed := true;
      connectionWaits, connectionHolds, openTransactionAudits := map[], map[], map[];
    }

    method HoldConnection(c: Connection)
      modifies `connectionHolds, `maxPoolConnections
      ensures State() == Hold(old(State()), c)
    {
      connectionHolds := connectionHolds[c := Get(connectionHolds, c) + 1];
      maxPoolConnections := Max(maxPoolConnections, |connectionHolds|);
    }

    // A second hold on a connection held already takes no further one.
    method HoldAgain(c: Connection)
      requires c in connectionHolds && |connectionHolds| <= maxPoolConnections
      modifies `connectionHolds, `maxPoolConnections
      ensures connectionHolds == Held(old(connectionHolds), c) && maxPoolConnections == old(maxPoolConnections)
    {
      ghost var once := connectionHolds;
      HoldConnection(c);
      assert |connectionHolds| == |once| by { assert connectionHolds.Keys == once.Keys; }
    }

    method ReleaseConnection(c: Connection)
      modifies `connectionHolds
      ensures State() == Release(old(State()), c)
    {
      var holdCount: int := Get(connectionHolds, c) - 1;
      if holdCount > 0 {
        connectionHolds := connectionHolds[c := holdCount];
      } else {
        connectionHolds := connectionHolds - {c};
      }
    }

    method RecordStatement(sql: Sql, c: Connection, wait: nat, bound: Option<Json>, now: nat)
      returns (finisher: Finisher)
      requires Sound(State())
      modifies `transactionAudits
      ensures (transactionAudits, finisher) == StartOrdinary(EntriesOf(old(State())), sql, c, wait, bound, now)
    {
      var stmt := if recordsStatements then sql.text else sql.cutStmt;
      var alone := c !in openTransactionAudits;
      var tx := if alone then |transactionAudits| else openTransactionAudits[c];
      if alone {
        transactionAudits := transactionAudits + [NewTransaction(now, 0, true)];
      }
      var t := transactionAudits[tx];
      finisher := AfterStatement(c, tx, IndexOf(t.statements, stmt),
                                 if recordsRuns then Some(|t.runs|) else None, now, alone);
      var started := StartIn(t, stmt, sql.cutStmt, wait, bound, recordsRuns);
      transactionAudits := transactionAudits[tx := started];
      assert alone ==> transactionAudits == old(transactionAudits) + [started];
    }

    method StartOfKind(sql: Sql, c: Connection, wait: nat, bound: Option<Json>, now: nat) returns (finisher: Finisher)
      requires Sound(State())
      modifies `transactionAudits, `openTransactionAudits
      ensures (transactionAudits, openTransactionAudits, finisher)
           == StartKind(EntriesOf(old(State())), sql, c, wait, bound, now)
    {
      if sql.kind.Begin? {
        var tx := |transactionAudits|;
        transactionAudits := transactionAudits + [NewTransaction(now, wait, false)];
        openTransactionAudits := openTransactionAudits[c := tx];
        return AfterBegin(c, tx, now);
      }
      if !sql.kind.Ordinary? {
        if !Ends(sql.kind) || c !in openTransactionAudits {
          return AfterOther(c);
        }
        finisher := AfterEnd(c, openTransactionAudits[c], sql.kind.CommitAll?);
        openTransactionAudits := openTransactionAudits - {c};
        return;
      }
      finisher := RecordStatement(sql, c, wait, bound, now);
    }

    method AuditStatementStart(sql: Sql, c: Connection, bound: Option<Json>, now: nat) returns (finisher: Finisher)
      requires Sound(State())
      modifies this
      ensures (State(), finisher) == Start(old(State()), sql, c, bound, now)
      ensures Sound(State()) && Refers(finisher, transactionAudits)
    {
      ghost var before := State();
      StartIsSound(before, sql, c, bound, now);
      if closed {
        return Nothing;
      }
      var wait := Get(connectionWaits, c);
      connectionWaits := connectionWaits - {c};
      HoldConnection(c);
      assert EntriesOf(State()) == EntriesOf(before);
      finisher := StartOfKind(sql, c, wait, bound, now);
      if sql.kind.Begin? {
        HoldAgain(c);
      }
    }

    method FinishStatement(f: Finisher, answer: Answer)
      requires Sound(State()) && Refers(f, transactionAudits)
      modifies this
      ensures State() == Finish(old(State()), f, answer)
      ensures Sound(State())
    {
      match f
      case Nothing =>
      case AfterOther(c) => ReleaseConnection(c);
      case AfterBegin(c, tx, startedAt) =>
        ReleaseConnection(c);
        if answer.error.Some? {
          if c in openTransactionAudits && openTransactionAudits[c] == tx {
            openTransactionAudits := openTransactionAudits - {c};
          }
          transactionAudits := transactionAudits[tx := Refused(transactionAudits[tx], startedAt, answer)];
          ReleaseConnection(c);
        }
      case AfterEnd(c, tx, commits) =>
        transactionAudits := transactionAudits[tx := Ended(transactionAudits[tx], commits, answer)];
        ReleaseConnection(c);
        ReleaseConnection(c);
      case AfterStatement(c, tx, _, _, startedAt, _) =>
        dbMs := dbMs + Since(startedAt, answer.now);
        transactionAudits := transactionAudits[tx := FinishIn(transactionAudits[tx], f, answer)];
        ReleaseConnection(c);
    }
  }
}
