/**
 The reported entries of the query audit and the three ways one is cut, and the order of the cuts
 (api/src/database/query-audit.ts, entryValueOf, DROPPED_DETAILS and entryIndexesByDetailSize).
 */
module QueryAuditEntries {
  import opened Options
  import opened AuditJson
  import opened QueryAuditItems

  datatype Outcome = Open | Commit | Rollback

  // What one item of the header describes: `transaction` is None where a statement ran alone.
  datatype Entry = Entry(
    transaction: Option<Outcome>, error: Option<string>, ms: Option<nat>, wait: nat,
    runsInOrder: bool, items: seq<Item>,
    runsGrouped: Option<nat>, bindingsDropped: Option<nat>, statementsCut: Option<nat>)

  // The request's own fields; `timings` decides which of them are reported.
  datatype Request = Request(ms: nat, db: nat, wait: nat, maxPoolConnections: nat, timings: bool)

  // ---------- the reported values ----------

  function NumField(key: string, n: Option<nat>): seq<Field> {
    if n.Some? then [Field(key, Num(n.value))] else []
  }

  function StrField(key: string, s: Option<string>): seq<Field> {
    if s.Some? then [Field(key, Str(s.value))] else []
  }

  function When(condition: bool, n: nat): Option<nat> {
    if condition then Some(n) else None
  }

  function BindingsField(bindings: Option<seq<Json>>, runsInOrder: bool): seq<Field> {
    if bindings.None? || (runsInOrder && bindings.value == []) then []
    else [Field("bindings", if runsInOrder then bindings.value[0] else Arr(bindings.value))]
  }

  function StatementFields(item: Item, runsInOrder: bool, timings: bool, carriesWait: bool): seq<Field> {
    [Field("stmt", Str(item.stmt))]
    + NumField("count", When(!runsInOrder && item.count > 1, item.count))
    + (if timings then NumField("ms", item.ms) else [])
    + NumField("wait", When(timings && carriesWait, item.wait))
    + NumField("rows", item.rows)
    + StrField("error", item.error)
    + BindingsField(item.bindings, runsInOrder)
  }

  function OutcomeName(o: Outcome): string {
    match o
    case Open => "open"
    case Commit => "commit"
    case Rollback => "rollback"
  }

  function DroppedDetails(e: Entry): seq<Field> {
    NumField("runsGrouped", e.runsGrouped)
    + NumField("bindingsDropped", e.bindingsDropped)
    + NumField("statementsCut", e.statementsCut)
  }

  function EntryValue(e: Entry, timings: bool): Json {
    if e.transaction.None? then
      Obj((if e.items == [] then [] else StatementFields(e.items[0], e.runsInOrder, timings, true)) + DroppedDetails(e))
    else
      Obj([Field("transaction", Str(OutcomeName(e.transaction.value)))]
          + StrField("error", e.error)
          + (if timings then NumField("ms", e.ms) else [])
          + NumField("wait", When(timings, e.wait))
          + [Field("statements", Arr(seq(|e.items|, i requires 0 <= i < |e.items| =>
                                       Obj(StatementFields(e.items[i], e.runsInOrder, timings, false)))))]
          + DroppedDetails(e))
  }

  function RequestFields(q: Request): seq<Field> {
    NumField("ms", When(q.timings, q.ms))
    + NumField("db", When(q.timings, q.db))
    + NumField("wait", When(q.timings, q.wait))
    + [Field("maxPoolConnections", Num(q.maxPoolConnections))]
  }

  // ---------- the three cuts ----------

  datatype Stage = GroupRuns | DropBindings | CutStatements

  // What one run's item is sized as, before it is grouped.
  function ItemRecord(item: Item): Json {
    Obj([Field("stmt", Str(item.stmt)), Field("cutStmt", Str(item.cutStmt)), Field("count", Num(item.count))]
        + NumField("ms", item.ms) + [Field("wait", Num(item.wait))] + NumField("rows", item.rows)
        + StrField("error", item.error)
        + (if item.bindings.Some? then [Field("bindings", Arr(item.bindings.value))] else []))
  }

  function BindingsRecord(item: Item): Json {
    if item.bindings.Some? then Arr(item.bindings.value) else Null
  }

  function Uncut(items: seq<Item>): seq<Json> {
    if items == [] then []
    else (if items[0].stmt != items[0].cutStmt then [Str(items[0].stmt)] else []) + Uncut(items[1..])
  }

  // Whether the entry still holds what the stage cuts.
  predicate HasDetail(s: Stage, e: Entry) {
    match s
    case GroupRuns => e.runsInOrder && |e.items| > 1
    case DropBindings => exists i :: 0 <= i < |e.items| && e.items[i].bindings.Some?
    case CutStatements => exists i :: 0 <= i < |e.items| && e.items[i].stmt != e.items[i].cutStmt
  }

  function DetailSize(s: Stage, e: Entry): nat {
    match s
    case GroupRuns =>
      if e.runsInOrder && |e.items| > 1
      then |Print(Arr(seq(|e.items|, i requires 0 <= i < |e.items| => ItemRecord(e.items[i]))))| else 0
    case DropBindings =>
      if exists i :: 0 <= i < |e.items| && e.items[i].bindings.Some?
      then |Print(Arr(seq(|e.items|, i requires 0 <= i < |e.items| => BindingsRecord(e.items[i]))))| else 0
    case CutStatements =>
      if |Uncut(e.items)| > 0 then |Print(Arr(Uncut(e.items)))| else 0
  }

  function Unbound(items: seq<Item>): (r: seq<Item>)
    ensures |r| == |items|
  {
    seq(|items|, i requires 0 <= i < |items| => items[i].(bindings := None))
  }

  function Cut(items: seq<Item>): (r: seq<Item>)
    ensures |r| == |items|
  {
    seq(|items|, i requires 0 <= i < |items| => items[i].(stmt := items[i].cutStmt))
  }

  function Drop(s: Stage, e: Entry): Entry {
    match s
    case GroupRuns => e.(runsGrouped := Some(|e.items|), items := Merged(e.items), runsInOrder := false)
    case DropBindings => e.(items := Unbound(e.items), bindingsDropped := Some(Sum(BoundRuns, e.items)))
    case CutStatements => e.(statementsCut := Some(|Uncut(e.items)|), items := Merged(Cut(e.items)))
  }

  // ---------- the order of the cuts ----------

  // Entry i goes before entry j: the larger detail first, the earlier among equals.
  predicate Before(sizes: seq<nat>, i: nat, j: nat)
    requires i < |sizes| && j < |sizes|
  {
    sizes[i] > sizes[j] || (sizes[i] == sizes[j] && i < j)
  }

  function Insert(sizes: seq<nat>, i: nat, order: seq<nat>): (r: seq<nat>)
    requires i < |sizes| && forall k :: 0 <= k < |order| ==> order[k] < |sizes|
    ensures forall k :: 0 <= k < |r| ==> r[k] < |sizes|
  {
    if order == [] then [i]
    else if Before(sizes, i, order[0]) then [i] + order
    else [order[0]] + Insert(sizes, i, order[1..])
  }

  // The entries among the first n whose detail is not empty, in the order they are cut.
  function LargestFirst(sizes: seq<nat>, n: nat): (r: seq<nat>)
    requires n <= |sizes|
    ensures forall k :: 0 <= k < |r| ==> r[k] < |sizes|
  {
    if n == 0 then []
    else if sizes[n - 1] > 0 then Insert(sizes, n - 1, LargestFirst(sizes, n - 1))
    else LargestFirst(sizes, n - 1)
  }

  function DetailSizes(s: Stage, entries: seq<Entry>): (r: seq<nat>)
    ensures |r| == |entries|
  {
    seq(|entries|, i requires 0 <= i < |entries| => DetailSize(s, entries[i]))
  }

  function Order(s: Stage, entries: seq<Entry>): (r: seq<nat>)
    ensures forall k :: 0 <= k < |r| ==> r[k] < |entries|
  {
    LargestFirst(DetailSizes(s, entries), |entries|)
  }

  // ---------- the simple form ----------

  // Cut the entries in that order until the whole fits.
  function CutInOrder(fits: seq<Entry> -> bool, s: Stage, entries: seq<Entry>, order: seq<nat>): (r: seq<Entry>)
    requires forall k :: 0 <= k < |order| ==> order[k] < |entries|
    ensures |r| == |entries|
    decreases |order|
  {
    if order == [] || fits(entries) then entries
    else CutInOrder(fits, s, entries[order[0] := Drop(s, entries[order[0]])], order[1..])
  }

  function CutStage(fits: seq<Entry> -> bool, s: Stage, entries: seq<Entry>): (r: seq<Entry>)
    ensures |r| == |entries|
  {
    CutInOrder(fits, s, entries, Order(s, entries))
  }

  function CutAll(fits: seq<Entry> -> bool, entries: seq<Entry>): (r: seq<Entry>)
    ensures |r| == |entries|
  {
    CutStage(fits, CutStatements, CutStage(fits, DropBindings, CutStage(fits, GroupRuns, entries)))
  }

  // The longest prefix, of at most k entries, for which it fits; the empty one when none does.
  function LongestPrefix(prefixFits: nat -> bool, k: nat): (r: nat)
    ensures r <= k
  {
    if k == 0 || prefixFits(k) then k else LongestPrefix(prefixFits, k - 1)
  }
}
