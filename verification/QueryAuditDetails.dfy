/**
 What the details of an entry are sized as and what a cut says it removed (api/src/database/query-audit.ts,
 DROPPED_DETAILS): each count is the number of things that are then gone.
 */
module QueryAuditDetails {
  import opened Options
  import opened AuditJson
  import opened QueryAuditItems
  import opened QueryAuditEntries
  import opened QueryAuditReading
  import opened QueryAuditCuts
  import Sequences

  // ---------- the size of a detail ----------

  // What an item's record says under a key.
  function RecordAt(item: Item, key: string): Option<Json> {
    if key == "stmt" then Some(Str(item.stmt))
    else if key == "cutStmt" then Some(Str(item.cutStmt))
    else if key == "count" then Some(Num(item.count))
    else if key == "ms" then NumOf(item.ms)
    else if key == "wait" then Some(Num(item.wait))
    else if key == "rows" then NumOf(item.rows)
    else if key == "error" then StrOf(item.error)
    else if key == "bindings" then if item.bindings.Some? then Some(Arr(item.bindings.value)) else None
    else None
  }

  function RecordFront(item: Item): seq<Field> {
    [Field("stmt", Str(item.stmt)), Field("cutStmt", Str(item.cutStmt)), Field("count", Num(item.count))]
    + NumField("ms", item.ms)
  }

  lemma {:induction false} RecordFrontReads(item: Item, key: string)
    ensures Lookup(RecordFront(item), key)
         == if key == "stmt" || key == "cutStmt" || key == "count" || key == "ms" then RecordAt(item, key) else None
  {
    var stmt, cut := [Field("stmt", Str(item.stmt))], [Field("cutStmt", Str(item.cutStmt))];
    var count, ms := [Field("count", Num(item.count))], NumField("ms", item.ms);
    LookupNum("ms", item.ms, key);
    LookupConcat(stmt, cut, key);
    LookupConcat(stmt + cut, count, key);
    LookupConcat(stmt + cut + count, ms, key);
    assert RecordFront(item) == stmt + cut + count + ms;
  }

  lemma {:induction false} RecordReads(item: Item, key: string)
    ensures ItemRecord(item).Obj? && Lookup(ItemRecord(item).fields, key) == RecordAt(item, key)
  {
    var front := RecordFront(item);
    var wait, rows := [Field("wait", Num(item.wait))], NumField("rows", item.rows);
    var error := StrField("error", item.error);
    var bindings := if item.bindings.Some? then [Field("bindings", Arr(item.bindings.value))] else [];
    RecordFrontReads(item, key);
    LookupNum("rows", item.rows, key);
    LookupConcat(front, wait, key);
    LookupConcat(front + wait, rows, key);
    LookupConcat(front + wait + rows, error, key);
    LookupConcat(front + wait + rows + error, bindings, key);
  }

  // The items whose text is longer than its cut, in order.
  ghost predicate Picks(at: seq<nat>, items: seq<Item>) {
    && (forall j, k :: 0 <= j < k < |at| ==> at[j] < at[k])
    && (forall j :: 0 <= j < |at| ==> at[j] < |items| && items[at[j]].stmt != items[at[j]].cutStmt)
    && (forall i: nat :: i < |items| && items[i].stmt != items[i].cutStmt ==> i in at)
  }

  ghost predicate Texts(values: seq<Json>, at: seq<nat>, items: seq<Item>) {
    |values| == |at| && forall j :: 0 <= j < |at| ==> at[j] < |items| && values[j] == Str(items[at[j]].stmt)
  }

  ghost predicate ListsUncut(values: seq<Json>, at: seq<nat>, items: seq<Item>) {
    Picks(at, items) && Texts(values, at, items)
  }

  // The value a stage would take off an entry.
  ghost predicate IsDetail(s: Stage, items: seq<Item>, v: Json) {
    && v.Arr?
    && match s
       case GroupRuns =>
         |v.items| == |items|
         && forall i, key :: 0 <= i < |items| ==>
                               v.items[i].Obj? && Lookup(v.items[i].fields, key) == RecordAt(items[i], key)
       case DropBindings =>
         |v.items| == |items|
         && forall i :: 0 <= i < |items| ==>
                          v.items[i] == if items[i].bindings.Some? then Arr(items[i].bindings.value) else Null
       case CutStatements => exists at :: ListsUncut(v.items, at, items)
  }

  lemma {:induction false} UncutLists(items: seq<Item>) returns (at: seq<nat>)
    ensures ListsUncut(Uncut(items), at, items)
  {
    if items == [] {
      at := [];
    } else {
      var rest := UncutLists(items[1..]);
      var later := seq(|rest|, j requires 0 <= j < |rest| => rest[j] + 1);
      var values := Uncut(items[1..]);
      ListsShifted(items, values, rest, later);
      if items[0].stmt != items[0].cutStmt {
        at := [0] + later;
        assert Uncut(items) == [Str(items[0].stmt)] + values;
      } else {
        at := later;
        assert Uncut(items) == [] + values == values;
      }
    }
  }

  // Those after the first.
  ghost predicate PicksRest(at: seq<nat>, items: seq<Item>) {
    && (forall j, k :: 0 <= j < k < |at| ==> at[j] < at[k])
    && (forall j :: 0 <= j < |at| ==> 0 < at[j] < |items| && items[at[j]].stmt != items[at[j]].cutStmt)
    && (forall i: nat :: 0 < i < |items| && items[i].stmt != items[i].cutStmt ==> i in at)
  }

  lemma {:induction false} ListsShifted(items: seq<Item>, values: seq<Json>, rest: seq<nat>, later: seq<nat>)
    requires items != [] && ListsUncut(values, rest, items[1..])
    requires |later| == |rest| && forall j :: 0 <= j < |rest| ==> later[j] == rest[j] + 1
    ensures items[0].stmt == items[0].cutStmt ==> ListsUncut(values, later, items)
    ensures items[0].stmt != items[0].cutStmt ==> ListsUncut([Str(items[0].stmt)] + values, [0] + later, items)
  {
    LaterPicked(items, rest, later);
    LaterTexts(items, values, rest, later);
    if items[0].stmt != items[0].cutStmt {
      FirstPicked(items, later);
      FirstText(items, values, later);
    }
  }

  lemma {:induction false} LaterPicked(items: seq<Item>, rest: seq<nat>, later: seq<nat>)
    requires items != [] && Picks(rest, items[1..])
    requires |later| == |rest| && forall j :: 0 <= j < |rest| ==> later[j] == rest[j] + 1
    ensures PicksRest(later, items) && (items[0].stmt == items[0].cutStmt ==> Picks(later, items))
  {
    forall i: nat | 0 < i < |items| && items[i].stmt != items[i].cutStmt ensures i in later {
      assert items[1..][i - 1] == items[i];
      var j :| 0 <= j < |rest| && rest[j] == i - 1;
      assert later[j] == i;
    }
  }

  lemma {:induction false} LaterTexts(items: seq<Item>, values: seq<Json>, rest: seq<nat>, later: seq<nat>)
    requires items != [] && Texts(values, rest, items[1..])
    requires |later| == |rest| && forall j :: 0 <= j < |rest| ==> later[j] == rest[j] + 1
    ensures Texts(values, later, items)
  {
    forall j | 0 <= j < |later| ensures later[j] < |items| && values[j] == Str(items[later[j]].stmt) {
      assert items[1..][rest[j]] == items[later[j]];
    }
  }

  lemma {:induction false} FirstPicked(items: seq<Item>, later: seq<nat>)
    requires items != [] && items[0].stmt != items[0].cutStmt && PicksRest(later, items)
    ensures Picks([0] + later, items)
  {
    var at := [0] + later;
    forall i: nat | i < |items| && items[i].stmt != items[i].cutStmt ensures i in at {
      if i == 0 {
        assert at[0] == 0;
      } else {
        assert i in later;
      }
    }
  }

  lemma {:induction false} FirstText(items: seq<Item>, values: seq<Json>, later: seq<nat>)
    requires items != [] && Texts(values, later, items)
    ensures Texts([Str(items[0].stmt)] + values, [0] + later, items)
  {
  }

  // A detail is as long as the value a stage would take off prints, and has no size where there is nothing to take.
  lemma {:induction false} DetailIsAsPrinted(s: Stage, e: Entry) returns (v: Json)
    ensures IsDetail(s, e.items, v)
    ensures DetailSize(s, e) == if HasDetail(s, e) then |Print(v)| else 0
  {
    match s
    case GroupRuns =>
      v := Arr(seq(|e.items|, i requires 0 <= i < |e.items| => ItemRecord(e.items[i])));
      forall i, key | 0 <= i < |e.items|
        ensures v.items[i].Obj? && Lookup(v.items[i].fields, key) == RecordAt(e.items[i], key)
      {
        RecordReads(e.items[i], key);
      }
    case DropBindings =>
      v := Arr(seq(|e.items|, i requires 0 <= i < |e.items| => BindingsRecord(e.items[i])));
    case CutStatements =>
      v := Arr(Uncut(e.items));
      var at := UncutLists(e.items);
      UncutIsEmpty(e.items);
  }

  // ---------- what a cut counts ----------

  // A run of an item, by its bound values.
  ghost predicate IsBound(items: seq<Item>, i: int, k: int) {
    0 <= i < |items| && items[i].bindings.Some? && 0 <= k < |items[i].bindings.value|
  }

  ghost function BoundOf(items: seq<Item>): set<(int, int)> {
    set i, k | 0 <= i < |items| && 0 <= k < |items[i].bindings.GetOr([])| && IsBound(items, i, k) :: (i, k)
  }

  lemma {:induction false} RowCount(i: int, n: nat)
    ensures |set k | 0 <= k < n :: (i, k)| == n
  {
    if n > 0 {
      RowCount(i, n - 1);
      assert (set k | 0 <= k < n :: (i, k)) == (set k | 0 <= k < n - 1 :: (i, k)) + {(i, n - 1)};
    }
  }

  lemma {:induction false} BoundSnoc(items: seq<Item>, row: set<(int, int)>)
    requires items != []
    requires forall i, k :: (i, k) in row <==> i == |items| - 1 && IsBound(items, i, k)
    ensures BoundOf(items) == BoundOf(items[..|items| - 1]) + row && BoundOf(items[..|items| - 1]) !! row
  {
    var before := items[..|items| - 1];
    forall p: (int, int) ensures p in BoundOf(items) <==> p in BoundOf(before) + row {
      assert p == (p.0, p.1);
      assert p.0 < |items| - 1 ==> (IsBound(items, p.0, p.1) <==> IsBound(before, p.0, p.1));
    }
  }

  lemma {:induction false} BoundAreSummed(items: seq<Item>)
    ensures Sum(BoundRuns, items) == |BoundOf(items)|
  {
    if items != [] {
      var n := |items| - 1;
      var count := |items[n].bindings.GetOr([])|;
      BoundAreSummed(items[..n]);
      RowCount(n, count);
      BoundSnoc(items, set k | 0 <= k < count :: (n, k));
    }
  }

  ghost function UncutOf(items: seq<Item>): set<nat> {
    set i: nat | i < |items| && items[i].stmt != items[i].cutStmt
  }

  lemma {:induction false} PicksAreUncut(at: seq<nat>, items: seq<Item>)
    requires Picks(at, items)
    ensures |at| == |UncutOf(items)|
  {
    Sequences.NoRepeatsCount(at);
    var all := set i: nat | i in at;
    assert UncutOf(items) == all;
  }

  /**
   A cut counts what it took: every item that was a run by itself, every run's bound values, every text that was longer
   than its cut.
   */
  lemma {:induction false} CutCountsWhatItTook(e: Entry)
    ensures Drop(GroupRuns, e).runsGrouped == Some(|e.items|) && !Drop(GroupRuns, e).runsInOrder
    ensures Drop(DropBindings, e).bindingsDropped == Some(|BoundOf(e.items)|)
    ensures BoundOf(Drop(DropBindings, e).items) == {}
    ensures Drop(CutStatements, e).statementsCut == Some(|UncutOf(e.items)|)
    ensures UncutOf(Drop(CutStatements, e).items) == {}
  {
    BoundAreSummed(e.items);
    var at := UncutLists(e.items);
    PicksAreUncut(at, e.items);
    CutRemovesDetail(CutStatements, e);
  }
}
