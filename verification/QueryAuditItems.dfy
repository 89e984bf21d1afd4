/**
 The reported statements of the query audit, and their grouping by statement
 (api/src/database/query-audit.ts, StatementItem and mergedStatementItems).
 */
module QueryAuditItems {
  import opened Options
  import opened Sequences
  import opened AuditJson

  // `bindings` holds one list of bound values per run.
  datatype Item = Item(
    stmt: string, cutStmt: string, count: nat, ms: Option<nat>, wait: nat,
    rows: Option<nat>, error: Option<string>, bindings: Option<seq<Json>>)

  // ---------- grouping, as a reader would define it ----------

  // The statements in the order each is first seen.
  function FirstSeen(items: seq<Item>): seq<string> {
    if items == [] then []
    else
      var earlier := FirstSeen(items[..|items| - 1]);
      if items[|items| - 1].stmt in earlier then earlier else earlier + [items[|items| - 1].stmt]
  }

  // One item standing for two of the same statement.
  function MergeTwo(a: Item, b: Item): Item {
    a.(count := a.count + b.count,
    ms := Some(a.ms.GetOr(0) + b.ms.GetOr(0)),
    wait := a.wait + b.wait,
    error := if a.error.Some? then a.error else b.error,
    rows := if b.rows.Some? then Some(a.rows.GetOr(0) + b.rows.value) else a.rows,
    bindings := if a.bindings.Some? && b.bindings.Some? then Some(a.bindings.value + b.bindings.value) else a.bindings)
  }

  // Every item of one statement as one item, the later merged into the earlier.
  function Group(items: seq<Item>, stmt: string): Item
    requires stmt in FirstSeen(items)
  {
    var earlier, last := items[..|items| - 1], items[|items| - 1];
    if last.stmt != stmt then Group(earlier, stmt)
    else if stmt in FirstSeen(earlier) then MergeTwo(Group(earlier, stmt), last)
    else last
  }

  function Merged(items: seq<Item>): (r: seq<Item>)
    ensures |r| == |FirstSeen(items)|
  {
    var order := FirstSeen(items);
    seq(|order|, i requires 0 <= i < |order| => Group(items, order[i]))
  }

  method MergedStatementItems(items: seq<Item>) returns (r: seq<Item>)
    ensures r == Merged(items)
  {
    // The insertion order and the values of the source's Map.
    var order: seq<string> := [];
    var itemsByStmt: map<string, Item> := map[];
    for i := 0 to |items|
      invariant order == FirstSeen(items[..i])
      invariant forall s :: s in itemsByStmt <==> s in order
      invariant forall s :: s in order ==> itemsByStmt[s] == Group(items[..i], s)
    {
      var item := items[i];
      assert items[..i + 1][..i] == items[..i];
      if item.stmt !in itemsByStmt {
        order := order + [item.stmt];
        itemsByStmt := itemsByStmt[item.stmt := item];
      } else {
        itemsByStmt := itemsByStmt[item.stmt := MergeTwo(itemsByStmt[item.stmt], item)];
      }
    }
    assert items[..|items|] == items;
    r := seq(|order|, i requires 0 <= i < |order| => itemsByStmt[order[i]]);
  }

  // ---------- what grouping keeps ----------

  lemma {:induction false} FirstSeenIsExact(items: seq<Item>)
    ensures NoRepeats(FirstSeen(items))
    ensures forall s :: s in FirstSeen(items) <==> exists i :: 0 <= i < |items| && items[i].stmt == s
  {
    if items != [] {
      var earlier, last := items[..|items| - 1], items[|items| - 1];
      FirstSeenIsExact(earlier);
      forall s ensures s in FirstSeen(items) <==> exists i :: 0 <= i < |items| && items[i].stmt == s {
        if s in FirstSeen(earlier) {
          var i :| 0 <= i < |earlier| && earlier[i].stmt == s;
          assert items[i].stmt == s;
        }
        if i :| 0 <= i < |items| && items[i].stmt == s {
          assert i < |earlier| ==> earlier[i].stmt == s;
        }
      }
    }
  }

  lemma {:induction false} GroupKeepsStmt(items: seq<Item>, stmt: string)
    requires stmt in FirstSeen(items)
    ensures Group(items, stmt).stmt == stmt
  {
    var earlier := items[..|items| - 1];
    if stmt in FirstSeen(earlier) {
      GroupKeepsStmt(earlier, stmt);
    }
  }

  // A statement is reported once, under its own text, and in first-seen order.
  lemma {:induction false} MergedIsByStatement(items: seq<Item>)
    ensures |Merged(items)| == |FirstSeen(items)|
    ensures forall i :: 0 <= i < |Merged(items)| ==> Merged(items)[i].stmt == FirstSeen(items)[i]
    ensures NoRepeats(FirstSeen(items))
  {
    FirstSeenIsExact(items);
    forall i | 0 <= i < |Merged(items)| ensures Merged(items)[i].stmt == FirstSeen(items)[i] {
      GroupKeepsStmt(items, FirstSeen(items)[i]);
    }
  }

  // The amounts an item carries; a run's bound values count as one.
  datatype Measure = Runs | Ms | Waits | Rows | BoundRuns

  function Of(m: Measure, item: Item): nat {
    match m
    case Runs => item.count
    case Ms => item.ms.GetOr(0)
    case Waits => item.wait
    case Rows => item.rows.GetOr(0)
    case BoundRuns => |item.bindings.GetOr([])|
  }

  function Sum(m: Measure, items: seq<Item>): nat {
    if items == [] then 0 else Sum(m, items[..|items| - 1]) + Of(m, items[|items| - 1])
  }

  // Either every item of an entry carries bound values or none does.
  ghost predicate UniformBindings(items: seq<Item>) {
    forall i, j :: 0 <= i < |items| && 0 <= j < |items| ==> items[i].bindings.Some? == items[j].bindings.Some?
  }

  lemma {:induction false} SumUpdate(m: Measure, items: seq<Item>, i: nat, item: Item)
    requires i < |items|
    ensures Sum(m, items[i := item]) == Sum(m, items) + Of(m, item) - Of(m, items[i])
  {
    var n := |items| - 1;
    if i == n {
      assert items[i := item][..n] == items[..n];
    } else {
      SumUpdate(m, items[..n], i, item);
      assert items[i := item][..n] == items[..n][i := item];
    }
  }

  lemma {:induction false} SumIsPointwise(m: Measure, a: seq<Item>, b: seq<Item>)
    requires |a| == |b| && forall i :: 0 <= i < |a| ==> Of(m, a[i]) == Of(m, b[i])
    ensures Sum(m, a) == Sum(m, b)
  {
    if a != [] {
      SumIsPointwise(m, a[..|a| - 1], b[..|b| - 1]);
    }
  }

  lemma {:induction false} GroupBindings(items: seq<Item>, stmt: string)
    requires stmt in FirstSeen(items) && UniformBindings(items)
    ensures Group(items, stmt).bindings.Some? == items[0].bindings.Some?
  {
    var earlier := items[..|items| - 1];
    if stmt in FirstSeen(earlier) {
      GroupBindings(earlier, stmt);
    }
  }

  // How one more item changes the grouping: one group grows, or a group is added.
  lemma {:induction false} MergedSnoc(items: seq<Item>, last: Item) returns (i: nat)
    ensures i <= |Merged(items)|
    ensures Merged(items + [last]) ==
            if i < |Merged(items)| then Merged(items)[i := MergeTwo(Merged(items)[i], last)] else Merged(items) + [last]
    ensures i < |Merged(items)| ==> FirstSeen(items)[i] == last.stmt
  {
    var order, all := FirstSeen(items), items + [last];
    assert all[..|all| - 1] == items;
    FirstSeenIsExact(items);
    if last.stmt in order {
      i :| 0 <= i < |order| && order[i] == last.stmt;
      assert Merged(all) == Merged(items)[i := MergeTwo(Merged(items)[i], last)];
    } else {
      i := |order|;
      assert Merged(all) == Merged(items) + [last];
    }
  }

  lemma {:induction false} SumSnoc(m: Measure, items: seq<Item>, last: Item)
    ensures Sum(m, items + [last]) == Sum(m, items) + Of(m, last)
  {
    assert (items + [last])[..|items|] == items;
  }

  lemma {:induction false} MergedSumSnoc(m: Measure, items: seq<Item>, last: Item)
    requires m == BoundRuns ==> UniformBindings(items + [last])
    ensures Sum(m, Merged(items + [last])) == Sum(m, Merged(items)) + Of(m, last)
  {
    var before := Merged(items);
    var i := MergedSnoc(items, last);
    if i < |before| {
      if m == BoundRuns {
        assert forall k :: 0 <= k < |items| ==> (items + [last])[k] == items[k];
        assert (items + [last])[|items|] == last;
        GroupBindings(items, FirstSeen(items)[i]);
      }
      SumUpdate(m, before, i, MergeTwo(before[i], last));
    } else {
      SumSnoc(m, before, last);
    }
  }

  // Grouping loses no run, no time, no wait and no row, and no bound values of uniform items.
  lemma {:induction false} MergedConserves(m: Measure, items: seq<Item>)
    requires m == BoundRuns ==> UniformBindings(items)
    ensures Sum(m, Merged(items)) == Sum(m, items)
  {
    if items != [] {
      var earlier, last := items[..|items| - 1], items[|items| - 1];
      MergedConserves(m, earlier);
      assert items == earlier + [last];
      MergedSumSnoc(m, earlier, last);
    }
  }

  // ---------- what one group holds ----------

  function OfStmt(items: seq<Item>, stmt: string): seq<Item> {
    if items == [] then []
    else
      var earlier := OfStmt(items[..|items| - 1], stmt);
      if items[|items| - 1].stmt == stmt then earlier + [items[|items| - 1]] else earlier
  }

  function AllBindings(items: seq<Item>): seq<Json> {
    if items == [] then [] else AllBindings(items[..|items| - 1]) + items[|items| - 1].bindings.GetOr([])
  }

  function FirstError(items: seq<Item>): Option<string> {
    if items == [] then None
    else
      var earlier := FirstError(items[..|items| - 1]);
      if earlier.Some? then earlier else items[|items| - 1].error
  }

  function AnyRows(items: seq<Item>): bool {
    exists i :: 0 <= i < |items| && items[i].rows.Some?
  }

  lemma {:induction false} UnseenHasNone(items: seq<Item>, stmt: string)
    requires stmt !in FirstSeen(items)
    ensures OfStmt(items, stmt) == []
  {
    if items != [] {
      UnseenHasNone(items[..|items| - 1], stmt);
    }
  }

  lemma {:induction false} AnyRowsSnoc(items: seq<Item>, last: Item)
    ensures AnyRows(items + [last]) == (AnyRows(items) || last.rows.Some?)
  {
    var all := items + [last];
    if AnyRows(items) {
      var i :| 0 <= i < |items| && items[i].rows.Some?;
      assert all[i].rows.Some?;
    }
    assert all[|items|] == last;
  }

  // What a group holds of its own items: every amount summed, the first error, the bound values in order.
  ghost predicate HoldsTotals(m: Measure, group: Item, own: seq<Item>) {
    && Of(m, group) == Sum(m, own) && group.error == FirstError(own)
    && group.rows.Some? == AnyRows(own) && group.bindings.GetOr([]) == AllBindings(own)
  }

  // Merging one more item keeps the totals.
  lemma {:induction false} MergedTotals(m: Measure, group: Item, own: seq<Item>, last: Item)
    requires HoldsTotals(m, group, own) && group.bindings.Some? == last.bindings.Some?
    ensures HoldsTotals(m, MergeTwo(group, last), own + [last])
  {
    SumSnoc(m, own, last);
    AnyRowsSnoc(own, last);
    assert (own + [last])[..|own|] == own;
  }

  // A group holds exactly the totals of its own items.
  lemma {:induction false} GroupTotals(m: Measure, items: seq<Item>, stmt: string)
    requires stmt in FirstSeen(items) && UniformBindings(items)
    ensures HoldsTotals(m, Group(items, stmt), OfStmt(items, stmt))
  {
    var earlier, last := items[..|items| - 1], items[|items| - 1];
    if stmt in FirstSeen(earlier) {
      GroupTotals(m, earlier, stmt);
      if last.stmt == stmt {
        GroupBindings(earlier, stmt);
        assert earlier[0] == items[0];
        MergedTotals(m, Group(earlier, stmt), OfStmt(earlier, stmt), last);
      }
    } else {
      UnseenHasNone(earlier, stmt);
    }
  }
}
