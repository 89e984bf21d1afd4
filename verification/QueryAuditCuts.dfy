/**
 What the cuts of the query-audit header keep, in which order they go and how far
 (api/src/database/query-audit.ts, the loops of formatQueryAudit over DROPPED_DETAILS).
 The test of whether the header fits is left open: all of this holds whatever it answers.
 */
module QueryAuditCuts {
  import opened QueryAuditItems
  import opened QueryAuditEntries

  // ---------- the order of one stage ----------

  ghost predicate Sorted(sizes: seq<nat>, order: seq<nat>) {
    && (forall k :: 0 <= k < |order| ==> order[k] < |sizes|)
    && (forall j, k :: 0 <= j < k < |order| ==> Before(sizes, order[j], order[k]))
  }

  lemma {:induction false} InsertMembers(sizes: seq<nat>, i: nat, order: seq<nat>, x: nat)
    requires i < |sizes| && forall k :: 0 <= k < |order| ==> order[k] < |sizes|
    ensures x in Insert(sizes, i, order) <==> x == i || x in order
  {
    if order != [] && !Before(sizes, i, order[0]) {
      InsertMembers(sizes, i, order[1..], x);
    }
  }

  lemma {:induction false} InsertKeeps(sizes: seq<nat>, i: nat, order: seq<nat>)
    requires i < |sizes| && Sorted(sizes, order) && i !in order
    ensures Sorted(sizes, Insert(sizes, i, order))
  {
    if order == [] {
    } else if Before(sizes, i, order[0]) {
    } else {
      var rest := order[1..];
      InsertKeeps(sizes, i, rest);
      assert order[0] in order;
      forall x | x in Insert(sizes, i, rest) ensures Before(sizes, order[0], x) {
        InsertMembers(sizes, i, rest, x);
        if x != i {
          var k :| 0 <= k < |rest| && rest[k] == x;
          assert order[k + 1] == x;
        }
      }
    }
  }

  lemma {:induction false} LargestFirstMembers(sizes: seq<nat>, n: nat, x: nat)
    requires n <= |sizes|
    ensures x in LargestFirst(sizes, n) <==> x < n && sizes[x] > 0
  {
    if n > 0 {
      LargestFirstMembers(sizes, n - 1, x);
      if sizes[n - 1] > 0 {
        InsertMembers(sizes, n - 1, LargestFirst(sizes, n - 1), x);
      }
    }
  }

  lemma {:induction false} LargestFirstSorted(sizes: seq<nat>, n: nat)
    requires n <= |sizes|
    ensures Sorted(sizes, LargestFirst(sizes, n))
  {
    if n > 0 {
      var rest := LargestFirst(sizes, n - 1);
      LargestFirstSorted(sizes, n - 1);
      assert n - 1 !in rest by { LargestFirstMembers(sizes, n - 1, n - 1); }
      InsertKeeps(sizes, n - 1, rest);
    }
  }

  lemma {:induction false} UncutIsEmpty(items: seq<Item>)
    ensures |Uncut(items)| > 0 <==> exists i :: 0 <= i < |items| && items[i].stmt != items[i].cutStmt
  {
    if items != [] {
      UncutIsEmpty(items[1..]);
      if i :| 0 <= i < |items| && items[i].stmt != items[i].cutStmt {
        assert i > 0 ==> items[1..][i - 1] == items[i];
      }
      if i :| 0 <= i < |items[1..]| && items[1..][i].stmt != items[1..][i].cutStmt {
        assert items[i + 1] == items[1..][i];
      }
    }
  }

  // A detail has a size exactly where there is something to cut.
  lemma {:induction false} DetailHasSize(s: Stage, e: Entry)
    ensures DetailSize(s, e) > 0 <==> HasDetail(s, e)
  {
    UncutIsEmpty(e.items);
  }

  // The stage visits every entry that holds its detail and no other, largest first, earliest among equals.
  lemma {:induction false} OrderIsLargestFirst(s: Stage, entries: seq<Entry>)
    ensures Sorted(DetailSizes(s, entries), Order(s, entries))
    ensures forall i: nat :: i in Order(s, entries) <==> i < |entries| && HasDetail(s, entries[i])
  {
    var sizes := DetailSizes(s, entries);
    LargestFirstSorted(sizes, |entries|);
    forall i: nat ensures i in Order(s, entries) <==> i < |entries| && HasDetail(s, entries[i]) {
      LargestFirstMembers(sizes, |entries|, i);
      if i < |entries| {
        DetailHasSize(s, entries[i]);
      }
    }
  }

  // ---------- one cut ----------

  lemma {:induction false} FirstSeenIsShorter(items: seq<Item>)
    ensures |FirstSeen(items)| <= |items|
  {
    if items != [] {
      FirstSeenIsShorter(items[..|items| - 1]);
    }
  }

  lemma {:induction false} GroupIsCut(items: seq<Item>, stmt: string)
    requires stmt in FirstSeen(items)
    requires forall i :: 0 <= i < |items| ==> items[i].stmt == items[i].cutStmt
    ensures Group(items, stmt).cutStmt == stmt
  {
    var earlier := items[..|items| - 1];
    if stmt in FirstSeen(earlier) {
      GroupIsCut(earlier, stmt);
    }
  }

  lemma {:induction false} GroupStaysUnbound(items: seq<Item>, stmt: string)
    requires stmt in FirstSeen(items)
    requires forall i :: 0 <= i < |items| ==> items[i].bindings.None?
    ensures Group(items, stmt).bindings.None?
  {
    var earlier := items[..|items| - 1];
    if stmt in FirstSeen(earlier) {
      GroupStaysUnbound(earlier, stmt);
    }
  }

  lemma {:induction false} CutRemovesDetail(s: Stage, e: Entry)
    ensures !HasDetail(s, Drop(s, e))
  {
    if s.CutStatements? {
      var cut := Cut(e.items);
      MergedIsByStatement(cut);
      forall i | 0 <= i < |Merged(cut)| ensures Merged(cut)[i].stmt == Merged(cut)[i].cutStmt {
        GroupIsCut(cut, FirstSeen(cut)[i]);
      }
    }
  }

  function Rank(s: Stage): nat {
    match s
    case GroupRuns => 0
    case DropBindings => 1
    case CutStatements => 2
  }

  // What an earlier stage removed, a later cut does not bring back.
  lemma {:induction false} CutRestoresNothing(earlier: Stage, s: Stage, e: Entry)
    requires Rank(earlier) < Rank(s) && !HasDetail(earlier, e)
    ensures !HasDetail(earlier, Drop(s, e))
  {
    if s.CutStatements? {
      var cut := Cut(e.items);
      if earlier.GroupRuns? {
        FirstSeenIsShorter(cut);
      } else {
        forall i | 0 <= i < |Merged(cut)| ensures Merged(cut)[i].bindings.None? {
          forall k | 0 <= k < |cut| ensures cut[k].bindings.None? {
            assert e.items[k].bindings.None?;
          }
          GroupStaysUnbound(cut, FirstSeen(cut)[i]);
        }
      }
    }
  }

  // A cut loses no run, no time, no wait and no row, and leaves the transaction's own fields alone.
  lemma {:induction false} CutConserves(m: Measure, s: Stage, e: Entry)
    requires m != BoundRuns
    ensures Sum(m, Drop(s, e).items) == Sum(m, e.items)
    ensures Drop(s, e).transaction == e.transaction && Drop(s, e).error == e.error
    ensures Drop(s, e).ms == e.ms && Drop(s, e).wait == e.wait
  {
    match s
    case GroupRuns => MergedConserves(m, e.items);
    case DropBindings => SumIsPointwise(m, Unbound(e.items), e.items);
    case CutStatements =>
      MergedConserves(m, Cut(e.items));
      SumIsPointwise(m, Cut(e.items), e.items);
  }

  // ---------- one stage ----------

  // The entries with every listed one cut, whatever fits.
  function CutThese(s: Stage, entries: seq<Entry>, order: seq<nat>): (r: seq<Entry>)
    requires forall k :: 0 <= k < |order| ==> order[k] < |entries|
    ensures |r| == |entries|
    decreases |order|
  {
    if order == [] then entries
    else CutThese(s, entries[order[0] := Drop(s, entries[order[0]])], order[1..])
  }

  // A stage stops at the first entries that fit: nothing is cut while what is held already fits.
  lemma {:induction false} StageIsMinimal(fits: seq<Entry> -> bool, s: Stage, entries: seq<Entry>, order: seq<nat>)
    returns (n: nat)
    requires forall k :: 0 <= k < |order| ==> order[k] < |entries|
    ensures n <= |order|
    ensures CutInOrder(fits, s, entries, order) == CutThese(s, entries, order[..n])
    ensures forall k :: 0 <= k < n ==> !fits(CutThese(s, entries, order[..k]))
    ensures n < |order| ==> fits(CutThese(s, entries, order[..n]))
    decreases |order|
  {
    if order == [] || fits(entries) {
      n := 0;
    } else {
      var next := entries[order[0] := Drop(s, entries[order[0]])];
      var m := StageIsMinimal(fits, s, next, order[1..]);
      n := m + 1;
      forall k | 0 <= k <= n && k <= |order|
        ensures k > 0 ==> CutThese(s, entries, order[..k]) == CutThese(s, next, order[1..][..k - 1])
      {
        if k > 0 {
          assert order[..k][1..] == order[1..][..k - 1];
        }
      }
    }
  }

  ghost predicate FreeOf(s: Stage, entries: seq<Entry>) {
    forall i :: 0 <= i < |entries| ==> !HasDetail(s, entries[i])
  }

  lemma {:induction false} InOrderExhausts(fits: seq<Entry> -> bool, s: Stage, entries: seq<Entry>, order: seq<nat>)
    requires forall k :: 0 <= k < |order| ==> order[k] < |entries|
    requires forall i :: 0 <= i < |entries| && HasDetail(s, entries[i]) ==> i in order
    ensures var r := CutInOrder(fits, s, entries, order); fits(r) || FreeOf(s, r)
    decreases |order|
  {
    if order != [] && !fits(entries) {
      var next := entries[order[0] := Drop(s, entries[order[0]])];
      CutRemovesDetail(s, entries[order[0]]);
      forall i | 0 <= i < |next| && HasDetail(s, next[i]) ensures i in order[1..] {
        assert i in order && i != order[0];
      }
      InOrderExhausts(fits, s, next, order[1..]);
    }
  }

  // After a stage either the header fits, or no entry holds the stage's detail.
  lemma {:induction false} StageExhausts(fits: seq<Entry> -> bool, s: Stage, entries: seq<Entry>)
    ensures var r := CutStage(fits, s, entries); fits(r) || FreeOf(s, r)
  {
    OrderIsLargestFirst(s, entries);
    InOrderExhausts(fits, s, entries, Order(s, entries));
  }

  // What each entry becomes: itself or its own cut. The order names an entry once.
  ghost predicate EachCutOnce(s: Stage, entries: seq<Entry>, r: seq<Entry>) {
    |r| == |entries|
    && forall i :: 0 <= i < |r| ==> r[i] == entries[i] || (HasDetail(s, entries[i]) && r[i] == Drop(s, entries[i]))
  }

  lemma {:induction false} InOrderCutsOnce(fits: seq<Entry> -> bool, s: Stage, entries: seq<Entry>, order: seq<nat>)
    requires forall k :: 0 <= k < |order| ==> order[k] < |entries| && HasDetail(s, entries[order[k]])
    requires forall j, k :: 0 <= j < k < |order| ==> order[j] != order[k]
    ensures EachCutOnce(s, entries, CutInOrder(fits, s, entries, order))
    ensures forall i :: 0 <= i < |entries| && i !in order ==> CutInOrder(fits, s, entries, order)[i] == entries[i]
    decreases |order|
  {
    if order != [] && !fits(entries) {
      var next := entries[order[0] := Drop(s, entries[order[0]])];
      InOrderCutsOnce(fits, s, next, order[1..]);
      assert order[0] !in order[1..];
    }
  }

  lemma {:induction false} StageCutsOnce(fits: seq<Entry> -> bool, s: Stage, entries: seq<Entry>)
    ensures EachCutOnce(s, entries, CutStage(fits, s, entries))
  {
    OrderIsLargestFirst(s, entries);
    var order := Order(s, entries);
    forall k | 0 <= k < |order| ensures HasDetail(s, entries[order[k]]) {
      assert order[k] in order;
    }
    InOrderCutsOnce(fits, s, entries, order);
  }

  lemma {:induction false} StageRestoresNothing(fits: seq<Entry> -> bool, earlier: Stage, s: Stage, entries: seq<Entry>)
    requires Rank(earlier) < Rank(s) && FreeOf(earlier, entries)
    ensures FreeOf(earlier, CutStage(fits, s, entries))
  {
    StageCutsOnce(fits, s, entries);
    forall i | 0 <= i < |entries| ensures !HasDetail(earlier, CutStage(fits, s, entries)[i]) {
      CutRestoresNothing(earlier, s, entries[i]);
    }
  }

  // ---------- all three ----------

  ghost predicate Uncounted(entries: seq<Entry>) {
    forall i :: 0 <= i < |entries| ==> entries[i].bindingsDropped.None? && entries[i].statementsCut.None?
  }

  /**
   The stages come in turn: no bound values go while an entry still has runs to group, no SQL is cut while
   any bound values are left, and once all is cut nothing is left to cut.
   */
  lemma {:induction false} CutsAreStaged(fits: seq<Entry> -> bool, entries: seq<Entry>)
    requires Uncounted(entries)
    ensures var r := CutAll(fits, entries);
            && ((exists i :: 0 <= i < |r| && r[i].bindingsDropped.Some?) ==> FreeOf(GroupRuns, r))
            && ((exists i :: 0 <= i < |r| && r[i].statementsCut.Some?) ==>
                  FreeOf(GroupRuns, r) && FreeOf(DropBindings, r))
            && (fits(r) || (FreeOf(GroupRuns, r) && FreeOf(DropBindings, r) && FreeOf(CutStatements, r)))
  {
    var grouped := CutStage(fits, GroupRuns, entries);
    var unbound := CutStage(fits, DropBindings, grouped);
    var r := CutStage(fits, CutStatements, unbound);
    StageCutsOnce(fits, GroupRuns, entries);
    StageCutsOnce(fits, DropBindings, grouped);
    StageExhausts(fits, GroupRuns, entries);
    StageExhausts(fits, DropBindings, grouped);
    StageExhausts(fits, CutStatements, unbound);
    if fits(grouped) {
      assert r == unbound == grouped;
    } else {
      StageRestoresNothing(fits, GroupRuns, DropBindings, grouped);
      StageRestoresNothing(fits, GroupRuns, CutStatements, unbound);
      if fits(unbound) {
        assert r == unbound;
      } else {
        StageRestoresNothing(fits, DropBindings, CutStatements, unbound);
      }
    }
  }

  lemma {:induction false} StageConserves(fits: seq<Entry> -> bool, m: Measure, s: Stage, entries: seq<Entry>, i: nat)
    requires m != BoundRuns && i < |entries|
    ensures Sum(m, CutStage(fits, s, entries)[i].items) == Sum(m, entries[i].items)
    ensures CutStage(fits, s, entries)[i].transaction == entries[i].transaction
    ensures CutStage(fits, s, entries)[i].wait == entries[i].wait
  {
    StageCutsOnce(fits, s, entries);
    CutConserves(m, s, entries[i]);
  }

  // However far it is cut, every entry keeps its runs, times, waits and rows in total.
  lemma {:induction false} CutsConserve(fits: seq<Entry> -> bool, m: Measure, entries: seq<Entry>, i: nat)
    requires m != BoundRuns && i < |entries|
    ensures Sum(m, CutAll(fits, entries)[i].items) == Sum(m, entries[i].items)
    ensures CutAll(fits, entries)[i].transaction == entries[i].transaction
    ensures CutAll(fits, entries)[i].wait == entries[i].wait
  {
    var grouped := CutStage(fits, GroupRuns, entries);
    StageConserves(fits, m, GroupRuns, entries, i);
    StageConserves(fits, m, DropBindings, grouped, i);
    StageConserves(fits, m, CutStatements, CutStage(fits, DropBindings, grouped), i);
  }
}
