// Lists without repeats, and how they come about.
module Sequences {
  // `new Set(items)` as the list it spreads into: the first of each, in order.
  function Distinct<T(==)>(items: seq<T>): seq<T> {
    if items == [] then []
    else
      var rest := Distinct(items[..|items| - 1]);
      if items[|items| - 1] in rest then rest else rest + [items[|items| - 1]]
  }

  ghost predicate NoRepeats<T>(items: seq<T>) {
    forall i, j :: 0 <= i < j < |items| ==> items[i] != items[j]
  }

  lemma {:induction false} DistinctKeepsEachOnce<T>(items: seq<T>)
    ensures forall item :: item in Distinct(items) <==> item in items
    ensures NoRepeats(Distinct(items))
  {
    if items != [] {
      DistinctKeepsEachOnce(items[..|items| - 1]);
      assert items == items[..|items| - 1] + [items[|items| - 1]];
    }
  }

  lemma {:induction false} NoRepeatsCount<T>(items: seq<T>)
    requires NoRepeats(items)
    ensures |set item | item in items| == |items|
  {
    if items != [] {
      var init, last := items[..|items| - 1], items[|items| - 1];
      NoRepeatsCount(init);
      assert items == init + [last];
      assert (set item | item in items) == (set item | item in init) + {last};
    }
  }

  lemma {:induction false} NoRepeatsTogether<T>(a: seq<T>, b: seq<T>)
    requires NoRepeats(a) && NoRepeats(b) && forall item :: item in b ==> item !in a
    ensures NoRepeats(a + b)
  {
    var all := a + b;
    forall i, j | 0 <= i < j < |all| ensures all[i] != all[j] {
      if i < |a| <= j {
        assert all[j] == b[j - |a|] && all[j] in b && all[i] in a;
      }
    }
  }

  // So many different items, so many in any set that holds them.
  lemma {:induction false} NoRepeatsFit<T>(items: seq<T>, all: set<T>)
    requires NoRepeats(items) && forall k :: 0 <= k < |items| ==> items[k] in all
    ensures |items| <= |all|
  {
    if items != [] {
      var last := |items| - 1;
      NoRepeatsFit(items[..last], all - {items[last]});
    }
  }

  lemma {:induction false} InOneRow<T>(a: seq<T>, b: seq<T>, c: seq<T>)
    ensures (a + b) + c == a + (b + c)
  {
  }

  lemma {:induction false} UpdatedTwice<T>(items: seq<T>, i: nat, first: T, second: T)
    requires i < |items|
    ensures items[i := first][i := second] == items[i := second]
  {
  }

  lemma {:induction false} LastUpdated<T>(items: seq<T>, first: T, second: T)
    ensures (items + [first])[|items| := second] == items + [second]
  {
  }
}
