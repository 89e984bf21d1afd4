/**
 Whether a replay pinned what the fill did (api/src/cache-audit.ts:872-877): both lists, de-duplicated and sorted,
 are compared pin by pin.
 */
module PinKeys {
  // String order: by code unit, a prefix first.
  predicate Before(a: string, b: string) {
    b != "" && (a == "" || a[0] < b[0] || (a[0] == b[0] && Before(a[1..], b[1..])))
  }

  lemma {:induction false} BeforeIsTotal(a: string, b: string)
    ensures a == b || Before(a, b) || Before(b, a)
    ensures !(Before(a, b) && Before(b, a)) && !Before(a, a)
  {
    if a != "" {
      BeforeIsTotal(a[1..], a[1..]);
      if b != "" && a[0] == b[0] {
        BeforeIsTotal(a[1..], b[1..]);
        assert a == [a[0]] + a[1..] && b == [b[0]] + b[1..];
      }
    }
  }

  lemma {:induction false} BeforeIsTransitive(a: string, b: string, c: string)
    requires Before(a, b) && Before(b, c)
    ensures Before(a, c)
  {
    if a != "" && a[0] == b[0] && b[0] == c[0] {
      BeforeIsTransitive(a[1..], b[1..], c[1..]);
    }
  }

  ghost predicate Increasing(s: seq<string>) {
    forall i, j :: 0 <= i < j < |s| ==> Before(s[i], s[j])
  }

  function Insert(pin: string, sorted: seq<string>): seq<string> {
    if sorted == [] then [pin]
    else if Before(pin, sorted[0]) then [pin] + sorted
    else [sorted[0]] + Insert(pin, sorted[1..])
  }

  // `[...new Set(pins)].sort()`.
  function Sorted(pins: seq<string>): seq<string> {
    if pins == [] then []
    else
      var rest := Sorted(pins[..|pins| - 1]);
      if pins[|pins| - 1] in rest then rest else Insert(pins[|pins| - 1], rest)
  }

  lemma {:induction false} Prepended(first: string, sorted: seq<string>)
    requires Increasing(sorted) && forall p :: p in sorted ==> Before(first, p)
    ensures Increasing([first] + sorted)
  {
  }

  lemma {:induction false} InsertSorts(pin: string, sorted: seq<string>)
    requires Increasing(sorted) && pin !in sorted
    ensures Increasing(Insert(pin, sorted))
    ensures forall p :: p in Insert(pin, sorted) <==> p == pin || p in sorted
  {
    if sorted != [] {
      var first, rest := sorted[0], sorted[1..];
      assert sorted == [first] + rest;
      if Before(pin, first) {
        forall k | 0 <= k < |sorted| ensures Before(pin, sorted[k]) {
          if k > 0 {
            BeforeIsTransitive(pin, first, sorted[k]);
          }
        }
      } else {
        BeforeIsTotal(pin, first);
        InsertSorts(pin, rest);
        Prepended(first, Insert(pin, rest));
      }
    }
  }

  lemma {:induction false} SortedKeepsPins(pins: seq<string>)
    ensures Increasing(Sorted(pins))
    ensures forall p :: p in Sorted(pins) <==> p in pins
  {
    if pins != [] {
      var init, last := pins[..|pins| - 1], pins[|pins| - 1];
      SortedKeepsPins(init);
      assert pins == init + [last];
      if last !in Sorted(init) {
        InsertSorts(last, Sorted(init));
      }
    }
  }

  // One list of pins in order is all a set of pins has.
  lemma {:induction false} OneOrder(a: seq<string>, b: seq<string>)
    requires Increasing(a) && Increasing(b)
    requires forall p :: p in a <==> p in b
    ensures a == b
  {
    assert forall k :: 0 <= k < |a| ==> a[k] in b;
    assert forall k :: 0 <= k < |b| ==> b[k] in a;
    if a != [] {
      BeforeIsTotal(a[0], b[0]);
      assert a[0] == b[0];
      forall p ensures p in a[1..] <==> p in b[1..] {
        BeforeIsTotal(p, p);
        assert p in a[1..] ==> Before(a[0], p);
        assert p in b[1..] ==> Before(b[0], p);
        assert p in a <==> p == a[0] || p in a[1..];
        assert p in b <==> p == b[0] || p in b[1..];
      }
      OneOrder(a[1..], b[1..]);
      assert a == [a[0]] + a[1..] && b == [b[0]] + b[1..];
    }
  }

  // The same pins, whatever their order and repeats.
  ghost predicate SamePins(filled: seq<string>, replayed: seq<string>) {
    forall pin :: pin in filled <==> pin in replayed
  }

  method SamePinKeys(filled: seq<string>, replayed: seq<string>) returns (same: bool)
    ensures same == SamePins(filled, replayed)
  {
    var a, b := Sorted(filled), Sorted(replayed);
    SortedKeepsPins(filled);
    SortedKeepsPins(replayed);
    if SamePins(filled, replayed) {
      OneOrder(a, b);
    }
    if |a| != |b| {
      return false;
    }
    for index := 0 to |a|
      invariant a[..index] == b[..index]
    {
      if a[index] != b[index] {
        return false;
      }
    }
    assert a == a[..|a|] && b == b[..|b|];
    return true;
  }
}
