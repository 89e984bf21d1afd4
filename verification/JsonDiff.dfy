/**
 The structural diff of a stored body and a replayed one (api/src/cache-audit.ts): which JSON pointers differ, which
 of them an ignore glob covers, and whether two pin lists name the same pins. Bodies are JSON values already.
 */
module JsonDiff {
  import opened Sequences
  import opened AuditJson
  import AuditJsonReader

  datatype Value =
    | Nothing
    | Boolean(b: bool)
    | Decimal(n: real)
    | Text(s: string)
    | List(items: seq<Value>)
    | Record(fields: map<string, Value>)

  const DIFF_PATHS_COMPARED: nat := 500
  const DIFF_PATHS_REPORTED: nat := 20

  // ---------- what differs, by looking both bodies up ----------

  datatype Segment = Index(i: nat) | Key(name: string)

  function SegmentText(segment: Segment): string {
    match segment
    case Index(i) => Digits(i)
    case Key(name) => name
  }

  // Keys are not escaped: two segment lists may read the same.
  function PathOf(segments: seq<Segment>): string {
    if segments == [] then "" else "/" + SegmentText(segments[0]) + PathOf(segments[1..])
  }

  // Digits, and nothing else, of the number.
  ghost predicate Numbers(text: string, i: nat) {
    text != "" && AuditJsonReader.ReadDigits(text, 0) == (i, "")
  }

  // A pointer names an element by its own position, and a field by its own name.
  lemma {:induction false} PointerNames(front: seq<Segment>, i: nat, name: string)
    ensures exists text :: Numbers(text, i) && PathOf(front + [Index(i)]) == PathOf(front) + "/" + text
    ensures PathOf(front + [Key(name)]) == PathOf(front) + "/" + name
  {
    AuditJsonReader.DigitsRead(i, "");
    assert Digits(i) + "" == Digits(i) && Numbers(Digits(i), i);
    PathSnoc(front, Index(i));
    PathSnoc(front, Key(name));
  }

  lemma {:induction false} PathSnoc(front: seq<Segment>, last: Segment)
    ensures PathOf(front + [last]) == PathOf(front) + "/" + SegmentText(last)
  {
    if front == [] {
      assert front + [last] == [last];
      assert "/" + SegmentText(last) + PathOf([]) == "/" + SegmentText(last);
      assert PathOf(front) + "/" + SegmentText(last) == "/" + SegmentText(last);
    } else {
      PathSnoc(front[1..], last);
      assert (front + [last])[1..] == front[1..] + [last];
      var head := "/" + SegmentText(front[0]);
      InOneRow(head, PathOf(front[1..]) + "/", SegmentText(last));
      InOneRow(head, PathOf(front[1..]), "/");
    }
  }

  function Pointer(path: string): string {
    if path == "" then "/" else path
  }

  predicate Has(v: Value, segment: Segment) {
    match segment
    case Index(i) => v.List? && i < |v.items|
    case Key(name) => v.Record? && name in v.fields
  }

  function Child(v: Value, segment: Segment): Value
    requires Has(v, segment)
  {
    match segment
    case Index(i) => v.items[i]
    case Key(name) => v.fields[name]
  }

  predicate BothContain(a: Value, b: Value) {
    (a.List? && b.List?) || (a.Record? && b.Record?)
  }

  /**
   The two bodies differ at this place and not only below it: an element only one of them has, or two values that
   are unequal and not both lists or both records.
   */
  predicate DiffersAt(a: Value, b: Value, segments: seq<Segment>)
    decreases |segments|
  {
    if segments == [] then !BothContain(a, b) && a != b
    else
      BothContain(a, b)
      && if Has(a, segments[0]) && Has(b, segments[0])
      then DiffersAt(Child(a, segments[0]), Child(b, segments[0]), segments[1..])
      else |segments| == 1 && (Has(a, segments[0]) || Has(b, segments[0]))
  }

  // Two bodies differ somewhere unless they are equal.
  lemma {:induction false} SomewhereUnlessEqual(a: Value, b: Value)
    ensures a == b ==> forall segments :: !DiffersAt(a, b, segments)
    ensures a != b ==> exists segments :: DiffersAt(a, b, segments)
  {
    if a == b {
      forall segments ensures !DiffersAt(a, b, segments) {
        EqualNowhere(a, segments);
      }
    } else {
      var segments := DifferenceOf(a, b);
      assert DiffersAt(a, b, segments);
    }
  }

  lemma {:induction false} EqualNowhere(a: Value, segments: seq<Segment>)
    ensures !DiffersAt(a, a, segments)
    decreases |segments|
  {
    if segments != [] && Has(a, segments[0]) {
      EqualNowhere(Child(a, segments[0]), segments[1..]);
    }
  }

  predicate FieldDiffers(a: map<string, Value>, b: map<string, Value>, name: string) {
    (name in a || name in b) && (name !in a || name !in b || a[name] != b[name])
  }

  lemma {:induction false} NoFieldDiffers(a: map<string, Value>, b: map<string, Value>)
    requires forall name :: !FieldDiffers(a, b, name)
    ensures a == b
  {
    assert forall name :: name in a <==> FieldDiffers(a, b, name) || (name in b && a[name] == b[name]);
  }

  // A place where two unequal bodies differ.
  ghost function DifferenceOf(a: Value, b: Value): (segments: seq<Segment>)
    requires a != b
    ensures DiffersAt(a, b, segments)
    decreases a
  {
    if a.List? && b.List? then
      if |a.items| < |b.items| then [Index(|a.items|)]
      else if |b.items| < |a.items| then [Index(|b.items|)]
      else
        assert exists i: nat :: i < |a.items| && a.items[i] != b.items[i];
        var i: nat :| i < |a.items| && a.items[i] != b.items[i];
        [Index(i)] + DifferenceOf(a.items[i], b.items[i])
    else if a.Record? && b.Record? then
      assert exists name :: FieldDiffers(a.fields, b.fields, name) by {
        if forall name :: !FieldDiffers(a.fields, b.fields, name) {
          NoFieldDiffers(a.fields, b.fields);
        }
      }
      var name :| FieldDiffers(a.fields, b.fields, name);
      if name in a.fields && name in b.fields then [Key(name)] + DifferenceOf(a.fields[name], b.fields[name])
      else [Key(name)]
    else []
  }

  // ---------- the search ----------

  // The pointer of a place under `path`.
  function PointerAt(path: string, segments: seq<Segment>): string {
    Pointer(path + PathOf(segments))
  }

  // The pointers found are those of these places, each of which differs.
  ghost predicate Located(found: seq<string>, places: seq<seq<Segment>>, a: Value, b: Value, path: string) {
    && |found| == |places|
    && (forall k :: 0 <= k < |places| ==> DiffersAt(a, b, places[k]) && found[k] == PointerAt(path, places[k]))
    && NoRepeats(places)
  }

  ghost predicate Complete(places: seq<seq<Segment>>, a: Value, b: Value) {
    forall segments :: DiffersAt(a, b, segments) ==> segments in places
  }

  // Every place that differs at or under this child is found.
  ghost predicate CompleteUnder(places: seq<seq<Segment>>, a: Value, b: Value, child: Segment) {
    forall segments :: DiffersAt(a, b, segments) && segments != [] && segments[0] == child ==> segments in places
  }

  ghost predicate Within(places: seq<seq<Segment>>, children: set<Segment>) {
    forall k :: 0 <= k < |places| ==> places[k] != [] && places[k][0] in children
  }

  // What a search adds: pointers of different places that differ, all of them unless it stopped short.
  ghost predicate Found(added: seq<string>, a: Value, b: Value, path: string, short: bool) {
    exists places :: Located(added, places, a, b, path) && (short || Complete(places, a, b))
  }

  function PathTo(path: string, child: Segment): string {
    path + "/" + SegmentText(child)
  }

  ghost function Under(child: Segment, places: seq<seq<Segment>>): (r: seq<seq<Segment>>)
    ensures |r| == |places| && forall k :: 0 <= k < |places| ==> r[k] == [child] + places[k]
  {
    seq(|places|, k requires 0 <= k < |places| => [child] + places[k])
  }

  lemma {:induction false} PointerUnder(path: string, child: Segment, segments: seq<Segment>)
    ensures PointerAt(path, [child] + segments) == PointerAt(PathTo(path, child), segments)
  {
    assert ([child] + segments)[1..] == segments;
    assert path + ("/" + SegmentText(child) + PathOf(segments)) == PathTo(path, child) + PathOf(segments);
  }

  // What was found in a child is found in its parent.
  lemma {:induction false} FoundUnder(more: seq<string>, places: seq<seq<Segment>>, a: Value, b: Value,
                                      path: string, child: Segment)
    requires BothContain(a, b) && Has(a, child) && Has(b, child)
    requires Located(more, places, Child(a, child), Child(b, child), PathTo(path, child))
    ensures Located(more, Under(child, places), a, b, path) && Within(Under(child, places), {child})
    ensures Complete(places, Child(a, child), Child(b, child)) ==> CompleteUnder(Under(child, places), a, b, child)
  {
    forall k | 0 <= k < |places|
      ensures DiffersAt(a, b, [child] + places[k]) && more[k] == PointerAt(path, [child] + places[k])
    {
      PointerUnder(path, child, places[k]);
    }
    forall j, k | 0 <= j < k < |places| ensures [child] + places[j] != [child] + places[k] {
      assert ([child] + places[j])[1..] == places[j] && ([child] + places[k])[1..] == places[k];
    }
    if Complete(places, Child(a, child), Child(b, child)) {
      forall segments | DiffersAt(a, b, segments) && segments != [] && segments[0] == child
        ensures segments in Under(child, places)
      {
        assert segments == [child] + segments[1..];
        assert segments[1..] in places;
        var k :| 0 <= k < |places| && places[k] == segments[1..];
        assert Under(child, places)[k] == segments;
      }
    }
  }

  // A child only one of them has is one difference.
  lemma {:induction false} MissingUnder(a: Value, b: Value, path: string, child: Segment)
    requires BothContain(a, b) && Has(a, child) != Has(b, child)
    ensures Located([PathTo(path, child)], [[child]], a, b, path) && Within([[child]], {child})
    ensures CompleteUnder([[child]], a, b, child)
  {
    PointerUnder(path, child, []);
    assert [child] + [] == [child];
    forall segments | DiffersAt(a, b, segments) && segments != [] && segments[0] == child
      ensures segments in [[child]]
    {
      assert segments == [child];
    }
  }

  // The search so far: what it added, and the children it is done with unless it stopped short.
  ghost predicate Searched(added: seq<string>, places: seq<seq<Segment>>, children: set<Segment>, short: bool,
                           a: Value, b: Value, path: string) {
    && Located(added, places, a, b, path)
    && Within(places, children)
    && (short || forall child :: child in children ==> CompleteUnder(places, a, b, child))
  }

  // Places under different children differ.
  lemma {:induction false} DistinctPlaces(places: seq<seq<Segment>>, children: set<Segment>,
                                          under: seq<seq<Segment>>, child: Segment)
    requires NoRepeats(places) && NoRepeats(under)
    requires Within(places, children) && Within(under, {child}) && child !in children
    ensures NoRepeats(places + under)
  {
    forall place | place in under ensures place !in places {
      assert place != [] && place[0] == child;
    }
    NoRepeatsTogether(places, under);
  }

  // One more child searched.
  lemma {:induction false} MoreFound(added: seq<string>, places: seq<seq<Segment>>, children: set<Segment>, short: bool,
                                     more: seq<string>, under: seq<seq<Segment>>, child: Segment, a: Value, b: Value,
                                     path: string)
    requires Searched(added, places, children, short, a, b, path) && child !in children
    requires Located(more, under, a, b, path) && Within(under, {child}) && (short || CompleteUnder(under, a, b, child))
    ensures Searched(added + more, places + under, children + {child}, short, a, b, path)
  {
    DistinctPlaces(places, children, under, child);
    var all := places + under;
    forall k | 0 <= k < |all|
      ensures DiffersAt(a, b, all[k]) && (added + more)[k] == PointerAt(path, all[k])
      ensures all[k] != [] && all[k][0] in children + {child}
    {
      if k < |places| {
        assert all[k] == places[k] && (added + more)[k] == added[k];
      } else {
        assert all[k] == under[k - |places|] && (added + more)[k] == more[k - |added|];
      }
    }
    if !short {
      forall other | other in children + {child} ensures CompleteUnder(all, a, b, other) {
        if other in children {
          assert CompleteUnder(places, a, b, other);
        }
      }
    }
  }

  /**
   Pushes the pointers that differ, in the order the items and the keys come in, until enough were found: each
   pointer added is of another place that differs, and unless it stopped short no place that differs is left out.
   */
  method DiffPaths(a: Value, b: Value, path: string, out: seq<string>)
    returns (found: seq<string>, ghost added: seq<string>, ghost places: seq<seq<Segment>>)
    ensures found == out + added && Located(added, places, a, b, path)
    ensures |found| < DIFF_PATHS_COMPARED ==> Complete(places, a, b)
    ensures out <= found && Found(found[|out|..], a, b, path, |found| >= DIFF_PATHS_COMPARED)
    decreases a, 2
  {
    found, added, places := out, [], [];
    if |out| >= DIFF_PATHS_COMPARED {
      IsFound(out, found, added, places, a, b, path);
      return;
    }
    if a.List? && b.List? {
      found, added, places := DiffItems(a, b, path, out);
      return;
    }
    if a.Record? && b.Record? {
      found, added, places := DiffFields(a, b, path, out);
      return;
    }
    if a != b {
      found, added, places := found + [Pointer(path)], [Pointer(path)], [[]];
    }
    IsFound(out, found, added, places, a, b, path);
  }

  lemma {:induction false} IsFound(out: seq<string>, found: seq<string>, added: seq<string>,
                                   places: seq<seq<Segment>>, a: Value, b: Value,
                                   path: string)
    requires found == out + added && Located(added, places, a, b, path)
    requires |found| < DIFF_PATHS_COMPARED ==> Complete(places, a, b)
    ensures out <= found && Found(found[|out|..], a, b, path, |found| >= DIFF_PATHS_COMPARED)
  {
    assert found[|out|..] == added;
  }

  // Its loop over two lists.
  method DiffItems(a: Value, b: Value, path: string, out: seq<string>)
    returns (found: seq<string>, ghost added: seq<string>, ghost places: seq<seq<Segment>>)
    requires a.List? && b.List?
    ensures found == out + added && Located(added, places, a, b, path)
    ensures |found| < DIFF_PATHS_COMPARED ==> Complete(places, a, b)
    ensures out <= found && Found(found[|out|..], a, b, path, |found| >= DIFF_PATHS_COMPARED)
    decreases a, 1
  {
    found, added, places := out, [], [];
    ghost var more, under;
    var length := if |a.items| < |b.items| then |b.items| else |a.items|;
    var index := 0;
    while index < length
      invariant 0 <= index <= length && found == out + added
      invariant Searched(added, places, Indexes(index), |found| >= DIFF_PATHS_COMPARED, a, b, path)
    {
      found, more, under := DiffChild(a, b, path, Index(index), found);
      ItemFound(added, places, index, |found| >= DIFF_PATHS_COMPARED, more, under, a, b, path);
      InOneRow(out, added, more);
      added, places, index := added + more, places + under, index + 1;
    }
    if |found| < DIFF_PATHS_COMPARED {
    }
    IsFound(out, found, added, places, a, b, path);
  }

  lemma {:induction false} ItemFound(added: seq<string>, places: seq<seq<Segment>>, index: nat, short: bool,
                                     more: seq<string>, under: seq<seq<Segment>>, a: Value, b: Value, path: string)
    requires Searched(added, places, Indexes(index), short, a, b, path)
    requires Located(more, under, a, b, path) && Within(under, {Index(index)})
    requires short || CompleteUnder(under, a, b, Index(index))
    ensures Searched(added + more, places + under, Indexes(index + 1), short, a, b, path)
  {
    MoreFound(added, places, Indexes(index), short, more, under, Index(index), a, b, path);
  }

  function Indexes(n: nat): (r: set<Segment>)
    ensures forall child :: child in r <==> child.Index? && child.i < n
  {
    if n == 0 then {} else Indexes(n - 1) + {Index(n - 1)}
  }

  // Its loop over two records: every key either has.
  method DiffFields(a: Value, b: Value, path: string, out: seq<string>)
    returns (found: seq<string>, ghost added: seq<string>, ghost places: seq<seq<Segment>>)
    requires a.Record? && b.Record?
    ensures found == out + added && Located(added, places, a, b, path)
    ensures |found| < DIFF_PATHS_COMPARED ==> Complete(places, a, b)
    ensures out <= found && Found(found[|out|..], a, b, path, |found| >= DIFF_PATHS_COMPARED)
    decreases a, 1
  {
    found, added, places := out, [], [];
    ghost var more, under;
    ghost var children: set<Segment> := {};
    var keys := a.fields.Keys + b.fields.Keys;
    while keys != {}
      invariant keys <= a.fields.Keys + b.fields.Keys && found == out + added
      invariant Searched(added, places, children, |found| >= DIFF_PATHS_COMPARED, a, b, path)
      invariant forall child :: child in children <==> child.Key? && child.name in a.fields.Keys + b.fields.Keys - keys
    {
      var key :| key in keys;
      keys := keys - {key};
      found, more, under := DiffChild(a, b, path, Key(key), found);
      MoreFound(added, places, children, |found| >= DIFF_PATHS_COMPARED, more, under, Key(key), a, b, path);
      InOneRow(out, added, more);
      added, places, children := added + more, places + under, children + {Key(key)};
    }
    if |found| < DIFF_PATHS_COMPARED {
    }
    IsFound(out, found, added, places, a, b, path);
  }

  // The body of both loops: an element one of them misses is pushed whatever was found, one both have is searched.
  method DiffChild(a: Value, b: Value, path: string, child: Segment, out: seq<string>)
    returns (found: seq<string>, ghost more: seq<string>, ghost under: seq<seq<Segment>>)
    requires BothContain(a, b) && (Has(a, child) || Has(b, child))
    ensures found == out + more
    ensures Located(more, under, a, b, path) && Within(under, {child})
    ensures |found| < DIFF_PATHS_COMPARED ==> CompleteUnder(under, a, b, child)
    ensures out <= found && (!Has(a, child) || !Has(b, child) ==> found == out + [PathTo(path, child)])
    decreases a, 0
  {
    if !Has(a, child) || !Has(b, child) {
      found, more, under := out + [PathTo(path, child)], [PathTo(path, child)], [[child]];
      MissingUnder(a, b, path, child);
    } else {
      found, more, under := DiffPaths(Child(a, child), Child(b, child), PathTo(path, child), out);
      FoundUnder(more, under, a, b, path, child);
      under := Under(child, under);
    }
  }

  // ---------- the ignore globs ----------

  function Split(path: string): (r: seq<string>)
    ensures r != []
  {
    if path == "" then [""]
    else
      var rest := Split(path[1..]);
      if path[0] == '/' then [""] + rest else [[path[0]] + rest[0]] + rest[1..]
  }

  // The glob stands for these segments: one for one, `*` for any, until its end or a `**`, which takes the rest.
  ghost predicate Matches(glob: seq<string>, segments: seq<string>) {
    exists n: nat ::
      && n <= |glob| && n <= |segments|
      && (forall i :: 0 <= i < n ==> glob[i] == "*" || glob[i] == segments[i])
      && (if n < |glob| then glob[n] == "**" else n == |segments|)
  }

  method GlobMatches(glob: seq<string>, segments: seq<string>) returns (matches: bool)
    ensures matches == Matches(glob, segments)
  {
    var index := 0;
    while index < |glob|
      invariant 0 <= index <= |glob| && index <= |segments|
      invariant forall i :: 0 <= i < index ==> glob[i] != "**" && (glob[i] == "*" || glob[i] == segments[i])
    {
      if glob[index] == "**" {
        return true;
      }
      if index >= |segments| {
        return false;
      }
      if glob[index] != "*" && glob[index] != segments[index] {
        return false;
      }
      index := index + 1;
    }
    return |glob| == |segments|;
  }

  ghost predicate IsIgnored(ignore: seq<seq<string>>, pointer: string) {
    exists g :: 0 <= g < |ignore| && Matches(ignore[g], Split(pointer)[1..])
  }

  method Ignored(ignore: seq<seq<string>>, pointer: string) returns (ignored: bool)
    ensures ignored == IsIgnored(ignore, pointer)
  {
    var segments := Split(pointer)[1..];
    for g := 0 to |ignore|
      invariant forall h :: 0 <= h < g ==> !Matches(ignore[h], segments)
    {
      var matches := GlobMatches(ignore[g], segments);
      if matches {
        return true;
      }
    }
    return false;
  }

  ghost predicate IsDifference(pointer: string, a: Value, b: Value) {
    exists segments :: DiffersAt(a, b, segments) && pointer == PointerAt("", segments)
  }

  ghost predicate Covers(all: set<seq<Segment>>, a: Value, b: Value) {
    forall segments :: DiffersAt(a, b, segments) ==> segments in all
  }

  ghost predicate FewerPlacesDiffer(a: Value, b: Value, bound: nat) {
    exists all :: Covers(all, a, b) && |all| < bound
  }

  ghost predicate AgreeOutside(ignore: seq<seq<string>>, a: Value, b: Value) {
    forall segments :: DiffersAt(a, b, segments) ==> IsIgnored(ignore, PointerAt("", segments))
  }

  ghost predicate NamesAll(diff: seq<string>, ignore: seq<seq<string>>, a: Value, b: Value) {
    forall segments :: DiffersAt(a, b, segments) && !IsIgnored(ignore, PointerAt("", segments)) ==>
                         PointerAt("", segments) in diff
  }

  /**
   The first differences no glob covers. What it names does differ and is not ignored. Below 500 places that differ,
   a diff of fewer than 20 names every one outside the globs, and so is empty exactly when the bodies agree there.
   */
  method Diff(stored: Value, replayed: Value, ignore: seq<seq<string>>) returns (diff: seq<string>)
    ensures |diff| <= 20
    ensures forall k :: 0 <= k < |diff| ==>
                          !IsIgnored(ignore, diff[k]) && IsDifference(diff[k], stored, replayed)
    ensures diff != [] ==> !AgreeOutside(ignore, stored, replayed)
    ensures FewerPlacesDiffer(stored, replayed, 500) && |diff| < 20 ==> NamesAll(diff, ignore, stored, replayed)
    ensures FewerPlacesDiffer(stored, replayed, 500) && diff == [] ==> AgreeOutside(ignore, stored, replayed)
    ensures ignore == [] ==> (diff == [] <==> stored == replayed)
  {
    var found; ghost var added, places;
    found, added, places := DiffPaths(stored, replayed, "", []);
    assert found == added;
    var ignored := IgnoredOf(ignore, found);
    var kept := Kept(found, ignored);
    diff := if |kept| > DIFF_PATHS_REPORTED then kept[..DIFF_PATHS_REPORTED] else kept;
    FrontOfKept(found, ignored, diff);
    DiffIsRight(stored, replayed, ignore, found, places, ignored, diff);
    if FewerPlacesDiffer(stored, replayed, DIFF_PATHS_COMPARED) && |diff| < DIFF_PATHS_REPORTED {
      KeptNamesAll(stored, replayed, ignore, found, places, ignored);
    }
    if ignore == [] {
      DiffWithoutGlobs(stored, replayed, ignore, found, places, ignored, kept);
    }
  }

  method IgnoredOf(ignore: seq<seq<string>>, found: seq<string>) returns (ignored: seq<bool>)
    ensures Flagged(ignore, found, ignored)
  {
    ignored := [];
    for k := 0 to |found|
      invariant Flagged(ignore, found[..k], ignored)
    {
      var flag := Ignored(ignore, found[k]);
      FlaggedMore(ignore, found[..k], ignored, found[k], flag);
      assert found[..k + 1] == found[..k] + [found[k]];
      ignored := ignored + [flag];
    }
    assert found[..|found|] == found;
  }

  ghost predicate Flagged(ignore: seq<seq<string>>, found: seq<string>, ignored: seq<bool>) {
    |ignored| == |found| && forall k :: 0 <= k < |found| ==> ignored[k] == IsIgnored(ignore, found[k])
  }

  lemma {:induction false} FlaggedMore(ignore: seq<seq<string>>, found: seq<string>, ignored: seq<bool>,
                                       pointer: string, flag: bool)
    requires Flagged(ignore, found, ignored) && flag == IsIgnored(ignore, pointer)
    ensures Flagged(ignore, found + [pointer], ignored + [flag])
  {
  }

  function Kept(found: seq<string>, ignored: seq<bool>): seq<string>
    requires |found| == |ignored|
  {
    if found == [] then [] else (if ignored[0] then [] else [found[0]]) + Kept(found[1..], ignored[1..])
  }

  predicate Unignored(found: seq<string>, ignored: seq<bool>, pointer: string)
    requires |found| == |ignored|
  {
    exists j :: 0 <= j < |found| && !ignored[j] && found[j] == pointer
  }

  lemma {:induction false} KeptAre(found: seq<string>, ignored: seq<bool>)
    requires |found| == |ignored|
    ensures forall pointer :: pointer in Kept(found, ignored) <==> Unignored(found, ignored, pointer)
  {
    if found != [] {
      KeptAre(found[1..], ignored[1..]);
      forall pointer ensures pointer in Kept(found, ignored) <==> Unignored(found, ignored, pointer) {
        if Unignored(found[1..], ignored[1..], pointer) {
          var j :| 0 <= j < |found| - 1 && !ignored[1..][j] && found[1..][j] == pointer;
          assert found[j + 1] == pointer && !ignored[j + 1];
        }
        if Unignored(found, ignored, pointer) {
          var j :| 0 <= j < |found| && !ignored[j] && found[j] == pointer;
          assert j > 0 ==> found[1..][j - 1] == pointer && !ignored[1..][j - 1];
        }
      }
    }
  }

  // The first ones kept, which are none only if every one is ignored.
  lemma {:induction false} FrontOfKept(found: seq<string>, ignored: seq<bool>, diff: seq<string>)
    requires |found| == |ignored| && diff <= Kept(found, ignored) && (diff == [] ==> Kept(found, ignored) == [])
    ensures forall i :: 0 <= i < |diff| ==> Unignored(found, ignored, diff[i])
    ensures diff == [] ==> forall j :: 0 <= j < |found| ==> ignored[j]
  {
    KeptAre(found, ignored);
    var kept := Kept(found, ignored);
    forall i | 0 <= i < |diff| ensures Unignored(found, ignored, diff[i]) {
      assert diff[i] == kept[i] && kept[i] in kept;
    }
    forall j | 0 <= j < |found| && !ignored[j] ensures kept != [] {
      assert Unignored(found, ignored, found[j]);
    }
  }

  lemma {:induction false} DiffIsRight(a: Value, b: Value, ignore: seq<seq<string>>,
                                       found: seq<string>, places: seq<seq<Segment>>, ignored: seq<bool>,
                                       diff: seq<string>)
    requires Located(found, places, a, b, "") && (|found| < DIFF_PATHS_COMPARED ==> Complete(places, a, b))
    requires Flagged(ignore, found, ignored)
    requires forall i :: 0 <= i < |diff| ==> Unignored(found, ignored, diff[i])
    requires diff == [] ==> forall j :: 0 <= j < |found| ==> ignored[j]
    ensures forall i :: 0 <= i < |diff| ==> !IsIgnored(ignore, diff[i]) && IsDifference(diff[i], a, b)
    ensures diff != [] ==> !AgreeOutside(ignore, a, b)
    ensures FewerPlacesDiffer(a, b, DIFF_PATHS_COMPARED) && diff == [] ==> AgreeOutside(ignore, a, b)
  {
    forall i | 0 <= i < |diff| ensures !IsIgnored(ignore, diff[i]) && IsDifference(diff[i], a, b) {
      assert Unignored(found, ignored, diff[i]);
      var j :| 0 <= j < |found| && !ignored[j] && found[j] == diff[i];
      assert DiffersAt(a, b, places[j]);
    }
    if diff != [] {
      assert IsDifference(diff[0], a, b);
    }
    if FewerPlacesDiffer(a, b, DIFF_PATHS_COMPARED) && diff == [] {
      FewPlaces(a, b, places, DIFF_PATHS_COMPARED);
      forall segments | DiffersAt(a, b, segments) ensures IsIgnored(ignore, PointerAt("", segments)) {
        var j :| 0 <= j < |places| && places[j] == segments;
        assert found[j] == PointerAt("", segments);
      }
    }
  }

  lemma {:induction false} KeptNamesAll(a: Value, b: Value, ignore: seq<seq<string>>,
                                        found: seq<string>, places: seq<seq<Segment>>, ignored: seq<bool>)
    requires Located(found, places, a, b, "") && (|found| < DIFF_PATHS_COMPARED ==> Complete(places, a, b))
    requires Flagged(ignore, found, ignored) && FewerPlacesDiffer(a, b, DIFF_PATHS_COMPARED)
    ensures NamesAll(Kept(found, ignored), ignore, a, b)
  {
    FewPlaces(a, b, places, DIFF_PATHS_COMPARED);
    KeptAre(found, ignored);
    forall segments | DiffersAt(a, b, segments) && !IsIgnored(ignore, PointerAt("", segments))
      ensures Unignored(found, ignored, PointerAt("", segments))
    {
      var j :| 0 <= j < |places| && places[j] == segments;
      assert found[j] == PointerAt("", segments);
    }
  }

  lemma {:induction false} NoGlobIgnoresNothing(ignore: seq<seq<string>>, found: seq<string>, ignored: seq<bool>,
                                                k: nat)
    requires Flagged(ignore, found, ignored) && ignore == [] && k < |found|
    ensures !ignored[k]
  {
    assert ignored[k] == IsIgnored(ignore, found[k]);
  }

  lemma {:induction false} DiffWithoutGlobs(a: Value, b: Value, ignore: seq<seq<string>>,
                                            found: seq<string>, places: seq<seq<Segment>>, ignored: seq<bool>,
                                            kept: seq<string>)
    requires Located(found, places, a, b, "") && (|found| < DIFF_PATHS_COMPARED ==> Complete(places, a, b))
    requires Flagged(ignore, found, ignored) && kept == Kept(found, ignored) && ignore == []
    ensures kept == [] <==> a == b
  {
    SomewhereUnlessEqual(a, b);
    if |found| > 0 {
      NoGlobIgnoresNothing(ignore, found, ignored, 0);
    }
  }

  lemma {:induction false} FewPlaces(a: Value, b: Value, places: seq<seq<Segment>>, bound: nat)
    requires FewerPlacesDiffer(a, b, bound)
    requires forall k :: 0 <= k < |places| ==> DiffersAt(a, b, places[k])
    requires NoRepeats(places)
    ensures |places| < bound
  {
    var all :| Covers(all, a, b) && |all| < bound;
    NoRepeatsFit(places, all);
  }

  // ---------- pointers as globs read them ----------

  predicate NoSlash(s: string) {
    forall k :: 0 <= k < |s| ==> s[k] != '/'
  }

  lemma {:induction false} SplitPlain(s: string, rest: string)
    requires NoSlash(s)
    ensures Split(s + "/" + rest) == [s] + Split(rest) && Split(s) == [s]
  {
    if s == "" {
      assert s + "/" + rest == "/" + rest && ("/" + rest)[1..] == rest;
    } else {
      SplitPlain(s[1..], rest);
      assert (s + "/" + rest)[1..] == s[1..] + "/" + rest;
      assert [s[0]] + s[1..] == s;
    }
  }

  function Texts(segments: seq<Segment>): seq<string> {
    if segments == [] then [] else [SegmentText(segments[0])] + Texts(segments[1..])
  }

  lemma {:induction false} DigitsNoSlash(n: nat)
    ensures NoSlash(Digits(n))
  {
    if n >= 10 {
      DigitsNoSlash(n / 10);
    }
  }

  // A glob meets a place segment by segment, as long as no key holds a slash.
  lemma {:induction false} GlobsReadSegments(segments: seq<Segment>)
    requires segments != [] && forall k :: 0 <= k < |segments| && segments[k].Key? ==> NoSlash(segments[k].name)
    ensures Split(PointerAt("", segments))[1..] == Texts(segments)
  {
    SplitSegments("", segments);
    assert "" + PathOf(segments) == PathOf(segments);
  }

  lemma {:induction false} SplitSegments(name: string, segments: seq<Segment>)
    requires NoSlash(name) && forall k :: 0 <= k < |segments| && segments[k].Key? ==> NoSlash(segments[k].name)
    ensures Split(name + PathOf(segments)) == [name] + Texts(segments)
    decreases |segments|
  {
    if segments == [] {
      SplitPlain(name, "");
      assert name + PathOf(segments) == name;
    } else {
      var first, rest := SegmentText(segments[0]), segments[1..];
      if segments[0].Index? {
        DigitsNoSlash(segments[0].i);
      }
      SplitSegments(first, rest);
      SplitPlain(name, first + PathOf(rest));
      InOneRow("/", first, PathOf(rest));
      InOneRow(name, "/", first + PathOf(rest));
      InOneRow([name], [first], Texts(rest));
    }
  }
}
