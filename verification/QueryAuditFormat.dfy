/**
 The query-audit header cut to a byte budget (api/src/database/query-audit.ts, formatQueryAudit). The
 method keeps the header's size incrementally and serialises an entry again only when it changes; the
 functions are the simple form it refines, which prints the whole header every time.
 */
module QueryAuditFormat {
  import opened Options
  import opened AuditJson
  import opened QueryAuditEntries

  type ValueOf = Entry -> Json

  function Values(entries: seq<Entry>, valueOf: ValueOf): (r: seq<Json>)
    ensures |r| == |entries|
  {
    seq(|entries|, i requires 0 <= i < |entries| => valueOf(entries[i]))
  }

  // The request's own fields, the count of dropped entries if any are, and the kept entries.
  function HeaderOf(own: seq<Field>, kept: seq<Json>, dropped: Option<nat>): string {
    Print(Obj(own + NumField("entriesDropped", dropped) + [Field("statements", Arr(kept))]))
  }

  // ---------- the simple form ----------

  predicate Fits(own: seq<Field>, valueOf: ValueOf, maxSize: int, entries: seq<Entry>) {
    maxSize <= 0 || |HeaderOf(own, Values(entries, valueOf), None)| <= maxSize
  }

  predicate PrefixFits(own: seq<Field>, valueOf: ValueOf, maxSize: int, entries: seq<Entry>, k: nat) {
    k <= |entries| && |HeaderOf(own, Values(entries[..k], valueOf), Some(|entries| - k))| <= maxSize
  }

  function FitsIn(own: seq<Field>, valueOf: ValueOf, maxSize: int): seq<Entry> -> bool {
    es => Fits(own, valueOf, maxSize, es)
  }

  // How many of the cut entries are kept; None where all of them fit.
  function KeptOf(own: seq<Field>, valueOf: ValueOf, maxSize: int, cut: seq<Entry>): (r: Option<nat>)
    ensures r.Some? ==> r.value <= |cut|
  {
    if Fits(own, valueOf, maxSize, cut) then None
    else Some(LongestPrefix((k: nat) => PrefixFits(own, valueOf, maxSize, cut, k), |cut|))
  }

  function HeaderKeeping(own: seq<Field>, valueOf: ValueOf, cut: seq<Entry>, kept: Option<nat>): string
    requires kept.Some? ==> kept.value <= |cut|
  {
    match kept
    case None => HeaderOf(own, Values(cut, valueOf), None)
    case Some(k) => HeaderOf(own, Values(cut[..k], valueOf), Some(|cut| - k))
  }

  function CutFor(own: seq<Field>, valueOf: ValueOf, maxSize: int, entries: seq<Entry>): seq<Entry> {
    CutAll(FitsIn(own, valueOf, maxSize), entries)
  }

  function FormattedOf(own: seq<Field>, valueOf: ValueOf, maxSize: int, entries: seq<Entry>): string {
    var cut := CutFor(own, valueOf, maxSize, entries);
    HeaderKeeping(own, valueOf, cut, KeptOf(own, valueOf, maxSize, cut))
  }

  // The entries the header shows, as cut, and the count of those it says were dropped.
  function ShownOf(own: seq<Field>, valueOf: ValueOf, maxSize: int, entries: seq<Entry>): seq<Entry> {
    var cut := CutFor(own, valueOf, maxSize, entries);
    var kept := KeptOf(own, valueOf, maxSize, cut);
    if kept.None? then cut else cut[..kept.value]
  }

  function DroppedOf(own: seq<Field>, valueOf: ValueOf, maxSize: int, entries: seq<Entry>): Option<nat> {
    var cut := CutFor(own, valueOf, maxSize, entries);
    var kept := KeptOf(own, valueOf, maxSize, cut);
    if kept.None? then None else Some(|cut| - kept.value)
  }

  lemma {:induction false} FormattedShows(own: seq<Field>, valueOf: ValueOf, maxSize: int, entries: seq<Entry>)
    ensures FormattedOf(own, valueOf, maxSize, entries)
         == HeaderOf(own, Values(ShownOf(own, valueOf, maxSize, entries), valueOf),
                     DroppedOf(own, valueOf, maxSize, entries))
  {
  }

  // ---------- exact sizes ----------

  function FieldsSize(fields: seq<Field>): nat {
    Total(Sizes(PrintFields(fields)))
  }

  lemma {:induction false} FieldsSizeConcat(a: seq<Field>, b: seq<Field>)
    ensures FieldsSize(a + b) == FieldsSize(a) + FieldsSize(b)
  {
    PrintFieldsConcat(a, b);
    TotalConcat(Sizes(PrintFields(a)), Sizes(PrintFields(b)));
    assert Sizes(PrintFields(a + b)) == Sizes(PrintFields(a)) + Sizes(PrintFields(b));
  }

  lemma {:induction false} OneFieldSize(f: Field)
    ensures FieldsSize([f]) == |PrintField(f)|
  {
    var fields := [f];
    PrintFieldsAt(fields, 0);
    var sizes := Sizes(PrintFields(fields));
    assert sizes[0] == |PrintField(f)|;
    assert Total(sizes) == sizes[0] + Total(sizes[1..]);
    assert sizes[1..] == [];
  }

  lemma {:induction false} ObjSize(fields: seq<Field>)
    ensures |Print(Obj(fields))| == 2 + FieldsSize(fields) + Commas(|fields|)
  {
    JoinedSize(PrintFields(fields));
  }

  function EntrySizes(entries: seq<Entry>, valueOf: ValueOf): (r: seq<nat>)
    ensures |r| == |entries|
  {
    seq(|entries|, i requires 0 <= i < |entries| => |Print(valueOf(entries[i]))|)
  }

  // How long a printed array of parts of these sizes is.
  function ListSize(sizes: seq<nat>): nat {
    Total(sizes) + Commas(|sizes|) + 2
  }

  lemma {:induction false} ValuesSize(entries: seq<Entry>, valueOf: ValueOf)
    ensures |Print(Arr(Values(entries, valueOf)))| == ListSize(EntrySizes(entries, valueOf))
  {
    var parts := PrintItems(Values(entries, valueOf));
    JoinedSize(parts);
    forall i | 0 <= i < |entries| ensures |parts[i]| == |Print(valueOf(entries[i]))| {
      PrintItemsAt(Values(entries, valueOf), i);
    }
    assert Sizes(parts) == EntrySizes(entries, valueOf);
  }

  // What `"entriesDropped":N,` takes.
  function DroppedFieldSize(n: nat): int {
    |Print(Obj([Field("entriesDropped", Num(n))]))| - 1
  }

  lemma {:induction false} PartsSize(own: seq<Field>, d: seq<Field>, last: Field)
    ensures |Print(Obj(own + d + [last]))| == 2 + FieldsSize(own) + FieldsSize(d) + |PrintField(last)| + |own| + |d|
  {
    ObjSize(own + d + [last]);
    FieldsSizeConcat(own + d, [last]);
    FieldsSizeConcat(own, d);
    OneFieldSize(last);
  }

  lemma {:induction false} ListFieldSize(key: string, values: seq<Json>)
    ensures |PrintField(Field(key, Arr(values)))| == |PrintField(Field(key, Arr([])))| + |Print(Arr(values))| - 2
  {
    assert Print(Arr([])) == "[]" by { assert PrintItems([]) == []; }
  }

  // What one more field and a list of values take in an object.
  lemma {:induction false} ListObjSize(own: seq<Field>, d: seq<Field>, key: string, values: seq<Json>)
    requires |d| <= 1
    ensures |Print(Obj(own + d + [Field(key, Arr(values))]))| + 2
         == |Print(Obj(own + [] + [Field(key, Arr([]))]))| + |Print(Arr(values))|
            + if d == [] then 0 else |Print(Obj(d))| - 1
  {
    PartsSize(own, d, Field(key, Arr(values)));
    PartsSize(own, [], Field(key, Arr([])));
    ListFieldSize(key, values);
    ObjSize(d);
    ObjSize([]);
    assert Print(Obj([])) == "{}" by { assert PrintFields([]) == []; }
  }

  // The header's size is that of its own fields, of the list of entries and of the dropped count.
  lemma {:induction false} HeaderSize(own: seq<Field>, kept: seq<Json>, dropped: Option<nat>)
    ensures |HeaderOf(own, kept, dropped)| + 2
         == |HeaderOf(own, [], None)| + |Print(Arr(kept))|
            + if dropped.Some? then DroppedFieldSize(dropped.value) else 0
  {
    ListObjSize(own, NumField("entriesDropped", dropped), "statements", kept);
  }

  // ---------- the longest prefix ----------

  lemma {:induction false} DroppedFieldShrinks(n: nat)
    ensures DroppedFieldSize(n + 1) <= DroppedFieldSize(n) + 1
  {
    ObjSize([Field("entriesDropped", Num(n))]);
    ObjSize([Field("entriesDropped", Num(n + 1))]);
    OneFieldSize(Field("entriesDropped", Num(n)));
    OneFieldSize(Field("entriesDropped", Num(n + 1)));
    DigitsSucc(n);
  }

  lemma {:induction false} PrefixSizeStep(sizes: seq<nat>, k: nat)
    requires k < |sizes|
    ensures ListSize(sizes[..k + 1]) == ListSize(sizes[..k]) + sizes[k] + (if k > 0 then 1 else 0)
  {
    assert sizes[..k + 1] == sizes[..k] + [sizes[k]];
    TotalConcat(sizes[..k], [sizes[k]]);
    assert [sizes[k]][1..] == [];
  }

  // The size of k entries beside the count of the others.
  function PrefixSize(sizes: seq<nat>, k: nat): int
    requires k <= |sizes|
  {
    ListSize(sizes[..k]) + DroppedFieldSize(|sizes| - k)
  }

  // One entry more always takes more room, even where the dropped count loses a digit.
  lemma {:induction false} PrefixSizesGrow(sizes: seq<nat>, j: nat, k: nat)
    requires j <= k <= |sizes|
    requires forall i :: 0 <= i < |sizes| ==> sizes[i] >= 2
    ensures PrefixSize(sizes, j) <= PrefixSize(sizes, k)
    decreases k
  {
    if j < k {
      PrefixSizeStep(sizes, k - 1);
      DroppedFieldShrinks(|sizes| - k);
      PrefixSizesGrow(sizes, j, k - 1);
    }
  }

  method KeptEntryCount(entrySizes: seq<nat>, maxSize: int) returns (keptCount: nat)
    ensures keptCount <= |entrySizes|
    ensures keptCount == 0 || PrefixSize(entrySizes, keptCount) <= maxSize
    ensures keptCount < |entrySizes| ==> PrefixSize(entrySizes, keptCount + 1) > maxSize
  {
    var keptSize := 2;
    keptCount := 0;
    while keptCount < |entrySizes|
      invariant keptCount <= |entrySizes|
      invariant keptSize == ListSize(entrySizes[..keptCount])
      invariant keptCount == 0 || PrefixSize(entrySizes, keptCount) <= maxSize
    {
      var droppedFieldSize := DroppedFieldSize(|entrySizes| - keptCount - 1);
      var commaSize := if keptCount > 0 then 1 else 0;
      PrefixSizeStep(entrySizes, keptCount);
      if keptSize + commaSize + entrySizes[keptCount] + droppedFieldSize > maxSize {
        break;
      }
      keptSize := keptSize + commaSize + entrySizes[keptCount];
      keptCount := keptCount + 1;
    }
  }

  lemma {:induction false} LongestPrefixIs(fits: nat -> bool, k: nat, r: nat)
    requires r <= k
    requires r == 0 || fits(r)
    requires forall j :: r < j <= k ==> !fits(j)
    ensures LongestPrefix(fits, k) == r
  {
    if r < k {
      LongestPrefixIs(fits, k - 1, r);
    }
  }

  lemma {:induction false} LongestPrefixIsLongest(fits: nat -> bool, k: nat)
    ensures var r := LongestPrefix(fits, k); (r == 0 || fits(r)) && forall j :: r < j <= k ==> !fits(j)
  {
    if k != 0 && !fits(k) {
      LongestPrefixIsLongest(fits, k - 1);
    }
  }

  // Where sizes only grow, the greedy count is the longest prefix that fits.
  lemma {:induction false} GreedyCountIsLongest(sizeOf: nat -> int, n: nat, maxSize: int, keptCount: nat,
                                                fits: nat -> bool)
    requires forall j: nat, k: nat :: j <= k <= n ==> sizeOf(j) <= sizeOf(k)
    requires keptCount <= n
    requires keptCount == 0 || sizeOf(keptCount) <= maxSize
    requires keptCount < n ==> sizeOf(keptCount + 1) > maxSize
    requires forall k: nat :: k <= n ==> (fits(k) <==> sizeOf(k) <= maxSize)
    ensures LongestPrefix(fits, n) == keptCount
  {
    forall j | keptCount < j <= n ensures !fits(j) {
      assert sizeOf(keptCount + 1) <= sizeOf(j);
    }
    LongestPrefixIs(fits, n, keptCount);
  }

  // ---------- the incremental form ----------

  ghost predicate SizesKept(entries: seq<Entry>, sizes: seq<nat>, headerSize: int, valueOf: ValueOf) {
    sizes == EntrySizes(entries, valueOf) && headerSize == ListSize(sizes)
  }

  // Whether it fits is decided by the entries' sizes and the room they have.
  ghost predicate DecidedBySize(fits: seq<Entry> -> bool, valueOf: ValueOf, room: int) {
    forall es :: fits(es) <==> ListSize(EntrySizes(es, valueOf)) <= room
  }

  lemma {:induction false} SizesKeptByUpdate(entries: seq<Entry>, sizes: seq<nat>, headerSize: int,
                                             valueOf: ValueOf, i: nat, e: Entry)
    requires SizesKept(entries, sizes, headerSize, valueOf) && i < |entries|
    ensures SizesKept(entries[i := e], sizes[i := |Print(valueOf(e))|],
                      headerSize + |Print(valueOf(e))| - sizes[i], valueOf)
  {
    TotalUpdate(sizes, i, |Print(valueOf(e))|);
  }

  // One stage in place: each cut entry is printed again, the others are not.
  method CutStageInPlace(ghost fits: seq<Entry> -> bool, valueOf: ValueOf, entriesMaxSize: int, s: Stage,
                         entries: array<Entry>, sizes: array<nat>, size: int)
    returns (headerSize: int)
    requires entries.Length == sizes.Length
    requires DecidedBySize(fits, valueOf, entriesMaxSize)
    requires SizesKept(entries[..], sizes[..], size, valueOf)
    modifies entries, sizes
    ensures entries[..] == CutStage(fits, s, old(entries[..]))
    ensures SizesKept(entries[..], sizes[..], headerSize, valueOf)
  {
    headerSize := size;
    var largestFirst := Order(s, entries[..]);
    for k := 0 to |largestFirst|
      invariant SizesKept(entries[..], sizes[..], headerSize, valueOf)
      invariant forall k :: 0 <= k < |largestFirst| ==> largestFirst[k] < entries.Length
      invariant CutInOrder(fits, s, entries[..], largestFirst[k..]) == CutStage(fits, s, old(entries[..]))
    {
      if headerSize <= entriesMaxSize {
        assert fits(entries[..]);
        return;
      }
      assert !fits(entries[..]);
      var i := largestFirst[k];
      var cut := Drop(s, entries[i]);
      var entrySize := |Print(valueOf(cut))|;
      SizesKeptByUpdate(entries[..], sizes[..], headerSize, valueOf, i, cut);
      assert largestFirst[k..][1..] == largestFirst[k + 1..];
      headerSize := headerSize + entrySize - sizes[i];
      ghost var before := entries[..];
      entries[i] := cut;
      sizes[i] := entrySize;
      assert entries[..] == before[i := cut];
    }
  }

  lemma {:induction false} FitsBySize(own: seq<Field>, valueOf: ValueOf, maxSize: int)
    requires maxSize > 0
    ensures DecidedBySize(FitsIn(own, valueOf, maxSize), valueOf, maxSize - |HeaderOf(own, [], None)| + 2)
  {
    forall es ensures FitsIn(own, valueOf, maxSize)(es)
                 <==> ListSize(EntrySizes(es, valueOf)) <= maxSize - |HeaderOf(own, [], None)| + 2
    {
      HeaderSize(own, Values(es, valueOf), None);
      ValuesSize(es, valueOf);
    }
  }

  lemma {:induction false} EntriesHeaderSize(own: seq<Field>, valueOf: ValueOf, kept: seq<Entry>, left: nat)
    ensures |HeaderOf(own, Values(kept, valueOf), Some(left))| + 2
         == |HeaderOf(own, [], None)| + ListSize(EntrySizes(kept, valueOf)) + DroppedFieldSize(left)
  {
    HeaderSize(own, Values(kept, valueOf), Some(left));
    ValuesSize(kept, valueOf);
  }

  lemma {:induction false} PrefixFitsBySize(own: seq<Field>, valueOf: ValueOf, maxSize: int, entries: seq<Entry>,
                                            k: nat)
    requires k <= |entries|
    ensures PrefixFits(own, valueOf, maxSize, entries, k)
       <==> PrefixSize(EntrySizes(entries, valueOf), k) <= maxSize - |HeaderOf(own, [], None)| + 2
  {
    EntriesHeaderSize(own, valueOf, entries[..k], |entries| - k);
    assert EntrySizes(entries[..k], valueOf) == EntrySizes(entries, valueOf)[..k];
  }

  // An entry is printed as an object: two braces at least.
  ghost predicate PrintsObjects(valueOf: ValueOf) {
    forall e :: valueOf(e).Obj?
  }

  lemma {:induction false} KeptCountIs(own: seq<Field>, valueOf: ValueOf, maxSize: int, cut: seq<Entry>, keptCount: nat)
    requires PrintsObjects(valueOf) && !Fits(own, valueOf, maxSize, cut)
    requires keptCount <= |cut|
    requires var sizes, room := EntrySizes(cut, valueOf), maxSize - |HeaderOf(own, [], None)| + 2;
             (keptCount == 0 || PrefixSize(sizes, keptCount) <= room)
             && (keptCount < |sizes| ==> PrefixSize(sizes, keptCount + 1) > room)
    ensures KeptOf(own, valueOf, maxSize, cut) == Some(keptCount)
  {
    var sizes, room := EntrySizes(cut, valueOf), maxSize - |HeaderOf(own, [], None)| + 2;
    var fits := (k: nat) => PrefixFits(own, valueOf, maxSize, cut, k);
    forall k: nat | k <= |sizes| ensures fits(k) <==> PrefixSize(sizes, k) <= room {
      PrefixFitsBySize(own, valueOf, maxSize, cut, k);
    }
    var sizeOf := (k: nat) => if k <= |sizes| then PrefixSize(sizes, k) else 0;
    forall j: nat, k: nat | j <= k <= |sizes| ensures sizeOf(j) <= sizeOf(k) {
      PrefixSizesGrow(sizes, j, k);
    }
    GreedyCountIsLongest(sizeOf, |sizes|, room, keptCount, fits);
  }

  lemma {:induction false} FittingIsKept(fits: seq<Entry> -> bool, entries: seq<Entry>)
    requires fits(entries)
    ensures CutAll(fits, entries) == entries
  {
  }

  // The entries cut in place as far as they must be, and how many of them are kept.
  method CutEntries(own: seq<Field>, valueOf: ValueOf, maxSize: int, entries: array<Entry>)
    returns (kept: Option<nat>)
    requires maxSize > 0 && PrintsObjects(valueOf)
    modifies entries
    ensures entries[..] == CutAll(FitsIn(own, valueOf, maxSize), old(entries[..]))
    ensures kept == KeptOf(own, valueOf, maxSize, entries[..])
  {
    var n := entries.Length;
    ghost var fits := FitsIn(own, valueOf, maxSize);
    FitsBySize(own, valueOf, maxSize);
    var sizes := new nat[n](i requires 0 <= i < n reads entries => |Print(valueOf(entries[i]))|);
    assert sizes[..] == EntrySizes(entries[..], valueOf);
    var entriesMaxSize := maxSize - |HeaderOf(own, [], None)| + 2;
    var headerSize: int := ListSize(sizes[..]);
    if headerSize <= entriesMaxSize {
      assert fits(entries[..]);
      FittingIsKept(fits, entries[..]);
      return None;
    }
    headerSize := CutStageInPlace(fits, valueOf, entriesMaxSize, GroupRuns, entries, sizes, headerSize);
    headerSize := CutStageInPlace(fits, valueOf, entriesMaxSize, DropBindings, entries, sizes, headerSize);
    headerSize := CutStageInPlace(fits, valueOf, entriesMaxSize, CutStatements, entries, sizes, headerSize);
    assert fits(entries[..]) <==> headerSize <= entriesMaxSize;
    if headerSize <= entriesMaxSize {
      return None;
    }
    var keptCount := KeptEntryCount(sizes[..], entriesMaxSize);
    KeptCountIs(own, valueOf, maxSize, entries[..], keptCount);
    kept := Some(keptCount);
  }

  method FormatQueryAudit(own: seq<Field>, valueOf: ValueOf, maxSize: int, auditEntries: seq<Entry>)
    returns (header: string)
    requires PrintsObjects(valueOf)
    ensures header == FormattedOf(own, valueOf, maxSize, auditEntries)
  {
    if maxSize <= 0 {
      FittingIsKept(FitsIn(own, valueOf, maxSize), auditEntries);
      return HeaderOf(own, Values(auditEntries, valueOf), None);
    }
    var n := |auditEntries|;
    var entries := new Entry[n](i requires 0 <= i < n => auditEntries[i]);
    assert entries[..] == auditEntries;
    var kept := CutEntries(own, valueOf, maxSize, entries);
    header := HeaderKeeping(own, valueOf, entries[..], kept);
  }
}
