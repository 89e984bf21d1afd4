/**
 What the query-audit header promises whoever reads it: its size, what it drops, and that a header line can
 carry it (api/src/database/query-audit.ts, formatQueryAudit and keptEntryCount).
 */
module QueryAuditHeader {
  import opened Options
  import opened AuditJson
  import AuditJsonReader
  import opened QueryAuditEntries
  import opened QueryAuditFormat

  // The smallest nonzero QUERY_AUDIT_HEADER_MAX_SIZE.
  const QUERY_AUDIT_MIN_SIZE := 256

  function ValueIn(q: Request): (r: ValueOf)
    ensures PrintsObjects(r)
  {
    (e: Entry) => EntryValue(e, q.timings)
  }

  function Formatted(q: Request, maxSize: int, entries: seq<Entry>): string {
    FormattedOf(RequestFields(q), ValueIn(q), maxSize, entries)
  }

  method Format(q: Request, maxSize: int, auditEntries: seq<Entry>) returns (header: string)
    ensures header == Formatted(q, maxSize, auditEntries)
  {
    header := FormatQueryAudit(RequestFields(q), ValueIn(q), maxSize, auditEntries);
  }

  // ---------- the room the request's own fields take ----------

  ghost predicate Plain(key: string) {
    forall i :: 0 <= i < |key| ==> 'a' <= key[i] <= 'z' || 'A' <= key[i] <= 'Z'
  }

  lemma {:induction false} PlainKeyIsItself(key: string)
    requires Plain(key)
    ensures Replaced(EscapedChar, key) == key
  {
    if key != "" {
      assert ShortEscape(key[0]) == "";
      PlainKeyIsItself(key[1..]);
    }
  }

  // A number of at most k digits, its key, its colon and the comma after it.
  lemma {:induction false} NumFieldRoom(key: string, n: Option<nat>, k: nat)
    requires Plain(key) && k > 0 && (n.Some? ==> n.value < Pow10(k))
    ensures FieldsSize(NumField(key, n)) + |NumField(key, n)| <= |key| + k + 4
  {
    if n.Some? {
      OneFieldSize(Field(key, Num(n.value)));
      PlainKeyIsItself(key);
      DigitsBelow(n.value, k);
    }
  }

  // The integers JSON writes digit by digit have at most 21 digits.
  const DIGITS := 21

  ghost predicate Printed(q: Request) {
    q.ms < Pow10(DIGITS) && q.db < Pow10(DIGITS) && q.wait < Pow10(DIGITS) && q.maxPoolConnections < Pow10(DIGITS)
  }

  lemma {:induction false} OwnFieldsRoom(q: Request)
    requires Printed(q)
    ensures FieldsSize(RequestFields(q)) + |RequestFields(q)| <= 26 + 4 * (DIGITS + 4)
  {
    var ms, db := NumField("ms", When(q.timings, q.ms)), NumField("db", When(q.timings, q.db));
    var wait := NumField("wait", When(q.timings, q.wait));
    var pool := NumField("maxPoolConnections", Some(q.maxPoolConnections));
    NumFieldRoom("ms", When(q.timings, q.ms), DIGITS);
    NumFieldRoom("db", When(q.timings, q.db), DIGITS);
    NumFieldRoom("wait", When(q.timings, q.wait), DIGITS);
    NumFieldRoom("maxPoolConnections", Some(q.maxPoolConnections), DIGITS);
    FieldsSizeConcat(ms, db);
    FieldsSizeConcat(ms + db, wait);
    FieldsSizeConcat(ms + db + wait, pool);
  }

  lemma {:induction false} EmptyListRoom(key: string)
    requires Plain(key)
    ensures |PrintField(Field(key, Arr([])))| == |key| + 5
  {
    PlainKeyIsItself(key);
    assert PrintItems([]) == [];
  }

  lemma {:induction false} EmptyHeaderRoom(own: seq<Field>, dropped: nat, droppedKey: string, listKey: string)
    requires dropped < Pow10(DIGITS) && Plain(droppedKey) && Plain(listKey)
    ensures |Print(Obj(own + NumField(droppedKey, Some(dropped)) + [Field(listKey, Arr([]))]))|
         <= FieldsSize(own) + |own| + |droppedKey| + |listKey| + DIGITS + 11
  {
    NumFieldRoom(droppedKey, Some(dropped), DIGITS);
    EmptyListRoom(listKey);
    PartsSize(own, NumField(droppedKey, Some(dropped)), Field(listKey, Arr([])));
  }

  // With every entry dropped the header still fits the smallest size that can be asked for.
  lemma {:induction false} EmptyHeaderFits(q: Request, dropped: nat)
    requires Printed(q) && dropped < Pow10(DIGITS)
    ensures |HeaderOf(RequestFields(q), [], Some(dropped))| <= QUERY_AUDIT_MIN_SIZE
  {
    OwnFieldsRoom(q);
    EmptyHeaderRoomBeside(RequestFields(q), dropped);
  }

  lemma {:induction false} ListKeysArePlain()
    ensures Plain("entriesDropped") && Plain("statements")
  {
  }

  lemma {:induction false} EmptyHeaderRoomBeside(own: seq<Field>, dropped: nat)
    requires dropped < Pow10(DIGITS)
    ensures |HeaderOf(own, [], Some(dropped))| <= FieldsSize(own) + |own| + DIGITS + 35
  {
    ListKeysArePlain();
    EmptyHeaderRoom(own, dropped, "entriesDropped", "statements");
  }

  // ---------- the header ----------

  // Whatever is kept fits, unless nothing does.
  lemma {:induction false} KeptFits(own: seq<Field>, valueOf: ValueOf, maxSize: int, cut: seq<Entry>)
    requires maxSize > 0 && |HeaderOf(own, [], Some(|cut|))| <= maxSize
    ensures |HeaderKeeping(own, valueOf, cut, KeptOf(own, valueOf, maxSize, cut))| <= maxSize
  {
    var kept := KeptOf(own, valueOf, maxSize, cut);
    if kept.Some? {
      LongestPrefixIsLongest((k: nat) => PrefixFits(own, valueOf, maxSize, cut, k), |cut|);
      assert kept.value == 0 ==> Values(cut[..0], valueOf) == [];
    }
  }

  /** For every audit and every size that can be asked for, the header is no longer than asked. */
  lemma {:induction false} HeaderFits(q: Request, maxSize: int, entries: seq<Entry>)
    requires maxSize >= 256 && Printed(q) && |entries| < Pow10(DIGITS)
    ensures |Formatted(q, maxSize, entries)| <= maxSize
  {
    EmptyHeaderFits(q, |entries|);
    FormattedFits(RequestFields(q), ValueIn(q), maxSize, entries);
  }

  lemma {:induction false} FormattedFits(own: seq<Field>, valueOf: ValueOf, maxSize: int, entries: seq<Entry>)
    requires maxSize > 0 && |HeaderOf(own, [], Some(|entries|))| <= maxSize
    ensures |FormattedOf(own, valueOf, maxSize, entries)| <= maxSize
  {
    KeptFits(own, valueOf, maxSize, CutAll(FitsIn(own, valueOf, maxSize), entries));
  }

  // A prefix kept is the longest that fits, and not the whole, unless there is nothing to keep.
  lemma {:induction false} KeptIsLongest(own: seq<Field>, valueOf: ValueOf, maxSize: int, cut: seq<Entry>)
    requires KeptOf(own, valueOf, maxSize, cut).Some?
    ensures var k := KeptOf(own, valueOf, maxSize, cut).value;
            && (cut != [] ==> k < |cut|)
            && (forall j :: k < j <= |cut| ==> |HeaderOf(own, Values(cut[..j], valueOf), Some(|cut| - j))| > maxSize)
            && |HeaderOf(own, Values(cut, valueOf), None)| > maxSize
  {
    var k := KeptOf(own, valueOf, maxSize, cut).value;
    var fits := (k: nat) => PrefixFits(own, valueOf, maxSize, cut, k);
    LongestPrefixIsLongest(fits, |cut|);
    forall j | k < j <= |cut| ensures |HeaderOf(own, Values(cut[..j], valueOf), Some(|cut| - j))| > maxSize {
      assert !fits(j);
    }
    if k == |cut| && k > 0 {
      assert cut[..k] == cut;
      HeaderSize(own, Values(cut, valueOf), Some(0));
      HeaderSize(own, Values(cut, valueOf), None);
      assert false;
    }
  }

  lemma {:induction false} NothingFits(own: seq<Field>, valueOf: ValueOf, maxSize: int)
    requires |HeaderOf(own, [], Some(0))| <= maxSize
    ensures Fits(own, valueOf, maxSize, [])
  {
    HeaderSize(own, [], Some(0));
    assert Values([], valueOf) == [];
  }

  // The kept k entries fit beside the count of the others, and no more of them do.
  ghost predicate IsExact(own: seq<Field>, valueOf: ValueOf, maxSize: int, cut: seq<Entry>, k: nat) {
    && k < |cut| && |HeaderOf(own, Values(cut[..k], valueOf), Some(|cut| - k))| <= maxSize
    && (forall j :: k < j <= |cut| ==> |HeaderOf(own, Values(cut[..j], valueOf), Some(|cut| - j))| > maxSize)
    && |HeaderOf(own, Values(cut, valueOf), None)| > maxSize
  }

  lemma {:induction false} KeptIsExact(own: seq<Field>, valueOf: ValueOf, maxSize: int, cut: seq<Entry>)
    requires |HeaderOf(own, [], Some(|cut|))| <= maxSize && |HeaderOf(own, [], Some(0))| <= maxSize
    requires KeptOf(own, valueOf, maxSize, cut).Some?
    ensures IsExact(own, valueOf, maxSize, cut, KeptOf(own, valueOf, maxSize, cut).value)
  {
    KeptIsLongest(own, valueOf, maxSize, cut);
    NothingFits(own, valueOf, maxSize);
    KeptFits(own, valueOf, maxSize, cut);
  }

  // At least one entry is dropped, and those kept are the longest prefix to fit beside the exact count of the others.
  ghost predicate DropsExactly(own: seq<Field>, valueOf: ValueOf, maxSize: int, entries: seq<Entry>) {
    var cut := CutFor(own, valueOf, maxSize, entries);
    var kept := KeptOf(own, valueOf, maxSize, cut);
    && |cut| == |entries| && kept.Some? && IsExact(own, valueOf, maxSize, cut, kept.value)
    && FormattedOf(own, valueOf, maxSize, entries)
       == HeaderOf(own, Values(cut[..kept.value], valueOf), Some(|cut| - kept.value))
  }

  lemma {:induction false} DroppedOfIsExact(own: seq<Field>, valueOf: ValueOf, maxSize: int, entries: seq<Entry>)
    requires |HeaderOf(own, [], Some(|entries|))| <= maxSize && |HeaderOf(own, [], Some(0))| <= maxSize
    requires KeptOf(own, valueOf, maxSize, CutFor(own, valueOf, maxSize, entries)).Some?
    ensures DropsExactly(own, valueOf, maxSize, entries)
  {
    KeptIsExact(own, valueOf, maxSize, CutFor(own, valueOf, maxSize, entries));
  }

  /**
   Where entries are dropped, at any size that can be asked for: at least one is, those kept fit beside the exact count
   of the others and are the longest prefix to, and with all of them the header would be too long.
   */
  lemma {:induction false} DroppedIsExact(q: Request, maxSize: int, entries: seq<Entry>)
    requires maxSize >= 256 && Printed(q) && |entries| < Pow10(DIGITS)
    ensures DroppedOf(RequestFields(q), ValueIn(q), maxSize, entries).Some? ==>
              DropsExactly(RequestFields(q), ValueIn(q), maxSize, entries)
  {
    EmptyHeaderFits(q, |entries|);
    EmptyHeaderFits(q, 0);
    if DroppedOf(RequestFields(q), ValueIn(q), maxSize, entries).Some? {
      DroppedOfIsExact(RequestFields(q), ValueIn(q), maxSize, entries);
    }
  }

  lemma {:induction false} HeaderPrintable(own: seq<Field>, kept: seq<Json>, dropped: Option<nat>)
    ensures Printable(HeaderOf(own, kept, dropped))
  {
    PrintPrintable(Obj(own + NumField("entriesDropped", dropped) + [Field("statements", Arr(kept))]));
  }

  // A header reads back as the request's fields, the count of dropped entries where there is one, and the kept entries.
  lemma {:induction false} HeaderReadsBack(own: seq<Field>, kept: seq<Json>, dropped: Option<nat>)
    ensures AuditJsonReader.ReadValue(HeaderOf(own, kept, dropped))
         == Some((Obj(own + NumField("entriesDropped", dropped) + [Field("statements", Arr(kept))]), ""))
  {
    var v := Obj(own + NumField("entriesDropped", dropped) + [Field("statements", Arr(kept))]);
    AuditJsonReader.ValueReads(v, "");
    assert Print(v) + "" == Print(v);
  }

  // Whatever text the statements hold, the header is printable ASCII.
  lemma {:induction false} FormattedPrintable(q: Request, maxSize: int, entries: seq<Entry>)
    ensures Printable(Formatted(q, maxSize, entries))
  {
    FormattedOfPrintable(RequestFields(q), ValueIn(q), maxSize, entries);
  }

  lemma {:induction false} FormattedOfPrintable(own: seq<Field>, valueOf: ValueOf, maxSize: int, entries: seq<Entry>)
    ensures Printable(FormattedOf(own, valueOf, maxSize, entries))
  {
    var cut := CutAll(FitsIn(own, valueOf, maxSize), entries);
    KeptPrintable(own, valueOf, cut, KeptOf(own, valueOf, maxSize, cut));
  }

  lemma {:induction false} KeptPrintable(own: seq<Field>, valueOf: ValueOf, cut: seq<Entry>, kept: Option<nat>)
    requires kept.Some? ==> kept.value <= |cut|
    ensures Printable(HeaderKeeping(own, valueOf, cut, kept))
  {
    match kept
    case None => HeaderPrintable(own, Values(cut, valueOf), None);
    case Some(k) => HeaderPrintable(own, Values(cut[..k], valueOf), Some(|cut| - k));
  }
}
