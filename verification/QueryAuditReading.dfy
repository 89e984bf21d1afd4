/**
 What a reader of the query-audit header finds under each key (api/src/database/query-audit.ts, entryValueOf,
 statementValueOf and requestFieldsOf): every amount under its own name, and nothing under a name left out.
 */
module QueryAuditReading {
  import opened Options
  import opened AuditJson
  import AuditJsonReader
  import opened QueryAuditItems
  import opened QueryAuditEntries
  import opened QueryAuditFormat
  import opened QueryAuditHeader

  // A property of an object read from JSON: the last one of its name.
  function Lookup(fields: seq<Field>, key: string): Option<Json> {
    if fields == [] then None
    else if fields[|fields| - 1].key == key then Some(fields[|fields| - 1].value)
    else Lookup(fields[..|fields| - 1], key)
  }

  function NumOf(n: Option<nat>): Option<Json> {
    if n.Some? then Some(Num(n.value)) else None
  }

  function StrOf(s: Option<string>): Option<Json> {
    if s.Some? then Some(Str(s.value)) else None
  }

  lemma {:induction false} LookupConcat(a: seq<Field>, b: seq<Field>, key: string)
    ensures Lookup(a + b, key) == if Lookup(b, key).Some? then Lookup(b, key) else Lookup(a, key)
  {
    if b == [] {
      assert a + b == a;
    } else {
      LookupConcat(a, b[..|b| - 1], key);
      assert (a + b)[..|a + b| - 1] == a + b[..|b| - 1];
    }
  }

  lemma {:induction false} LookupNum(name: string, n: Option<nat>, key: string)
    ensures Lookup(NumField(name, n), key) == if name == key then NumOf(n) else None
  {
    if n.Some? {
    }
  }

  function BindingsOf(item: Item, runsInOrder: bool): Option<Json> {
    if item.bindings.None? then None
    else if !runsInOrder then Some(Arr(item.bindings.value))
    else if item.bindings.value == [] then None
    else Some(item.bindings.value[0])
  }

  // The four fields every statement starts with.
  function FrontFields(item: Item, runsInOrder: bool, timings: bool, carriesWait: bool): seq<Field> {
    [Field("stmt", Str(item.stmt))]
    + NumField("count", When(!runsInOrder && item.count > 1, item.count))
    + (if timings then NumField("ms", item.ms) else [])
    + NumField("wait", When(timings && carriesWait, item.wait))
  }

  function FrontAt(item: Item, runsInOrder: bool, timings: bool, carriesWait: bool, key: string): Option<Json> {
    if key == "stmt" then Some(Str(item.stmt))
    else if key == "count" then NumOf(if runsInOrder || item.count <= 1 then None else Some(item.count))
    else if key == "ms" then NumOf(if timings then item.ms else None)
    else if key == "wait" then NumOf(if timings && carriesWait then Some(item.wait) else None)
    else None
  }

  // What a statement's value says under a key.
  function StatementAt(item: Item, runsInOrder: bool, timings: bool, carriesWait: bool, key: string): Option<Json> {
    if key == "rows" then NumOf(item.rows)
    else if key == "error" then StrOf(item.error)
    else if key == "bindings" then BindingsOf(item, runsInOrder)
    else FrontAt(item, runsInOrder, timings, carriesWait, key)
  }

  lemma {:induction false} FrontReads(item: Item, runsInOrder: bool, timings: bool, carriesWait: bool, key: string)
    ensures Lookup(FrontFields(item, runsInOrder, timings, carriesWait), key)
         == FrontAt(item, runsInOrder, timings, carriesWait, key)
  {
    var stmt := [Field("stmt", Str(item.stmt))];
    var count := NumField("count", When(!runsInOrder && item.count > 1, item.count));
    var ms := if timings then NumField("ms", item.ms) else [];
    var wait := NumField("wait", When(timings && carriesWait, item.wait));
    LookupNum("count", When(!runsInOrder && item.count > 1, item.count), key);
    LookupNum("ms", item.ms, key);
    LookupNum("wait", When(timings && carriesWait, item.wait), key);
    LookupConcat(stmt, count, key);
    LookupConcat(stmt + count, ms, key);
    LookupConcat(stmt + count + ms, wait, key);
  }

  lemma {:induction false} StatementReads(item: Item, runsInOrder: bool, timings: bool, carriesWait: bool, key: string)
    ensures Lookup(StatementFields(item, runsInOrder, timings, carriesWait), key)
         == StatementAt(item, runsInOrder, timings, carriesWait, key)
  {
    var front := FrontFields(item, runsInOrder, timings, carriesWait);
    var rows, error := NumField("rows", item.rows), StrField("error", item.error);
    FrontReads(item, runsInOrder, timings, carriesWait, key);
    LookupNum("rows", item.rows, key);
    LookupConcat(front, rows, key);
    LookupConcat(front + rows, error, key);
    LookupConcat(front + rows + error, BindingsField(item.bindings, runsInOrder), key);
  }

  // How many of an entry's details were dropped, by the stage that dropped them.
  function DroppedAt(e: Entry, key: string): Option<Json> {
    if key == "runsGrouped" then NumOf(e.runsGrouped)
    else if key == "bindingsDropped" then NumOf(e.bindingsDropped)
    else if key == "statementsCut" then NumOf(e.statementsCut)
    else None
  }

  lemma {:induction false} DroppedReads(e: Entry, key: string)
    ensures Lookup(DroppedDetails(e), key) == DroppedAt(e, key)
  {
    var runs, bindings := NumField("runsGrouped", e.runsGrouped), NumField("bindingsDropped", e.bindingsDropped);
    LookupNum("runsGrouped", e.runsGrouped, key);
    LookupNum("bindingsDropped", e.bindingsDropped, key);
    LookupNum("statementsCut", e.statementsCut, key);
    LookupConcat(runs, bindings, key);
    LookupConcat(runs + bindings, NumField("statementsCut", e.statementsCut), key);
  }

  function StatementValues(e: Entry, timings: bool): seq<Json> {
    seq(|e.items|, i requires 0 <= i < |e.items| => Obj(StatementFields(e.items[i], e.runsInOrder, timings, false)))
  }

  // What an entry's value says under a key: a statement's own fields, or the transaction's.
  function EntryAt(e: Entry, timings: bool, key: string): Option<Json> {
    if DroppedAt(e, key).Some? then DroppedAt(e, key)
    else if e.transaction.None? then
      (if e.items == [] then None else StatementAt(e.items[0], e.runsInOrder, timings, true, key))
    else if key == "transaction" then Some(Str(OutcomeName(e.transaction.value)))
    else if key == "error" then StrOf(e.error)
    else if key == "ms" then NumOf(if timings then e.ms else None)
    else if key == "wait" then NumOf(if timings then Some(e.wait) else None)
    else if key == "statements" then Some(Arr(StatementValues(e, timings)))
    else None
  }

  lemma {:induction false} EntryReads(e: Entry, timings: bool, key: string)
    ensures EntryValue(e, timings).Obj?
    ensures Lookup(EntryValue(e, timings).fields, key) == EntryAt(e, timings, key)
  {
    DroppedReads(e, key);
    if e.transaction.None? {
      var statement := if e.items == [] then [] else StatementFields(e.items[0], e.runsInOrder, timings, true);
      if e.items != [] {
        StatementReads(e.items[0], e.runsInOrder, timings, true, key);
      }
      LookupConcat(statement, DroppedDetails(e), key);
    } else {
      TransactionReads(e, timings, key);
    }
  }

  lemma {:induction false} TransactionReads(e: Entry, timings: bool, key: string)
    requires e.transaction.Some?
    ensures Lookup(EntryValue(e, timings).fields, key) == EntryAt(e, timings, key)
  {
    DroppedReads(e, key);
    OwnReads(e, timings, key);
    var own, statements := OwnFields(e, timings), [Field("statements", Arr(StatementValues(e, timings)))];
    LookupConcat(own, statements, key);
    LookupConcat(own + statements, DroppedDetails(e), key);
  }

  // The transaction's own fields.
  function OwnFields(e: Entry, timings: bool): seq<Field>
    requires e.transaction.Some?
  {
    [Field("transaction", Str(OutcomeName(e.transaction.value)))] + StrField("error", e.error)
    + (if timings then NumField("ms", e.ms) else []) + NumField("wait", When(timings, e.wait))
  }

  lemma {:induction false} OwnReads(e: Entry, timings: bool, key: string)
    requires e.transaction.Some?
    ensures Lookup(OwnFields(e, timings), key)
         == (if key == "transaction" then Some(Str(OutcomeName(e.transaction.value)))
             else if key == "error" then StrOf(e.error)
             else if key == "ms" then NumOf(if timings then e.ms else None)
             else if key == "wait" then NumOf(if timings then Some(e.wait) else None)
             else None)
  {
    var transaction, error := [Field("transaction", Str(OutcomeName(e.transaction.value)))], StrField("error", e.error);
    var ms, wait := if timings then NumField("ms", e.ms) else [], NumField("wait", When(timings, e.wait));
    LookupNum("ms", e.ms, key);
    LookupNum("wait", When(timings, e.wait), key);
    LookupConcat(transaction, error, key);
    LookupConcat(transaction + error, ms, key);
    LookupConcat(transaction + error + ms, wait, key);
  }

  // What the header says under a key.
  function HeaderAt(q: Request, kept: seq<Json>, dropped: Option<nat>, key: string): Option<Json> {
    if key == "statements" then Some(Arr(kept))
    else if key == "entriesDropped" then NumOf(dropped)
    else if key == "maxPoolConnections" then Some(Num(q.maxPoolConnections))
    else if key == "ms" then NumOf(if q.timings then Some(q.ms) else None)
    else if key == "db" then NumOf(if q.timings then Some(q.db) else None)
    else if key == "wait" then NumOf(if q.timings then Some(q.wait) else None)
    else None
  }

  lemma {:induction false} RequestReads(q: Request, key: string)
    ensures Lookup(RequestFields(q), key)
         == if key == "statements" || key == "entriesDropped" then None else HeaderAt(q, [], None, key)
  {
    var ms, db := NumField("ms", When(q.timings, q.ms)), NumField("db", When(q.timings, q.db));
    var wait := NumField("wait", When(q.timings, q.wait));
    var pool := [Field("maxPoolConnections", Num(q.maxPoolConnections))];
    LookupNum("ms", When(q.timings, q.ms), key);
    LookupNum("db", When(q.timings, q.db), key);
    LookupNum("wait", When(q.timings, q.wait), key);
    LookupConcat(ms, db, key);
    LookupConcat(ms + db, wait, key);
    LookupConcat(ms + db + wait, pool, key);
  }

  lemma {:induction false} HeaderReads(q: Request, kept: seq<Json>, dropped: Option<nat>, key: string)
    ensures var read := AuditJsonReader.ReadValue(HeaderOf(RequestFields(q), kept, dropped));
            read.Some? && read.value.0.Obj? && read.value.1 == ""
            && Lookup(read.value.0.fields, key) == HeaderAt(q, kept, dropped, key)
  {
    HeaderReadsBack(RequestFields(q), kept, dropped);
    FieldsRead(RequestFields(q), q, kept, dropped, key);
  }

  lemma {:induction false} FieldsRead(own: seq<Field>, q: Request, kept: seq<Json>, dropped: Option<nat>, key: string)
    requires own == RequestFields(q)
    ensures Lookup(own + NumField("entriesDropped", dropped) + [Field("statements", Arr(kept))], key)
         == HeaderAt(q, kept, dropped, key)
  {
    RequestReads(q, key);
    LookupNum("entriesDropped", dropped, key);
    LookupConcat(own, NumField("entriesDropped", dropped), key);
    LookupConcat(own + NumField("entriesDropped", dropped), [Field("statements", Arr(kept))], key);
  }

  // ---------- the whole header ----------

  // Each value is an object that says of its entry what there is to say, and each statement in it likewise.
  ghost predicate SaysEntries(values: seq<Json>, entries: seq<Entry>, timings: bool) {
    |values| == |entries| && forall i :: 0 <= i < |entries| ==> SaysEntry(values[i], entries[i], timings)
  }

  ghost predicate SaysEntry(value: Json, e: Entry, timings: bool) {
    && value.Obj? && (forall key :: Lookup(value.fields, key) == EntryAt(e, timings, key))
    && forall j, key :: 0 <= j < |e.items| ==>
                          Lookup(StatementFields(e.items[j], e.runsInOrder, timings, false), key)
                          == StatementAt(e.items[j], e.runsInOrder, timings, false, key)
  }

  lemma {:induction false} EntriesSaid(entries: seq<Entry>, q: Request)
    ensures SaysEntries(Values(entries, ValueIn(q)), entries, q.timings)
  {
    forall i | 0 <= i < |entries| ensures SaysEntry(EntryValue(entries[i], q.timings), entries[i], q.timings) {
      EntrySaid(entries[i], q.timings);
    }
  }

  lemma {:induction false} EntrySaid(e: Entry, timings: bool)
    ensures SaysEntry(EntryValue(e, timings), e, timings)
  {
    forall key ensures Lookup(EntryValue(e, timings).fields, key) == EntryAt(e, timings, key) {
      EntryReads(e, timings, key);
    }
    forall j, key | 0 <= j < |e.items|
      ensures Lookup(StatementFields(e.items[j], e.runsInOrder, timings, false), key)
           == StatementAt(e.items[j], e.runsInOrder, timings, false, key)
    {
      StatementReads(e.items[j], e.runsInOrder, timings, false, key);
    }
  }

  // The header says each of these under its key, and nothing else.
  ghost predicate Says(header: string, q: Request, shown: seq<Entry>, dropped: Option<nat>) {
    var read, values := AuditJsonReader.ReadValue(header), Values(shown, ValueIn(q));
    && read.Some? && read.value.0.Obj? && read.value.1 == ""
    && (forall key :: Lookup(read.value.0.fields, key) == HeaderAt(q, values, dropped, key))
    && SaysEntries(values, shown, q.timings)
  }

  lemma {:induction false} HeaderSays(q: Request, shown: seq<Entry>, dropped: Option<nat>)
    ensures Says(HeaderOf(RequestFields(q), Values(shown, ValueIn(q)), dropped), q, shown, dropped)
  {
    var values := Values(shown, ValueIn(q));
    var read := AuditJsonReader.ReadValue(HeaderOf(RequestFields(q), values, dropped));
    HeaderReads(q, values, dropped, "");
    forall key ensures Lookup(read.value.0.fields, key) == HeaderAt(q, values, dropped, key) {
      HeaderReads(q, values, dropped, key);
    }
    EntriesSaid(shown, q);
  }

  /**
   The header of any audit, parsed as JSON, is one object that says the request's amounts, the count of dropped entries
   and the entries shown under their keys, and nothing else; and each of those values says the amounts of its entry, as
   cut, and of each of its statements.
   */
  lemma {:induction false} FormattedReads(q: Request, maxSize: int, entries: seq<Entry>)
    ensures var own, valueOf := RequestFields(q), ValueIn(q);
            Says(Formatted(q, maxSize, entries), q, ShownOf(own, valueOf, maxSize, entries),
                 DroppedOf(own, valueOf, maxSize, entries))
  {
    var own, valueOf := RequestFields(q), ValueIn(q);
    FormattedShows(own, valueOf, maxSize, entries);
    HeaderSays(q, ShownOf(own, valueOf, maxSize, entries), DroppedOf(own, valueOf, maxSize, entries));
  }
}
