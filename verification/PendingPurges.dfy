/**
 Failed purges kept for a retry (api/src/scoped-cache-pending-purges.ts): recorded as rows, widened to their collection
 past a cap, listed by target, and cleared by id. `collectionOf` reads the collection off a fingerprint, as
 `Fingerprints.CollectionOf` does.
 */
module PendingPurges {
  import opened Options
  import opened Sequences

  datatype Mode = Slices | Collection | Namespace

  datatype Purge = Purge(mode: Mode, collection: Option<string>, fingerprints: seq<string>)

  datatype Row = Row(id: nat, purge: Purge)

  // One target to retry, with the rows it stands for.
  datatype Pending = Pending(mode: Mode, collection: Option<string>, fingerprints: seq<string>, ids: seq<nat>)

  const ID_CHUNK_SIZE: nat := 10_000

  // The fingerprints of one collection, in order.
  function Of(collectionOf: string -> string, fingerprints: seq<string>, collection: string): seq<string> {
    if fingerprints == [] then []
    else
      var last := fingerprints[|fingerprints| - 1];
      Of(collectionOf, fingerprints[..|fingerprints| - 1], collection)
      + if collectionOf(last) == collection then [last] else []
  }

  // A retry would replay more distinct fingerprints of the collection than the cap.
  ghost predicate TooMany(collectionOf: string -> string, fingerprints: seq<string>, collection: string, cap: nat) {
    |set f | f in fingerprints && collectionOf(f) == collection| > cap
  }

  function Coarse(collections: seq<string>): seq<Purge> {
    if collections == [] then []
    else Coarse(collections[..|collections| - 1]) + [Purge(Collection, Some(collections[|collections| - 1]), [])]
  }

  /**
   The rows of one failed purge: a purge by mode as it is; one by slices as the fingerprints of every collection within
   the cap, and each collection over it whole.
   */
  ghost predicate Records(collectionOf: string -> string, purge: Purge, cap: nat, rows: seq<Purge>,
                          kept: seq<string>, coarse: seq<string>) {
    if purge.mode != Slices then rows == [purge.(fingerprints := [])]
    else
      && rows == (if kept == [] && coarse != [] then [] else [purge.(fingerprints := kept)]) + Coarse(coarse)
      && Divides(collectionOf, purge.fingerprints, cap, kept, coarse)
  }

  ghost predicate AreRecord(collectionOf: string -> string, purge: Purge, cap: nat, rows: seq<Purge>) {
    exists kept, coarse :: Records(collectionOf, purge, cap, rows, kept, coarse)
  }

  ghost predicate Divides(collectionOf: string -> string, fingerprints: seq<string>, cap: nat, kept: seq<string>,
                          coarse: seq<string>) {
    && NoRepeats(kept) && NoRepeats(coarse)
    && (forall f :: f in kept <==> f in fingerprints && !TooMany(collectionOf, fingerprints, collectionOf(f), cap))
    && forall c :: c in coarse <==> (exists f :: f in fingerprints && collectionOf(f) == c)
                                    && TooMany(collectionOf, fingerprints, c, cap)
  }

  lemma {:induction false} OfHas(collectionOf: string -> string, fingerprints: seq<string>, collection: string)
    ensures forall f :: f in Of(collectionOf, fingerprints, collection)
                        <==> f in fingerprints && collectionOf(f) == collection
    ensures NoRepeats(fingerprints) ==> NoRepeats(Of(collectionOf, fingerprints, collection))
  {
    if fingerprints != [] {
      var init, last := fingerprints[..|fingerprints| - 1], fingerprints[|fingerprints| - 1];
      OfHas(collectionOf, init, collection);
      assert fingerprints == init + [last];
      if NoRepeats(fingerprints) {
        assert last !in init;
      }
    }
  }

  lemma {:induction false} OfCounts(collectionOf: string -> string, distinct: seq<string>,
                                    fingerprints: seq<string>, collection: string, cap: nat)
    requires NoRepeats(distinct) && forall f :: f in distinct <==> f in fingerprints
    ensures |Of(collectionOf, distinct, collection)| > cap <==> TooMany(collectionOf, fingerprints, collection, cap)
  {
    OfHas(collectionOf, distinct, collection);
    NoRepeatsCount(Of(collectionOf, distinct, collection));
    assert (set f | f in Of(collectionOf, distinct, collection))
        == set f | f in fingerprints && collectionOf(f) == collection;
  }

  // The fingerprints by collection, and the collections in the order they come in.
  ghost predicate Grouped(collectionOf: string -> string, fingerprints: seq<string>, order: seq<string>,
                          byCollection: map<string, seq<string>>) {
    && NoRepeats(order) && (forall c :: c in order <==> c in byCollection)
    && (forall c :: c in byCollection <==> Of(collectionOf, fingerprints, c) != [])
    && (forall c :: c in byCollection ==> byCollection[c] == Of(collectionOf, fingerprints, c))
  }

  lemma {:induction false} OfSnoc(collectionOf: string -> string, fingerprints: seq<string>, last: string,
                                  collection: string)
    ensures Of(collectionOf, fingerprints + [last], collection)
         == Of(collectionOf, fingerprints, collection) + if collectionOf(last) == collection then [last] else []
  {
    assert (fingerprints + [last])[..|fingerprints|] == fingerprints;
  }

  lemma {:induction false} GroupsOneMore(collectionOf: string -> string, fingerprints: seq<string>,
                                         order: seq<string>, byCollection: map<string, seq<string>>, last: string)
    requires Grouped(collectionOf, fingerprints, order, byCollection)
    ensures var collection := collectionOf(last);
            if collection in byCollection
            then Grouped(collectionOf, fingerprints + [last], order,
                         byCollection[collection := byCollection[collection] + [last]])
            else Grouped(collectionOf, fingerprints + [last], order + [collection], byCollection[collection := [last]])
  {
    forall c ensures Of(collectionOf, fingerprints + [last], c)
                  == Of(collectionOf, fingerprints, c) + if collectionOf(last) == c then [last] else []
    {
      OfSnoc(collectionOf, fingerprints, last, c);
    }
  }

  // By collection, in the order the collections come in.
  method Group(collectionOf: string -> string, fingerprints: seq<string>)
    returns (order: seq<string>, byCollection: map<string, seq<string>>)
    ensures NoRepeats(order) && forall c :: c in order <==> c in byCollection
    ensures forall c :: c in byCollection <==> exists f :: f in fingerprints && collectionOf(f) == c
    ensures forall c :: c in byCollection ==> byCollection[c] == Of(collectionOf, fingerprints, c)
  {
    order, byCollection := [], map[];
    for k := 0 to |fingerprints|
      invariant Grouped(collectionOf, fingerprints[..k], order, byCollection)
    {
      var fingerprint := fingerprints[k];
      var collection := collectionOf(fingerprint);
      GroupsOneMore(collectionOf, fingerprints[..k], order, byCollection, fingerprint);
      assert fingerprints[..k + 1] == fingerprints[..k] + [fingerprint];
      if collection !in byCollection {
        order := order + [collection];
        byCollection := byCollection[collection := [fingerprint]];
      } else {
        byCollection := byCollection[collection := byCollection[collection] + [fingerprint]];
      }
    }
    assert fingerprints[..|fingerprints|] == fingerprints;
    forall c
      ensures Of(collectionOf, fingerprints, c) != [] <==> exists f :: f in fingerprints && collectionOf(f) == c
    {
      OfIsEmpty(collectionOf, fingerprints, c);
    }
  }

  lemma {:induction false} OfIsEmpty(collectionOf: string -> string, fingerprints: seq<string>, collection: string)
    ensures Of(collectionOf, fingerprints, collection) != []
       <==> exists f :: f in fingerprints && collectionOf(f) == collection
  {
    OfHas(collectionOf, fingerprints, collection);
    if Of(collectionOf, fingerprints, collection) != [] {
      assert Of(collectionOf, fingerprints, collection)[0] in Of(collectionOf, fingerprints, collection);
    }
  }

  // The collections gone through so far: those too wide set apart, the fingerprints of the others kept.
  ghost predicate SortedOut(collectionOf: string -> string, distinct: seq<string>, done: seq<string>, wide: set<string>,
                            kept: seq<string>, coarse: seq<string>) {
    && NoRepeats(kept) && NoRepeats(coarse)
    && (forall c :: c in coarse <==> c in done && c in wide)
    && (forall f :: f in kept <==> f in distinct && collectionOf(f) in done && collectionOf(f) !in wide)
  }

  lemma {:induction false} SortsOutWide(collectionOf: string -> string, distinct: seq<string>,
                                        done: seq<string>, wide: set<string>,
                                        kept: seq<string>, coarse: seq<string>, collection: string)
    requires SortedOut(collectionOf, distinct, done, wide, kept, coarse) && collection in wide && collection !in done
    ensures SortedOut(collectionOf, distinct, done + [collection], wide, kept, coarse + [collection])
  {
  }

  lemma {:induction false} SortsOutKept(collectionOf: string -> string, distinct: seq<string>,
                                        done: seq<string>, wide: set<string>,
                                        kept: seq<string>, coarse: seq<string>, collection: string)
    requires SortedOut(collectionOf, distinct, done, wide, kept, coarse) && collection !in wide && collection !in done
    requires NoRepeats(distinct)
    ensures SortedOut(collectionOf, distinct, done + [collection], wide,
                      kept + Of(collectionOf, distinct, collection), coarse)
  {
    var more := Of(collectionOf, distinct, collection);
    OfHas(collectionOf, distinct, collection);
    NoRepeatsTogether(kept, more);
  }

  ghost function Wide(collectionOf: string -> string, fingerprints: seq<string>, order: seq<string>, cap: nat)
    : set<string>
  {
    set c | c in order && TooMany(collectionOf, fingerprints, c, cap)
  }

  lemma {:induction false} SortedOutRecords(collectionOf: string -> string, fingerprints: seq<string>,
                                            distinct: seq<string>, order: seq<string>,
                                            cap: nat, wide: set<string>, kept: seq<string>, coarse: seq<string>)
    requires forall f :: f in distinct <==> f in fingerprints
    requires forall c :: c in order <==> exists f :: f in distinct && collectionOf(f) == c
    requires wide == Wide(collectionOf, fingerprints, order, cap)
    requires SortedOut(collectionOf, distinct, order, wide, kept, coarse)
    ensures Divides(collectionOf, fingerprints, cap, kept, coarse)
  {
  }

  method SortOut(collectionOf: string -> string, distinct: seq<string>, order: seq<string>,
                 byCollection: map<string, seq<string>>, cap: nat, ghost wide: set<string>)
    returns (keptFingerprints: seq<string>, coarsened: seq<Purge>, ghost coarse: seq<string>)
    requires NoRepeats(distinct) && NoRepeats(order)
    requires forall c :: c in order ==> c in byCollection && byCollection[c] == Of(collectionOf, distinct, c)
    requires forall c :: c in order ==> (|byCollection[c]| > cap <==> c in wide)
    ensures coarsened == Coarse(coarse) && |coarsened| == |coarse|
    ensures SortedOut(collectionOf, distinct, order, wide, keptFingerprints, coarse)
  {
    keptFingerprints, coarsened, coarse := [], [], [];
    for k := 0 to |order|
      invariant coarsened == Coarse(coarse) && |coarsened| == |coarse|
      invariant SortedOut(collectionOf, distinct, order[..k], wide, keptFingerprints, coarse)
    {
      var collection := order[k];
      assert order[..k + 1] == order[..k] + [collection] && collection !in order[..k];
      if |byCollection[collection]| > cap {
        SortsOutWide(collectionOf, distinct, order[..k], wide, keptFingerprints, coarse, collection);
        coarsened := coarsened + [Purge(Collection, Some(collection), [])];
        coarse := coarse + [collection];
      } else {
        SortsOutKept(collectionOf, distinct, order[..k], wide, keptFingerprints, coarse, collection);
        keptFingerprints := keptFingerprints + byCollection[collection];
      }
    }
    assert order[..|order|] == order;
  }

  method PendingRows(collectionOf: string -> string, purge: Purge, cap: nat)
    returns (rows: seq<Purge>, ghost kept: seq<string>, ghost coarse: seq<string>)
    ensures Records(collectionOf, purge, cap, rows, kept, coarse)
    ensures AreRecord(collectionOf, purge, cap, rows)
  {
    kept, coarse := [], [];
    if purge.mode != Slices {
      rows := [purge.(fingerprints := [])];
      assert Records(collectionOf, purge, cap, rows, kept, coarse);
      return;
    }
    var distinct := Distinct(purge.fingerprints);
    DistinctKeepsEachOnce(purge.fingerprints);
    var order, byCollection := Group(collectionOf, distinct);
    ghost var wide := Wide(collectionOf, purge.fingerprints, order, cap);
    forall c | c in order ensures |byCollection[c]| > cap <==> c in wide {
      OfCounts(collectionOf, distinct, purge.fingerprints, c, cap);
    }
    var keptFingerprints, coarsened;
    keptFingerprints, coarsened, coarse := SortOut(collectionOf, distinct, order, byCollection, cap, wide);
    kept := keptFingerprints;
    SortedOutRecords(collectionOf, purge.fingerprints, distinct, order, cap, wide, kept, coarse);
    rows := if keptFingerprints == [] && coarsened != [] then coarsened
    else [purge.(fingerprints := keptFingerprints)] + coarsened;
    assert Records(collectionOf, purge, cap, rows, kept, coarse);
  }

  // ---------- listed by target ----------

  // A collection that is null and one that is '' read as the same target.
  datatype Target = Target(mode: Mode, collection: string)

  function TargetOf(purge: Purge): Target {
    Target(purge.mode, purge.collection.GetOr(""))
  }

  function Targets(rows: seq<Row>): seq<Target> {
    if rows == [] then [] else Targets(rows[..|rows| - 1]) + [TargetOf(rows[|rows| - 1].purge)]
  }

  function RowsFor(rows: seq<Row>, target: Target): seq<Row> {
    if rows == [] then []
    else
      var last := rows[|rows| - 1];
      RowsFor(rows[..|rows| - 1], target) + if TargetOf(last.purge) == target then [last] else []
  }

  function AllFingerprints(rows: seq<Row>): seq<string> {
    if rows == [] then [] else AllFingerprints(rows[..|rows| - 1]) + rows[|rows| - 1].purge.fingerprints
  }

  function IdsOf(rows: seq<Row>): seq<nat> {
    if rows == [] then [] else IdsOf(rows[..|rows| - 1]) + [rows[|rows| - 1].id]
  }

  // What the rows of one target come to.
  function Merged(rows: seq<Row>): Pending
    requires rows != []
  {
    Pending(rows[0].purge.mode, rows[0].purge.collection, Distinct(AllFingerprints(rows)), IdsOf(rows))
  }

  lemma {:induction false} RowsForHas(rows: seq<Row>, target: Target)
    ensures forall row :: row in RowsFor(rows, target) <==> row in rows && TargetOf(row.purge) == target
    ensures target in Targets(rows) <==> RowsFor(rows, target) != []
  {
    if rows != [] {
      RowsForHas(rows[..|rows| - 1], target);
      assert rows == rows[..|rows| - 1] + [rows[|rows| - 1]];
    }
  }

  // One entry a target, oldest first, each of the rows of its target.
  ghost predicate Lists(rows: seq<Row>, order: seq<Target>, listed: seq<Pending>) {
    && order == Distinct(Targets(rows)) && |listed| == |order|
    && forall k :: 0 <= k < |order| ==> RowsFor(rows, order[k]) != [] && listed[k] == Merged(RowsFor(rows, order[k]))
  }

  // The fingerprints a set holds once a row's are added.
  method Add(seen: seq<string>, ghost was: seq<string>, fingerprints: seq<string>) returns (end: seq<string>)
    requires seen == Distinct(was)
    ensures end == Distinct(was + fingerprints)
  {
    end := seen;
    assert was + fingerprints[..0] == was;
    for i := 0 to |fingerprints|
      invariant end == Distinct(was + fingerprints[..i])
    {
      assert (was + fingerprints[..i + 1])[..|was| + i] == was + fingerprints[..i];
      if fingerprints[i] !in end {
        end := end + [fingerprints[i]];
      }
    }
    assert fingerprints[..|fingerprints|] == fingerprints;
  }

  lemma {:induction false} MergedSnoc(rows: seq<Row>, row: Row)
    ensures Merged(rows + [row]).ids == IdsOf(rows) + [row.id]
    ensures Merged(rows + [row]).fingerprints == Distinct(AllFingerprints(rows) + row.purge.fingerprints)
    ensures rows != [] ==> Merged(rows + [row]).mode == rows[0].purge.mode
                           && Merged(rows + [row]).collection == rows[0].purge.collection
  {
    assert (rows + [row])[..|rows|] == rows;
  }

  // The map built so far: what the rows of each target come to.
  ghost predicate Sees(rows: seq<Row>, byTarget: map<Target, Pending>) {
    && (forall t :: t in byTarget <==> RowsFor(rows, t) != [])
    && forall t :: t in byTarget ==> byTarget[t] == Merged(RowsFor(rows, t))
  }

  lemma {:induction false} SeesOneMore(rows: seq<Row>, byTarget: map<Target, Pending>, row: Row, target: Target,
                                       seen: Pending)
    requires Sees(rows, byTarget) && target == TargetOf(row.purge)
    requires seen == Merged(RowsFor(rows, target) + [row])
    ensures Sees(rows + [row], byTarget[target := seen])
  {
    var all, next := rows + [row], byTarget[target := seen];
    forall t ensures t in next <==> RowsFor(all, t) != [] {
      RowsForSnoc(rows, row, t);
    }
    forall t | t in next ensures next[t] == Merged(RowsFor(all, t)) {
      RowsForSnoc(rows, row, t);
      if t != target {
        assert RowsFor(all, t) == RowsFor(rows, t);
      }
    }
  }

  lemma {:induction false} SeenTargets(rows: seq<Row>, target: Target)
    ensures target in Distinct(Targets(rows)) <==> RowsFor(rows, target) != []
  {
    DistinctKeepsEachOnce(Targets(rows));
    RowsForHas(rows, target);
  }

  lemma {:induction false} TargetsSnoc(rows: seq<Row>, row: Row)
    ensures var target := TargetOf(row.purge);
            Distinct(Targets(rows + [row]))
            == if target in Distinct(Targets(rows)) then Distinct(Targets(rows)) else Distinct(Targets(rows)) + [target]
  {
    assert (rows + [row])[..|rows|] == rows;
    assert (Targets(rows) + [TargetOf(row.purge)])[..|Targets(rows)|] == Targets(rows);
  }

  lemma {:induction false} RowsForSnoc(rows: seq<Row>, row: Row, target: Target)
    ensures RowsFor(rows + [row], target) == RowsFor(rows, target) + if TargetOf(row.purge) == target then [row] else []
  {
    assert (rows + [row])[..|rows|] == rows;
  }

  // One more row for what is seen of its target.
  method See(known: Option<Pending>, ghost before: seq<Row>, row: Row) returns (seen: Pending)
    requires known == if before == [] then None else Some(Merged(before))
    ensures seen == Merged(before + [row])
  {
    seen := known.GetOr(Pending(row.purge.mode, row.purge.collection, [], []));
    var fingerprints := Add(seen.fingerprints, AllFingerprints(before), row.purge.fingerprints);
    MergedSnoc(before, row);
    seen := seen.(ids := seen.ids + [row.id], fingerprints := fingerprints);
  }

  method ListPending(rows: seq<Row>) returns (listed: seq<Pending>)
    ensures Lists(rows, Distinct(Targets(rows)), listed)
  {
    var targets: seq<Target> := [];
    var byTarget: map<Target, Pending> := map[];
    for k := 0 to |rows|
      invariant targets == Distinct(Targets(rows[..k])) && Sees(rows[..k], byTarget)
    {
      var row := rows[k];
      var target := TargetOf(row.purge);
      assert rows[..k + 1] == rows[..k] + [row];
      var known := if target in byTarget then Some(byTarget[target]) else None;
      var seen := See(known, RowsFor(rows[..k], target), row);
      SeesOneMore(rows[..k], byTarget, row, target, seen);
      TargetsSnoc(rows[..k], row);
      SeenTargets(rows[..k], target);
      if target !in byTarget {
        targets := targets + [target];
      }
      byTarget := byTarget[target := seen];
    }
    assert rows[..|rows|] == rows;
    forall t | t in targets ensures t in byTarget {
      SeenTargets(rows, t);
    }
    listed := InOrder(targets, byTarget);
  }

  method InOrder(targets: seq<Target>, byTarget: map<Target, Pending>) returns (listed: seq<Pending>)
    requires forall t :: t in targets ==> t in byTarget
    ensures |listed| == |targets| && forall k :: 0 <= k < |targets| ==> listed[k] == byTarget[targets[k]]
  {
    listed := [];
    for k := 0 to |targets|
      invariant |listed| == k && forall j :: 0 <= j < k ==> listed[j] == byTarget[targets[j]]
    {
      listed := listed + [byTarget[targets[k]]];
    }
  }

  lemma {:induction false} IdsOfAre(rows: seq<Row>)
    ensures |IdsOf(rows)| == |rows| && forall k :: 0 <= k < |rows| ==> IdsOf(rows)[k] == rows[k].id
  {
    if rows != [] {
      IdsOfAre(rows[..|rows| - 1]);
    }
  }

  lemma {:induction false} AllFingerprintsHas(rows: seq<Row>, f: string)
    ensures f in AllFingerprints(rows) <==> exists row :: row in rows && f in row.purge.fingerprints
  {
    if rows != [] {
      AllFingerprintsHas(rows[..|rows| - 1], f);
      assert rows == rows[..|rows| - 1] + [rows[|rows| - 1]];
    }
  }

  lemma {:induction false} IdsOfHas(rows: seq<Row>, id: nat)
    ensures id in IdsOf(rows) <==> exists row :: row in rows && row.id == id
  {
    if rows != [] {
      IdsOfHas(rows[..|rows| - 1], id);
      assert rows == rows[..|rows| - 1] + [rows[|rows| - 1]];
    }
  }

  // The list splits the rows by target: each row's id is under its own target,
  lemma {:induction false} ListedUnderTarget(rows: seq<Row>, order: seq<Target>, listed: seq<Pending>, k: nat, id: nat)
    requires Lists(rows, order, listed) && k < |listed|
    ensures id in listed[k].ids <==> exists row :: row in rows && row.id == id && TargetOf(row.purge) == order[k]
  {
    IdsOfHas(RowsFor(rows, order[k]), id);
    RowsForHas(rows, order[k]);
  }

  lemma {:induction false} EveryRowListed(rows: seq<Row>, order: seq<Target>, listed: seq<Pending>, row: Row)
    returns (k: nat)
    requires Lists(rows, order, listed) && row in rows
    ensures k < |listed| && order[k] == TargetOf(row.purge) && row.id in listed[k].ids
  {
    var target := TargetOf(row.purge);
    RowsForHas(rows, target);
    SeenTargets(rows, target);
    k :| 0 <= k < |order| && order[k] == target;
    ListedUnderTarget(rows, order, listed, k, row.id);
  }

  // and there only.
  lemma {:induction false} ListedOnce(rows: seq<Row>, order: seq<Target>, listed: seq<Pending>, j: nat, k: nat, id: nat)
    requires Lists(rows, order, listed) && NoRepeats(IdsOf(rows))
    requires j < |listed| && k < |listed| && id in listed[j].ids && id in listed[k].ids
    ensures j == k
  {
    DistinctKeepsEachOnce(Targets(rows));
    ListedUnderTarget(rows, order, listed, j, id);
    ListedUnderTarget(rows, order, listed, k, id);
    var a :| a in rows && a.id == id && TargetOf(a.purge) == order[j];
    var b :| b in rows && b.id == id && TargetOf(b.purge) == order[k];
    SameIdSameRow(rows, a, b);
  }

  lemma {:induction false} SameIdSameRow(rows: seq<Row>, a: Row, b: Row)
    requires NoRepeats(IdsOf(rows)) && a in rows && b in rows && a.id == b.id
    ensures a == b
  {
    IdsOfAre(rows);
    var i :| 0 <= i < |rows| && rows[i] == a;
    var j :| 0 <= j < |rows| && rows[j] == b;
    assert IdsOf(rows)[i] == IdsOf(rows)[j];
  }

  // ---------- coverage ----------

  // What the purge retries of this fingerprint: it, or its collection whole.
  ghost predicate Covers(collectionOf: string -> string, mode: Mode, collection: Option<string>,
                         fingerprints: seq<string>,
                         f: string) {
    (mode == Slices && f in fingerprints) || (mode == Collection && collection == Some(collectionOf(f)))
  }

  ghost predicate CoveredByRows(collectionOf: string -> string, rows: seq<Row>, f: string) {
    exists row :: row in rows && Covers(collectionOf, row.purge.mode, row.purge.collection, row.purge.fingerprints, f)
  }

  ghost predicate CoveredByList(collectionOf: string -> string, listed: seq<Pending>, f: string) {
    exists k :: 0 <= k < |listed|
                && Covers(collectionOf, listed[k].mode, listed[k].collection, listed[k].fingerprints, f)
  }

  lemma {:induction false} CoarseHas(collections: seq<string>)
    ensures |Coarse(collections)| == |collections|
    ensures forall k :: 0 <= k < |collections| ==> Coarse(collections)[k] == Purge(Collection, Some(collections[k]), [])
  {
    if collections != [] {
      CoarseHas(collections[..|collections| - 1]);
    }
  }

  // Every fingerprint of a failed purge is kept, or its collection is purged whole.
  lemma {:induction false} RecordCovers(collectionOf: string -> string, purge: Purge, cap: nat,
                                        rows: seq<Purge>, kept: seq<string>,
                                        coarse: seq<string>, f: string) returns (k: nat)
    requires Records(collectionOf, purge, cap, rows, kept, coarse) && purge.mode == Slices && f in purge.fingerprints
    ensures k < |rows| && Covers(collectionOf, rows[k].mode, rows[k].collection, rows[k].fingerprints, f)
    ensures rows[k].mode == Collection <==> TooMany(collectionOf, purge.fingerprints, collectionOf(f), cap)
  {
    CoarseHas(coarse);
    if TooMany(collectionOf, purge.fingerprints, collectionOf(f), cap) {
      var c :| 0 <= c < |coarse| && coarse[c] == collectionOf(f);
      k := c + |rows| - |coarse|;
    } else {
      k := 0;
    }
  }

  // A list covers what the rows do, as long as the collection has a name.
  lemma {:induction false} ListCovers(collectionOf: string -> string, rows: seq<Row>, order: seq<Target>,
                                      listed: seq<Pending>, f: string)
    requires Lists(rows, order, listed) && collectionOf(f) != "" && CoveredByRows(collectionOf, rows, f)
    ensures CoveredByList(collectionOf, listed, f)
  {
    var row :| row in rows && Covers(collectionOf, row.purge.mode, row.purge.collection, row.purge.fingerprints, f);
    var target := TargetOf(row.purge);
    RowsForHas(rows, target);
    SeenTargets(rows, target);
    var k :| 0 <= k < |order| && order[k] == target;
    var own := RowsFor(rows, target);
    assert own[0] in own;
    AllFingerprintsHas(own, f);
    DistinctKeepsEachOnce(AllFingerprints(own));
    assert Covers(collectionOf, listed[k].mode, listed[k].collection, listed[k].fingerprints, f);
  }

  // And adds nothing: a fingerprint listed was recorded for that target.
  lemma {:induction false} ListAddsNothing(rows: seq<Row>, order: seq<Target>, listed: seq<Pending>, k: nat, f: string)
    requires Lists(rows, order, listed) && k < |listed|
    ensures f in listed[k].fingerprints
       <==> exists row :: row in rows && TargetOf(row.purge) == order[k] && f in row.purge.fingerprints
    ensures NoRepeats(listed[k].fingerprints) && NoRepeats(order)
  {
    DistinctKeepsEachOnce(Targets(rows));
    var own := RowsFor(rows, order[k]);
    RowsForHas(rows, order[k]);
    AllFingerprintsHas(own, f);
    DistinctKeepsEachOnce(AllFingerprints(own));
  }

  // ---------- the table ----------

  function Numbered(purges: seq<Purge>, first: nat): seq<Row> {
    if purges == [] then []
    else Numbered(purges[..|purges| - 1], first) + [Row(first + |purges| - 1, purges[|purges| - 1])]
  }

  function Remaining(rows: seq<Row>, ids: seq<nat>): seq<Row> {
    if rows == [] then []
    else Remaining(rows[..|rows| - 1], ids) + if rows[|rows| - 1].id in ids then [] else [rows[|rows| - 1]]
  }

  class PendingTable {
    var rows: seq<Row>
    var nextId: nat

    constructor ()
      ensures rows == [] && nextId == 0
    {
      rows, nextId := [], 0;
    }

    method Record(collectionOf: string -> string, purge: Purge, cap: nat)
      returns (ghost recorded: seq<Purge>, ghost kept: seq<string>, ghost coarse: seq<string>)
      modifies this
      ensures Records(collectionOf, purge, cap, recorded, kept, coarse)
      ensures rows == old(rows) + Numbered(recorded, old(nextId)) && nextId == old(nextId) + |recorded|
    {
      var purges;
      purges, kept, coarse := PendingRows(collectionOf, purge, cap);
      recorded := purges;
      rows, nextId := rows + Numbered(purges, nextId), nextId + |purges|;
    }

    // In chunks a statement can bind.
    method Clear(ids: seq<nat>)
      modifies `rows
      ensures rows == Remaining(old(rows), ids)
    {
      var at := 0;
      assert ids[..0] == [];
      RemainingAll(rows);
      while at < |ids|
        invariant 0 <= at
        invariant rows == Remaining(old(rows), ids[..if at < |ids| then at else |ids|])
      {
        var end := if at + ID_CHUNK_SIZE < |ids| then at + ID_CHUNK_SIZE else |ids|;
        RemainingTwice(old(rows), ids[..at], ids[at..end]);
        assert ids[..end] == ids[..at] + ids[at..end];
        rows := Remaining(rows, ids[at..end]);
        at := at + ID_CHUNK_SIZE;
      }
      assert ids[..|ids|] == ids;
    }
  }

  lemma {:induction false} RemainingAll(rows: seq<Row>)
    ensures Remaining(rows, []) == rows
  {
    if rows != [] {
      RemainingAll(rows[..|rows| - 1]);
    }
  }

  lemma {:induction false} RemainingTwice(rows: seq<Row>, a: seq<nat>, b: seq<nat>)
    ensures Remaining(Remaining(rows, a), b) == Remaining(rows, a + b)
  {
    if rows != [] {
      var init, last := rows[..|rows| - 1], rows[|rows| - 1];
      RemainingTwice(init, a, b);
      if last.id !in a {
        assert (Remaining(init, a) + [last])[..|Remaining(init, a)|] == Remaining(init, a);
      } else {
        assert Remaining(rows, a) == Remaining(init, a);
      }
    }
  }

  lemma {:induction false} RemainingHas(rows: seq<Row>, ids: seq<nat>, row: Row)
    ensures row in Remaining(rows, ids) <==> row in rows && row.id !in ids
  {
    if rows != [] {
      RemainingHas(rows[..|rows| - 1], ids, row);
      assert rows == rows[..|rows| - 1] + [rows[|rows| - 1]];
    }
  }

  lemma {:induction false} NumberedHas(purges: seq<Purge>, first: nat)
    ensures |Numbered(purges, first)| == |purges|
    ensures forall k :: 0 <= k < |purges| ==> Numbered(purges, first)[k] == Row(first + k, purges[k])
  {
    if purges != [] {
      NumberedHas(purges[..|purges| - 1], first);
    }
  }

  // ---------- what outlives a clear ----------

  // After a listing: more purges recorded, and clears of ids some listing until then named.
  datatype Step = Recorded(purges: seq<Purge>) | Cleared(ids: seq<nat>)

  function After(rows: seq<Row>, nextId: nat, steps: seq<Step>): (seq<Row>, nat) {
    if steps == [] then (rows, nextId)
    else
      var (was, next) := After(rows, nextId, steps[..|steps| - 1]);
      match steps[|steps| - 1]
      case Recorded(purges) => (was + Numbered(purges, next), next + |purges|)
      case Cleared(ids) => (Remaining(was, ids), next)
  }

  ghost predicate ClearsBefore(steps: seq<Step>, bound: nat) {
    forall k, id :: 0 <= k < |steps| && steps[k].Cleared? && id in steps[k].ids ==> id < bound
  }

  lemma {:induction false} LaterRowsSurvive(rows: seq<Row>, nextId: nat, steps: seq<Step>, listedBefore: nat, row: Row)
    requires ClearsBefore(steps, listedBefore)
    requires row in rows && listedBefore <= row.id
    ensures row in After(rows, nextId, steps).0
  {
    if steps != [] {
      var init := steps[..|steps| - 1];
      LaterRowsSurvive(rows, nextId, init, listedBefore, row);
      if steps[|steps| - 1].Cleared? {
        RemainingHas(After(rows, nextId, init).0, steps[|steps| - 1].ids, row);
      }
    }
  }

  /**
   A purge that failed after a listing outlives the clears of what was listed until then: the next listing retries
   each of its fingerprints, or its collection.
   */
  lemma {:induction false} RecordedAfterListingIsRetried(collectionOf: string -> string, rows: seq<Row>,
                                                         nextId: nat, purge: Purge, cap: nat,
                                                         recorded: seq<Purge>, kept: seq<string>,
                                                         coarse: seq<string>, steps: seq<Step>, end: seq<Row>,
                                                         order: seq<Target>, listed: seq<Pending>, f: string)
    requires Records(collectionOf, purge, cap, recorded, kept, coarse)
    requires purge.mode == Slices && f in purge.fingerprints
    requires collectionOf(f) != ""
    requires ClearsBefore(steps, nextId)
    requires end == After(rows + Numbered(recorded, nextId), nextId + |recorded|, steps).0
    requires Lists(end, order, listed)
    ensures CoveredByList(collectionOf, listed, f)
  {
    var row := RecordedRow(collectionOf, nextId, purge, cap, recorded, kept, coarse, f);
    var table := rows + Numbered(recorded, nextId);
    assert row in table;
    LaterRowsSurvive(table, nextId + |recorded|, steps, nextId, row);
    assert CoveredByRows(collectionOf, end, f);
    ListCovers(collectionOf, end, order, listed, f);
  }

  lemma {:induction false} RecordedRow(collectionOf: string -> string, nextId: nat, purge: Purge, cap: nat,
                                       recorded: seq<Purge>,
                                       kept: seq<string>, coarse: seq<string>, f: string) returns (row: Row)
    requires Records(collectionOf, purge, cap, recorded, kept, coarse)
    requires purge.mode == Slices && f in purge.fingerprints
    ensures row in Numbered(recorded, nextId) && nextId <= row.id
    ensures Covers(collectionOf, row.purge.mode, row.purge.collection, row.purge.fingerprints, f)
  {
    var k := RecordCovers(collectionOf, purge, cap, recorded, kept, coarse, f);
    NumberedHas(recorded, nextId);
    row := Numbered(recorded, nextId)[k];
  }
}
