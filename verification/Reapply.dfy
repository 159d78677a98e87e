/** Runs of the fan-out worker over whole batches: the refinement from an empty catalog, re-applying a batch,
    and what a retry repairs after a store write has raised. */
module Reapply {
  import opened Types
  import opened Catalog
  import opened Projections
  import opened GraphFold

  // ---------------------------------------------------------------- hypotheses a caller can read off the input

  predicate SameHash(a: Record, b: Record) {
    a.op.Upsert? && b.op.Upsert? && a.hash.Some? && a.hash == b.hash
  }

  predicate SameSearchableUrn(a: Record, b: Record) {
    Searchable(a.kind) && Searchable(b.kind) && a.tenant == b.tenant && a.urn == b.urn
  }

  /** Equal content hashes carry equal payloads. */
  ghost predicate HashesDeterminePayloads(rs: seq<Record>) {
    forall i, j :: 0 <= i < |rs| && 0 <= j < |rs| && SameHash(rs[i], rs[j]) ==> rs[i].payload == rs[j].payload
  }

  /** A searchable urn of a tenant keeps one entity type. */
  ghost predicate OneKindPerUrn(rs: seq<Record>) {
    forall i, j :: 0 <= i < |rs| && 0 <= j < |rs| && SameSearchableUrn(rs[i], rs[j]) ==> rs[i].kind == rs[j].kind
  }

  ghost predicate WellScoped(rs: seq<Record>) {
    forall i :: 0 <= i < |rs| ==> ColonFree(rs[i].tenant) && rs[i].sourceConn == SourceConnOf(rs[i].payload)
  }

  ghost predicate Carries(rs: seq<Record>, i: int, h: string) {
    0 <= i < |rs| && rs[i].op.Upsert? && rs[i].hash == Some(h)
  }

  ghost function PayloadOf(rs: seq<Record>, h: string): Payload {
    if exists i :: Carries(rs, i, h) then var i :| Carries(rs, i, h); rs[i].payload else map[]
  }

  ghost predicate Names(rs: seq<Record>, i: int, tenant: string, urn: string) {
    0 <= i < |rs| && Searchable(rs[i].kind) && rs[i].tenant == tenant && rs[i].urn == urn
  }

  ghost function KindOf(rs: seq<Record>, tenant: string, urn: string): Kind {
    if exists i :: Names(rs, i, tenant, urn) then var i :| Names(rs, i, tenant, urn); rs[i].kind else Table
  }

  /** The pairwise hypotheses give the functions the step lemmas speak about. */
  lemma PairwiseIsLawful(rs: seq<Record>)
    requires HashesDeterminePayloads(rs) && OneKindPerUrn(rs) && WellScoped(rs)
    ensures AllLawful(rs, h => PayloadOf(rs, h), (t, u) => KindOf(rs, t, u))
  {
    forall i | 0 <= i < |rs| ensures Lawful(rs[i], h => PayloadOf(rs, h), (t, u) => KindOf(rs, t, u)) {
      var r := rs[i];
      if r.op.Upsert? && r.hash.Some? {
        assert Carries(rs, i, r.hash.value);
      }
      if Searchable(r.kind) {
        assert Names(rs, i, r.tenant, r.urn);
      }
    }
  }

  // ---------------------------------------------------------------- no store raises exactly on storable records

  lemma AlwaysDoneIffStorable(ct: string, c: Catalog, r: Record)
    ensures AlwaysOne(ct, c, r).Done? <==> Storable(r)
  {
    hide LinksOf, BareNodesOf, WriteNode, WriteEdge, IndexEntity, AlwaysRow;
  }

  lemma {:induction false} AlwaysAllDone(ct: string, c: Catalog, rs: seq<Record>)
    requires AllStorable(rs)
    ensures AlwaysAll(ct, c, rs).Done?
    decreases |rs|
  {
    if rs != [] {
      AlwaysDoneIffStorable(ct, c, rs[0]);
      AlwaysAllDone(ct, AlwaysOne(ct, c, rs[0]).catalog, rs[1..]);
    }
  }

  /** Main result: from an empty catalog, over every sequence of records, the worker that skips unchanged
      entities ends with the rows, graph and documents of the one that always writes. */
  lemma SkipRefinesAlwaysWrite(ct: string, rs: seq<Record>)
    requires HashesDeterminePayloads(rs) && OneKindPerUrn(rs) && WellScoped(rs) && AllStorable(rs)
    ensures ProcessAll(ct, EmptyCatalog, rs).Done? && AlwaysAll(ct, EmptyCatalog, rs).Done?
    ensures SameCatalog(ProcessAll(ct, EmptyCatalog, rs).catalog, AlwaysAll(ct, EmptyCatalog, rs).catalog)
  {
    PairwiseIsLawful(rs);
    AlwaysAllDone(ct, EmptyCatalog, rs);
    RunRefines(ct, EmptyCatalog, EmptyCatalog, rs, h => PayloadOf(rs, h), (t, u) => KindOf(rs, t, u));
  }

  /** The document shows this payload: four fields as they are, the tags or none, and the first of the kind's own name
      field and the qualified name that is filled. */
  predicate ShowsPayload(d: Doc, p: Payload) {
    && d.description == Get(p, Description) && d.owner == Get(p, Field.Owner)
    && d.fullyQualifiedName == Get(p, FullyQualifiedName) && d.sourceType == Get(p, SourceType)
    && d.tags == (if Truthy(Get(p, Tags)) then Get(p, Tags) else List([]))
    && d.name == if d.kind.Table? && Truthy(Get(p, TableName)) then Get(p, TableName)
                 else if d.kind.Dataset? && Truthy(Get(p, Prefix)) then Get(p, Prefix)
                 else if !d.kind.Table? && !d.kind.Dataset? && Truthy(Get(p, Name)) then Get(p, Name)
                 else if Truthy(Get(p, FullyQualifiedName)) then Get(p, FullyQualifiedName)
                 else Str("")
  }

  lemma BuiltFromPayload(k: RowKey, p: Payload, d: Doc)
    requires SameDoc(d, DocFor(k, p).(isDeleted := d.isDeleted))
    ensures ShowsPayload(d, p) && d.tenant == k.tenant && d.urn == k.urn && d.kind == k.kind
    ensures d.sourceConn == match Get(p, SourceConnectionId) case Str(s) => s case _ => ""
  {
  }

  /** Main result: after every sequence of records a searchable document exists exactly when its row does,
      their tombstone flags agree, and the document shows the payload whose hash the row holds. */
  lemma DocumentsMirrorRows(ct: string, rs: seq<Record>, kind: Kind, tenant: string, urn: string)
    requires HashesDeterminePayloads(rs) && OneKindPerUrn(rs) && WellScoped(rs) && AllStorable(rs)
    requires kind.Table? || kind.Column? || kind.Dataset?
    requires ColonFree(tenant)
    ensures var c := ProcessAll(ct, EmptyCatalog, rs).catalog;
            var id := ScopedKey(tenant, urn);
            var k := RowKey(kind, tenant, urn);
            && (k in c.rows <==> id in c.docs && c.docs[id].kind == kind)
            && (k in c.rows ==> c.docs[id].isDeleted == c.rows[k].isDeleted)
            && (k in c.rows && c.rows[k].hash.Some? ==>
                  exists i :: Carries(rs, i, c.rows[k].hash.value) && ShowsPayload(c.docs[id], rs[i].payload))
  {
    var payloadOf, kindOf := h => PayloadOf(rs, h), (t, u) => KindOf(rs, t, u);
    SkipRefinesAlwaysWrite(ct, rs);
    PairwiseIsLawful(rs);
    RunKeepsAgree(ct, EmptyCatalog, rs, payloadOf, kindOf);
    hide ProcessAll, GraphHolds, DocFor, Includes, ShowsPayload, ScopedKey, PayloadColumns, SameDoc;
    var c := ProcessAll(ct, EmptyCatalog, rs).catalog;
    var id := ScopedKey(tenant, urn);
    var k := RowKey(kind, tenant, urn);
    if id in c.docs {
      assert DocHasRow(c, id);
      ScopedKeyInjective(tenant, urn, c.docs[id].tenant, c.docs[id].urn);
    }
    if k in c.rows {
      assert RowAgrees(c, k, payloadOf, kindOf);
      if c.rows[k].hash.Some? {
        HashIsShown(ct, rs, c, k, payloadOf, kindOf);
      }
    }
  }

  /** The document of a row shows the payload of any record with the row's hash, and there is one. */
  lemma HashIsShown(ct: string, rs: seq<Record>, c: Catalog, k: RowKey, payloadOf: string -> Payload,
      kindOf: (string, string) -> Kind)
    requires AllLawful(rs, payloadOf, kindOf) && ProcessAll(ct, EmptyCatalog, rs) == Done(c)
    requires k in c.rows && Searchable(k.kind) && c.rows[k].hash.Some? && RowAgrees(c, k, payloadOf, kindOf)
    ensures ScopedKey(k.tenant, k.urn) in c.docs
    ensures exists i :: Carries(rs, i, c.rows[k].hash.value)
    ensures forall i :: Carries(rs, i, c.rows[k].hash.value) ==>
              ShowsPayload(c.docs[ScopedKey(k.tenant, k.urn)], rs[i].payload)
  {
    RowHashesComeFromRecords(ct, EmptyCatalog, rs, k);
    hide ProcessAll, GraphHolds, DocFor, Includes, ShowsPayload, ScopedKey, PayloadColumns, SameDoc;
    BuiltFromPayload(k, payloadOf(c.rows[k].hash.value), c.docs[ScopedKey(k.tenant, k.urn)]);
    forall i | Carries(rs, i, c.rows[k].hash.value)
      ensures ShowsPayload(c.docs[ScopedKey(k.tenant, k.urn)], rs[i].payload)
    {
      assert Lawful(rs[i], payloadOf, kindOf);
    }
  }

  /** The row has this value in the column of that field. */
  predicate InColumn(row: Row, f: Field, v: Json) {
    f in row.columns && row.columns[f] == v
  }

  function NameField(kind: Kind): Field {
    match kind
    case Table => TableName
    case Dataset => Prefix
    case _ => Name
  }

  /** Whatever the document shows is what the row's columns hold. Column entities have no owner, source type or
      qualified name among their columns. */
  predicate ShowsTheRow(d: Doc, row: Row) {
    && (d.description != Null ==> InColumn(row, Description, d.description))
    && (d.tags != List([]) ==> InColumn(row, Tags, d.tags))
    && (!d.kind.Column? && d.owner != Null ==> InColumn(row, Field.Owner, d.owner))
    && (!d.kind.Column? && d.fullyQualifiedName != Null ==> InColumn(row, FullyQualifiedName, d.fullyQualifiedName))
    && (!d.kind.Column? && d.sourceType != Null ==> InColumn(row, SourceType, d.sourceType))
    && (d.name != Str("") ==> InColumn(row, NameField(d.kind), d.name) || d.name == d.fullyQualifiedName)
    && d.sourceConn == row.sourceConn
  }

  lemma PayloadIsShown(d: Doc, k: RowKey, row: Row, p: Payload)
    requires ShowsPayload(d, p) && d.kind == k.kind && d.sourceConn == row.sourceConn
    requires Includes(row.columns, Project(k.kind, p)) && (k.kind.Table? || k.kind.Column? || k.kind.Dataset?)
    ensures ShowsTheRow(d, row)
  {
    forall f | f in p && f in PayloadColumns(k.kind) ensures f in row.columns && row.columns[f] == p[f] {
      assert f in Project(k.kind, p);
    }
  }

  /** Main result: after every sequence of records, the search document of a live row shows the payload that the row's
      hash stands for - description, owner, qualified name, source type, tags and name - and no value that the row's
      columns do not hold. A field the last payload lacked may still have its old value in the row; the document then
      shows nothing for it. */
  lemma DocumentsShowTheirRows(ct: string, rs: seq<Record>, k: RowKey)
    requires HashesDeterminePayloads(rs) && OneKindPerUrn(rs) && WellScoped(rs) && AllStorable(rs)
    requires var c := ProcessAll(ct, EmptyCatalog, rs).catalog;
             && k in c.rows && (k.kind.Table? || k.kind.Column? || k.kind.Dataset?)
             && !c.rows[k].isDeleted && c.rows[k].hash.Some?
    ensures var c := ProcessAll(ct, EmptyCatalog, rs).catalog;
            ScopedKey(k.tenant, k.urn) in c.docs && c.docs[ScopedKey(k.tenant, k.urn)].kind == k.kind &&
            !c.docs[ScopedKey(k.tenant, k.urn)].isDeleted && ShowsTheRow(c.docs[ScopedKey(k.tenant, k.urn)], c.rows[k])
    ensures var c := ProcessAll(ct, EmptyCatalog, rs).catalog;
            && (exists i :: Carries(rs, i, c.rows[k].hash.value))
            && forall i :: Carries(rs, i, c.rows[k].hash.value) ==>
                 ShowsPayload(c.docs[ScopedKey(k.tenant, k.urn)], rs[i].payload)
  {
    var payloadOf, kindOf := h => PayloadOf(rs, h), (t, u) => KindOf(rs, t, u);
    SkipRefinesAlwaysWrite(ct, rs);
    PairwiseIsLawful(rs);
    RunKeepsAgree(ct, EmptyCatalog, rs, payloadOf, kindOf);
    var c := ProcessAll(ct, EmptyCatalog, rs).catalog;
    var h := c.rows[k].hash.value;
    assert RowAgrees(c, k, payloadOf, kindOf);
    HashIsShown(ct, rs, c, k, payloadOf, kindOf);
    hide ProcessAll, Agree, GraphHolds, DocFor, Includes, ShowsTheRow, ShowsPayload, ScopedKey, PayloadColumns;
    var p, d := payloadOf(h), c.docs[ScopedKey(k.tenant, k.urn)];
    LiveDocFor(k, p);
    BuiltFromPayload(k, p, d);
    SourceConnIs(p);
    PayloadIsShown(d, k, c.rows[k], p);
  }

  lemma SourceConnIs(p: Payload)
    ensures SourceConnOf(p) == match Get(p, SourceConnectionId) case Str(s) => s case _ => ""
  {
  }

  lemma LiveDocFor(k: RowKey, p: Payload)
    ensures DocFor(k, p).(isDeleted := false) == DocFor(k, p)
  {
  }

  /** A row's hash is the hash of some upsert of the run, unless the row was there before with that hash. */
  lemma {:induction false} RowHashesComeFromRecords(ct: string, c: Catalog, rs: seq<Record>, k: RowKey)
    requires ProcessAll(ct, c, rs).Done? && k in ProcessAll(ct, c, rs).catalog.rows
    ensures var h := ProcessAll(ct, c, rs).catalog.rows[k].hash;
            h.None? || (k in c.rows && c.rows[k].hash == h) || exists i :: Carries(rs, i, h.value)
    decreases |rs|
  {
    if rs != [] {
      hide ProcessOne;
      DoneShape(ct, c, rs[0], NoFault);
      var c1 := ProcessOne(ct, c, rs[0]).catalog;
      RowHashesComeFromRecords(ct, c1, rs[1..], k);
      var h := ProcessAll(ct, c, rs).catalog.rows[k].hash;
      if i :| h.Some? && Carries(rs[1..], i, h.value) {
        assert Carries(rs, i + 1, h.value);
      } else if h.Some? && k in c1.rows && c1.rows[k].hash == h && !(k in c.rows && c.rows[k].hash == h) {
        assert Carries(rs, 0, h.value);
      }
    }
  }

  // ---------------------------------------------------------------- one key through a batch

  function FoldRow(x: Option<Row>, rs: seq<Record>, k: RowKey): Option<Row>
    decreases |rs|
  {
    if rs == [] then x
    else FoldRow(if KeyOf(rs[0]) == k && RoutesToRelational(k.kind) then AlwaysRow(x, rs[0]) else x, rs[1..], k)
  }

  function FoldDoc(x: Option<Doc>, rs: seq<Record>, id: string): Option<Doc>
    decreases |rs|
  {
    if rs == [] then x
    else FoldDoc(if DocIdOf(rs[0]) == id && RoutesToSearch(rs[0].kind) then DocStep(x, rs[0]) else x, rs[1..], id)
  }

  lemma {:induction false} AlwaysAllFolds(ct: string, c: Catalog, rs: seq<Record>, k: RowKey, id: string)
    requires AlwaysAll(ct, c, rs).Done?
    ensures Lookup(AlwaysAll(ct, c, rs).catalog.rows, k) == FoldRow(Lookup(c.rows, k), rs, k)
    ensures Lookup(AlwaysAll(ct, c, rs).catalog.docs, id) == FoldDoc(Lookup(c.docs, id), rs, id)
    decreases |rs|
  {
    if rs != [] {
      AlwaysOneAt(ct, c, rs[0], k, id);
      hide AlwaysOne, AlwaysRow, DocStep;
      AlwaysAllFolds(ct, AlwaysOne(ct, c, rs[0]).catalog, rs[1..], k, id);
    }
  }

  lemma AlwaysOneAt(ct: string, c: Catalog, r: Record, k: RowKey, id: string)
    requires AlwaysOne(ct, c, r).Done?
    ensures Lookup(AlwaysOne(ct, c, r).catalog.rows, k) ==
            if KeyOf(r) == k && RoutesToRelational(k.kind) then AlwaysRow(Lookup(c.rows, k), r) else Lookup(c.rows, k)
    ensures Lookup(AlwaysOne(ct, c, r).catalog.docs, id) ==
            if DocIdOf(r) == id && RoutesToSearch(r.kind) then DocStep(Lookup(c.docs, id), r) else Lookup(c.docs, id)
  {
    hide UpsertGraph, WriteRow, BuildDocument, ScopedKey;
  }

  /** Some record of the batch upserts this row. */
  predicate UpsertsRow(rs: seq<Record>, k: RowKey) {
    RoutesToRelational(k.kind) && exists i :: 0 <= i < |rs| && KeyOf(rs[i]) == k && rs[i].op.Upsert?
  }

  predicate UpsertsDoc(rs: seq<Record>, id: string) {
    exists i :: 0 <= i < |rs| && DocIdOf(rs[i]) == id && RoutesToSearch(rs[i].kind) && Searchable(rs[i].kind) && rs[i].op.Upsert?
  }

  function ColumnsOf(x: Option<Row>): map<Field, Json> {
    if x.Some? then x.value.columns else map[]
  }

  /** The columns a batch writes on a row, later records winning. */
  function Written(rs: seq<Record>, k: RowKey): map<Field, Json>
    decreases |rs|
  {
    if rs == [] then map[]
    else (if KeyOf(rs[0]) == k && RoutesToRelational(k.kind) && rs[0].op.Upsert? then Project(k.kind, rs[0].payload) else map[])
         + Written(rs[1..], k)
  }

  lemma MergeAssociative(a: map<Field, Json>, b: map<Field, Json>, c: map<Field, Json>)
    ensures (a + b) + c == a + (b + c)
  {
  }

  lemma AlwaysRowColumns(x: Option<Row>, r: Record)
    requires x.Some? || r.op.Upsert?
    ensures AlwaysRow(x, r).Some?
    ensures ColumnsOf(AlwaysRow(x, r)) == ColumnsOf(x) + if r.op.Upsert? then Project(r.kind, r.payload) else map[]
  {
    hide Project;
  }

  lemma {:induction false} FoldColumns(x: Option<Row>, rs: seq<Record>, k: RowKey)
    requires x.Some? || UpsertsRow(rs, k)
    ensures FoldRow(x, rs, k).Some? && ColumnsOf(FoldRow(x, rs, k)) == ColumnsOf(x) + Written(rs, k)
    decreases |rs|
  {
    if rs != [] {
      hide Project, AlwaysRow;
      var mine := KeyOf(rs[0]) == k && RoutesToRelational(k.kind);
      var x1 := if mine then AlwaysRow(x, rs[0]) else x;
      if !(mine && rs[0].op.Upsert?) && x.None? {
        var i :| 0 <= i < |rs| && KeyOf(rs[i]) == k && rs[i].op.Upsert?;
        assert rs[1..][i - 1] == rs[i];
      } else if mine {
        AlwaysRowColumns(x, rs[0]);
      }
      if mine && x.None? && rs[0].op.Delete? {
        AlwaysRowAbsent(rs[0]);
      }
      FoldColumns(x1, rs[1..], k);
      var first := if mine && rs[0].op.Upsert? then Project(k.kind, rs[0].payload) else map[];
      MergeAssociative(ColumnsOf(x), first, Written(rs[1..], k));
    }
  }

  lemma AlwaysRowAbsent(r: Record)
    requires r.op.Delete?
    ensures AlwaysRow(None, r) == None
  {
  }

  /** Rows that differ at most in their columns stay so; after an upsert all rows are so. */
  predicate SameButColumns(x: Option<Row>, y: Option<Row>) {
    x.Some? && y.Some? && x.value.(columns := map[]) == y.value.(columns := map[])
  }

  lemma {:induction false} FoldForgets(x: Option<Row>, y: Option<Row>, rs: seq<Record>, k: RowKey)
    requires UpsertsRow(rs, k) || SameButColumns(x, y)
    ensures SameButColumns(FoldRow(x, rs, k), FoldRow(y, rs, k))
    decreases |rs|
  {
    if rs != [] {
      hide Project, PayloadColumns;
      var mine := KeyOf(rs[0]) == k && RoutesToRelational(k.kind);
      var x1, y1 := if mine then AlwaysRow(x, rs[0]) else x, if mine then AlwaysRow(y, rs[0]) else y;
      if !(mine && rs[0].op.Upsert?) && !SameButColumns(x, y) {
        var i :| 0 <= i < |rs| && KeyOf(rs[i]) == k && rs[i].op.Upsert?;
        assert rs[1..][i - 1] == rs[i];
      }
      FoldForgets(x1, y1, rs[1..], k);
    }
  }

  /** The time of the last record of the batch on this row, if any. */
  function LastTouch(rs: seq<Record>, k: RowKey): Option<int>
    decreases |rs|
  {
    if rs == [] then None
    else
      var later := LastTouch(rs[1..], k);
      if later.Some? then later
      else if KeyOf(rs[0]) == k && RoutesToRelational(k.kind) then Some(rs[0].at) else None
  }

  lemma {:induction false} FoldDeletesOnly(x: Option<Row>, rs: seq<Record>, k: RowKey)
    requires !UpsertsRow(rs, k)
    ensures FoldRow(x, rs, k) ==
            if x.Some? && LastTouch(rs, k).Some? then Some(x.value.(isDeleted := true, lastScraped := LastTouch(rs, k).value)) else x
    decreases |rs|
  {
    if rs != [] {
      var mine := KeyOf(rs[0]) == k && RoutesToRelational(k.kind);
      var x1 := if mine then AlwaysRow(x, rs[0]) else x;
      assert forall i :: 0 <= i < |rs[1..]| ==> rs[1..][i] == rs[i + 1];
      FoldDeletesOnly(x1, rs[1..], k);
    }
  }

  lemma FoldRowTwice(x: Option<Row>, rs: seq<Record>, k: RowKey)
    ensures FoldRow(FoldRow(x, rs, k), rs, k) == FoldRow(x, rs, k)
  {
    var y := FoldRow(x, rs, k);
    if UpsertsRow(rs, k) {
      FoldColumns(x, rs, k);
      FoldColumns(y, rs, k);
      FoldForgets(x, y, rs, k);
      assert ColumnsOf(x) + Written(rs, k) + Written(rs, k) == ColumnsOf(x) + Written(rs, k);
    } else {
      FoldDeletesOnly(x, rs, k);
      FoldDeletesOnly(y, rs, k);
    }
  }

  lemma {:induction false} FoldDocForgets(x: Option<Doc>, y: Option<Doc>, rs: seq<Record>, id: string)
    requires UpsertsDoc(rs, id) || x == y
    ensures FoldDoc(x, rs, id) == FoldDoc(y, rs, id)
    decreases |rs|
  {
    if rs != [] {
      hide BuildDocument, ScopedKey;
      var mine := DocIdOf(rs[0]) == id && RoutesToSearch(rs[0].kind);
      var x1, y1 := if mine then DocStep(x, rs[0]) else x, if mine then DocStep(y, rs[0]) else y;
      if !(mine && Searchable(rs[0].kind) && rs[0].op.Upsert?) && x != y {
        var i :| 0 <= i < |rs| && DocIdOf(rs[i]) == id && RoutesToSearch(rs[i].kind) && Searchable(rs[i].kind) && rs[i].op.Upsert?;
        assert rs[1..][i - 1] == rs[i];
      }
      FoldDocForgets(x1, y1, rs[1..], id);
    }
  }

  predicate DeletesDoc(rs: seq<Record>, id: string) {
    exists i :: 0 <= i < |rs| && DocIdOf(rs[i]) == id && RoutesToSearch(rs[i].kind) && Searchable(rs[i].kind)
  }

  lemma {:induction false} FoldDocDeletesOnly(x: Option<Doc>, rs: seq<Record>, id: string)
    requires !UpsertsDoc(rs, id)
    ensures FoldDoc(x, rs, id) == if x.Some? && DeletesDoc(rs, id) then Some(x.value.(isDeleted := true)) else x
    decreases |rs|
  {
    if rs != [] {
      hide BuildDocument, ScopedKey;
      var mine := DocIdOf(rs[0]) == id && RoutesToSearch(rs[0].kind);
      var x1 := if mine then DocStep(x, rs[0]) else x;
      assert forall i :: 0 <= i < |rs[1..]| ==> rs[1..][i] == rs[i + 1];
      FoldDocDeletesOnly(x1, rs[1..], id);
      if i :| 0 <= i < |rs| && DocIdOf(rs[i]) == id && RoutesToSearch(rs[i].kind) && Searchable(rs[i].kind) {
        assert i == 0 || rs[1..][i - 1] == rs[i];
      }
    }
  }

  lemma FoldDocTwice(x: Option<Doc>, rs: seq<Record>, id: string)
    ensures FoldDoc(FoldDoc(x, rs, id), rs, id) == FoldDoc(x, rs, id)
  {
    var y := FoldDoc(x, rs, id);
    if UpsertsDoc(rs, id) {
      FoldDocForgets(x, y, rs, id);
    } else {
      FoldDocDeletesOnly(x, rs, id);
      FoldDocDeletesOnly(y, rs, id);
    }
  }

  // ---------------------------------------------------------------- applying a batch a second time

  /** The audit trail gains one event per entity, in batch order; each event says what the entity came to on the catalog
      that the entities before it had left. */
  lemma {:induction false} EveryEntityIsAudited(ct: string, c: Catalog, rs: seq<Record>)
    requires ProcessAll(ct, c, rs).Done?
    ensures var events := ProcessAll(ct, c, rs).catalog.events;
            && |events| == |c.events| + |rs| && events[..|c.events|] == c.events
            && forall i :: 0 <= i < |rs| ==> AuditOf(events[|c.events| + i], ct, rs[i], ProcessAll(ct, c, rs[..i]).catalog)
    decreases |rs|
  {
    hide ProcessOne, AuditOf;
    if rs != [] {
      OneEntityIsAudited(ct, c, rs[0]);
      var c1 := ProcessOne(ct, c, rs[0]).catalog;
      EveryEntityIsAudited(ct, c1, rs[1..]);
      var events := ProcessAll(ct, c, rs).catalog.events;
      assert events[..|c.events|] == events[..|c1.events|][..|c.events|];
      forall i | 0 <= i < |rs| ensures AuditOf(events[|c.events| + i], ct, rs[i], ProcessAll(ct, c, rs[..i]).catalog) {
        if i == 0 {
          assert events[|c.events|] == events[..|c1.events|][|c.events|];
        } else {
          FirstOfMany(ct, c, rs, i);
          assert rs[1..][i - 1] == rs[i];
        }
      }
    }
  }

  lemma FirstOfMany(ct: string, c: Catalog, rs: seq<Record>, i: nat)
    requires 0 < i <= |rs| && ProcessOne(ct, c, rs[0]).Done?
    ensures ProcessAll(ct, c, rs[..i]) == ProcessAll(ct, ProcessOne(ct, c, rs[0]).catalog, rs[1..][..i - 1])
  {
    hide ProcessOne;
    assert rs[..i][0] == rs[0] && rs[..i][1..] == rs[1..][..i - 1];
  }

  /** The entity has a live row with this very hash. */
  predicate LiveUnderHash(before: Catalog, r: Record) {
    var k := RowKey(r.kind, r.tenant, r.urn);
    k in before.rows && !before.rows[k].isDeleted && r.hash.Some? && before.rows[k].hash == r.hash
  }

  /** The event names its entity and what became of it: a scrape run, a delete, an upsert of an entity whose row was
      live under the same hash, or an upsert that was written. */
  predicate AuditOf(e: Event, ct: string, r: Record, before: Catalog) {
    && e.tenant == r.tenant && e.dataPlane == r.dataPlane && e.urn == r.urn && e.kind == r.kind && e.at == r.at
    && e.connectorType == ct && e.op == r.op
    && e.eventType ==
       if r.kind.ScrapeRun? then ScrapeRunEvent
       else if r.op.Delete? then EntityDeleted
       else if r.kind in [Table, Column, Dataset, Job, LineageEdge] && LiveUnderHash(before, r) then EntityUnchanged
       else EntityUpserted
  }

  lemma OneEntityIsAudited(ct: string, c: Catalog, r: Record)
    requires ProcessOne(ct, c, r).Done?
    ensures var events := ProcessOne(ct, c, r).catalog.events;
            |events| == |c.events| + 1 && events[..|c.events|] == c.events && AuditOf(events[|c.events|], ct, r, c)
  {
    hide UpsertGraph, IndexEntity, UpsertRow;
  }

  lemma AlwaysGraphOne(ct: string, c: Catalog, r: Record)
    ensures AlwaysOne(ct, c, r).Done? ==> AlwaysOne(ct, c, r).catalog.graph == GraphStep(c.graph, r)
  {
    hide UpsertGraph, IndexEntity, AlwaysRow;
  }

  lemma {:induction false} AlwaysGraph(ct: string, c: Catalog, rs: seq<Record>)
    ensures AlwaysAll(ct, c, rs).Done? ==> AlwaysAll(ct, c, rs).catalog.graph == GraphAll(c.graph, rs)
    decreases |rs|
  {
    hide AlwaysOne, GraphStep;
    if rs != [] {
      AlwaysGraphOne(ct, c, rs[0]);
      AlwaysGraph(ct, AlwaysOne(ct, c, rs[0]).catalog, rs[1..]);
    }
  }

  lemma AlwaysTwice(ct: string, c: Catalog, rs: seq<Record>)
    requires AllStorable(rs)
    ensures AlwaysAll(ct, c, rs).Done? && AlwaysAll(ct, AlwaysAll(ct, c, rs).catalog, rs).Done?
    ensures AlwaysAll(ct, AlwaysAll(ct, c, rs).catalog, rs).catalog.rows == AlwaysAll(ct, c, rs).catalog.rows
    ensures AlwaysAll(ct, AlwaysAll(ct, c, rs).catalog, rs).catalog.docs == AlwaysAll(ct, c, rs).catalog.docs
    ensures SameGraph(AlwaysAll(ct, AlwaysAll(ct, c, rs).catalog, rs).catalog.graph, AlwaysAll(ct, c, rs).catalog.graph)
  {
    AlwaysGraph(ct, c, rs);
    AlwaysGraph(ct, AlwaysAll(ct, c, rs).catalog, rs);
    GraphBatchTwice(c.graph, rs);
    hide SameGraph, GraphAll;
    AlwaysAllDone(ct, c, rs);
    var c1 := AlwaysAll(ct, c, rs).catalog;
    AlwaysAllDone(ct, c1, rs);
    var c2 := AlwaysAll(ct, c1, rs).catalog;
    forall k ensures Lookup(c2.rows, k) == Lookup(c1.rows, k) {
      AlwaysAllFolds(ct, c, rs, k, "");
      AlwaysAllFolds(ct, c1, rs, k, "");
      FoldRowTwice(Lookup(c.rows, k), rs, k);
    }
    forall id ensures Lookup(c2.docs, id) == Lookup(c1.docs, id) {
      var k := RowKey(Table, "", "");
      AlwaysAllFolds(ct, c, rs, k, id);
      AlwaysAllFolds(ct, c1, rs, k, id);
      FoldDocTwice(Lookup(c.docs, id), rs, id);
    }
    SameLookupsSameMap(c2.rows, c1.rows);
    SameLookupsSameMap(c2.docs, c1.docs);
  }

  lemma SameLookupsSameMap<K, V>(a: map<K, V>, b: map<K, V>)
    requires forall k :: Lookup(a, k) == Lookup(b, k)
    ensures a == b
  {
    forall k ensures k in a <==> k in b {
      assert Lookup(a, k) == Lookup(b, k);
    }
    forall k | k in a ensures a[k] == b[k] {
      assert Lookup(a, k) == Lookup(b, k);
    }
  }

  /** Main result: from any catalog whose projections agree, processing a batch again - repeated urns, mixed upserts
      and deletes, missing hashes included - leaves rows, documents and graph as after once, and the audit trail grows
      by one event per entity each time. */
  lemma ReapplyingABatchIsIdempotent(ct: string, c: Catalog, rs: seq<Record>, payloadOf: string -> Payload,
      kindOf: (string, string) -> Kind)
    requires Agree(c, payloadOf, kindOf) && AllLawful(rs, payloadOf, kindOf) && AllStorable(rs)
    ensures ProcessAll(ct, c, rs).Done?
    ensures var once := ProcessAll(ct, c, rs).catalog;
            && ProcessAll(ct, once, rs).Done?
            && var twice := ProcessAll(ct, once, rs).catalog;
               SameCatalog(once, twice) &&
               |once.events| == |c.events| + |rs| && |twice.events| == |once.events| + |rs|
  {
    hide Agree, AllLawful, SameCatalog, ProcessAll, AlwaysAll;
    SameCatalogReflexive(c);
    AlwaysTwice(ct, c, rs);
    RunRefines(ct, c, c, rs, payloadOf, kindOf);
    RunKeepsAgree(ct, c, rs, payloadOf, kindOf);
    var once, always := ProcessAll(ct, c, rs).catalog, AlwaysAll(ct, c, rs).catalog;
    RunRefines(ct, once, always, rs, payloadOf, kindOf);
    EveryEntityIsAudited(ct, c, rs);
    EveryEntityIsAudited(ct, once, rs);
    var twice, alwaysTwice := ProcessAll(ct, once, rs).catalog, AlwaysAll(ct, always, rs).catalog;
    OnceTwice(once, always, twice, alwaysTwice);
  }

  lemma SameCatalogReflexive(c: Catalog)
    ensures SameCatalog(c, c)
  {
  }

  lemma SameGraphSymmetric(a: Graph, b: Graph)
    requires SameGraph(a, b)
    ensures SameGraph(b, a)
  {
  }

  lemma OnceTwice(once: Catalog, always: Catalog, twice: Catalog, alwaysTwice: Catalog)
    requires SameCatalog(once, always) && SameCatalog(twice, alwaysTwice)
    requires always.rows == alwaysTwice.rows && always.docs == alwaysTwice.docs
    requires SameGraph(alwaysTwice.graph, always.graph)
    ensures SameCatalog(once, twice)
  {
    hide SameGraph;
    SameGraphSymmetric(twice.graph, alwaysTwice.graph);
    SameGraphSymmetric(alwaysTwice.graph, always.graph);
    SameGraphTransitive(once.graph, always.graph, alwaysTwice.graph);
    SameGraphTransitive(once.graph, alwaysTwice.graph, twice.graph);
  }
}
