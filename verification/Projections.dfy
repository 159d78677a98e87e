/** The graph and search projections are a cache: skipping them when the content hash is unchanged gives
    the same catalog as always writing them. */
module Projections {
  import opened Types
  import opened Catalog

  // ---------------------------------------------------------------- the worker that never skips

  function AlwaysRow(x: Option<Row>, r: Record): Option<Row> {
    if r.op.Delete? then TombstoneRow(x, r) else Some(WriteRow(x, r))
  }

  function AlwaysOne(connectorType: string, c: Catalog, r: Record): Outcome {
    if r.kind.ScrapeRun? then Done(c.(events := c.events + [EventOf(connectorType, r, ScrapeRunEvent)]))
    else if r.kind.Unknown? then Raised(c)
    else
      var rows := if RoutesToRelational(r.kind) then Store(c.rows, KeyOf(r), AlwaysRow(Lookup(c.rows, KeyOf(r)), r)) else c.rows;
      match if RoutesToGraph(r.kind) then UpsertGraph(c.graph, r) else Some(c.graph)
      case None => Raised(c.(rows := rows))
      case Some(g) =>
        Done(Catalog(rows, g, if RoutesToSearch(r.kind) then IndexEntity(c.docs, r) else c.docs,
                     c.events + [EventOf(connectorType, r, EventTypeOf(r, true))]))
  }

  function AlwaysAll(connectorType: string, c: Catalog, rs: seq<Record>): Outcome
    decreases |rs|
  {
    if rs == [] then Done(c)
    else
      match AlwaysOne(connectorType, c, rs[0])
      case Raised(c') => Raised(c')
      case Done(c') => AlwaysAll(connectorType, c', rs[1..])
  }

  // ---------------------------------------------------------------- equality up to freshness

  /** Rows agree up to the data plane that last wrote them; documents and nodes also up to timestamps. */
  predicate SameRow(a: Row, b: Row) {
    a.(dataPlane := b.dataPlane) == b
  }

  predicate SameDoc(a: Doc, b: Doc) {
    a.(dataPlane := b.dataPlane, firstSeen := b.firstSeen, lastScraped := b.lastScraped) == b
  }

  predicate SameNode(a: Node, b: Node) {
    a.props == b.props && a.isDeleted == b.isDeleted && a.sourceConn == b.sourceConn
  }

  predicate SameDerives(a: Derives, b: Derives) {
    a.(discoveredAt := b.discoveredAt, lastConfirmed := b.lastConfirmed) == b
  }

  ghost predicate SameRows(a: map<RowKey, Row>, b: map<RowKey, Row>) {
    a.Keys == b.Keys && forall k :: k in a.Keys ==> SameRow(a[k], b[k])
  }

  ghost predicate SameDocs(a: map<string, Doc>, b: map<string, Doc>) {
    a.Keys == b.Keys && forall k :: k in a.Keys ==> SameDoc(a[k], b[k])
  }

  ghost predicate SameGraph(a: Graph, b: Graph) {
    && a.nodes.Keys == b.nodes.Keys && (forall k :: k in a.nodes.Keys ==> SameNode(a.nodes[k], b.nodes[k]))
    && a.links == b.links
    && a.derives.Keys == b.derives.Keys && (forall k :: k in a.derives.Keys ==> SameDerives(a.derives[k], b.derives[k]))
  }

  ghost predicate SameCatalog(a: Catalog, b: Catalog) {
    SameRows(a.rows, b.rows) && SameGraph(a.graph, b.graph) && SameDocs(a.docs, b.docs)
  }

  // ---------------------------------------------------------------- hypotheses

  /** `payload.get("source_connection_id") or ""` */
  function SourceConnOf(payload: Payload): string {
    match Get(payload, SourceConnectionId)
    case Str(s) => s
    case _ => ""
  }

  /** What the refinement needs of each record: its hash determines its payload (`payloadOf`), a searchable
      urn keeps one entity type (`kindOf`), and tenant ids hold no colon. */
  predicate Lawful(r: Record, payloadOf: string -> Payload, kindOf: (string, string) -> Kind) {
    && ColonFree(r.tenant)
    && r.sourceConn == SourceConnOf(r.payload)
    && (r.op.Upsert? && r.hash.Some? ==> payloadOf(r.hash.value) == r.payload)
    && (Searchable(r.kind) ==> kindOf(r.tenant, r.urn) == r.kind)
  }

  ghost predicate AllLawful(rs: seq<Record>, payloadOf: string -> Payload, kindOf: (string, string) -> Kind) {
    forall i :: 0 <= i < |rs| ==> Lawful(rs[i], payloadOf, kindOf)
  }

  // ---------------------------------------------------------------- agreement of the projections

  ghost predicate Includes<V(!new)>(big: map<Field, V>, small: map<Field, V>) {
    forall f :: f in small ==> f in big && big[f] == small[f]
  }

  /** The document an upsert of this payload produces, its freshness fields left blank. */
  function DocFor(k: RowKey, payload: Payload): Doc {
    BuildDocument(Record(k.tenant, k.urn, k.kind, "", SourceConnOf(payload), payload, Upsert, None, 0))
  }

  ghost predicate DocAgrees(d: Doc, k: RowKey, row: Row, payloadOf: string -> Payload) {
    && d.isDeleted == row.isDeleted
    && d.tenant == k.tenant && d.urn == k.urn && d.kind == k.kind
    && (row.hash.Some? ==> SameDoc(d, DocFor(k, payloadOf(row.hash.value)).(isDeleted := row.isDeleted)))
  }

  ghost predicate GraphHolds(g: Graph, k: RowKey, payload: Payload) {
    && LinksOf(k.kind, k.tenant, k.urn, payload) <= g.links
    && BareNodesOf(k.kind, k.tenant, k.urn, payload) <= g.nodes.Keys
    && if k.kind.LineageEdge? then
         match EndpointsOf(k.tenant, payload)
         case None => false
         case Some(ends) =>
           var dk := DerivesKeyOf(ends, k.tenant, k.urn);
           dk in g.derives && g.derives[dk].confidence == OrDefault(payload, Confidence, Str("inferred")) &&
           g.derives[dk].granularity == OrDefault(payload, EdgeGranularity,
               Str("table_level")) && !g.derives[dk].isDeleted
       else
         var id := EntityNode(k.kind, k.tenant, k.urn);
         id in g.nodes && Includes(g.nodes[id].props, SanitizeProps(payload)) &&
         g.nodes[id].isDeleted == Some(false) && g.nodes[id].sourceConn == Some(SourceConnOf(payload))
  }

  ghost predicate RowAgrees(c: Catalog, k: RowKey, payloadOf: string -> Payload, kindOf: (string, string) -> Kind)
    requires k in c.rows
  {
    var row := c.rows[k];
    && ColonFree(k.tenant) && RoutesToRelational(k.kind)
    && (Searchable(k.kind) ==>
          kindOf(k.tenant, k.urn) == k.kind && ScopedKey(k.tenant, k.urn) in c.docs &&
          DocAgrees(c.docs[ScopedKey(k.tenant, k.urn)], k, row, payloadOf))
    && (!row.isDeleted && row.hash.Some? ==>
          var p := payloadOf(row.hash.value);
          Includes(row.columns, Project(k.kind, p)) && row.sourceConn == SourceConnOf(p) && GraphHolds(c.graph, k, p))
  }

  ghost predicate DocHasRow(c: Catalog, id: string)
    requires id in c.docs
  {
    var d := c.docs[id];
    id == ScopedKey(d.tenant, d.urn) && ColonFree(d.tenant) && Searchable(d.kind) && RowKey(d.kind, d.tenant,
        d.urn) in c.rows
  }

  /** Every searchable row has its document and every document its row, with equal tombstone flags and the
      payload the row's hash stands for; every live row's payload is in the graph. */
  ghost predicate Agree(c: Catalog, payloadOf: string -> Payload, kindOf: (string, string) -> Kind) {
    && (forall k :: k in c.rows ==> RowAgrees(c, k, payloadOf, kindOf))
    && (forall id :: id in c.docs ==> DocHasRow(c, id))
  }

  // ---------------------------------------------------------------- one write on the graph

  lemma GraphWriteHolds(g: Graph, r: Record)
    requires r.op.Upsert? && UpsertGraph(g, r).Some? && r.sourceConn == SourceConnOf(r.payload)
    ensures GraphHolds(UpsertGraph(g, r).value, KeyOf(r), r.payload)
  {
  }

  lemma WriteNodeIdle(g: Graph, r: Record, links: set<Link>, bare: set<NodeId>)
    requires r.op.Upsert? && links <= g.links && bare <= g.nodes.Keys && NodeOf(r) in g.nodes
    requires Includes(g.nodes[NodeOf(r)].props, SanitizeProps(r.payload))
    requires g.nodes[NodeOf(r)].isDeleted == Some(false) && g.nodes[NodeOf(r)].sourceConn == Some(r.sourceConn)
    ensures SameGraph(g, WriteNode(g, r, links, bare))
  {
    var g' := WriteNode(g, r, links, bare);
    assert g'.links == g.links;
    assert g'.nodes.Keys == g.nodes.Keys;
    assert g'.nodes[NodeOf(r)].props == g.nodes[NodeOf(r)].props;
  }

  lemma WriteEdgeIdle(g: Graph, r: Record, k: DerivesKey, links: set<Link>, bare: set<NodeId>)
    requires r.op.Upsert? && links <= g.links && bare <= g.nodes.Keys && k in g.derives && !g.derives[k].isDeleted
    requires g.derives[k].confidence == OrDefault(r.payload, Confidence, Str("inferred"))
    requires g.derives[k].granularity == OrDefault(r.payload, EdgeGranularity, Str("table_level"))
    ensures SameGraph(g, WriteEdge(g, r, k, links, bare))
  {
    var g' := WriteEdge(g, r, k, links, bare);
    assert g'.links == g.links;
    assert g'.nodes.Keys == g.nodes.Keys;
  }

  lemma GraphWriteIdle(g: Graph, r: Record)
    requires r.op.Upsert? && GraphHolds(g, KeyOf(r), r.payload) && r.sourceConn == SourceConnOf(r.payload)
    requires RoutesToGraph(r.kind)
    ensures UpsertGraph(g, r).Some? && SameGraph(g, UpsertGraph(g, r).value)
  {
    hide LinksOf, BareNodesOf, EndpointsOf, SameGraph, WriteNode, WriteEdge, Includes;
    var links := LinksOf(r.kind, r.tenant, r.urn, r.payload);
    var bare := BareNodesOf(r.kind, r.tenant, r.urn, r.payload);
    if r.kind.LineageEdge? {
      WriteEdgeIdle(g, r, DerivesKeyOf(EndpointsOf(r.tenant, r.payload).value, r.tenant, r.urn), links, bare);
    } else {
      WriteNodeIdle(g, r, links, bare);
    }
  }

  lemma GraphWriteFrame(g: Graph, r: Record, k: RowKey, payload: Payload)
    requires UpsertGraph(g, r).Some? && k != KeyOf(r) && GraphHolds(g, k, payload)
    ensures GraphHolds(UpsertGraph(g, r).value, k, payload)
  {
    hide LinksOf, BareNodesOf, EndpointsOf, Includes, SanitizeProps, MergeNode, MergeDerives, OrDefault;
  }

  lemma AddBareCongruent(a: map<NodeId, Node>, b: map<NodeId, Node>, ids: set<NodeId>)
    requires a.Keys == b.Keys && forall k :: k in a.Keys ==> SameNode(a[k], b[k])
    ensures AddBare(a, ids).Keys == AddBare(b, ids).Keys
    ensures forall k :: k in AddBare(a, ids).Keys ==> SameNode(AddBare(a, ids)[k], AddBare(b, ids)[k])
  {
  }

  lemma WriteNodeCongruent(a: Graph, b: Graph, r: Record, links: set<Link>, bare: set<NodeId>)
    requires SameGraph(a, b)
    ensures SameGraph(WriteNode(a, r, links, bare), WriteNode(b, r, links, bare))
  {
    var id := NodeOf(r);
    var na := a.nodes[id := MergeNode(Lookup(a.nodes, id), r)];
    var nb := b.nodes[id := MergeNode(Lookup(b.nodes, id), r)];
    assert SameNode(na[id], nb[id]);
    AddBareCongruent(na, nb, bare);
  }

  lemma WriteEdgeCongruent(a: Graph, b: Graph, r: Record, k: DerivesKey, links: set<Link>, bare: set<NodeId>)
    requires SameGraph(a, b)
    ensures SameGraph(WriteEdge(a, r, k, links, bare), WriteEdge(b, r, k, links, bare))
  {
    AddBareCongruent(a.nodes, b.nodes, bare);
  }

  lemma GraphWriteCongruent(a: Graph, b: Graph, r: Record)
    requires SameGraph(a, b)
    ensures UpsertGraph(a, r).Some? == UpsertGraph(b, r).Some?
    ensures UpsertGraph(a, r).Some? ==> SameGraph(UpsertGraph(a, r).value, UpsertGraph(b, r).value)
  {
    var links := LinksOf(r.kind, r.tenant, r.urn, r.payload);
    var bare := BareNodesOf(r.kind, r.tenant, r.urn, r.payload);
    WriteNodeCongruent(a, b, r, links, bare);
    if EndpointsOf(r.tenant, r.payload).Some? {
      WriteEdgeCongruent(a, b, r, DerivesKeyOf(EndpointsOf(r.tenant, r.payload).value, r.tenant, r.urn), links, bare);
    }
  }

  // ---------------------------------------------------------------- one entity keeps the agreement

  /** What a completed step leaves in each store. */
  lemma DoneShape(ct: string, c: Catalog, r: Record, fault: Fault)
    requires ProcessOne(ct, c, r, fault).Done?
    ensures ProcessOne(ct, c, r, fault).catalog.rows == if RoutesToRelational(r.kind) then UpsertRow(c.rows, r) else c.rows
    ensures ProcessOne(ct, c, r, fault).catalog.docs ==
            if Changed(c, r) && RoutesToSearch(r.kind) then IndexEntity(c.docs, r) else c.docs
    ensures if Changed(c, r) && RoutesToGraph(r.kind)
            then UpsertGraph(c.graph, r) == Some(ProcessOne(ct, c, r, fault).catalog.graph)
            else ProcessOne(ct, c, r, fault).catalog.graph == c.graph
    ensures |ProcessOne(ct, c, r, fault).catalog.events| == |c.events| + 1
  {
    hide UpsertGraph, IndexEntity, UpsertRow;
  }

  lemma DocAfterUpsert(r: Record, payloadOf: string -> Payload, kindOf: (string, string) -> Kind)
    requires Lawful(r, payloadOf, kindOf) && r.op.Upsert? && r.hash.Some?
    ensures SameDoc(BuildDocument(r), DocFor(KeyOf(r), payloadOf(r.hash.value)))
  {
  }

  lemma BuiltDocument(r: Record)
    ensures BuildDocument(r).tenant == r.tenant && BuildDocument(r).urn == r.urn && BuildDocument(r).kind == r.kind
    ensures !BuildDocument(r).isDeleted
  {
  }

  lemma OwnRowAgrees(ct: string, c: Catalog, r: Record, payloadOf: string -> Payload, kindOf: (string, string) -> Kind)
    requires Agree(c, payloadOf, kindOf) && Lawful(r, payloadOf, kindOf) && ProcessOne(ct, c, r).Done?
    requires RoutesToRelational(r.kind) && KeyOf(r) in ProcessOne(ct, c, r).catalog.rows
    ensures RowAgrees(ProcessOne(ct, c, r).catalog, KeyOf(r), payloadOf, kindOf)
  {
    hide ProcessOne, GraphHolds, UpsertGraph, BuildDocument, DocFor, PayloadColumns, SameDoc, DocHasRow;
    DoneShape(ct, c, r, NoFault);
    var k := KeyOf(r);
    assert k in c.rows ==> RowAgrees(c, k, payloadOf, kindOf);
    if r.op.Upsert? && !Unchanged(Lookup(c.rows, k), r) {
      GraphWriteHolds(c.graph, r);
      BuiltDocument(r);
      if r.hash.Some? {
        DocAfterUpsert(r, payloadOf, kindOf);
        SameDocFlag(BuildDocument(r), DocFor(k, payloadOf(r.hash.value)));
      }
    } else if r.op.Delete? && k in c.rows && c.rows[k].hash.Some? && Searchable(r.kind) {
      SameDocTombstone(c.docs[DocIdOf(r)], DocFor(k, payloadOf(c.rows[k].hash.value)), c.rows[k].isDeleted);
    }
  }

  lemma SameDocFlag(d: Doc, e: Doc)
    requires SameDoc(d, e) && !d.isDeleted
    ensures SameDoc(d, e.(isDeleted := false))
  {
  }

  lemma SameDocTombstone(d: Doc, e: Doc, flag: bool)
    requires SameDoc(d, e.(isDeleted := flag))
    ensures SameDoc(d.(isDeleted := true), e.(isDeleted := true))
  {
  }

  lemma OtherRowAgrees(ct: string, c: Catalog, r: Record, k: RowKey, payloadOf: string -> Payload,
      kindOf: (string, string) -> Kind)
    requires Agree(c, payloadOf, kindOf) && Lawful(r, payloadOf, kindOf) && ProcessOne(ct, c, r).Done?
    requires k in c.rows && (k != KeyOf(r) || !RoutesToRelational(r.kind))
    ensures k in ProcessOne(ct, c, r).catalog.rows && RowAgrees(ProcessOne(ct, c, r).catalog, k, payloadOf, kindOf)
  {
    hide ProcessOne, GraphHolds, UpsertGraph, DocAgrees, DocStep, PayloadColumns, ScopedKey, DocHasRow, Includes,
         RowStep, Changed;
    DoneShape(ct, c, r, NoFault);
    var row := c.rows[k];
    assert RowAgrees(c, k, payloadOf, kindOf);
    if Searchable(k.kind) && Searchable(r.kind) {
      if ScopedKey(k.tenant, k.urn) == ScopedKey(r.tenant, r.urn) {
        ScopedKeyInjective(k.tenant, k.urn, r.tenant, r.urn);
      }
    }
    if Searchable(k.kind) && !Searchable(r.kind) {
      UnsearchableKeepsDocs(c.docs, r);
    }
    if !row.isDeleted && row.hash.Some? && RoutesToGraph(r.kind) && Changed(c, r) {
      GraphWriteFrame(c.graph, r, k, payloadOf(row.hash.value));
    }
  }

  lemma UnsearchableKeepsDocs(docs: map<string, Doc>, r: Record)
    requires !Searchable(r.kind)
    ensures IndexEntity(docs, r) == docs
  {
  }

  lemma IndexedDocHasRow(ct: string, c: Catalog, r: Record, id: string, payloadOf: string -> Payload,
      kindOf: (string, string) -> Kind)
    requires Agree(c, payloadOf, kindOf) && Lawful(r, payloadOf, kindOf) && ProcessOne(ct, c, r).Done?
    requires id in ProcessOne(ct, c, r).catalog.docs
    ensures DocHasRow(ProcessOne(ct, c, r).catalog, id)
  {
    hide ProcessOne, UpsertGraph, BuildDocument, ScopedKey, RowAgrees, Project;
    DoneShape(ct, c, r, NoFault);
    BuiltDocument(r);
    if id in c.docs {
      assert DocHasRow(c, id);
    }
  }

  lemma StepKeepsAgree(ct: string, c: Catalog, r: Record, payloadOf: string -> Payload,
      kindOf: (string, string) -> Kind)
    requires Agree(c, payloadOf, kindOf) && Lawful(r, payloadOf, kindOf) && ProcessOne(ct, c, r).Done?
    ensures Agree(ProcessOne(ct, c, r).catalog, payloadOf, kindOf)
  {
    var c' := ProcessOne(ct, c, r).catalog;
    forall k | k in c'.rows ensures RowAgrees(c', k, payloadOf, kindOf) {
      hide ProcessOne, RowAgrees, DocHasRow, Lawful, RowStep;
      DoneShape(ct, c, r, NoFault);
      if k == KeyOf(r) && RoutesToRelational(r.kind) {
        OwnRowAgrees(ct, c, r, payloadOf, kindOf);
      } else {
        OtherRowAgrees(ct, c, r, k, payloadOf, kindOf);
      }
    }
    forall id | id in c'.docs ensures DocHasRow(c', id) {
      hide ProcessOne, RowAgrees, DocHasRow, Lawful;
      IndexedDocHasRow(ct, c, r, id, payloadOf, kindOf);
    }
    hide ProcessOne, RowAgrees, DocHasRow, Lawful;
  }

  lemma {:induction false} RunKeepsAgree(ct: string, c: Catalog, rs: seq<Record>, payloadOf: string -> Payload,
      kindOf: (string, string) -> Kind)
    requires Agree(c, payloadOf, kindOf) && AllLawful(rs, payloadOf, kindOf) && ProcessAll(ct, c, rs).Done?
    ensures Agree(ProcessAll(ct, c, rs).catalog, payloadOf, kindOf)
    decreases |rs|
  {
    if rs != [] {
      assert Lawful(rs[0], payloadOf, kindOf);
      StepKeepsAgree(ct, c, rs[0], payloadOf, kindOf);
      RunKeepsAgree(ct, ProcessOne(ct, c, rs[0]).catalog, rs[1..], payloadOf, kindOf);
    }
  }

  // ---------------------------------------------------------------- skipping refines always writing

  lemma RowsCongruent(a: map<RowKey, Row>, b: map<RowKey, Row>, r: Record)
    requires SameRows(a, b)
    ensures SameRows(Store(a, KeyOf(r), AlwaysRow(Lookup(a, KeyOf(r)), r)),
              Store(b, KeyOf(r), AlwaysRow(Lookup(b, KeyOf(r)), r)))
  {
    assert KeyOf(r) in a <==> KeyOf(r) in b;
  }

  lemma RowsIdle(a: map<RowKey, Row>, b: map<RowKey, Row>, r: Record)
    requires SameRows(a, b) && Unchanged(Lookup(a, KeyOf(r)), r)
    requires Includes(a[KeyOf(r)].columns, Project(r.kind, r.payload)) && a[KeyOf(r)].sourceConn == r.sourceConn
    ensures SameRows(UpsertRow(a, r), Store(b, KeyOf(r), AlwaysRow(Lookup(b, KeyOf(r)), r)))
  {
    var k := KeyOf(r);
    assert b[k].columns + Project(r.kind, r.payload) == b[k].columns;
  }

  lemma DocsCongruent(a: map<string, Doc>, b: map<string, Doc>, r: Record)
    requires SameDocs(a, b)
    ensures SameDocs(IndexEntity(a, r), IndexEntity(b, r))
  {
    assert DocIdOf(r) in a <==> DocIdOf(r) in b;
  }

  lemma DocsIdle(a: map<string, Doc>, b: map<string, Doc>, r: Record)
    requires SameDocs(a, b) && r.op.Upsert?
    requires Searchable(r.kind) ==> DocIdOf(r) in a && SameDoc(a[DocIdOf(r)], BuildDocument(r))
    ensures SameDocs(a, IndexEntity(b, r))
  {
  }

  lemma SameGraphHolds(a: Graph, b: Graph, k: RowKey, payload: Payload)
    requires SameGraph(a, b) && GraphHolds(a, k, payload)
    ensures GraphHolds(b, k, payload)
  {
  }

  lemma SameGraphTransitive(a: Graph, b: Graph, c: Graph)
    requires SameGraph(a, b) && SameGraph(b, c)
    ensures SameGraph(a, c)
  {
  }

  lemma SkipShape(ct: string, s: Catalog, r: Record)
    requires RoutesToRelational(r.kind) && Unchanged(Lookup(s.rows, KeyOf(r)), r)
    ensures ProcessOne(ct, s, r) ==
            Done(s.(rows := UpsertRow(s.rows, r), events := s.events + [EventOf(ct, r, EntityUnchanged)]))
  {
    hide UpsertGraph, IndexEntity;
  }

  lemma AlwaysShape(ct: string, a: Catalog, r: Record)
    requires RoutesToRelational(r.kind) && UpsertGraph(a.graph, r).Some?
    ensures AlwaysOne(ct, a, r) ==
            Done(Catalog(Store(a.rows, KeyOf(r), AlwaysRow(Lookup(a.rows, KeyOf(r)), r)), UpsertGraph(a.graph, r).value,
                         if RoutesToSearch(r.kind) then IndexEntity(a.docs, r) else a.docs,
                         a.events + [EventOf(ct, r, EventTypeOf(r, true))]))
  {
    hide UpsertGraph, IndexEntity, AlwaysRow, Lookup, Store;
  }

  /** What agreement says of a row that an upsert finds unchanged. */
  lemma UnchangedFacts(s: Catalog, r: Record, payloadOf: string -> Payload, kindOf: (string, string) -> Kind)
    requires Agree(s, payloadOf, kindOf) && Lawful(r, payloadOf, kindOf) && Unchanged(Lookup(s.rows, KeyOf(r)), r)
    ensures Includes(s.rows[KeyOf(r)].columns, Project(r.kind, r.payload))
    ensures s.rows[KeyOf(r)].sourceConn == r.sourceConn
    ensures GraphHolds(s.graph, KeyOf(r), r.payload) && r.sourceConn == SourceConnOf(r.payload)
    ensures Searchable(r.kind) ==> DocIdOf(r) in s.docs && SameDoc(s.docs[DocIdOf(r)], BuildDocument(r))
  {
    hide GraphHolds, UpsertGraph, BuildDocument, DocFor, PayloadColumns, Includes, ScopedKey;
    assert RowAgrees(s, KeyOf(r), payloadOf, kindOf);
    DocAfterUpsert(r, payloadOf, kindOf);
    BuiltDocument(r);
  }

  lemma SkipStepRefines(ct: string, s: Catalog, a: Catalog, r: Record, payloadOf: string -> Payload,
      kindOf: (string, string) -> Kind)
    requires Agree(s, payloadOf, kindOf) && SameCatalog(s, a) && Lawful(r, payloadOf, kindOf)
    requires RoutesToRelational(r.kind) && Unchanged(Lookup(s.rows, KeyOf(r)), r)
    ensures ProcessOne(ct, s, r).Done? && AlwaysOne(ct, a, r).Done?
    ensures SameCatalog(ProcessOne(ct, s, r).catalog, AlwaysOne(ct, a, r).catalog)
  {
    hide Agree, SameRows, SameDocs, SameGraph, GraphHolds, Lawful, Includes, SameDoc;
    hide ProcessOne, AlwaysOne, UpsertGraph, IndexEntity, Store, AlwaysRow, UpsertRow, BuildDocument, Project, Lookup;
    UnchangedFacts(s, r, payloadOf, kindOf);
    SkipShape(ct, s, r);
    RowsIdle(s.rows, a.rows, r);
    SameGraphHolds(s.graph, a.graph, KeyOf(r), r.payload);
    GraphWriteIdle(a.graph, r);
    AlwaysShape(ct, a, r);
    SameGraphTransitive(s.graph, a.graph, UpsertGraph(a.graph, r).value);
    DocsIdle(s.docs, a.docs, r);
  }

  /** When nothing is skipped the two workers write the same things. */
  lemma WriteShapes(ct: string, s: Catalog, a: Catalog, r: Record)
    requires !(RoutesToRelational(r.kind) && Unchanged(Lookup(s.rows, KeyOf(r)), r))
    requires UpsertGraph(s.graph, r).Some? == UpsertGraph(a.graph, r).Some?
    requires AlwaysOne(ct, a, r).Done?
    ensures ProcessOne(ct, s, r).Done? && (Changed(s, r) || !RoutesToRelational(r.kind))
    ensures RoutesToRelational(r.kind) ==> RowStep(Lookup(s.rows, KeyOf(r)), r) == AlwaysRow(Lookup(s.rows, KeyOf(r)), r)
    ensures AlwaysOne(ct, a, r).catalog.rows ==
            if RoutesToRelational(r.kind) then Store(a.rows, KeyOf(r), AlwaysRow(Lookup(a.rows, KeyOf(r)), r)) else a.rows
    ensures AlwaysOne(ct, a, r).catalog.docs == if RoutesToSearch(r.kind) then IndexEntity(a.docs, r) else a.docs
    ensures if RoutesToGraph(r.kind) then UpsertGraph(a.graph, r) == Some(AlwaysOne(ct, a, r).catalog.graph)
            else AlwaysOne(ct, a, r).catalog.graph == a.graph
  {
    hide UpsertGraph, IndexEntity, WriteRow, TombstoneRow;
  }

  lemma StepRefines(ct: string, s: Catalog, a: Catalog, r: Record, payloadOf: string -> Payload,
      kindOf: (string, string) -> Kind)
    requires Agree(s, payloadOf, kindOf) && SameCatalog(s, a) && Lawful(r, payloadOf, kindOf)
    requires AlwaysOne(ct, a, r).Done?
    ensures ProcessOne(ct, s, r).Done?
    ensures SameCatalog(ProcessOne(ct, s, r).catalog, AlwaysOne(ct, a, r).catalog)
  {
    if RoutesToRelational(r.kind) && Unchanged(Lookup(s.rows, KeyOf(r)), r) {
      SkipStepRefines(ct, s, a, r, payloadOf, kindOf);
    } else {
      hide Agree, Lawful, SameRows, SameDocs, SameGraph, UpsertGraph, IndexEntity, ProcessOne, AlwaysOne, AlwaysRow,
           RowStep;
      GraphWriteCongruent(s.graph, a.graph, r);
      WriteShapes(ct, s, a, r);
      DoneShape(ct, s, r, NoFault);
      RowsCongruent(s.rows, a.rows, r);
      DocsCongruent(s.docs, a.docs, r);
    }
  }

  lemma {:induction false} RunRefines(ct: string, s: Catalog, a: Catalog, rs: seq<Record>,
      payloadOf: string -> Payload, kindOf: (string, string) -> Kind)
    requires Agree(s, payloadOf, kindOf) && SameCatalog(s, a) && AllLawful(rs, payloadOf, kindOf)
    requires AlwaysAll(ct, a, rs).Done?
    ensures ProcessAll(ct, s, rs).Done?
    ensures SameCatalog(ProcessAll(ct, s, rs).catalog, AlwaysAll(ct, a, rs).catalog)
    decreases |rs|
  {
    if rs != [] {
      assert Lawful(rs[0], payloadOf, kindOf);
      StepRefines(ct, s, a, rs[0], payloadOf, kindOf);
      StepKeepsAgree(ct, s, rs[0], payloadOf, kindOf);
      RunRefines(ct, ProcessOne(ct, s, rs[0]).catalog, AlwaysOne(ct, a, rs[0]).catalog, rs[1..], payloadOf, kindOf);
    }
  }
}
