/** What the stores hold after a run of the fan-out worker, read off the records of the run field by field: every live
    row has one record of the run that its columns, its document, its node or edge and its relationships show; and
    every relationship and edge of the graph is named by some record. */
module Contents {
  import opened Types
  import opened Catalog
  import opened Projections
  import opened Reapply
  import opened Tenancy

  // ---------------------------------------------------------------- the contents of a record, literally

  predicate Upserts(r: Record, k: RowKey) {
    r.op.Upsert? && r.kind == k.kind && r.tenant == k.tenant && r.urn == k.urn
  }

  /** A live row with the record's hash, origin and columns. A column the payload lacks may hold an older value. */
  ghost predicate RowHolds(row: Row, r: Record) {
    !row.isDeleted && RowBears(row, r)
  }

  ghost predicate RowBears(row: Row, r: Record) {
    && row.hash == r.hash && row.dataPlane == r.dataPlane && row.sourceConn == r.sourceConn
    && forall f :: f in r.payload && f in PayloadColumns(r.kind) ==> f in row.columns && row.columns[f] == r.payload[f]
  }

  /** A live document with the record's identity, origin and times that shows its payload. */
  ghost predicate DocHolds(d: Doc, r: Record) {
    && d.tenant == r.tenant && d.urn == r.urn && d.kind == r.kind && !d.isDeleted
    && d.dataPlane == r.dataPlane && d.sourceConn == r.sourceConn && d.lastScraped == r.at
    && d.firstSeen == (if Truthy(Get(r.payload, FirstSeenAt)) then Given(Get(r.payload, FirstSeenAt)) else At(r.at))
    && ShowsPayload(d, r.payload)
  }

  /** A live node with the record's origin and time; each non-null payload field is a property, as it is when it is a
      scalar or a list of scalars, and as JSON text otherwise. */
  ghost predicate NodeHolds(n: Node, r: Record) {
    && n.isDeleted == Some(false) && n.dataPlane == Some(r.dataPlane) && n.sourceConn == Some(r.sourceConn)
    && n.lastScraped == Some(r.at)
    && forall f :: f in r.payload && r.payload[f] != Null ==> f in n.props && HasValue(n.props[f], r.payload[f])
  }

  predicate HasValue(prop: Prop, j: Json) {
    match j
    case Bool(_) => prop == Plain(j)
    case Num(_) => prop == Plain(j)
    case Str(_) => prop == Plain(j)
    case List(items) =>
      var scalars := forall i :: 0 <= i < |items| ==> items[i].Bool? || items[i].Num? || items[i].Str?;
      prop == if scalars then Plain(j) else Dumped(j)
    case _ => prop == Dumped(j)
  }

  /** The payload names this node: its urn under one field, the wire name of its label under the other. */
  predicate NamesNode(r: Record, urn: Field, kind: Field, n: NodeId) {
    && n.EntityNode? && n.tenant == r.tenant
    && Get(r.payload, urn) == Str(n.urn) && Get(r.payload, kind) == Str(KindName(n.kind))
    && n.kind in [Table, Column, Dataset, Job, Dashboard]
  }

  /** The edge from the downstream to the upstream entity that the record names. */
  predicate EdgeFrom(k: DerivesKey, r: Record) {
    && r.kind.LineageEdge? && r.op.Upsert? && k.tenant == r.tenant && k.urn == r.urn
    && NamesNode(r, UpstreamUrn, UpstreamEntityType, k.up) && NamesNode(r, DownstreamUrn, DownstreamEntityType, k.down)
  }

  /** The relationships a record names: a table has the column, an entity is owned, a job produces the downstream end of
      an edge and consumes its upstream end. */
  ghost predicate LinkFrom(l: Link, r: Record) {
    var self := EntityNode(r.kind, r.tenant, r.urn);
    r.op.Upsert? &&
    match l.rel
    case HasColumn =>
      && r.kind.Column? && l.to == self
      && l.from.EntityNode? && l.from.kind.Table? && l.from.tenant == r.tenant
      && l.from.urn != "" && Get(r.payload, TableUrn) == Str(l.from.urn)
    case OwnedBy =>
      && !r.kind.LineageEdge? && l.from == self
      && l.to == OwnerNode(r.tenant, Get(r.payload, Field.Owner)) && Truthy(Get(r.payload, Field.Owner))
    case Produces =>
      IsProducer(l.from, r) && NamesNode(r, DownstreamUrn, DownstreamEntityType, l.to) && NamesUpstream(r)
    case Consumes =>
      IsProducer(l.from, r) && NamesNode(r, UpstreamUrn, UpstreamEntityType, l.to) && NamesDownstream(r)
  }

  predicate IsProducer(n: NodeId, r: Record) {
    && r.kind.LineageEdge? && n.EntityNode? && n.kind.Job? && n.tenant == r.tenant
    && n.urn != "" && Get(r.payload, ProducerJobUrn) == Str(n.urn)
  }

  ghost predicate NamesUpstream(r: Record) {
    exists n :: NamesNode(r, UpstreamUrn, UpstreamEntityType, n)
  }

  ghost predicate NamesDownstream(r: Record) {
    exists n :: NamesNode(r, DownstreamUrn, DownstreamEntityType, n)
  }

  /** An edge of the graph with the record's ends, its confidence and granularity or their defaults, not flagged. */
  ghost predicate EdgeHolds(g: Graph, r: Record) {
    exists k :: EdgeFrom(k, r) && k in g.derives && EdgeShows(g.derives[k], r)
  }

  predicate EdgeShows(d: Derives, r: Record) {
    && !d.isDeleted && d.lastConfirmed == r.at
    && d.confidence == (if Confidence in r.payload then r.payload[Confidence] else Str("inferred"))
    && d.granularity == if EdgeGranularity in r.payload then r.payload[EdgeGranularity] else Str("table_level")
  }

  ghost predicate GraphShows(g: Graph, r: Record) {
    && (forall l :: LinkFrom(l, r) ==> l in g.links)
    && if r.kind.LineageEdge? then EdgeHolds(g, r)
       else
         var self := EntityNode(r.kind, r.tenant, r.urn);
         self in g.nodes && NodeHolds(g.nodes[self], r)
  }

  /** The row of this key, its document and its part of the graph all show this one record. */
  ghost predicate HeldAs(c: Catalog, k: RowKey, r: Record) {
    && Upserts(r, k) && k in c.rows && RowHolds(c.rows[k], r) && GraphShows(c.graph, r)
    && (Searchable(k.kind) ==> ScopedKey(k.tenant, k.urn) in c.docs && DocHolds(c.docs[ScopedKey(k.tenant, k.urn)], r))
  }

  /** A tombstoned row: its document is flagged, and its node or every edge filed under its urn. */
  ghost predicate GoneAs(c: Catalog, k: RowKey) {
    && k in c.rows && c.rows[k].isDeleted
    && (Searchable(k.kind) ==>
          var id := ScopedKey(k.tenant, k.urn);
          id in c.docs && c.docs[id].isDeleted && c.docs[id].kind == k.kind)
    && if k.kind.LineageEdge? then
         forall e :: e in c.graph.derives && e.tenant == k.tenant && e.urn == k.urn ==> c.graph.derives[e].isDeleted
       else
         var self := EntityNode(k.kind, k.tenant, k.urn);
         self in c.graph.nodes && c.graph.nodes[self].isDeleted == Some(true)
  }

  // ---------------------------------------------------------------- the writes, literally

  /** Every payload field that is told apart here fills a column of some entity table, but for the connection, whose column
      is filled from the record itself, and the first sighting, which only documents show. */
  lemma FieldsAreColumns(f: Field)
    ensures (exists kind :: f in PayloadColumns(kind)) <==> !f.Other? && f != SourceConnectionId && f != FirstSeenAt
  {
    if f in PayloadColumns(Table) {
    } else if f in PayloadColumns(Column) {
    } else if f in PayloadColumns(Dataset) {
    } else if f in PayloadColumns(Job) {
    } else {
      assert f in PayloadColumns(LineageEdge) || f.Other? || f == SourceConnectionId || f == FirstSeenAt;
    }
  }

  lemma KindNamedIs(j: Json, kind: Kind)
    ensures KindNamed(j) == Some(kind) <==> j == Str(KindName(kind)) && kind in [Table, Column, Dataset, Job, Dashboard]
  {
  }

  /** The endpoints of a payload are those it names. */
  lemma EndpointsAre(r: Record, ends: Endpoints)
    ensures EndpointsOf(r.tenant, r.payload) == Some(ends) <==>
            && NamesNode(r, UpstreamUrn, UpstreamEntityType, ends.up)
            && NamesNode(r, DownstreamUrn, DownstreamEntityType, ends.down)
  {
    hide KindNamed, KindName;
    if ends.up.EntityNode? && ends.down.EntityNode? {
      KindNamedIs(Get(r.payload, UpstreamEntityType), ends.up.kind);
      KindNamedIs(Get(r.payload, DownstreamEntityType), ends.down.kind);
    }
  }

  /** The edge that an upsert writes runs from its downstream to its upstream end. */
  lemma EdgeIs(r: Record, k: DerivesKey)
    requires r.kind.LineageEdge? && r.op.Upsert?
    ensures EdgeFrom(k, r) <==>
            EndpointsOf(r.tenant, r.payload).Some? &&
            k == DerivesKeyOf(EndpointsOf(r.tenant, r.payload).value, r.tenant, r.urn)
  {
    EndpointsAre(r, Endpoints(k.up, k.down));
    if EndpointsOf(r.tenant, r.payload).Some? {
      EndpointsAre(r, EndpointsOf(r.tenant, r.payload).value);
    }
    hide NamesNode, EndpointsOf;
  }

  lemma NonEmptyStringIs(p: Payload, f: Field, s: string)
    ensures NonEmptyString(p, f) == Some(s) <==> s != "" && Get(p, f) == Str(s)
  {
  }

  /** The relationships that an upsert merges are those its payload names. */
  lemma LinksAre(r: Record, l: Link)
    requires r.op.Upsert?
    ensures l in LinksOf(r.kind, r.tenant, r.urn, r.payload) <==> LinkFrom(l, r)
  {
    if r.kind.LineageEdge? {
      JobLinksAre(r, l);
    } else {
      hide Truthy, NonEmptyString, NamesNode;
      if l.from.EntityNode? {
        NonEmptyStringIs(r.payload, TableUrn, l.from.urn);
      }
    }
  }

  lemma JobLinksAre(r: Record, l: Link)
    requires r.op.Upsert? && r.kind.LineageEdge?
    ensures l in LinksOf(r.kind, r.tenant, r.urn, r.payload) <==> LinkFrom(l, r)
  {
    hide NonEmptyString, NamesNode, EndpointsOf;
    forall up, down
      ensures EndpointsOf(r.tenant, r.payload) == Some(Endpoints(up, down)) <==>
              NamesNode(r, UpstreamUrn, UpstreamEntityType, up) && NamesNode(r, DownstreamUrn, DownstreamEntityType, down)
    {
      EndpointsAre(r, Endpoints(up, down));
    }
    if l.from.EntityNode? {
      NonEmptyStringIs(r.payload, ProducerJobUrn, l.from.urn);
    }
    if NonEmptyString(r.payload, ProducerJobUrn).Some? {
      NonEmptyStringIs(r.payload, ProducerJobUrn, NonEmptyString(r.payload, ProducerJobUrn).value);
    }
  }

  lemma RowWritten(x: Option<Row>, r: Record)
    requires r.op.Upsert? && !Unchanged(x, r)
    ensures RowStep(x, r).Some? && RowHolds(RowStep(x, r).value, r)
  {
    hide PayloadColumns;
    var row := WriteRow(x, r);
    forall f | f in r.payload && f in PayloadColumns(r.kind) ensures f in row.columns && row.columns[f] == r.payload[f] {
      assert f in Project(r.kind, r.payload);
    }
  }

  lemma DocWritten(r: Record)
    ensures DocHolds(BuildDocument(r), r)
  {
  }

  lemma NodeWritten(x: Option<Node>, r: Record)
    requires r.op.Upsert?
    ensures NodeHolds(MergeNode(x, r), r)
  {
    var n := MergeNode(x, r);
    forall f | f in r.payload && r.payload[f] != Null ensures f in n.props && HasValue(n.props[f], r.payload[f]) {
      assert f in SanitizeProps(r.payload);
      SanitizedIs(r.payload[f]);
    }
  }

  lemma SanitizedIs(j: Json)
    requires j != Null
    ensures HasValue(SanitizeValue(j), j)
  {
  }

  lemma GraphWritten(g: Graph, r: Record)
    requires r.op.Upsert? && UpsertGraph(g, r).Some?
    ensures GraphShows(UpsertGraph(g, r).value, r)
  {
    var g' := UpsertGraph(g, r).value;
    hide LinkFrom, LinksOf, BareNodesOf, MergeNode, NodeHolds, EndpointsOf, EdgeFrom;
    forall l | LinkFrom(l, r) ensures l in g'.links {
      LinksAre(r, l);
    }
    if r.kind.LineageEdge? {
      var k := DerivesKeyOf(EndpointsOf(r.tenant, r.payload).value, r.tenant, r.urn);
      EdgeIs(r, k);
      assert EdgeShows(g'.derives[k], r);
    } else {
      NodeWritten(Lookup(g.nodes, NodeOf(r)), r);
    }
  }

  /** The record is of a column and names the column's table. */
  predicate NamesTable(r: Record) {
    r.kind.Column? && Get(r.payload, TableUrn).Str? && Get(r.payload, TableUrn).s != ""
  }

  /** The relationships that are there once n transactions of a write have been committed: the node or edge comes first
      and alone, then a column's table, then the owner; an edge's two job relationships come together. */
  predicate CommittedBy(r: Record, rel: Rel, n: nat) {
    match rel
    case HasColumn => n >= 2
    case OwnedBy => n >= if NamesTable(r) then 3 else 2
    case _ => n >= 2
  }

  /** Main result on a graph write that raises after n of its transactions, n at least one: the node shows the record, or
      the edge is there, and of the relationships the record names exactly the committed ones are. */
  lemma InterruptedWriteLeaves(g: Graph, r: Record, n: nat)
    requires r.op.Upsert? && UpsertGraph(g, r).Some? && n >= 1
    ensures var part := GraphPart(g, r, n);
            && (forall l :: l in part.links <==> l in g.links || (LinkFrom(l, r) && CommittedBy(r, l.rel, n)))
            && (forall e :: e in part.derives <==> e in g.derives || EdgeFrom(e, r))
            && (!r.kind.LineageEdge? ==>
                  var self := EntityNode(r.kind, r.tenant, r.urn);
                  self in part.nodes && NodeHolds(part.nodes[self], r))
  {
    hide LinkFrom, EdgeFrom, NodeHolds, MergeNode, BareNodesOf, LinkEnds;
    var part := GraphPart(g, r, n);
    if r.kind.LineageEdge? {
      InterruptedEdge(g, r, n);
    } else {
      NodeWritten(Lookup(g.nodes, NodeOf(r)), r);
      forall l ensures l in part.links <==> l in g.links || (LinkFrom(l, r) && CommittedBy(r, l.rel, n)) {
        FirstLinksAre(r, n - 1, l);
      }
      NoEdgeFrom(r);
    }
  }

  lemma NoEdgeFrom(r: Record)
    ensures !r.kind.LineageEdge? ==> forall e :: !EdgeFrom(e, r)
  {
  }

  lemma FirstLinksAre(r: Record, n: nat, l: Link)
    requires r.op.Upsert? && !r.kind.LineageEdge?
    ensures l in FirstLinks(r, n) <==> LinkFrom(l, r) && CommittedBy(r, l.rel, n + 1)
  {
    LinksAre(r, l);
    hide Truthy;
  }

  lemma InterruptedEdge(g: Graph, r: Record, n: nat)
    requires r.op.Upsert? && r.kind.LineageEdge? && UpsertGraph(g, r).Some? && n >= 1
    ensures var part := GraphPart(g, r, n);
            && (forall l :: l in part.links <==> l in g.links || (LinkFrom(l, r) && CommittedBy(r, l.rel, n)))
            && (forall e :: e in part.derives <==> e in g.derives || EdgeFrom(e, r))
  {
    hide LinkFrom, EdgeFrom, BareNodesOf, MergeDerives, EndpointsOf, LinksOf;
    var part := GraphPart(g, r, n);
    forall e ensures e in part.derives <==> e in g.derives || EdgeFrom(e, r) {
      EdgeIs(r, e);
    }
    forall l ensures l in part.links <==> l in g.links || (LinkFrom(l, r) && CommittedBy(r, l.rel, n)) {
      LinksAre(r, l);
      JobLinksOnly(r, l);
    }
  }

  lemma JobLinksOnly(r: Record, l: Link)
    ensures r.kind.LineageEdge? && LinkFrom(l, r) ==> l.rel.Produces? || l.rel.Consumes?
  {
  }

  // ---------------------------------------------------------------- one record

  /** What a write for another key leaves of this one. */
  ghost predicate KeepsPart(g: Graph, g': Graph, k: RowKey) {
    && g.links <= g'.links
    && if k.kind.LineageEdge? then
         forall e: DerivesKey :: e.tenant == k.tenant && e.urn == k.urn ==> Lookup(g'.derives, e) == Lookup(g.derives, e)
       else
         var self := EntityNode(k.kind, k.tenant, k.urn);
         self in g.nodes ==> self in g'.nodes && g'.nodes[self] == g.nodes[self]
  }

  lemma GraphFrame(g: Graph, r: Record, k: RowKey)
    requires UpsertGraph(g, r).Some? && k != KeyOf(r)
    ensures KeepsPart(g, UpsertGraph(g, r).value, k)
  {
    hide LinksOf, BareNodesOf, EndpointsOf, MergeNode, MergeDerives;
  }

  lemma PartIsShown(g: Graph, g': Graph, k: RowKey, h: Record)
    requires KeepsPart(g, g', k) && Upserts(h, k) && GraphShows(g, h)
    ensures GraphShows(g', h)
  {
    hide LinkFrom, NodeHolds, EdgeShows, NamesNode;
    if h.kind.LineageEdge? {
      var e :| EdgeFrom(e, h) && e in g.derives && EdgeShows(g.derives[e], h);
      assert Lookup(g'.derives, e) == Lookup(g.derives, e);
    }
  }

  lemma PartIsGone(c: Catalog, d: Catalog, k: RowKey)
    requires GoneAs(c, k) && KeepsPart(c.graph, d.graph, k) && k in d.rows && d.rows[k] == c.rows[k]
    requires Searchable(k.kind) ==> SameDocAt(c.docs, d.docs, ScopedKey(k.tenant, k.urn))
    ensures GoneAs(d, k)
  {
    hide ScopedKey;
    if k.kind.LineageEdge? {
      forall e | e in d.graph.derives && e.tenant == k.tenant && e.urn == k.urn ensures d.graph.derives[e].isDeleted {
        assert Lookup(d.graph.derives, e) == Lookup(c.graph.derives, e);
      }
    }
  }

  predicate SameDocAt(docs: map<string, Doc>, docs': map<string, Doc>, id: string) {
    Lookup(docs', id) == Lookup(docs, id)
  }

  /** A searchable urn keeps one entity type, and tenants are colon-free. */
  predicate KeysApart(k: RowKey, r: Record) {
    && ColonFree(k.tenant) && ColonFree(r.tenant)
    && (Searchable(k.kind) && Searchable(r.kind) && k.tenant == r.tenant && k.urn == r.urn ==> k.kind == r.kind)
  }

  /** A record for another key leaves this key's row, document and part of the graph. */
  lemma OtherKeyStays(ct: string, c: Catalog, r: Record, k: RowKey)
    requires ProcessOne(ct, c, r).Done? && k in c.rows && k != KeyOf(r) && KeysApart(k, r)
    ensures var d := ProcessOne(ct, c, r).catalog;
            && k in d.rows && d.rows[k] == c.rows[k] && KeepsPart(c.graph, d.graph, k)
            && (Searchable(k.kind) ==> SameDocAt(c.docs, d.docs, ScopedKey(k.tenant, k.urn)))
  {
    hide ProcessOne, UpsertGraph, RowStep, BuildDocument, ScopedKey, Changed, KeepsPart;
    DoneShape(ct, c, r, NoFault);
    PartStays(c.graph, k);
    if UpsertGraph(c.graph, r).Some? {
      GraphFrame(c.graph, r, k);
    }
    if Searchable(k.kind) && Searchable(r.kind) && ScopedKey(k.tenant, k.urn) == ScopedKey(r.tenant, r.urn) {
      ScopedKeyInjective(k.tenant, k.urn, r.tenant, r.urn);
    }
  }

  lemma PartStays(g: Graph, k: RowKey)
    ensures KeepsPart(g, g, k)
  {
  }

  /** Why a row is as it is, after these records. */
  ghost predicate Accounted(c: Catalog, k: RowKey, rs: seq<Record>)
    requires k in c.rows
  {
    && (exists i :: 0 <= i < |rs| && Upserts(rs[i], k))
    && if c.rows[k].isDeleted then GoneAs(c, k) else exists i :: 0 <= i < |rs| && HeldAs(c, k, rs[i])
  }

  lemma OtherKeyAccounted(ct: string, c: Catalog, r: Record, k: RowKey, rs: seq<Record>)
    requires ProcessOne(ct, c, r).Done? && k in c.rows && k != KeyOf(r) && KeysApart(k, r) && Accounted(c, k, rs)
    ensures k in ProcessOne(ct, c, r).catalog.rows && Accounted(ProcessOne(ct, c, r).catalog, k, rs + [r])
  {
    OtherKeyStays(ct, c, r, k);
    hide ProcessOne, KeepsPart, ScopedKey, RowHolds, DocHolds, GraphShows, GoneAs, KeysApart;
    var d := ProcessOne(ct, c, r).catalog;
    var i :| 0 <= i < |rs| && Upserts(rs[i], k);
    assert (rs + [r])[i] == rs[i];
    if c.rows[k].isDeleted {
      PartIsGone(c, d, k);
    } else {
      var j :| 0 <= j < |rs| && HeldAs(c, k, rs[j]);
      PartIsShown(c.graph, d.graph, k, rs[j]);
      assert HeldAs(d, k, (rs + [r])[j]);
    }
  }

  /** The record's own row. */
  lemma OwnKeyAccounted(ct: string, c: Catalog, r: Record, rs: seq<Record>)
    requires ProcessOne(ct, c, r).Done? && (KeyOf(r) in c.rows ==> Accounted(c, KeyOf(r), rs))
    requires KeyOf(r) in ProcessOne(ct, c, r).catalog.rows && RoutesToRelational(r.kind)
    ensures Accounted(ProcessOne(ct, c, r).catalog, KeyOf(r), rs + [r])
  {
    hide ProcessOne, UpsertGraph, GraphShows, RowHolds, DocHolds, BuildDocument, ScopedKey, WriteRow, Accounted;
    DoneShape(ct, c, r, NoFault);
    var k, d := KeyOf(r), ProcessOne(ct, c, r).catalog;
    assert (rs + [r])[|rs|] == r;
    if r.op.Delete? {
      DeleteIsAccounted(c, d, r, rs);
    } else if Unchanged(Lookup(c.rows, k), r) {
      SkipIsAccounted(c, d, r, rs);
    } else {
      RowWritten(Lookup(c.rows, k), r);
      GraphWritten(c.graph, r);
      DocWritten(r);
      assert HeldAs(d, k, (rs + [r])[|rs|]);
      LiveIsAccounted(d, k, rs + [r], |rs|);
    }
  }

  lemma LiveIsAccounted(d: Catalog, k: RowKey, rs: seq<Record>, i: nat)
    requires i < |rs| && HeldAs(d, k, rs[i])
    ensures Accounted(d, k, rs)
  {
    hide GraphShows, DocHolds;
  }

  lemma SkipIsAccounted(c: Catalog, d: Catalog, r: Record, rs: seq<Record>)
    requires var k := KeyOf(r); k in c.rows && !c.rows[k].isDeleted && Accounted(c, k, rs)
    requires var k := KeyOf(r); k in d.rows && d.rows[k] == c.rows[k].(lastScraped := r.at)
    requires d.graph == c.graph && d.docs == c.docs
    ensures Accounted(d, KeyOf(r), rs + [r])
  {
    hide GraphShows, DocHolds, ScopedKey;
    var k := KeyOf(r);
    var i :| 0 <= i < |rs| && HeldAs(c, k, rs[i]);
    assert (rs + [r])[i] == rs[i];
    assert HeldAs(d, k, rs[i]);
  }

  lemma DeleteIsAccounted(c: Catalog, d: Catalog, r: Record, rs: seq<Record>)
    requires r.op.Delete? && RoutesToRelational(r.kind) && KeyOf(r) in c.rows && Accounted(c, KeyOf(r), rs)
    requires d.rows == UpsertRow(c.rows, r) && UpsertGraph(c.graph, r) == Some(d.graph)
    requires d.docs == if RoutesToSearch(r.kind) then IndexEntity(c.docs, r) else c.docs
    ensures Accounted(d, KeyOf(r), rs + [r])
  {
    hide GraphShows, BuildDocument, ScopedKey, LinksOf, BareNodesOf, EndpointsOf, SanitizeProps, ShowsPayload;
    var k := KeyOf(r);
    var i :| 0 <= i < |rs| && Upserts(rs[i], k);
    assert (rs + [r])[i] == rs[i];
    assert GoneAs(d, k);
  }

  // ---------------------------------------------------------------- runs

  ghost predicate AllAccounted(c: Catalog, rs: seq<Record>) {
    forall k :: k in c.rows ==> Accounted(c, k, rs)
  }

  ghost predicate TenantsColonFree(rs: seq<Record>) {
    forall i :: 0 <= i < |rs| ==> ColonFree(rs[i].tenant)
  }

  lemma StepAccounted(ct: string, c: Catalog, r: Record, rs: seq<Record>)
    requires OneKindPerUrn(rs + [r]) && TenantsColonFree(rs + [r])
    requires ProcessOne(ct, c, r).Done? && AllAccounted(c, rs)
    ensures AllAccounted(ProcessOne(ct, c, r).catalog, rs + [r])
  {
    hide ProcessOne, Accounted, OneKindPerUrn, TenantsColonFree;
    DoneShape(ct, c, r, NoFault);
    var d := ProcessOne(ct, c, r).catalog;
    forall k | k in d.rows ensures Accounted(d, k, rs + [r]) {
      if k == KeyOf(r) && RoutesToRelational(r.kind) {
        OwnKeyAccounted(ct, c, r, rs);
      } else {
        KeyIsApart(c, k, r, rs);
        if k == KeyOf(r) {
          UnroutedIsAccounted(ct, c, r, k, rs);
        } else {
          OtherKeyAccounted(ct, c, r, k, rs);
        }
      }
    }
  }

  lemma KeyIsApart(c: Catalog, k: RowKey, r: Record, rs: seq<Record>)
    requires OneKindPerUrn(rs + [r]) && TenantsColonFree(rs + [r]) && k in c.rows && Accounted(c, k, rs)
    ensures KeysApart(k, r)
  {
    hide GoneAs, HeldAs;
    var i :| 0 <= i < |rs| && Upserts(rs[i], k);
    var all := rs + [r];
    assert all[i] == rs[i] && all[|rs|] == r;
    assert SameSearchableUrn(all[i], all[|rs|]) ==> all[i].kind == all[|rs|].kind;
  }

  /** Keys of other kinds never get a row. */
  lemma UnroutedIsAccounted(ct: string, c: Catalog, r: Record, k: RowKey, rs: seq<Record>)
    requires ProcessOne(ct, c, r).Done? && k == KeyOf(r) && !RoutesToRelational(r.kind)
    requires k in c.rows && Accounted(c, k, rs)
    ensures k in ProcessOne(ct, c, r).catalog.rows && Accounted(ProcessOne(ct, c, r).catalog, k, rs + [r])
  {
    hide HeldAs, GoneAs;
    var d := ProcessOne(ct, c, r).catalog;
    assert d.rows == c.rows && d.graph == c.graph && d.docs == c.docs;
    var i :| 0 <= i < |rs| && Upserts(rs[i], k);
    assert (rs + [r])[i] == rs[i];
    SameStoresAccounted(c, d, k, rs, r);
  }

  lemma SameStoresAccounted(c: Catalog, d: Catalog, k: RowKey, rs: seq<Record>, r: Record)
    requires d.rows == c.rows && d.graph == c.graph && d.docs == c.docs && k in c.rows && Accounted(c, k, rs)
    ensures Accounted(d, k, rs + [r])
  {
    hide ScopedKey, RowHolds, DocHolds, GraphShows;
    var i :| 0 <= i < |rs| && Upserts(rs[i], k);
    assert (rs + [r])[i] == rs[i];
    if !c.rows[k].isDeleted {
      var j :| 0 <= j < |rs| && HeldAs(c, k, rs[j]);
      assert HeldAs(d, k, (rs + [r])[j]);
    }
  }

  lemma HypothesesBefore(all: seq<Record>, rs: seq<Record>)
    requires OneKindPerUrn(all) && TenantsColonFree(all) && rs <= all
    ensures OneKindPerUrn(rs) && TenantsColonFree(rs)
  {
    forall i, j | 0 <= i < |rs| && 0 <= j < |rs| && SameSearchableUrn(rs[i], rs[j]) ensures rs[i].kind == rs[j].kind {
      assert all[i] == rs[i] && all[j] == rs[j];
    }
  }

  lemma {:induction false} RunAccounted(ct: string, c: Catalog, before: seq<Record>, rs: seq<Record>)
    requires OneKindPerUrn(before + rs) && TenantsColonFree(before + rs)
    requires ProcessAll(ct, c, rs).Done? && AllAccounted(c, before)
    ensures AllAccounted(ProcessAll(ct, c, rs).catalog, before + rs)
    decreases |rs|
  {
    hide ProcessOne, AllAccounted, OneKindPerUrn, TenantsColonFree;
    if rs == [] {
      assert before + rs == before;
    } else {
      assert before + rs == (before + [rs[0]]) + rs[1..];
      HypothesesBefore(before + rs, before + [rs[0]]);
      StepAccounted(ct, c, rs[0], before);
      RunAccounted(ct, ProcessOne(ct, c, rs[0]).catalog, before + [rs[0]], rs[1..]);
    }
  }

  /** Main result, for every sequence of records that goes through: a live row is explained by one upsert of the
      sequence, which its columns, its document, its node or edge and its relationships all show, field by field; a
      tombstoned row's document, node and edges are all flagged. Hashes need not determine payloads for this. */
  lemma CatalogShowsItsRecords(ct: string, rs: seq<Record>, k: RowKey)
    requires OneKindPerUrn(rs) && TenantsColonFree(rs)
    requires ProcessAll(ct, EmptyCatalog, rs).Done? && k in ProcessAll(ct, EmptyCatalog, rs).catalog.rows
    ensures var c := ProcessAll(ct, EmptyCatalog, rs).catalog;
            && (c.rows[k].isDeleted ==> GoneAs(c, k))
            && (!c.rows[k].isDeleted ==> exists i :: 0 <= i < |rs| && HeldAs(c, k, rs[i]))
  {
    hide ProcessAll, GoneAs, HeldAs, OneKindPerUrn, TenantsColonFree;
    assert AllAccounted(EmptyCatalog, []);
    assert [] + rs == rs;
    RunAccounted(ct, EmptyCatalog, [], rs);
    assert Accounted(ProcessAll(ct, EmptyCatalog, rs).catalog, k, rs);
  }

  // ---------------------------------------------------------------- where everything comes from

  ghost predicate SomeEdgeFrom(rs: seq<Record>, e: DerivesKey) {
    exists i :: 0 <= i < |rs| && EdgeFrom(e, rs[i])
  }

  ghost predicate SomeLinkFrom(rs: seq<Record>, l: Link) {
    exists i :: 0 <= i < |rs| && LinkFrom(l, rs[i])
  }

  /** A node is the entity of a record or one end of a relationship or edge. */
  ghost predicate NodeIsKnown(g: Graph, rs: seq<Record>, n: NodeId) {
    || (exists i :: 0 <= i < |rs| && n == EntityNode(rs[i].kind, rs[i].tenant, rs[i].urn))
    || (exists l :: l in g.links && (n == l.from || n == l.to))
    || (exists e :: e in g.derives && (n == e.up || n == e.down))
  }

  /** The row's column got this value from an upsert of the row. */
  ghost predicate SomeColumnFrom(rs: seq<Record>, k: RowKey, f: Field, v: Json) {
    f in PayloadColumns(k.kind) &&
    exists i :: 0 <= i < |rs| && Upserts(rs[i], k) && f in rs[i].payload && rs[i].payload[f] == v
  }

  ghost predicate AllFromRecords(c: Catalog, rs: seq<Record>) {
    && (forall e :: e in c.graph.derives ==> SomeEdgeFrom(rs, e))
    && (forall l :: l in c.graph.links ==> SomeLinkFrom(rs, l))
    && (forall n :: n in c.graph.nodes ==> NodeIsKnown(c.graph, rs, n))
    && (forall k, f :: k in c.rows && f in c.rows[k].columns ==> SomeColumnFrom(rs, k, f, c.rows[k].columns[f]))
  }

  lemma OneMoreRecord(rs: seq<Record>, r: Record)
    ensures forall e :: SomeEdgeFrom(rs, e) || EdgeFrom(e, r) ==> SomeEdgeFrom(rs + [r], e)
    ensures forall l :: SomeLinkFrom(rs, l) || LinkFrom(l, r) ==> SomeLinkFrom(rs + [r], l)
    ensures forall k, f, v :: SomeColumnFrom(rs, k, f, v) ==> SomeColumnFrom(rs + [r], k, f, v)
  {
    hide EdgeFrom, LinkFrom, PayloadColumns, Upserts;
    var more := rs + [r];
    assert more[|rs|] == r && forall i :: 0 <= i < |rs| ==> more[i] == rs[i];
    forall e | SomeEdgeFrom(rs, e) ensures SomeEdgeFrom(more, e) {
      var i :| 0 <= i < |rs| && EdgeFrom(e, rs[i]);
      assert EdgeFrom(e, more[i]);
    }
    forall l | SomeLinkFrom(rs, l) ensures SomeLinkFrom(more, l) {
      var i :| 0 <= i < |rs| && LinkFrom(l, rs[i]);
      assert LinkFrom(l, more[i]);
    }
    forall k, f, v | SomeColumnFrom(rs, k, f, v) ensures SomeColumnFrom(more, k, f, v) {
      var i :| 0 <= i < |rs| && Upserts(rs[i], k) && f in rs[i].payload && rs[i].payload[f] == v;
      assert Upserts(more[i], k) && more[i].payload[f] == v;
    }
  }

  /** What an upsert adds to the graph it names. */
  lemma GraphGains(g: Graph, r: Record)
    requires UpsertGraph(g, r).Some?
    ensures var g' := UpsertGraph(g, r).value;
            && (forall e :: e in g'.derives <==> e in g.derives || EdgeFrom(e, r))
            && (forall l :: l in g'.links <==> l in g.links || LinkFrom(l, r))
  {
    var g' := UpsertGraph(g, r).value;
    hide LinksOf, BareNodesOf, LinkFrom, EdgeFrom, MergeNode, MergeDerives, EndpointsOf;
    DeletesNameNothing(r);
    forall l ensures l in g'.links <==> l in g.links || LinkFrom(l, r) {
      if r.op.Upsert? {
        LinksAre(r, l);
      }
    }
    forall e ensures e in g'.derives <==> e in g.derives || EdgeFrom(e, r) {
      if r.op.Upsert? && r.kind.LineageEdge? {
        EdgeIs(r, e);
      }
    }
  }

  lemma DeletesNameNothing(r: Record)
    ensures r.op.Delete? ==> (forall e :: !EdgeFrom(e, r)) && (forall l :: !LinkFrom(l, r))
    ensures !r.kind.LineageEdge? ==> forall e :: !EdgeFrom(e, r)
  {
  }

  /** Its nodes: the entity itself, and the ends of what the record names. */
  lemma NodesGained(g: Graph, r: Record, n: NodeId)
    requires UpsertGraph(g, r).Some? && n in UpsertGraph(g, r).value.nodes && n !in g.nodes
    ensures var g' := UpsertGraph(g, r).value;
            || n == EntityNode(r.kind, r.tenant, r.urn)
            || (exists l :: l in g'.links && (n == l.from || n == l.to))
            || (exists e :: e in g'.derives && (n == e.up || n == e.down))
  {
    hide LinksOf, EndpointsOf, MergeNode, MergeDerives;
    var g' := UpsertGraph(g, r).value;
    if n in LinkEnds(LinksOf(r.kind, r.tenant, r.urn, r.payload)) {
      var l :| l in LinksOf(r.kind, r.tenant, r.urn, r.payload) && (n == l.from || n == l.to);
    } else if r.kind.LineageEdge? {
      var e := DerivesKeyOf(EndpointsOf(r.tenant, r.payload).value, r.tenant, r.urn);
    }
  }

  lemma NodeStaysKnown(g: Graph, g': Graph, rs: seq<Record>, r: Record, n: NodeId)
    requires NodeIsKnown(g, rs, n) && g.links <= g'.links && g.derives.Keys <= g'.derives.Keys
    ensures NodeIsKnown(g', rs + [r], n)
  {
    if i :| 0 <= i < |rs| && n == EntityNode(rs[i].kind, rs[i].tenant, rs[i].urn) {
      assert (rs + [r])[i] == rs[i];
    } else if e :| e in g.derives && (n == e.up || n == e.down) {
      assert e in g'.derives;
    }
  }

  lemma ColumnsGained(x: Option<Row>, r: Record, f: Field)
    requires RowStep(x, r).Some? && f in RowStep(x, r).value.columns
    ensures (x.Some? && f in x.value.columns && x.value.columns[f] == RowStep(x, r).value.columns[f]) ||
            (r.op.Upsert? && f in PayloadColumns(r.kind) && f in r.payload && r.payload[f] == RowStep(x, r).value.columns[f])
  {
    hide PayloadColumns;
  }

  lemma GraphFromRecords(g: Graph, r: Record, rs: seq<Record>)
    requires AllFromRecords(EmptyCatalog.(graph := g), rs) && UpsertGraph(g, r).Some?
    ensures AllFromRecords(EmptyCatalog.(graph := UpsertGraph(g, r).value), rs + [r])
  {
    GraphGains(g, r);
    OneMoreRecord(rs, r);
    hide UpsertGraph, EdgeFrom, LinkFrom, NodeIsKnown, SomeEdgeFrom, SomeLinkFrom;
    var g' := UpsertGraph(g, r).value;
    forall n | n in g'.nodes ensures NodeIsKnown(g', rs + [r], n) {
      if n in g.nodes {
        NodeStaysKnown(g, g', rs, r, n);
      } else {
        NodesGained(g, r, n);
        NewNodeIsKnown(g', rs, r, n);
      }
    }
  }

  lemma NewNodeIsKnown(g: Graph, rs: seq<Record>, r: Record, n: NodeId)
    requires || n == EntityNode(r.kind, r.tenant, r.urn)
             || (exists l :: l in g.links && (n == l.from || n == l.to))
             || (exists e :: e in g.derives && (n == e.up || n == e.down))
    ensures NodeIsKnown(g, rs + [r], n)
  {
    assert (rs + [r])[|rs|] == r;
  }

  lemma RowsFromRecords(rows: map<RowKey, Row>, r: Record, rs: seq<Record>)
    requires AllFromRecords(EmptyCatalog.(rows := rows), rs)
    ensures AllFromRecords(EmptyCatalog.(rows := UpsertRow(rows, r)), rs + [r])
  {
    OneMoreRecord(rs, r);
    hide RowStep, SomeColumnFrom, PayloadColumns;
    var rows' := UpsertRow(rows, r);
    forall k, f | k in rows' && f in rows'[k].columns ensures SomeColumnFrom(rs + [r], k, f, rows'[k].columns[f]) {
      if k == KeyOf(r) && RowStep(Lookup(rows, k), r).Some? {
        ColumnsGained(Lookup(rows, k), r, f);
        ColumnIsFrom(rs, r, k, f, rows'[k].columns[f]);
      }
    }
  }

  lemma ColumnIsFrom(rs: seq<Record>, r: Record, k: RowKey, f: Field, v: Json)
    ensures Upserts(r, k) && f in r.payload && r.payload[f] == v && f in PayloadColumns(k.kind) ==>
              SomeColumnFrom(rs + [r], k, f, v)
  {
    hide PayloadColumns;
    assert (rs + [r])[|rs|] == r;
  }

  lemma RecordKept(c: Catalog, rs: seq<Record>, r: Record)
    requires AllFromRecords(c, rs)
    ensures AllFromRecords(c, rs + [r])
  {
    OneMoreRecord(rs, r);
    hide EdgeFrom, LinkFrom, SomeEdgeFrom, SomeLinkFrom, SomeColumnFrom, NodeIsKnown;
    forall n | n in c.graph.nodes ensures NodeIsKnown(c.graph, rs + [r], n) {
      NodeStaysKnown(c.graph, c.graph, rs, r, n);
    }
  }

  lemma ByStore(c: Catalog, rs: seq<Record>)
    ensures AllFromRecords(c, rs) <==>
            AllFromRecords(EmptyCatalog.(graph := c.graph), rs) && AllFromRecords(EmptyCatalog.(rows := c.rows), rs)
  {
    hide SomeEdgeFrom, SomeLinkFrom, SomeColumnFrom, NodeIsKnown;
  }

  lemma StepFromRecords(ct: string, c: Catalog, r: Record, rs: seq<Record>)
    requires AllFromRecords(c, rs)
    ensures AllFromRecords(ProcessOne(ct, c, r).catalog, rs + [r])
  {
    hide ProcessOne, AllFromRecords, UpsertGraph, UpsertRow, IndexEntity;
    Stages(ct, c, r);
    var d := ProcessOne(ct, c, r).catalog;
    ByStore(c, rs);
    ByStore(d, rs + [r]);
    RecordKept(EmptyCatalog.(graph := c.graph), rs, r);
    RecordKept(EmptyCatalog.(rows := c.rows), rs, r);
    if d.graph != c.graph {
      GraphFromRecords(c.graph, r, rs);
    }
    if d.rows != c.rows {
      RowsFromRecords(c.rows, r, rs);
    }
  }

  lemma {:induction false} RunFromRecords(ct: string, c: Catalog, before: seq<Record>, rs: seq<Record>)
    requires AllFromRecords(c, before)
    ensures AllFromRecords(ProcessAll(ct, c, rs).catalog, before + rs)
    decreases |rs|
  {
    hide ProcessOne, AllFromRecords;
    if rs == [] {
      assert before + rs == before;
    } else {
      StepFromRecords(ct, c, rs[0], before);
      if ProcessOne(ct, c, rs[0]).Done? {
        assert before + rs == (before + [rs[0]]) + rs[1..];
        RunFromRecords(ct, ProcessOne(ct, c, rs[0]).catalog, before + [rs[0]], rs[1..]);
      } else {
        assert before + rs == (before + [rs[0]]) + rs[1..];
        MoreRecordsKept(ProcessOne(ct, c, rs[0]).catalog, before + [rs[0]], rs[1..]);
      }
    }
  }

  lemma {:induction false} MoreRecordsKept(c: Catalog, rs: seq<Record>, more: seq<Record>)
    requires AllFromRecords(c, rs)
    ensures AllFromRecords(c, rs + more)
    decreases |more|
  {
    hide AllFromRecords;
    if more == [] {
      assert rs + more == rs;
    } else {
      RecordKept(c, rs, more[0]);
      assert rs + more == (rs + [more[0]]) + more[1..];
      MoreRecordsKept(c, rs + [more[0]], more[1..]);
    }
  }

  /** Main result, the converse, for every sequence of records, also one that ends in an exception: no edge, no
      relationship and no column value is in the stores that no record has put there, and every node is an entity of
      the sequence or one end of a relationship or edge. */
  lemma NothingIsMadeUp(ct: string, rs: seq<Record>)
    ensures AllFromRecords(ProcessAll(ct, EmptyCatalog, rs).catalog, rs)
  {
    hide ProcessAll;
    assert AllFromRecords(EmptyCatalog, []);
    hide AllFromRecords;
    RunFromRecords(ct, EmptyCatalog, [], rs);
    assert [] + rs == rs;
  }

  // ---------------------------------------------------------------- first sightings

  /** What was there keeps the time it was first seen; a node that comes with its own entity takes the time of that
      record, one that comes as an end of something else has none, and a new edge takes the time of its record. */
  ghost predicate SightingsKept(g: Graph, g': Graph, r: Record) {
    && (forall n :: n in g.nodes ==> n in g'.nodes && g'.nodes[n].firstSeen == g.nodes[n].firstSeen)
    && (forall n :: n in g'.nodes && n !in g.nodes ==>
          g'.nodes[n].firstSeen ==
          if !r.kind.LineageEdge? && n == EntityNode(r.kind, r.tenant, r.urn) then Some(r.at) else None)
    && (forall e :: e in g.derives ==> e in g'.derives && g'.derives[e].discoveredAt == g.derives[e].discoveredAt)
    && (forall e :: e in g'.derives && e !in g.derives ==> g'.derives[e].discoveredAt == r.at)
  }

  lemma WriteKeepsSightings(g: Graph, r: Record)
    requires UpsertGraph(g, r).Some?
    ensures SightingsKept(g, UpsertGraph(g, r).value, r)
  {
    hide LinksOf, BareNodesOf, EndpointsOf, SanitizeProps, OrDefault;
  }

  lemma StepKeepsSightings(ct: string, c: Catalog, r: Record)
    ensures ProcessOne(ct, c, r).catalog.graph == c.graph || SightingsKept(c.graph, ProcessOne(ct, c, r).catalog.graph, r)
  {
    Stages(ct, c, r);
    hide ProcessOne, UpsertGraph, SightingsKept;
    if UpsertGraph(c.graph, r).Some? {
      WriteKeepsSightings(c.graph, r);
    }
  }

  ghost predicate NodeSighted(rs: seq<Record>, n: NodeId, node: Node) {
    node.firstSeen.Some? ==> exists i :: 0 <= i < |rs| && SightedBy(rs[i], n, node.firstSeen.value)
  }

  predicate SightedBy(r: Record, n: NodeId, t: int) {
    n == EntityNode(r.kind, r.tenant, r.urn) && t == r.at
  }

  /** Main result over every sequence of records, also one that ends in an exception: times of first sighting stand for
      good. A node or edge that is there keeps its own, and a new one has that of a record of the sequence. */
  lemma {:induction false} FirstSightingsStand(ct: string, c: Catalog, rs: seq<Record>)
    ensures var g, g' := c.graph, ProcessAll(ct, c, rs).catalog.graph;
            && (forall n :: n in g.nodes ==> n in g'.nodes && g'.nodes[n].firstSeen == g.nodes[n].firstSeen)
            && (forall n :: n in g'.nodes && n !in g.nodes ==> NodeSighted(rs, n, g'.nodes[n]))
            && (forall e :: e in g.derives ==> e in g'.derives && g'.derives[e].discoveredAt == g.derives[e].discoveredAt)
    decreases |rs|
  {
    hide ProcessOne, NodeSighted;
    if rs != [] {
      StepKeepsSightings(ct, c, rs[0]);
      var g, h, g' := c.graph, ProcessOne(ct, c, rs[0]).catalog.graph, ProcessAll(ct, c, rs).catalog.graph;
      if ProcessOne(ct, c, rs[0]).Done? {
        FirstSightingsStand(ct, ProcessOne(ct, c, rs[0]).catalog, rs[1..]);
      }
      forall n | n in g'.nodes && n !in g.nodes ensures NodeSighted(rs, n, g'.nodes[n]) {
        if n in h.nodes {
          SightedFirst(rs, n, g'.nodes[n]);
        } else {
          SightedLater(rs, n, g'.nodes[n]);
        }
      }
    }
  }

  lemma SightedFirst(rs: seq<Record>, n: NodeId, node: Node)
    requires rs != []
    ensures n == EntityNode(rs[0].kind, rs[0].tenant, rs[0].urn) && node.firstSeen == Some(rs[0].at) ==> NodeSighted(rs, n, node)
    ensures node.firstSeen == None ==> NodeSighted(rs, n, node)
  {
  }

  lemma SightedLater(rs: seq<Record>, n: NodeId, node: Node)
    requires rs != [] && NodeSighted(rs[1..], n, node)
    ensures NodeSighted(rs, n, node)
  {
    if node.firstSeen.Some? {
      var i :| 0 <= i < |rs[1..]| && SightedBy(rs[1..][i], n, node.firstSeen.value);
      assert rs[i + 1] == rs[1..][i];
    }
  }

  // ---------------------------------------------------------------- rows and events of one fan-out

  /** The row was there before, flags and freshness apart, or bears one of the records. */
  ghost predicate OldOrWritten(c: Catalog, rs: seq<Record>, k: RowKey, row: Row) {
    || (k in c.rows && row == c.rows[k].(isDeleted := row.isDeleted, lastScraped := row.lastScraped))
    || exists m :: 0 <= m < |rs| && Upserts(rs[m], k) && RowBears(row, rs[m])
  }

  predicate EventOfRecord(ct: string, e: Event, r: Record) {
    && e.tenant == r.tenant && e.dataPlane == r.dataPlane && e.connectorType == ct
    && e.urn == r.urn && e.kind == r.kind && e.op == r.op && e.at == r.at
  }

  ghost predicate OldOrRecorded(ct: string, c: Catalog, rs: seq<Record>, e: Event) {
    e in c.events || exists m :: 0 <= m < |rs| && EventOfRecord(ct, e, rs[m])
  }

  lemma OneRow(x: Option<Row>, r: Record)
    requires RowStep(x, r).Some?
    ensures var row := RowStep(x, r).value;
            || (x.Some? && row == x.value.(isDeleted := row.isDeleted, lastScraped := row.lastScraped))
            || (r.op.Upsert? && RowBears(row, r))
  {
    hide PayloadColumns;
    if r.op.Upsert? && !Unchanged(x, r) {
      RowWritten(x, r);
    }
  }

  lemma OneRecord(ct: string, c: Catalog, r: Record, k: RowKey, e: Event)
    ensures var d := ProcessOne(ct, c, r).catalog;
            && (k in d.rows ==> OldOrWritten(c, [r], k, d.rows[k]))
            && (e in d.events ==> OldOrRecorded(ct, c, [r], e))
  {
    hide RowBears;
    var d := ProcessOne(ct, c, r).catalog;
    assert [r][0] == r;
    OneEvent(ct, c, r, e);
    hide ProcessOne, RowStep;
    RowStage(ct, c, r);
    if k in d.rows && k == KeyOf(r) && d.rows != c.rows && RowStep(Lookup(c.rows, k), r).Some? {
      OneRow(Lookup(c.rows, k), r);
    }
  }

  lemma RowStage(ct: string, c: Catalog, r: Record)
    ensures ProcessOne(ct, c, r).catalog.rows == c.rows || ProcessOne(ct, c, r).catalog.rows == UpsertRow(c.rows, r)
  {
    hide UpsertRow, UpsertGraph, IndexEntity, Changed;
  }

  lemma OneEvent(ct: string, c: Catalog, r: Record, e: Event)
    ensures e in ProcessOne(ct, c, r).catalog.events ==> e in c.events || EventOfRecord(ct, e, r)
  {
    hide UpsertRow, UpsertGraph, IndexEntity, Changed, EventTypeOf;
  }

  lemma {:induction false} OneFanOut(ct: string, c: Catalog, rs: seq<Record>, k: RowKey, e: Event)
    ensures var d := ProcessAll(ct, c, rs).catalog;
            && (k in d.rows ==> OldOrWritten(c, rs, k, d.rows[k]))
            && (e in d.events ==> OldOrRecorded(ct, c, rs, e))
    decreases |rs|
  {
    hide ProcessOne, OldOrWritten, OldOrRecorded;
    if rs == [] {
      NothingWritten(ct, c, k, e);
    } else {
      OneRecord(ct, c, rs[0], k, e);
      var c1, d := ProcessOne(ct, c, rs[0]).catalog, ProcessAll(ct, c, rs).catalog;
      if ProcessOne(ct, c, rs[0]).Done? {
        OneFanOut(ct, c1, rs[1..], k, e);
        if k in c1.rows {
          OneRecord(ct, c, rs[0], k, e);
        }
      } else {
        NothingWritten(ct, c1, k, e);
      }
      if k in d.rows {
        WrittenEarlier(c, c1, rs, k, d.rows[k]);
      }
      RecordedEarlier(ct, c, c1, rs, e);
    }
  }

  lemma NothingWritten(ct: string, c: Catalog, k: RowKey, e: Event)
    ensures k in c.rows ==> forall rs :: OldOrWritten(c, rs, k, c.rows[k])
    ensures e in c.events ==> forall rs :: OldOrRecorded(ct, c, rs, e)
  {
    hide RowBears, EventOfRecord;
  }

  lemma WrittenEarlier(c: Catalog, c1: Catalog, rs: seq<Record>, k: RowKey, row: Row)
    requires rs != [] && OldOrWritten(c1, rs[1..], k, row) && (k in c1.rows ==> OldOrWritten(c, [rs[0]], k, c1.rows[k]))
    ensures OldOrWritten(c, rs, k, row)
  {
    if m :| 0 <= m < |rs[1..]| && Upserts(rs[1..][m], k) && RowBears(row, rs[1..][m]) {
      assert rs[m + 1] == rs[1..][m];
    } else {
      assert k in c1.rows && row == c1.rows[k].(isDeleted := row.isDeleted, lastScraped := row.lastScraped);
      if m :| 0 <= m < |[rs[0]]| && Upserts([rs[0]][m], k) && RowBears(c1.rows[k], [rs[0]][m]) {
        assert RowBears(row, rs[0]);
      }
    }
  }

  lemma RecordedEarlier(ct: string, c: Catalog, c1: Catalog, rs: seq<Record>, e: Event)
    requires rs != [] && (e in c1.events ==> OldOrRecorded(ct, c, [rs[0]], e))
    ensures OldOrRecorded(ct, c1, rs[1..], e) ==> OldOrRecorded(ct, c, rs, e)
  {
    if OldOrRecorded(ct, c1, rs[1..], e) && e !in c1.events {
      var m :| 0 <= m < |rs[1..]| && EventOfRecord(ct, e, rs[1..][m]);
      assert rs[m + 1] == rs[1..][m];
    }
  }
}
