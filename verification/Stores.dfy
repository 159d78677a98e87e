/** The stores as the objects the control plane holds. Each write is proved to have the effect that the catalog
    functions give it. `raises` marks a call whose backend raises before anything is written. */
module Stores {
  import opened Types
  import opened Catalog
  import Spec = Catalog
  import opened Ingest
  import opened Contents

  class RelationalStore {
    var rows: map<RowKey, Row>

    constructor ()
      ensures rows == map[]
    {
      rows := map[];
    }

    /** `upsert_entity`: None when it raised. */
    method UpsertEntity(r: Record, raises: bool) returns (result: Option<UpsertResult>)
      modifies this
      ensures result.None? <==> raises || !RoutesToRelational(r.kind)
      ensures result.None? ==> rows == old(rows)
      ensures result.Some? ==> rows == UpsertRow(old(rows), r) && result.value == RowResult(Lookup(old(rows), KeyOf(r)), r)
      ensures result.Some? && r.op.Upsert? && !result.value.skipped ==>
                RowKey(r.kind, r.tenant, r.urn) in rows && RowHolds(rows[RowKey(r.kind, r.tenant, r.urn)], r)
      ensures result.Some? ==>
                var k := RowKey(r.kind, r.tenant, r.urn);
                && (result.value.created <==> r.op.Upsert? && k !in old(rows))
                && (result.value.tombstoned <==> r.op.Delete? && k in old(rows))
                && (result.value.skipped && r.op.Delete? <==> r.op.Delete? && k !in old(rows))
                && (result.value.skipped && r.op.Upsert? <==>
                      && r.op.Upsert? && k in old(rows) && !old(rows)[k].isDeleted
                      && r.hash.Some? && old(rows)[k].hash == r.hash)
    {
      hide RowHolds, PayloadColumns;
      if r.op.Upsert? && !Unchanged(Lookup(rows, KeyOf(r)), r) {
        RowWritten(Lookup(rows, KeyOf(r)), r);
      }
      if raises || !RoutesToRelational(r.kind) {
        return None;
      }
      var k := KeyOf(r);
      var existing := Lookup(rows, k);
      if r.op.Delete? {
        if existing.None? {
          return Some(UpsertResult(false, true, false));
        }
        rows := rows[k := existing.value.(isDeleted := true, lastScraped := r.at)];
        return Some(UpsertResult(false, false, true));
      }
      if existing.Some? && r.hash.Some? && existing.value.hash == r.hash && !existing.value.isDeleted {
        rows := rows[k := existing.value.(lastScraped := r.at)];
        return Some(UpsertResult(false, true, false));
      }
      var written := Row(Project(r.kind, r.payload), r.dataPlane, r.sourceConn, r.hash, r.at, false);
      if existing.None? {
        assert map[] + written.columns == written.columns;
        rows := rows[k := written];
        return Some(UpsertResult(true, false, false));
      }
      rows := rows[k := written.(columns := existing.value.columns + written.columns)];
      result := Some(UpsertResult(false, false, false));
    }
  }

  class SearchStore {
    var docs: map<string, Doc>

    constructor ()
      ensures docs == map[]
    {
      docs := map[];
    }

    /** `index_entity`: an upsert replaces the document, a delete flags it if there is one. */
    method IndexEntity(r: Record, raises: bool) returns (ok: bool)
      modifies this
      ensures ok <==> !raises
      ensures docs == if ok then Spec.IndexEntity(old(docs), r) else old(docs)
      ensures ok && Searchable(r.kind) && r.op.Upsert? ==>
                r.tenant + ":" + r.urn in docs && DocHolds(docs[r.tenant + ":" + r.urn], r)
    {
      DocWritten(r);
      hide BuildDocument, DocHolds;
      if raises {
        return false;
      }
      ok := true;
      if Searchable(r.kind) {
        var id := DocIdOf(r);
        if r.op.Upsert? {
          docs := docs[id := BuildDocument(r)];
        } else if id in docs {
          docs := docs[id := docs[id].(isDeleted := true)];
        }
      }
    }
  }

  class AnalyticsStore {
    var events: seq<Event>

    constructor ()
      ensures events == []
    {
      events := [];
    }

    method RecordEvent(e: Event, raises: bool) returns (ok: bool)
      modifies this
      ensures ok <==> !raises
      ensures events == old(events) + if ok then [e] else []
    {
      ok := !raises;
      if ok {
        events := events + [e];
      }
    }
  }

  lemma AddBareTwice(nodes: map<NodeId, Node>, a: set<NodeId>, b: set<NodeId>)
    ensures AddBare(AddBare(nodes, a), b) == AddBare(nodes, a + b)
  {
  }

  lemma AddBareKnown(nodes: map<NodeId, Node>, ids: set<NodeId>)
    requires ids <= nodes.Keys
    ensures AddBare(nodes, ids) == nodes
  {
  }

  /** The graph as its transactions change it: nodes are merged one at a time, then the relationship. */
  class GraphStore {
    var nodes: map<NodeId, Node>
    var links: set<Link>
    var derives: map<DerivesKey, Derives>

    function Value(): Graph
      reads this
    {
      Graph(nodes, links, derives)
    }

    constructor ()
      ensures Value() == EmptyCatalog.graph
    {
      nodes, links, derives := map[], {}, map[];
    }

    /** `MERGE (n:Label {tenant_id, urn})` */
    method MergeEndpoint(id: NodeId)
      modifies this`nodes
      ensures nodes == AddBare(old(nodes), {id})
    {
      AddBareKnownIf(id);
      if id !in nodes {
        nodes := nodes[id := BareNode];
      }
    }

    lemma AddBareKnownIf(id: NodeId)
      ensures id in nodes ==> AddBare(nodes, {id}) == nodes
      ensures id !in nodes ==> AddBare(nodes, {id}) == nodes[id := BareNode]
    {
    }

    /** `_link_tx`, `_link_owner_tx` and each half of `_merge_job_edges_tx`. */
    method MergeLink(l: Link)
      modifies this`nodes, this`links
      ensures nodes == AddBare(old(nodes), {l.from, l.to}) && links == old(links) + {l}
    {
      MergeEndpoint(l.from);
      MergeEndpoint(l.to);
      AddBareTwice(old(nodes), {l.from}, {l.to});
      assert {l.from} + {l.to} == {l.from, l.to};
      links := links + {l};
    }

    /** `upsert_entity`: false when the kind has no label or a lineage payload lacks an endpoint, or when the driver
        raises after some of the transactions. */
    method UpsertEntity(r: Record, raisesAfter: Option<nat>) returns (ok: bool)
      modifies this
      ensures ok <==> raisesAfter.None? && UpsertGraph(old(Value()), r).Some?
      ensures Value() == if ok then UpsertGraph(old(Value()), r).value
                         else if raisesAfter.Some? then GraphPart(old(Value()), r, raisesAfter.value) else old(Value())
      ensures ok && r.op.Upsert? ==> GraphShows(Value(), r)
    {
      if r.op.Upsert? && UpsertGraph(Value(), r).Some? {
        GraphWritten(Value(), r);
      }
      hide GraphShows, WriteNode, WriteEdge, LinksOf, BareNodesOf, FirstLinks;
      ok := raisesAfter.None?;
      if (!r.kind.LineageEdge? && !HasNodeLabel(r.kind)) || raisesAfter == Some(0) {
        return false;
      }
      if r.kind.LineageEdge? {
        var ends := EndpointsOf(r.tenant, r.payload);
        if ends.None? {
          return false;
        }
        UpsertLineageEdge(r, ends.value, raisesAfter == Some(1));
      } else {
        LaterLinks(r, 2);
        UpsertNode(r, if raisesAfter.Some? then raisesAfter.value - 1 else 2);
      }
    }

    /** The node, and as many link transactions as there are left to be committed. */
    method UpsertNode(r: Record, linksLeft: nat)
      requires HasNodeLabel(r.kind)
      modifies this
      ensures Value() == WriteNode(old(Value()), r, FirstLinks(r, linksLeft), LinkEnds(FirstLinks(r, linksLeft)))
    {
      hide MergeNode, AddBare, LinkEnds, Truthy;
      var self := NodeOf(r);
      nodes := nodes[self := MergeNode(Lookup(nodes, self), r)];
      if r.op.Upsert? {
        ghost var merged := nodes;
        ghost var done: set<Link> := {};
        var left := linksLeft;
        var table := NonEmptyString(r.payload, TableUrn);
        AddBareKnown(nodes, {});
        NoEnds();
        if left > 0 && r.kind.Column? && table.Some? {
          var l := Link(EntityNode(Table, r.tenant, table.value), HasColumn, self);
          MergeLink(l);
          done := {l};
          EndsOfOne(l);
          left := left - 1;
        }
        var owner := Get(r.payload, Field.Owner);
        if left > 0 && Truthy(owner) {
          var l := Link(self, OwnedBy, OwnerNode(r.tenant, owner));
          MergeLink(l);
          AddBareTwice(merged, LinkEnds(done), {l.from, l.to});
          EndsOfMore(done, l);
          done := done + {l};
        }
        assert done == FirstLinks(r, linksLeft);
        assert nodes == AddBare(merged, LinkEnds(done));
        assert links == old(links) + done;
      }
    }

    /** Two link transactions are all there are. */
    lemma LaterLinks(r: Record, n: nat)
      requires n >= 2 && !r.kind.LineageEdge?
      ensures FirstLinks(r, n) == LinksOf(r.kind, r.tenant, r.urn, r.payload)
      ensures BareNodesOf(r.kind, r.tenant, r.urn, r.payload) == LinkEnds(FirstLinks(r, n))
    {
      hide LinkEnds;
    }

    lemma NoEnds()
      ensures LinkEnds({}) == {}
    {
    }

    lemma EndsOfOne(l: Link)
      ensures LinkEnds({l}) == {l.from, l.to}
    {
    }

    lemma EndsOfMore(ls: set<Link>, l: Link)
      ensures LinkEnds(ls + {l}) == LinkEnds(ls) + {l.from, l.to}
    {
    }

    /** `_upsert_lineage_edge`; `edgeOnly` when the driver raises before the job's relationships. */
    method UpsertLineageEdge(r: Record, ends: Endpoints, edgeOnly: bool)
      requires r.kind.LineageEdge? && EndpointsOf(r.tenant, r.payload) == Some(ends)
      modifies this
      ensures Value() == if edgeOnly then WriteEdge(old(Value()), r, DerivesKeyOf(ends, r.tenant, r.urn), {}, {ends.up, ends.down})
                         else WriteEdge(old(Value()), r, DerivesKeyOf(ends, r.tenant, r.urn),
                                        LinksOf(r.kind, r.tenant, r.urn, r.payload), BareNodesOf(r.kind, r.tenant,
                                            r.urn, r.payload))
      ensures GainsItsEdge(old(Value()), Value(), r)
    {
      ghost var before := Value();
      hide GainsItsEdge, MergeDerives, AddBare, LinkEnds, KindNamed, TombstoneDerives;
      if r.op.Delete? {
        derives := TombstoneDerives(derives, r.tenant, r.urn);
        WriteGainsItsEdge(before, Value(), r, ends, {}, {});
        return;
      }
      var k := DerivesKeyOf(ends, r.tenant, r.urn);
      MergeEndpoint(ends.up);
      MergeEndpoint(ends.down);
      AddBareTwice(old(nodes), {ends.up}, {ends.down});
      assert {ends.up} + {ends.down} == {ends.up, ends.down};
      derives := derives[k := MergeDerives(Lookup(derives, k), r)];
      if edgeOnly {
        WriteGainsItsEdge(before, Value(), r, ends, {}, {ends.up, ends.down});
        return;
      }
      var job := NonEmptyString(r.payload, ProducerJobUrn);
      ghost var bare := BareNodesOf(r.kind, r.tenant, r.urn, r.payload);
      if job.Some? {
        var j := EntityNode(Job, r.tenant, job.value);
        var produces, consumes := Link(j, Produces, ends.down), Link(j, Consumes, ends.up);
        MergeLink(produces);
        AddBareTwice(old(nodes), {ends.up, ends.down}, {j, ends.down});
        MergeLink(consumes);
        AddBareTwice(old(nodes), {ends.up, ends.down} + {j, ends.down}, {j, ends.up});
        EndsOfOne(produces);
        EndsOfMore({produces}, consumes);
        assert LinksOf(r.kind, r.tenant, r.urn, r.payload) == {produces} + {consumes};
        assert bare == {ends.up, ends.down} + {j, ends.down} + {j, ends.up};
      } else {
        assert LinksOf(r.kind, r.tenant, r.urn, r.payload) == {};
        NoEnds();
        assert bare == {ends.up, ends.down};
      }
      WriteGainsItsEdge(before, Value(), r, ends, LinksOf(r.kind, r.tenant, r.urn, r.payload), bare);
    }
  }

  /** The graph has gained the edge that the record names - from its downstream to its upstream end, with its
      confidence - and no other. */
  ghost predicate GainsItsEdge(g: Graph, g': Graph, r: Record) {
    && (forall e :: e in g'.derives <==> e in g.derives || EdgeFrom(e, r))
    && (r.op.Upsert? ==> EdgeHolds(g', r))
  }

  lemma WriteGainsItsEdge(g: Graph, g': Graph, r: Record, ends: Endpoints, links: set<Link>, bare: set<NodeId>)
    requires r.kind.LineageEdge? && EndpointsOf(r.tenant, r.payload) == Some(ends)
    requires g' == WriteEdge(g, r, DerivesKeyOf(ends, r.tenant, r.urn), links, bare)
    ensures GainsItsEdge(g, g', r)
  {
    hide EndpointsOf, EdgeFrom, AddBare;
    var k := DerivesKeyOf(ends, r.tenant, r.urn);
    DeletesNameNothing(r);
    forall e ensures e in g'.derives <==> e in g.derives || EdgeFrom(e, r) {
      if r.op.Upsert? {
        EdgeIs(r, e);
      }
    }
    if r.op.Upsert? {
      EdgeIs(r, k);
      assert EdgeShows(g'.derives[k], r);
    }
  }

  /** `InMemoryIdempotencyStore`: a TTL map keyed by tenant and batch id. */
  class IdempotencyStore {
    const ttl: int
    var records: map<string, Stored>

    constructor (ttl: int)
      ensures this.ttl == ttl && records == map[]
    {
      this.ttl, records := ttl, map[];
    }

    /** `get`: an expired record is forgotten. */
    method Find(tenant: string, batchId: string, now: int) returns (body: Option<Body>)
      modifies this
      ensures body == Replayable(old(records), RecordKey(tenant, batchId), now, ttl)
      ensures records == AfterGet(old(records), RecordKey(tenant, batchId), now, ttl)
    {
      var key := RecordKey(tenant, batchId);
      if key !in records {
        return None;
      }
      var stored := records[key];
      if now - stored.at > ttl {
        records := records - {key};
        return None;
      }
      body := Some(stored.body);
    }

    /** `put` */
    method Put(tenant: string, batchId: string, body: Body, now: int)
      modifies this
      ensures records == old(records)[RecordKey(tenant, batchId) := Stored(body, now)]
      ensures Replayable(records, RecordKey(tenant, batchId), now, ttl) == if 0 > ttl then None else Some(body)
    {
      records := records[RecordKey(tenant, batchId) := Stored(body, now)];
    }
  }
}
