/** Tenants do not see each other: what a tenant finds in every store, and the replies it gets, are those of a
    server that only ever served this tenant. */
module Tenancy {
  import opened Types
  import opened Catalog
  import opened Ingest

  // ---------------------------------------------------------------- what a tenant can find

  ghost predicate SameGraphView(a: Graph, b: Graph, t: string) {
    && (forall id: NodeId :: id.tenant == t ==> Lookup(a.nodes, id) == Lookup(b.nodes, id))
    && (forall l: Link :: l.from.tenant == t || l.to.tenant == t ==> (l in a.links <==> l in b.links))
    && (forall k: DerivesKey :: k.tenant == t ==> Lookup(a.derives, k) == Lookup(b.derives, k))
  }

  ghost predicate SameRowView(a: map<RowKey, Row>, b: map<RowKey, Row>, t: string) {
    forall k: RowKey :: k.tenant == t ==> Lookup(a, k) == Lookup(b, k)
  }

  ghost predicate SameKeyedView<V>(a: map<string, V>, b: map<string, V>, t: string) {
    forall rest: string :: Lookup(a, ScopedKey(t, rest)) == Lookup(b, ScopedKey(t, rest))
  }

  /** The events of one tenant, in order. */
  function OwnEvents(events: seq<Event>, t: string): seq<Event> {
    if events == [] then []
    else OwnEvents(events[..|events| - 1], t) + if events[|events| - 1].tenant == t then [events[|events| - 1]] else []
  }

  ghost predicate SameView(a: Catalog, b: Catalog, t: string) {
    && SameRowView(a.rows, b.rows, t) && SameGraphView(a.graph, b.graph, t) && SameKeyedView(a.docs, b.docs, t)
    && OwnEvents(a.events, t) == OwnEvents(b.events, t)
  }

  ghost predicate SameServerView(a: Server, b: Server, t: string) {
    SameView(a.catalog, b.catalog, t) && SameKeyedView(a.records, b.records, t)
  }

  // ---------------------------------------------------------------- one entity of another tenant

  lemma LinksStayInTenant(kind: Kind, tenant: string, urn: string, payload: Payload)
    ensures forall l :: l in LinksOf(kind, tenant, urn, payload) ==> l.from.tenant == tenant && l.to.tenant == tenant
    ensures forall id :: id in BareNodesOf(kind, tenant, urn, payload) ==> id.tenant == tenant
  {
  }

  lemma WriteNodeFrame(g: Graph, r: Record, links: set<Link>, bare: set<NodeId>, t: string)
    requires r.tenant != t
    requires forall l :: l in links ==> l.from.tenant == r.tenant && l.to.tenant == r.tenant
    requires forall id :: id in bare ==> id.tenant == r.tenant
    ensures SameGraphView(WriteNode(g, r, links, bare), g, t)
  {
  }

  lemma WriteEdgeFrame(g: Graph, r: Record, k: DerivesKey, links: set<Link>, bare: set<NodeId>, t: string)
    requires r.tenant != t && k.tenant == r.tenant
    requires forall l :: l in links ==> l.from.tenant == r.tenant && l.to.tenant == r.tenant
    requires forall id :: id in bare ==> id.tenant == r.tenant
    ensures SameGraphView(WriteEdge(g, r, k, links, bare), g, t)
  {
  }

  lemma UpsertGraphFrame(g: Graph, r: Record, t: string)
    requires r.tenant != t && UpsertGraph(g, r).Some?
    ensures SameGraphView(UpsertGraph(g, r).value, g, t)
  {
    hide LinksOf, BareNodesOf, SameGraphView, WriteNode, WriteEdge;
    var links := LinksOf(r.kind, r.tenant, r.urn, r.payload);
    var bare := BareNodesOf(r.kind, r.tenant, r.urn, r.payload);
    LinksStayInTenant(r.kind, r.tenant, r.urn, r.payload);
    if r.kind.LineageEdge? {
      WriteEdgeFrame(g, r, DerivesKeyOf(EndpointsOf(r.tenant, r.payload).value, r.tenant, r.urn), links, bare, t);
    } else {
      WriteNodeFrame(g, r, links, bare, t);
    }
  }

  lemma UpdateOtherKey<V>(m: map<string, V>, tenant: string, rest: string, v: Option<V>, t: string)
    requires ColonFree(tenant) && ColonFree(t) && tenant != t
    ensures SameKeyedView(Store(m, ScopedKey(tenant, rest), v), m, t)
  {
    hide ScopedKey;
    forall other ensures ScopedKey(t, other) != ScopedKey(tenant, rest) {
      if ScopedKey(t, other) == ScopedKey(tenant, rest) {
        ScopedKeyInjective(t, other, tenant, rest);
      }
    }
  }

  /** Where an attempt may stop, what it has written by then is one of these three stages. */
  lemma Stages(ct: string, c: Catalog, r: Record)
    ensures var c' := ProcessOne(ct, c, r).catalog;
            && (c'.rows == c.rows || (RoutesToRelational(r.kind) && c'.rows == UpsertRow(c.rows, r)))
            && (c'.graph == c.graph || UpsertGraph(c.graph, r) == Some(c'.graph))
            && (c'.docs == c.docs || c'.docs == IndexEntity(c.docs, r))
            && (c'.events == c.events || exists e: Event :: e.tenant == r.tenant && c'.events == c.events + [e])
  {
    hide UpsertRow, UpsertGraph, IndexEntity, Changed, EventTypeOf;
  }

  lemma OneMoreEvent(events: seq<Event>, e: Event, t: string)
    ensures OwnEvents(events + [e], t) == OwnEvents(events, t) + if e.tenant == t then [e] else []
  {
    assert (events + [e])[..|events|] == events;
  }

  lemma EventsFrame(c: Catalog, c': Catalog, r: Record, t: string)
    requires r.tenant != t
    requires c'.events == c.events || exists e: Event :: e.tenant == r.tenant && c'.events == c.events + [e]
    ensures OwnEvents(c'.events, t) == OwnEvents(c.events, t)
  {
    hide OwnEvents;
    if c'.events != c.events {
      var e: Event :| e.tenant == r.tenant && c'.events == c.events + [e];
      OneMoreEvent(c.events, e, t);
    }
  }

  lemma ViewReflexive(c: Catalog, t: string)
    ensures SameView(c, c, t)
  {
  }

  lemma StepFrame(ct: string, c: Catalog, r: Record, t: string)
    requires ColonFree(r.tenant) && ColonFree(t) && r.tenant != t
    ensures SameView(ProcessOne(ct, c, r).catalog, c, t)
  {
    hide ProcessOne, UpsertGraph, SameGraphView, SameKeyedView, ScopedKey, RowStep, DocStep, OwnEvents;
    Stages(ct, c, r);
    hide SameView;
    ViewReflexive(c, t);
    if UpsertGraph(c.graph, r).Some? {
      UpsertGraphFrame(c.graph, r, t);
    }
    UpdateOtherKey(c.docs, r.tenant, r.urn, DocStep(Lookup(c.docs, DocIdOf(r)), r), t);
    EventsFrame(c, ProcessOne(ct, c, r).catalog, r, t);
    StepFrameAssembled(c, ProcessOne(ct, c, r).catalog, r, t);
  }

  lemma StepFrameAssembled(c: Catalog, c': Catalog, r: Record, t: string)
    requires r.tenant != t && SameView(c, c, t)
    requires c'.rows == c.rows || c'.rows == UpsertRow(c.rows, r)
    requires c'.graph == c.graph || SameGraphView(c'.graph, c.graph, t)
    requires c'.docs == c.docs || SameKeyedView(c'.docs, c.docs, t)
    requires OwnEvents(c'.events, t) == OwnEvents(c.events, t)
    ensures SameView(c', c, t)
  {
    hide SameGraphView, SameKeyedView, RowStep, OwnEvents;
  }

  lemma ViewTransitive(a: Catalog, b: Catalog, c: Catalog, t: string)
    requires SameView(a, b, t) && SameView(b, c, t)
    ensures SameView(a, c, t)
  {
  }

  ghost predicate AllOf(rs: seq<Record>, tenant: string) {
    forall i :: 0 <= i < |rs| ==> rs[i].tenant == tenant
  }

  lemma {:induction false} BatchFrame(ct: string, c: Catalog, rs: seq<Record>, tenant: string, t: string)
    requires ColonFree(tenant) && ColonFree(t) && tenant != t && AllOf(rs, tenant)
    ensures SameView(ProcessAll(ct, c, rs).catalog, c, t)
    decreases |rs|
  {
    hide SameView, ProcessOne;
    ViewReflexive(c, t);
    if rs != [] {
      StepFrame(ct, c, rs[0], t);
      var o := ProcessOne(ct, c, rs[0]);
      if o.Done? {
        BatchFrame(ct, o.catalog, rs[1..], tenant, t);
        ViewTransitive(ProcessAll(ct, c, rs).catalog, o.catalog, c, t);
      }
    }
  }

  // ---------------------------------------------------------------- one entity of the tenant itself

  lemma WriteNodeView(a: Graph, b: Graph, r: Record, links: set<Link>, bare: set<NodeId>)
    requires SameGraphView(a, b, r.tenant)
    requires forall id :: id in bare ==> id.tenant == r.tenant
    ensures SameGraphView(WriteNode(a, r, links, bare), WriteNode(b, r, links, bare), r.tenant)
  {
    var id := NodeOf(r);
    var na := a.nodes[id := MergeNode(Lookup(a.nodes, id), r)];
    var nb := b.nodes[id := MergeNode(Lookup(b.nodes, id), r)];
    assert Lookup(a.nodes, id) == Lookup(b.nodes, id);
    forall i: NodeId | i.tenant == r.tenant ensures Lookup(na, i) == Lookup(nb, i) {
      assert Lookup(a.nodes, i) == Lookup(b.nodes, i);
    }
    AddBareView(na, nb, bare, r.tenant);
  }

  lemma AddBareView(a: map<NodeId, Node>, b: map<NodeId, Node>, bare: set<NodeId>, t: string)
    requires forall id: NodeId :: id.tenant == t ==> Lookup(a, id) == Lookup(b, id)
    ensures forall id: NodeId :: id.tenant == t ==> Lookup(AddBare(a, bare), id) == Lookup(AddBare(b, bare), id)
  {
    forall id: NodeId | id.tenant == t ensures Lookup(AddBare(a, bare), id) == Lookup(AddBare(b, bare), id) {
      assert Lookup(a, id) == Lookup(b, id);
    }
  }

  lemma WriteEdgeView(a: Graph, b: Graph, r: Record, k: DerivesKey, links: set<Link>, bare: set<NodeId>)
    requires SameGraphView(a, b, r.tenant) && k.tenant == r.tenant
    ensures SameGraphView(WriteEdge(a, r, k, links, bare), WriteEdge(b, r, k, links, bare), r.tenant)
  {
    AddBareView(a.nodes, b.nodes, bare, r.tenant);
    var a', b' := WriteEdge(a, r, k, links, bare), WriteEdge(b, r, k, links, bare);
    forall key: DerivesKey | key.tenant == r.tenant ensures Lookup(a'.derives, key) == Lookup(b'.derives, key) {
      assert Lookup(a.derives, key) == Lookup(b.derives, key);
      assert Lookup(a.derives, k) == Lookup(b.derives, k);
    }
  }

  lemma UpsertGraphView(a: Graph, b: Graph, r: Record)
    requires SameGraphView(a, b, r.tenant)
    ensures UpsertGraph(a, r).Some? == UpsertGraph(b, r).Some?
    ensures UpsertGraph(a, r).Some? ==> SameGraphView(UpsertGraph(a, r).value, UpsertGraph(b, r).value, r.tenant)
  {
    hide LinksOf, BareNodesOf, SameGraphView, WriteNode, WriteEdge;
    var links := LinksOf(r.kind, r.tenant, r.urn, r.payload);
    var bare := BareNodesOf(r.kind, r.tenant, r.urn, r.payload);
    LinksStayInTenant(r.kind, r.tenant, r.urn, r.payload);
    WriteNodeView(a, b, r, links, bare);
    if EndpointsOf(r.tenant, r.payload).Some? {
      WriteEdgeView(a, b, r, DerivesKeyOf(EndpointsOf(r.tenant, r.payload).value, r.tenant, r.urn), links, bare);
    }
  }

  lemma StoreView<V>(a: map<string, V>, b: map<string, V>, t: string, rest: string, v: Option<V>)
    requires SameKeyedView(a, b, t)
    ensures SameKeyedView(Store(a, ScopedKey(t, rest), v), Store(b, ScopedKey(t, rest), v), t)
  {
    hide ScopedKey;
    forall other: string
      ensures Lookup(Store(a, ScopedKey(t, rest), v), ScopedKey(t, other)) == Lookup(Store(b, ScopedKey(t, rest), v),
                ScopedKey(t, other))
    {
      assert Lookup(a, ScopedKey(t, other)) == Lookup(b, ScopedKey(t, other));
    }
  }

  lemma IndexView(a: map<string, Doc>, b: map<string, Doc>, r: Record)
    requires SameKeyedView(a, b, r.tenant)
    ensures SameKeyedView(IndexEntity(a, r), IndexEntity(b, r), r.tenant)
  {
    assert Lookup(a, ScopedKey(r.tenant, r.urn)) == Lookup(b, ScopedKey(r.tenant, r.urn));
    hide SameKeyedView, ScopedKey, DocStep;
    StoreView(a, b, r.tenant, r.urn, DocStep(Lookup(a, DocIdOf(r)), r));
  }

  lemma UpsertRowView(a: map<RowKey, Row>, b: map<RowKey, Row>, r: Record)
    requires SameRowView(a, b, r.tenant)
    ensures SameRowView(UpsertRow(a, r), UpsertRow(b, r), r.tenant)
    ensures Lookup(a, KeyOf(r)) == Lookup(b, KeyOf(r))
  {
    hide RowStep;
    forall k: RowKey | k.tenant == r.tenant ensures Lookup(UpsertRow(a, r), k) == Lookup(UpsertRow(b, r), k) {
      assert Lookup(a, k) == Lookup(b, k) && Lookup(a, KeyOf(r)) == Lookup(b, KeyOf(r));
    }
  }

  lemma StepView(ct: string, a: Catalog, b: Catalog, r: Record)
    requires SameView(a, b, r.tenant)
    ensures ProcessOne(ct, a, r).Done? == ProcessOne(ct, b, r).Done?
    ensures SameView(ProcessOne(ct, a, r).catalog, ProcessOne(ct, b, r).catalog, r.tenant)
  {
    hide UpsertGraph, IndexEntity, UpsertRow, SameRowView, SameGraphView, SameKeyedView, RowResult, OwnEvents,
         EventTypeOf;
    var scraped := EventOf(ct, r, ScrapeRunEvent);
    OneMoreEvent(a.events, scraped, r.tenant);
    OneMoreEvent(b.events, scraped, r.tenant);
    var seen := EventOf(ct, r, EventTypeOf(r, Changed(a, r)));
    OneMoreEvent(a.events, seen, r.tenant);
    OneMoreEvent(b.events, seen, r.tenant);
    UpsertRowView(a.rows, b.rows, r);
    UpsertGraphView(a.graph, b.graph, r);
    IndexView(a.docs, b.docs, r);
  }

  lemma {:induction false} BatchView(ct: string, a: Catalog, b: Catalog, rs: seq<Record>, t: string)
    requires SameView(a, b, t) && AllOf(rs, t)
    ensures ProcessAll(ct, a, rs).Done? == ProcessAll(ct, b, rs).Done?
    ensures SameView(ProcessAll(ct, a, rs).catalog, ProcessAll(ct, b, rs).catalog, t)
    decreases |rs|
  {
    if rs != [] {
      hide SameView, ProcessOne;
      StepView(ct, a, b, rs[0]);
      if ProcessOne(ct, a, rs[0]).Done? {
        BatchView(ct, ProcessOne(ct, a, rs[0]).catalog, ProcessOne(ct, b, rs[0]).catalog, rs[1..], t);
      }
    }
  }

  // ---------------------------------------------------------------- requests

  lemma RecordsOfTenant(cfg: Config, q: Request)
    ensures AllOf(AcceptedRecords(cfg, q), q.auth.tenant)
  {
  }

  lemma ForgetOtherKey<V>(m: map<string, V>, tenant: string, rest: string, t: string)
    requires ColonFree(tenant) && ColonFree(t) && tenant != t
    ensures SameKeyedView(m - {ScopedKey(tenant, rest)}, m, t)
  {
    hide ScopedKey;
    forall other ensures ScopedKey(t, other) != ScopedKey(tenant, rest) {
      if ScopedKey(t, other) == ScopedKey(tenant, rest) {
        ScopedKeyInjective(t, other, tenant, rest);
      }
    }
  }

  lemma KeyedTransitive<V>(a: map<string, V>, b: map<string, V>, c: map<string, V>, t: string)
    requires SameKeyedView(a, b, t) && SameKeyedView(b, c, t)
    ensures SameKeyedView(a, c, t)
  {
    hide ScopedKey;
    forall rest: string ensures Lookup(a, ScopedKey(t, rest)) == Lookup(c, ScopedKey(t, rest)) {
      assert Lookup(a, ScopedKey(t, rest)) == Lookup(b, ScopedKey(t, rest));
    }
  }

  lemma KeyedReflexive<V>(a: map<string, V>, t: string)
    ensures SameKeyedView(a, a, t)
  {
  }

  /** A request changes nothing another tenant can find. */
  lemma ServeFrame(cfg: Config, s: Server, q: Request, t: string)
    requires ColonFree(q.auth.tenant) && ColonFree(t) && q.auth.tenant != t
    ensures SameServerView(Serve(cfg, s, q), s, t)
  {
    hide SameView, SameKeyedView, ProcessAll, AcceptedRecords, BodyFor, ScopedKey, WellFormed;
    ViewReflexive(s.catalog, t);
    KeyedReflexive(s.records, t);
    RecordsOfTenant(cfg, q);
    BatchFrame(q.envelope.connectorType, s.catalog, AcceptedRecords(cfg, q), q.auth.tenant, t);
    ForgetOtherKey(s.records, q.auth.tenant, q.envelope.batchId, t);
    var forgotten := AfterGet(s.records, KeyFor(q), q.now, cfg.ttl);
    assert SameKeyedView(forgotten, s.records, t);
    var put := Some(Stored(BodyFor(cfg, q), q.storedAt));
    UpdateOtherKey(forgotten, q.auth.tenant, q.envelope.batchId, put, t);
    KeyedTransitive(Store(forgotten, KeyFor(q), put), forgotten, s.records, t);
  }

  lemma ForgetView<V>(a: map<string, V>, b: map<string, V>, t: string, rest: string)
    requires SameKeyedView(a, b, t)
    ensures SameKeyedView(a - {ScopedKey(t, rest)}, b - {ScopedKey(t, rest)}, t)
  {
    hide ScopedKey;
    forall other: string
      ensures Lookup(a - {ScopedKey(t, rest)}, ScopedKey(t, other)) == Lookup(b - {ScopedKey(t, rest)},
                ScopedKey(t, other))
    {
      assert Lookup(a, ScopedKey(t, other)) == Lookup(b, ScopedKey(t, other));
    }
  }

  lemma LookupView<V>(a: map<string, V>, b: map<string, V>, t: string, rest: string)
    requires SameKeyedView(a, b, t)
    ensures Lookup(a, ScopedKey(t, rest)) == Lookup(b, ScopedKey(t, rest))
  {
  }

  /** Servers a tenant cannot tell apart reply to it alike and stay so. */
  lemma ServeView(cfg: Config, a: Server, b: Server, q: Request)
    requires SameServerView(a, b, q.auth.tenant)
    ensures ReplyTo(cfg, a, q) == ReplyTo(cfg, b, q)
    ensures SameServerView(Serve(cfg, a, q), Serve(cfg, b, q), q.auth.tenant)
  {
    hide SameView, SameKeyedView, ProcessAll, AcceptedRecords, BodyFor, ScopedKey, WellFormed, BadRequestError;
    var t, id := q.auth.tenant, q.envelope.batchId;
    LookupView(a.records, b.records, t, id);
    RecordsOfTenant(cfg, q);
    BatchView(q.envelope.connectorType, a.catalog, b.catalog, AcceptedRecords(cfg, q), t);
    ForgetView(a.records, b.records, t, id);
    var fa, fb := AfterGet(a.records, KeyFor(q), q.now, cfg.ttl), AfterGet(b.records, KeyFor(q), q.now, cfg.ttl);
    assert SameKeyedView(fa, fb, t);
    StoreView(fa, fb, t, id, Some(Stored(BodyFor(cfg, q), q.storedAt)));
  }

  /** The requests of one tenant, in order. */
  function Own(qs: seq<Request>, t: string): seq<Request>
    decreases |qs|
  {
    if qs == [] then [] else (if qs[0].auth.tenant == t then [qs[0]] else []) + Own(qs[1..], t)
  }

  /** The replies one tenant gets during a run, in order. */
  function RepliesOf(cfg: Config, s: Server, qs: seq<Request>, t: string): seq<Reply>
    decreases |qs|
  {
    if qs == [] then []
    else (if qs[0].auth.tenant == t then [ReplyTo(cfg, s, qs[0])] else []) + RepliesOf(cfg, Serve(cfg, s, qs[0]), qs[1..], t)
  }

  lemma ServerViewTransitive(a: Server, b: Server, c: Server, t: string)
    requires SameServerView(a, b, t) && SameServerView(b, c, t)
    ensures SameServerView(a, c, t)
  {
    hide SameView, SameKeyedView;
    ViewTransitive(a.catalog, b.catalog, c.catalog, t);
    KeyedTransitive(a.records, b.records, c.records, t);
  }

  /** Main result: over every run of requests from any mix of colon-free tenants, one tenant's replies and
      everything it can find afterwards are what they would be had it been alone. */
  lemma {:induction false} NonInterference(cfg: Config, a: Server, b: Server, qs: seq<Request>, t: string)
    requires ColonFree(t) && forall i :: 0 <= i < |qs| ==> ColonFree(qs[i].auth.tenant)
    requires SameServerView(a, b, t)
    ensures RepliesOf(cfg, a, qs, t) == RepliesOf(cfg, b, Own(qs, t), t)
    ensures SameServerView(Run(cfg, a, qs), Run(cfg, b, Own(qs, t)), t)
    decreases |qs|
  {
    hide SameServerView, Serve, ReplyTo;
    if qs != [] {
      var q := qs[0];
      var a1 := Serve(cfg, a, q);
      if q.auth.tenant == t {
        ServeView(cfg, a, b, q);
        NonInterference(cfg, a1, Serve(cfg, b, q), qs[1..], t);
        assert Own(qs, t)[1..] == Own(qs[1..], t);
      } else {
        ServeFrame(cfg, a, q, t);
        ServerViewTransitive(a1, a, b, t);
        NonInterference(cfg, a1, b, qs[1..], t);
        assert Own(qs, t) == Own(qs[1..], t);
      }
    }
  }
}
