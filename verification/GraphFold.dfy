/** What a whole batch does to the graph, one node, relationship and edge at a time; doing it twice changes nothing. */
module GraphFold {
  import opened Types
  import opened Catalog
  import opened Projections

  function GraphStep(g: Graph, r: Record): Graph {
    if RoutesToGraph(r.kind) && UpsertGraph(g, r).Some? then UpsertGraph(g, r).value else g
  }

  function GraphAll(g: Graph, rs: seq<Record>): Graph
    decreases |rs|
  {
    if rs == [] then g else GraphAll(GraphStep(g, rs[0]), rs[1..])
  }

  // ---------------------------------------------------------------- one node

  /** A node without its timestamps and data plane. */
  datatype NodeView = NodeView(props: map<Field, Prop>, isDeleted: Option<bool>, sourceConn: Option<string>)

  const BareView := NodeView(map[], None, None)

  function NodeAt(g: Graph, id: NodeId): Option<NodeView> {
    if id in g.nodes then Some(NodeView(g.nodes[id].props, g.nodes[id].isDeleted, g.nodes[id].sourceConn)) else None
  }

  predicate Merges(r: Record, id: NodeId) {
    RoutesToGraph(r.kind) && !r.kind.LineageEdge? && NodeOf(r) == id
  }

  predicate Touches(r: Record, id: NodeId) {
    RoutesToGraph(r.kind) && r.op.Upsert? && id in BareNodesOf(r.kind, r.tenant, r.urn, r.payload)
  }

  function OrBare(x: Option<NodeView>): NodeView {
    if x.Some? then x.value else BareView
  }

  function NodeStep(x: Option<NodeView>, r: Record, id: NodeId): Option<NodeView> {
    if Merges(r, id) then
      Some(NodeView(OrBare(x).props + SanitizeProps(r.payload), Some(r.op.Delete?), Some(r.sourceConn)))
    else if Touches(r, id) then Some(OrBare(x))
    else x
  }

  lemma NodeAfterStep(g: Graph, r: Record, id: NodeId)
    ensures NodeAt(GraphStep(g, r), id) == NodeStep(NodeAt(g, id), r, id)
  {
    hide LinksOf, SanitizeProps, MergeDerives, KindNamed, LinkEnds, TombstoneDerives;
    if EndpointsOf(r.tenant, r.payload).None? && r.kind.LineageEdge? {
      NoEndpointsNoLinks(r);
    }
  }

  lemma NoEndpointsNoLinks(r: Record)
    requires r.kind.LineageEdge? && EndpointsOf(r.tenant, r.payload).None?
    ensures LinksOf(r.kind, r.tenant, r.urn, r.payload) == {} && BareNodesOf(r.kind, r.tenant, r.urn, r.payload) == {}
  {
  }

  function FoldNode(x: Option<NodeView>, rs: seq<Record>, id: NodeId): Option<NodeView>
    decreases |rs|
  {
    if rs == [] then x else FoldNode(NodeStep(x, rs[0], id), rs[1..], id)
  }

  /** The properties a batch merges into a node, later records winning. */
  function PropsMerged(rs: seq<Record>, id: NodeId): map<Field, Prop>
    decreases |rs|
  {
    if rs == [] then map[]
    else (if Merges(rs[0], id) then SanitizeProps(rs[0].payload) else map[]) + PropsMerged(rs[1..], id)
  }

  /** The last record that merges the node. */
  function LastMerge(rs: seq<Record>, id: NodeId): Option<Record>
    decreases |rs|
  {
    if rs == [] then None
    else
      var later := LastMerge(rs[1..], id);
      if later.Some? then later else if Merges(rs[0], id) then Some(rs[0]) else None
  }

  predicate AnyTouches(rs: seq<Record>, id: NodeId)
    decreases |rs|
  {
    rs != [] && (Touches(rs[0], id) || AnyTouches(rs[1..], id))
  }

  lemma PropsAssociate(a: map<Field, Prop>, b: map<Field, Prop>, c: map<Field, Prop>)
    ensures (a + b) + c == a + (b + c) && a + map[] == a && b + map[] == b && map[] + c == c && (a + b) + b == a + b
  {
  }

  /** A batch in closed form: merged properties over the old ones, flags and source of the last merge. */
  lemma {:induction false} FoldNodeShape(x: Option<NodeView>, rs: seq<Record>, id: NodeId)
    ensures FoldNode(x, rs, id) ==
            match LastMerge(rs, id)
            case Some(r) => Some(NodeView(OrBare(x).props + PropsMerged(rs, id), Some(r.op.Delete?), Some(r.sourceConn)))
            case None => if AnyTouches(rs, id) then Some(OrBare(x)) else x
    ensures LastMerge(rs, id).None? ==> PropsMerged(rs, id) == map[]
    decreases |rs|
  {
    hide Merges, Touches, SanitizeProps;
    if rs != [] {
      FoldNodeShape(NodeStep(x, rs[0], id), rs[1..], id);
      PropsAssociate(OrBare(x).props, SanitizeProps(rs[0].payload), PropsMerged(rs[1..], id));
    }
  }

  lemma FoldNodeTwice(x: Option<NodeView>, rs: seq<Record>, id: NodeId)
    ensures FoldNode(FoldNode(x, rs, id), rs, id) == FoldNode(x, rs, id)
  {
    FoldNodeShape(x, rs, id);
    FoldNodeShape(FoldNode(x, rs, id), rs, id);
    PropsAssociate(OrBare(x).props, PropsMerged(rs, id), map[]);
  }

  // ---------------------------------------------------------------- one relationship

  predicate Adds(r: Record, l: Link) {
    RoutesToGraph(r.kind) && r.op.Upsert? && l in LinksOf(r.kind, r.tenant, r.urn, r.payload)
  }

  predicate AnyAdds(rs: seq<Record>, l: Link)
    decreases |rs|
  {
    rs != [] && (Adds(rs[0], l) || AnyAdds(rs[1..], l))
  }

  lemma LinkAfterStep(g: Graph, r: Record, l: Link)
    ensures l in GraphStep(g, r).links <==> l in g.links || Adds(r, l)
  {
    hide LinksOf, MergeNode, MergeDerives, KindNamed, LinkEnds, TombstoneDerives, AddBare;
    if EndpointsOf(r.tenant, r.payload).None? && r.kind.LineageEdge? {
      NoEndpointsNoLinks(r);
    }
  }

  // ---------------------------------------------------------------- one derivation edge

  /** An edge without its timestamps. */
  datatype EdgeView = EdgeView(confidence: Json, granularity: Json, isDeleted: bool)

  function EdgeAt(g: Graph, k: DerivesKey): Option<EdgeView> {
    if k in g.derives then Some(EdgeView(g.derives[k].confidence, g.derives[k].granularity, g.derives[k].isDeleted)) else None
  }

  /** The record writes this edge, or flags it. */
  predicate Writes(r: Record, k: DerivesKey) {
    r.kind.LineageEdge? && r.op.Upsert? && EndpointsOf(r.tenant, r.payload).Some? &&
    k == DerivesKeyOf(EndpointsOf(r.tenant, r.payload).value, r.tenant, r.urn)
  }

  predicate Flags(r: Record, k: DerivesKey) {
    r.kind.LineageEdge? && r.op.Delete? && EndpointsOf(r.tenant,
        r.payload).Some? && k.tenant == r.tenant && k.urn == r.urn
  }

  function EdgeWritten(r: Record): EdgeView {
    EdgeView(OrDefault(r.payload, Confidence, Str("inferred")),
        OrDefault(r.payload, EdgeGranularity, Str("table_level")), false)
  }

  function EdgeStep(x: Option<EdgeView>, r: Record, k: DerivesKey): Option<EdgeView> {
    if Writes(r, k) then Some(EdgeWritten(r))
    else if Flags(r, k) && x.Some? then Some(x.value.(isDeleted := true))
    else x
  }

  lemma EdgeAfterStep(g: Graph, r: Record, k: DerivesKey)
    ensures EdgeAt(GraphStep(g, r), k) == EdgeStep(EdgeAt(g, k), r, k)
  {
    hide LinksOf, BareNodesOf, KindNamed, LinkEnds, AddBare, MergeNode, OrDefault;
  }

  function FoldEdge(x: Option<EdgeView>, rs: seq<Record>, k: DerivesKey): Option<EdgeView>
    decreases |rs|
  {
    if rs == [] then x else FoldEdge(EdgeStep(x, rs[0], k), rs[1..], k)
  }

  predicate AnyWrites(rs: seq<Record>, k: DerivesKey)
    decreases |rs|
  {
    rs != [] && (Writes(rs[0], k) || AnyWrites(rs[1..], k))
  }

  predicate AnyFlags(rs: seq<Record>, k: DerivesKey)
    decreases |rs|
  {
    rs != [] && (Flags(rs[0], k) || AnyFlags(rs[1..], k))
  }

  /** Once an edge is written, what it was before does not matter; an edge that is only flagged keeps the rest. */
  lemma {:induction false} FoldEdgeShape(x: Option<EdgeView>, y: Option<EdgeView>, rs: seq<Record>, k: DerivesKey)
    ensures AnyWrites(rs, k) ==> FoldEdge(x, rs, k) == FoldEdge(y, rs, k)
    ensures !AnyWrites(rs, k) ==>
              FoldEdge(x, rs, k) == if x.Some? && AnyFlags(rs, k) then Some(x.value.(isDeleted := true)) else x
    decreases |rs|
  {
    hide Writes, Flags, EdgeWritten;
    if rs != [] {
      FoldEdgeShape(EdgeStep(x, rs[0], k), EdgeStep(y, rs[0], k), rs[1..], k);
    }
  }

  lemma FoldEdgeTwice(x: Option<EdgeView>, rs: seq<Record>, k: DerivesKey)
    ensures FoldEdge(FoldEdge(x, rs, k), rs, k) == FoldEdge(x, rs, k)
  {
    FoldEdgeShape(x, FoldEdge(x, rs, k), rs, k);
    FoldEdgeShape(FoldEdge(x, rs, k), x, rs, k);
  }

  // ---------------------------------------------------------------- the batch

  lemma {:induction false} BatchFoldsGraph(g: Graph, rs: seq<Record>, id: NodeId, l: Link, k: DerivesKey)
    ensures NodeAt(GraphAll(g, rs), id) == FoldNode(NodeAt(g, id), rs, id)
    ensures l in GraphAll(g, rs).links <==> l in g.links || AnyAdds(rs, l)
    ensures EdgeAt(GraphAll(g, rs), k) == FoldEdge(EdgeAt(g, k), rs, k)
    decreases |rs|
  {
    hide GraphStep, NodeStep, EdgeStep, Adds, NodeAt, EdgeAt;
    if rs != [] {
      NodeAfterStep(g, rs[0], id);
      LinkAfterStep(g, rs[0], l);
      EdgeAfterStep(g, rs[0], k);
      BatchFoldsGraph(GraphStep(g, rs[0]), rs[1..], id, l, k);
    }
  }

  lemma SameEverywhere(a: Graph, b: Graph)
    requires forall id :: NodeAt(a, id) == NodeAt(b, id)
    requires forall l :: l in a.links <==> l in b.links
    requires forall k :: EdgeAt(a, k) == EdgeAt(b, k)
    ensures SameGraph(a, b)
  {
    forall id ensures id in a.nodes <==> id in b.nodes {
      assert NodeAt(a, id) == NodeAt(b, id);
    }
    forall k ensures k in a.derives <==> k in b.derives {
      assert EdgeAt(a, k) == EdgeAt(b, k);
    }
    forall id | id in a.nodes ensures SameNode(a.nodes[id], b.nodes[id]) {
      assert NodeAt(a, id) == NodeAt(b, id);
    }
    forall k | k in a.derives ensures SameDerives(a.derives[k], b.derives[k]) {
      assert EdgeAt(a, k) == EdgeAt(b, k);
    }
  }

  /** Main result: writing a batch to the graph a second time leaves every node, relationship and edge as after once,
      timestamps and data plane apart. */
  lemma GraphBatchTwice(g: Graph, rs: seq<Record>)
    ensures SameGraph(GraphAll(GraphAll(g, rs), rs), GraphAll(g, rs))
  {
    var once := GraphAll(g, rs);
    var twice := GraphAll(once, rs);
    var l0, k0 := Link(OwnerNode("", Null), HasColumn, OwnerNode("", Null)), DerivesKey(OwnerNode("", Null),
        OwnerNode("", Null), "", "");
    hide GraphAll, FoldNode, FoldEdge, AnyAdds, NodeAt, EdgeAt, SameGraph;
    forall id ensures NodeAt(twice, id) == NodeAt(once, id) {
      BatchFoldsGraph(g, rs, id, l0, k0);
      BatchFoldsGraph(once, rs, id, l0, k0);
      FoldNodeTwice(NodeAt(g, id), rs, id);
    }
    forall l ensures l in twice.links <==> l in once.links {
      BatchFoldsGraph(g, rs, l0.from, l, k0);
      BatchFoldsGraph(once, rs, l0.from, l, k0);
    }
    forall k ensures EdgeAt(twice, k) == EdgeAt(once, k) {
      BatchFoldsGraph(g, rs, l0.from, l0, k);
      BatchFoldsGraph(once, rs, l0.from, l0, k);
      FoldEdgeTwice(EdgeAt(g, k), rs, k);
    }
    SameEverywhere(twice, once);
  }
}
