/** Lineage: what the traversal query returns on the graph the upserts have built. */
module Lineage {
  import opened Types
  import opened Catalog
  import opened Tenancy
  import opened Reapply
  import opened Contents

  // ---------------------------------------------------------------- edges stay within a tenant

  /** Every derivation edge joins two nodes of the tenant it is filed under, and both nodes exist. */
  ghost predicate EdgesWithinTenant(g: Graph) {
    forall k :: k in g.derives ==>
      k.down.tenant == k.tenant && k.up.tenant == k.tenant && k.down in g.nodes && k.up in g.nodes
  }

  lemma UpsertKeepsEdgesWithinTenant(g: Graph, r: Record)
    requires EdgesWithinTenant(g) && UpsertGraph(g, r).Some?
    ensures EdgesWithinTenant(UpsertGraph(g, r).value)
  {
    hide LinksOf, MergeNode, MergeDerives, OrDefault, SanitizeProps, LinkEnds;
    var g' := UpsertGraph(g, r).value;
    forall k | k in g'.derives
      ensures k.down.tenant == k.tenant && k.up.tenant == k.tenant && k.down in g'.nodes && k.up in g'.nodes
    {
      if k in g.derives {
        assert k.down in g.nodes && k.up in g.nodes;
      }
    }
  }

  /** Over every run of the fan-out worker, also one that ends in an exception, edges stay within a tenant. */
  lemma {:induction false} RunKeepsEdgesWithinTenant(ct: string, c: Catalog, rs: seq<Record>)
    requires EdgesWithinTenant(c.graph)
    ensures EdgesWithinTenant(ProcessAll(ct, c, rs).catalog.graph)
    decreases |rs|
  {
    hide ProcessOne, EdgesWithinTenant, UpsertGraph;
    if rs != [] {
      var o := ProcessOne(ct, c, rs[0]);
      Stages(ct, c, rs[0]);
      if UpsertGraph(c.graph, rs[0]).Some? {
        UpsertKeepsEdgesWithinTenant(c.graph, rs[0]);
      }
      if o.Done? {
        RunKeepsEdgesWithinTenant(ct, o.catalog, rs[1..]);
      }
    }
  }

  // ---------------------------------------------------------------- walks and trails

  /** A path of one or more edges, followed from downstream to upstream, all of its nodes in the tenant. */
  ghost predicate IsWalk(g: Graph, tenant: string, w: seq<DerivesKey>) {
    && w != []
    && (forall i :: 0 <= i < |w| ==> w[i] in g.derives && w[i].down.tenant == tenant && w[i].up.tenant == tenant)
    && (forall i :: 0 <= i < |w| - 1 ==> w[i].up == w[i + 1].down)
  }

  /** A pattern match never uses a relationship twice. */
  ghost predicate IsTrail(g: Graph, tenant: string, w: seq<DerivesKey>) {
    IsWalk(g, tenant, w) && forall i, j :: 0 <= i < j < |w| ==> w[i] != w[j]
  }

  ghost predicate Joins(w: seq<DerivesKey>, from: set<NodeId>, to: set<NodeId>) {
    w != [] && w[0].down in from && w[|w| - 1].up in to
  }

  ghost predicate TrailOfLength(g: Graph, tenant: string, from: set<NodeId>, to: set<NodeId>, h: nat) {
    exists w :: IsTrail(g, tenant, w) && Joins(w, from, to) && |w| == h
  }

  ghost predicate WalkOfLength(g: Graph, tenant: string, from: set<NodeId>, to: set<NodeId>, h: nat) {
    exists w :: IsWalk(g, tenant, w) && Joins(w, from, to) && |w| == h
  }

  /** h is the length of a shortest walk of at least one edge. */
  ghost predicate ShortestWalk(g: Graph, tenant: string, from: set<NodeId>, to: set<NodeId>, h: nat) {
    WalkOfLength(g, tenant, from, to, h) && forall k: nat :: k < h ==> !WalkOfLength(g, tenant, from, to, k)
  }

  /** Cutting a walk between two uses of one edge leaves a shorter walk between the same ends. */
  lemma CutWalk(g: Graph, tenant: string, w: seq<DerivesKey>, from: set<NodeId>, to: set<NodeId>, i: nat, j: nat)
    returns (v: seq<DerivesKey>)
    requires IsWalk(g, tenant, w) && Joins(w, from, to) && i < j < |w| && w[i] == w[j]
    ensures IsWalk(g, tenant, v) && Joins(v, from, to) && |v| < |w|
  {
    v := w[..i + 1] + w[j + 1..];
    forall m | 0 <= m < |v| - 1 ensures v[m].up == v[m + 1].down {
      if m == i {
        assert v[m] == w[j] && v[m + 1] == w[j + 1];
      }
    }
    if j + 1 == |w| {
      assert v[|v| - 1] == w[i];
    } else {
      assert v[|v| - 1] == w[|w| - 1];
    }
  }

  /** So a shortest walk is a trail. */
  lemma ShortestWalkIsTrail(g: Graph, tenant: string, from: set<NodeId>, to: set<NodeId>, h: nat)
    requires ShortestWalk(g, tenant, from, to, h)
    ensures TrailOfLength(g, tenant, from, to, h)
  {
    var w :| IsWalk(g, tenant, w) && Joins(w, from, to) && |w| == h;
    forall i, j | 0 <= i < j < |w| ensures w[i] != w[j] {
      if w[i] == w[j] {
        var v := CutWalk(g, tenant, w, from, to, i, j);
        assert WalkOfLength(g, tenant, from, to, |v|);
        assert false;
      }
    }
    assert IsTrail(g, tenant, w);
  }

  /** The least number of hops from h on for which some pattern match exists. */
  ghost function LeastHops(g: Graph, tenant: string, from: set<NodeId>, to: set<NodeId>, h: nat, limit: nat): Option<nat>
    decreases limit - h
  {
    if h > limit then None
    else if TrailOfLength(g, tenant, from, to, h) then Some(h)
    else LeastHops(g, tenant, from, to, h + 1, limit)
  }

  lemma {:induction false} LeastHopsIsLeast(g: Graph, tenant: string, from: set<NodeId>, to: set<NodeId>, h: nat,
      limit: nat)
    ensures match LeastHops(g, tenant, from, to, h, limit)
            case None => forall k: nat :: h <= k <= limit ==> !TrailOfLength(g, tenant, from, to, k)
            case Some(n) => h <= n <= limit && TrailOfLength(g, tenant, from, to, n) &&
                            forall k: nat :: h <= k < n ==> !TrailOfLength(g, tenant, from, to, k)
    decreases limit - h
  {
    hide TrailOfLength;
    if h <= limit && !TrailOfLength(g, tenant, from, to, h) {
      LeastHopsIsLeast(g, tenant, from, to, h + 1, limit);
    }
  }

  lemma TrailIsWalk(g: Graph, tenant: string, from: set<NodeId>, to: set<NodeId>, h: nat)
    requires TrailOfLength(g, tenant, from, to, h)
    ensures WalkOfLength(g, tenant, from, to, h) && h > 0
  {
    var w :| IsTrail(g, tenant, w) && Joins(w, from, to) && |w| == h;
  }

  lemma {:induction false} SomeWalkIsShortest(g: Graph, tenant: string, from: set<NodeId>, to: set<NodeId>, h: nat)
    returns (n: nat)
    requires WalkOfLength(g, tenant, from, to, h)
    ensures n <= h && ShortestWalk(g, tenant, from, to, n)
    decreases h
  {
    hide WalkOfLength;
    if k: nat :| k < h && WalkOfLength(g, tenant, from, to, k) {
      n := SomeWalkIsShortest(g, tenant, from, to, k);
    } else {
      n := h;
    }
  }

  /** The hops a bounded query reports are the length of a shortest walk, when that is within the bound. */
  lemma LeastHopsIffShortest(g: Graph, tenant: string, from: set<NodeId>, to: set<NodeId>, limit: nat, h: nat)
    ensures LeastHops(g, tenant, from, to, 1, limit) == Some(h) <==> h <= limit && ShortestWalk(g, tenant, from, to, h)
  {
    LeastHopsIsLeast(g, tenant, from, to, 1, limit);
    NoEmptyWalk(g, tenant, from, to);
    hide TrailOfLength, WalkOfLength, LeastHops;
    if LeastHops(g, tenant, from, to, 1, limit) == Some(h) {
      TrailIsWalk(g, tenant, from, to, h);
      var n := SomeWalkIsShortest(g, tenant, from, to, h);
      ShortestWalkIsTrail(g, tenant, from, to, n);
      TrailIsWalk(g, tenant, from, to, n);
      assert n == h;
    }
    if h <= limit && ShortestWalk(g, tenant, from, to, h) {
      ShortestWalkIsTrail(g, tenant, from, to, h);
      forall k: nat | k < h ensures !TrailOfLength(g, tenant, from, to, k) {
        if TrailOfLength(g, tenant, from, to, k) {
          TrailIsWalk(g, tenant, from, to, k);
        }
      }
    }
  }

  lemma NoEmptyWalk(g: Graph, tenant: string, from: set<NodeId>, to: set<NodeId>)
    ensures !WalkOfLength(g, tenant, from, to, 0)
  {
  }

  // ---------------------------------------------------------------- the query

  const MaxHopsCeiling: nat := 15

  function Clamp(maxHops: int): nat {
    if maxHops < 1 then 1 else if maxHops > MaxHopsCeiling then MaxHopsCeiling else maxHops
  }

  datatype Direction = Upstream | Downstream

  /** `MATCH (t {tenant_id, urn})`: the nodes with this urn, under whatever label. */
  function Named(g: Graph, tenant: string, urn: string): set<NodeId> {
    set id | id in g.nodes && id.EntityNode? && id.tenant == tenant && id.urn == urn
  }

  function From(g: Graph, tenant: string, urn: string, dir: Direction, n: NodeId): set<NodeId> {
    if dir.Upstream? then Named(g, tenant, urn) else {n}
  }

  function To(g: Graph, tenant: string, urn: string, dir: Direction, n: NodeId): set<NodeId> {
    if dir.Upstream? then {n} else Named(g, tenant, urn)
  }

  /** `n.is_deleted = false`: a node that only ever was an edge endpoint has no flag and is left out. */
  predicate Live(g: Graph, tenant: string, n: NodeId) {
    n in g.nodes && n.tenant == tenant && g.nodes[n].isDeleted == Some(false)
  }

  /** `_traverse_tx`: the live nodes some bounded pattern match reaches, each with its least number of hops. */
  ghost function Traverse(g: Graph, tenant: string, urn: string, dir: Direction, maxHops: int): map<NodeId, nat> {
    map n | n in g.nodes && Live(g, tenant, n) &&
            LeastHops(g, tenant, From(g, tenant, urn, dir, n), To(g, tenant, urn, dir, n), 1, Clamp(maxHops)).Some? ::
      LeastHops(g, tenant, From(g, tenant, urn, dir, n), To(g, tenant, urn, dir, n), 1, Clamp(maxHops)).value
  }

  ghost predicate Reports(g: Graph, tenant: string, urn: string, dir: Direction, maxHops: int, n: NodeId, h: nat) {
    n in Traverse(g, tenant, urn, dir, maxHops) && Traverse(g, tenant, urn, dir, maxHops)[n] == h
  }

  /** Main result: a node is reported at h hops exactly when it is live, h is within the clamped bound, and h is the
      length of a shortest walk of at least one edge between it and a node with the urn. */
  lemma LineageIsShortestWalks(g: Graph, tenant: string, urn: string, dir: Direction, maxHops: int, n: NodeId, h: nat)
    ensures Reports(g, tenant, urn, dir, maxHops, n, h) <==>
            && n in g.nodes && n.tenant == tenant && g.nodes[n].isDeleted == Some(false)
            && h <= Clamp(maxHops)
            && ShortestWalk(g, tenant, From(g, tenant, urn, dir, n), To(g, tenant, urn, dir, n), h)
  {
    LeastHopsIffShortest(g, tenant, From(g, tenant, urn, dir, n), To(g, tenant, urn, dir, n), Clamp(maxHops), h);
    hide LeastHops, ShortestWalk, From, To, Clamp;
  }

  /** How far the query for `urn` reports the other urn: the least hops of the nodes that carry it. */
  ghost predicate UrnAt(g: Graph, tenant: string, urn: string, dir: Direction, maxHops: int, other: string, h: nat) {
    && (exists n :: n in Named(g, tenant, other) && Reports(g, tenant, urn, dir, maxHops, n, h))
    && (forall n, k: nat :: n in Named(g, tenant, other) && Reports(g, tenant, urn, dir, maxHops, n, k) ==> h <= k)
  }

  predicate AllLive(g: Graph, tenant: string, urn: string) {
    forall n :: n in Named(g, tenant, urn) ==> Live(g, tenant, n)
  }

  function Ends(g: Graph, tenant: string, urn: string, dir: Direction, other: string): (set<NodeId>, set<NodeId>) {
    if dir.Upstream? then (Named(g, tenant, urn), Named(g, tenant, other)) else (Named(g, tenant, other), Named(g, tenant, urn))
  }

  /** A walk of this length between the node and the nodes of the urn, and one between the nodes of two urns. */
  ghost predicate NodeWalk(g: Graph, tenant: string, urn: string, dir: Direction, n: NodeId, h: nat) {
    WalkOfLength(g, tenant, From(g, tenant, urn, dir, n), To(g, tenant, urn, dir, n), h)
  }

  ghost predicate UrnWalk(g: Graph, tenant: string, urn: string, dir: Direction, other: string, h: nat) {
    WalkOfLength(g, tenant, Ends(g, tenant, urn, dir, other).0, Ends(g, tenant, urn, dir, other).1, h)
  }

  lemma UrnWalkIsNodeWalk(g: Graph, tenant: string, urn: string, dir: Direction, other: string, h: nat)
    returns (n: NodeId)
    requires UrnWalk(g, tenant, urn, dir, other, h)
    ensures n in Named(g, tenant, other) && NodeWalk(g, tenant, urn, dir, n, h)
  {
    hide Named;
    var (from, to) := Ends(g, tenant, urn, dir, other);
    var w: seq<DerivesKey> :| IsWalk(g, tenant, w) && Joins(w, from, to) && |w| == h;
    n := if dir.Upstream? then w[|w| - 1].up else w[0].down;
    assert Joins(w, From(g, tenant, urn, dir, n), To(g, tenant, urn, dir, n));
  }

  lemma NodeWalkIsUrnWalk(g: Graph, tenant: string, urn: string, dir: Direction, other: string, n: NodeId, h: nat)
    requires n in Named(g, tenant, other) && NodeWalk(g, tenant, urn, dir, n, h)
    ensures UrnWalk(g, tenant, urn, dir, other, h)
  {
    hide Named;
    var (from, to) := Ends(g, tenant, urn, dir, other);
    var w :| IsWalk(g, tenant, w) && Joins(w, From(g, tenant, urn, dir, n), To(g, tenant, urn, dir, n)) && |w| == h;
    assert Joins(w, from, to);
  }

  ghost predicate ShortestUrnWalk(g: Graph, tenant: string, urn: string, dir: Direction, other: string, h: nat) {
    UrnWalk(g, tenant, urn, dir, other, h) && forall k: nat :: k < h ==> !UrnWalk(g, tenant, urn, dir, other, k)
  }

  /** A walk within the bound is reported, at its length or closer. */
  lemma WalkIsReported(g: Graph, tenant: string, urn: string, dir: Direction, maxHops: int, other: string, k: nat)
    returns (n: NodeId, m: nat)
    requires AllLive(g, tenant, other) && k <= Clamp(maxHops) && UrnWalk(g, tenant, urn, dir, other, k)
    ensures m <= k && n in Named(g, tenant, other) && Reports(g, tenant, urn, dir, maxHops, n, m)
  {
    hide WalkOfLength, Reports, Clamp, Named, From, To, Ends, ShortestWalk;
    n := UrnWalkIsNodeWalk(g, tenant, urn, dir, other, k);
    m := SomeWalkIsShortest(g, tenant, From(g, tenant, urn, dir, n), To(g, tenant, urn, dir, n), k);
    LineageIsShortestWalks(g, tenant, urn, dir, maxHops, n, m);
  }

  lemma ReportedIsWalk(g: Graph, tenant: string, urn: string, dir: Direction, maxHops: int, other: string,
      n: NodeId, k: nat)
    requires n in Named(g, tenant, other) && Reports(g, tenant, urn, dir, maxHops, n, k)
    ensures k <= Clamp(maxHops) && UrnWalk(g, tenant, urn, dir, other, k)
  {
    LineageIsShortestWalks(g, tenant, urn, dir, maxHops, n, k);
    hide WalkOfLength, Reports, Clamp, Named, From, To, Ends;
    NodeWalkIsUrnWalk(g, tenant, urn, dir, other, n, k);
  }

  /** The urn is reported at the length of a shortest walk between the nodes of the two urns. */
  lemma UrnAtIffShortest(g: Graph, tenant: string, urn: string, dir: Direction, maxHops: int, other: string, h: nat)
    requires AllLive(g, tenant, other)
    ensures UrnAt(g, tenant, urn, dir, maxHops, other, h) <==> h <= Clamp(maxHops) && ShortestUrnWalk(g, tenant, urn, dir, other, h)
  {
    hide UrnWalk, Reports, Clamp, Named, AllLive;
    if UrnAt(g, tenant, urn, dir, maxHops, other, h) {
      var n :| n in Named(g, tenant, other) && Reports(g, tenant, urn, dir, maxHops, n, h);
      ReportedIsWalk(g, tenant, urn, dir, maxHops, other, n, h);
      forall k: nat | k < h ensures !UrnWalk(g, tenant, urn, dir, other, k) {
        if UrnWalk(g, tenant, urn, dir, other, k) {
          var x, m := WalkIsReported(g, tenant, urn, dir, maxHops, other, k);
        }
      }
    }
    if h <= Clamp(maxHops) && ShortestUrnWalk(g, tenant, urn, dir, other, h) {
      var n, m := WalkIsReported(g, tenant, urn, dir, maxHops, other, h);
      forall x, k: nat | x in Named(g, tenant, other) && Reports(g, tenant, urn, dir, maxHops, x, k) ensures h <= k {
        ReportedIsWalk(g, tenant, urn, dir, maxHops, other, x, k);
      }
    }
  }

  /** Main result, duality: for two urns of a tenant, under whatever labels, whose nodes are live, one is upstream of
      the other at h hops exactly when that one is downstream of it at h hops, for every bound. */
  lemma LineageIsDual(g: Graph, tenant: string, urn: string, other: string, maxHops: int, h: nat)
    requires AllLive(g, tenant, urn) && AllLive(g, tenant, other)
    ensures UrnAt(g, tenant, urn, Upstream, maxHops, other, h) <==> UrnAt(g, tenant, other, Downstream, maxHops, urn, h)
  {
    UrnAtIffShortest(g, tenant, urn, Upstream, maxHops, other, h);
    UrnAtIffShortest(g, tenant, other, Downstream, maxHops, urn, h);
    hide UrnAt, WalkOfLength, Clamp, Named;
    assert forall k: nat :: UrnWalk(g, tenant, urn, Upstream, other, k) <==> UrnWalk(g, tenant, other, Downstream, urn, k);
  }

  /** Main result: a larger bound keeps every node and its hops, and only adds nodes; from the ceiling on it changes
      nothing, and below one it is one. */
  lemma LineageGrowsWithBound(g: Graph, tenant: string, urn: string, dir: Direction, small: int, large: int,
      n: NodeId, h: nat)
    requires small <= large && Reports(g, tenant, urn, dir, small, n, h)
    ensures Reports(g, tenant, urn, dir, large, n, h)
    ensures small >= 15 || large <= 1 ==> Traverse(g, tenant, urn, dir, small) == Traverse(g, tenant, urn, dir, large)
  {
    LineageIsShortestWalks(g, tenant, urn, dir, small, n, h);
    LineageIsShortestWalks(g, tenant, urn, dir, large, n, h);
    hide ShortestWalk, Reports, LeastHops;
  }

  // ---------------------------------------------------------------- tenants

  lemma WalkInView(a: Graph, b: Graph, tenant: string, w: seq<DerivesKey>)
    requires SameGraphView(a, b, tenant) && EdgesWithinTenant(a)
    requires IsWalk(a, tenant, w)
    ensures IsWalk(b, tenant, w)
  {
    forall i | 0 <= i < |w| ensures w[i] in b.derives {
      assert w[i].tenant == tenant;
      assert Lookup(a.derives, w[i]) == Lookup(b.derives, w[i]);
    }
  }

  lemma WalksInView(a: Graph, b: Graph, tenant: string, from: set<NodeId>, to: set<NodeId>, h: nat)
    requires SameGraphView(a, b, tenant) && EdgesWithinTenant(a) && WalkOfLength(a, tenant, from, to, h)
    ensures WalkOfLength(b, tenant, from, to, h)
  {
    hide SameGraphView, EdgesWithinTenant;
    var w :| IsWalk(a, tenant, w) && Joins(w, from, to) && |w| == h;
    WalkInView(a, b, tenant, w);
  }

  lemma NodesInView(a: Graph, b: Graph, tenant: string, urn: string, n: NodeId)
    requires SameGraphView(a, b, tenant)
    ensures Live(a, tenant, n) <==> Live(b, tenant, n)
    ensures Named(a, tenant, urn) == Named(b, tenant, urn)
  {
    forall id: NodeId | id.tenant == tenant ensures id in a.nodes <==> id in b.nodes {
      assert Lookup(a.nodes, id) == Lookup(b.nodes, id);
    }
    if n.tenant == tenant {
      assert Lookup(a.nodes, n) == Lookup(b.nodes, n);
    }
  }

  lemma SymmetricView(a: Graph, b: Graph, tenant: string)
    requires SameGraphView(a, b, tenant)
    ensures SameGraphView(b, a, tenant)
  {
  }

  /** Main result: what a tenant's lineage reports depends on the tenant's own part of the graph only. */
  lemma LineageIsTenantOnly(a: Graph, b: Graph, tenant: string, urn: string, dir: Direction, maxHops: int,
      n: NodeId, h: nat)
    requires SameGraphView(a, b, tenant) && EdgesWithinTenant(a) && EdgesWithinTenant(b)
    ensures Reports(a, tenant, urn, dir, maxHops, n, h) <==> Reports(b, tenant, urn, dir, maxHops, n, h)
  {
    LineageIsShortestWalks(a, tenant, urn, dir, maxHops, n, h);
    LineageIsShortestWalks(b, tenant, urn, dir, maxHops, n, h);
    SymmetricView(a, b, tenant);
    NodesInView(a, b, tenant, urn, n);
    var from, to := From(a, tenant, urn, dir, n), To(a, tenant, urn, dir, n);
    hide SameGraphView, EdgesWithinTenant, WalkOfLength, Reports, Live, Named, Clamp;
    assert from == From(b, tenant, urn, dir, n) && to == To(b, tenant, urn, dir, n);
    forall k: nat ensures WalkOfLength(a, tenant, from, to, k) <==> WalkOfLength(b, tenant, from, to, k) {
      if WalkOfLength(a, tenant, from, to, k) {
        WalksInView(a, b, tenant, from, to, k);
      }
      if WalkOfLength(b, tenant, from, to, k) {
        WalksInView(b, a, tenant, from, to, k);
      }
    }
  }

  /** A tombstoned edge still carries lineage: the traversal does not read its flag. */
  lemma TombstonedEdgeStillCounts(g: Graph, tenant: string, edgeUrn: string, urn: string, dir: Direction,
      maxHops: int, n: NodeId, h: nat)
    ensures Reports(g.(derives := TombstoneDerives(g.derives, tenant, edgeUrn)), tenant, urn, dir, maxHops, n, h) <==>
            Reports(g, tenant, urn, dir, maxHops, n, h)
  {
    var g' := g.(derives := TombstoneDerives(g.derives, tenant, edgeUrn));
    LineageIsShortestWalks(g, tenant, urn, dir, maxHops, n, h);
    LineageIsShortestWalks(g', tenant, urn, dir, maxHops, n, h);
    assert g'.derives.Keys == g.derives.Keys;
    assert Named(g', tenant, urn) == Named(g, tenant, urn);
    hide Reports, Clamp, Named;
    var from, to := From(g, tenant, urn, dir, n), To(g, tenant, urn, dir, n);
    forall w ensures IsWalk(g', tenant, w) <==> IsWalk(g, tenant, w) {
    }
    hide IsWalk;
    forall k: nat ensures WalkOfLength(g', tenant, from, to, k) <==> WalkOfLength(g, tenant, from, to, k) {
    }
  }

  // ---------------------------------------------------------------- what was written is what is read

  lemma {:induction false} ProcessOneMore(ct: string, c: Catalog, rs: seq<Record>, r: Record)
    ensures ProcessAll(ct, c, rs + [r]) ==
            match ProcessAll(ct, c, rs)
            case Raised(d) => Raised(d)
            case Done(d) => ProcessOne(ct, d, r)
    decreases |rs|
  {
    hide ProcessOne;
    if rs == [] {
      assert [r][1..] == [] && [] + [r] == [r];
      assert ProcessAll(ct, c, [r]) ==
             match ProcessOne(ct, c, r) case Raised(d) => Raised(d) case Done(d) => ProcessAll(ct, d, [r][1..]);
    } else {
      assert (rs + [r])[1..] == rs[1..] + [r];
      if ProcessOne(ct, c, rs[0]).Done? {
        ProcessOneMore(ct, ProcessOne(ct, c, rs[0]).catalog, rs[1..], r);
      }
    }
  }

  /** An upsert that was answered as unchanged named its edge before. */
  lemma UnchangedWasNamed(ct: string, rs: seq<Record>, r: Record, e: DerivesKey)
    requires HashesDeterminePayloads(rs + [r]) && EdgeFrom(e, r)
    requires Unchanged(Lookup(ProcessAll(ct, EmptyCatalog, rs).catalog.rows, KeyOf(r)), r)
    ensures SomeEdgeFrom(rs, e)
  {
    var e0 := Event("", "", "", "", Table, Upsert, EntityDeleted, 0);
    OneFanOut(ct, EmptyCatalog, rs, KeyOf(r), e0);
    hide ProcessAll, PayloadColumns;
    var row := ProcessAll(ct, EmptyCatalog, rs).catalog.rows[KeyOf(r)];
    var m :| 0 <= m < |rs| && Upserts(rs[m], KeyOf(r)) && RowBears(row, rs[m]);
    var more := rs + [r];
    assert more[m] == rs[m] && more[|rs|] == r;
    assert SameHash(more[m], more[|rs|]);
    assert EdgeFrom(e, rs[m]);
  }

  /** After every run that goes through, the edges of the graph are those its upserts name. */
  lemma {:induction false} EdgesAreThoseNamed(ct: string, rs: seq<Record>, e: DerivesKey)
    requires HashesDeterminePayloads(rs) && ProcessAll(ct, EmptyCatalog, rs).Done?
    ensures e in ProcessAll(ct, EmptyCatalog, rs).catalog.graph.derives <==> SomeEdgeFrom(rs, e)
    decreases |rs|
  {
    hide ProcessOne, EdgeFrom, UpsertGraph, HashesDeterminePayloads, Unchanged;
    if rs == [] {
      assert !SomeEdgeFrom([], e);
    } else {
      var front, r := rs[..|rs| - 1], rs[|rs| - 1];
      assert rs == front + [r];
      ProcessOneMore(ct, EmptyCatalog, front, r);
      HashesBefore(front, r);
      EdgesAreThoseNamed(ct, front, e);
      var c := ProcessAll(ct, EmptyCatalog, front).catalog;
      StepGainsEdge(ct, c, r, e);
      OneMoreEdge(front, r, e);
      hide ProcessAll;
      if EdgeFrom(e, r) && Unchanged(Lookup(c.rows, KeyOf(r)), r) {
        UnchangedWasNamed(ct, front, r, e);
      }
    }
  }

  lemma OneMoreEdge(rs: seq<Record>, r: Record, e: DerivesKey)
    ensures SomeEdgeFrom(rs + [r], e) <==> SomeEdgeFrom(rs, e) || EdgeFrom(e, r)
  {
    hide EdgeFrom;
    var more := rs + [r];
    assert more[|rs|] == r && forall i :: 0 <= i < |rs| ==> more[i] == rs[i];
    if i :| 0 <= i < |rs| && EdgeFrom(e, rs[i]) {
      assert EdgeFrom(e, more[i]);
    }
  }

  lemma HashesBefore(rs: seq<Record>, r: Record)
    requires HashesDeterminePayloads(rs + [r])
    ensures HashesDeterminePayloads(rs)
  {
    var more := rs + [r];
    forall i, j | 0 <= i < |rs| && 0 <= j < |rs| && SameHash(rs[i], rs[j]) ensures rs[i].payload == rs[j].payload {
      assert more[i] == rs[i] && more[j] == rs[j];
    }
  }

  /** One record adds the edge it names, unless it is answered as unchanged. */
  lemma StepGainsEdge(ct: string, c: Catalog, r: Record, e: DerivesKey)
    requires ProcessOne(ct, c, r).Done?
    ensures var d := ProcessOne(ct, c, r).catalog;
            && (e in d.graph.derives ==> e in c.graph.derives || EdgeFrom(e, r))
            && (e in c.graph.derives || (EdgeFrom(e, r) && !Unchanged(Lookup(c.rows, KeyOf(r)), r)) ==> e in d.graph.derives)
  {
    Stages(ct, c, r);
    Projections.DoneShape(ct, c, r, NoFault);
    hide ProcessOne, NamesNode, UpsertGraph;
    if UpsertGraph(c.graph, r).Some? {
      GraphGains(c.graph, r);
    }
  }

  // ---------------------------------------------------------------- which nodes are live

  predicate IsOf(r: Record, n: NodeId) {
    n.EntityNode? && r.kind == n.kind && r.tenant == n.tenant && r.urn == n.urn
  }

  predicate LastOf(rs: seq<Record>, i: int, n: NodeId) {
    0 <= i < |rs| && IsOf(rs[i], n) && forall j :: i < j < |rs| ==> !IsOf(rs[j], n)
  }

  /** The last record of the entity is an upsert. Dashboards have no node of their own. */
  ghost predicate LastUpserted(rs: seq<Record>, n: NodeId) {
    n.EntityNode? && n.kind in [Table, Column, Dataset, Job] && exists i :: LastOf(rs, i, n) && rs[i].op.Upsert?
  }

  predicate Flagged(g: Graph, n: NodeId, flag: bool) {
    n in g.nodes && g.nodes[n].isDeleted == Some(flag)
  }

  /** The node is live exactly when the last record says so, and so is the row at most then. */
  ghost predicate FlagFollows(c: Catalog, rs: seq<Record>, n: NodeId) {
    && (Flagged(c.graph, n, false) <==> LastUpserted(rs, n))
    && (n.EntityNode? && n.kind in [Table, Column, Dataset, Job] ==>
          var k := RowKey(n.kind, n.tenant, n.urn);
          k in c.rows && !c.rows[k].isDeleted ==> LastUpserted(rs, n))
  }

  lemma LastOneMore(rs: seq<Record>, r: Record, n: NodeId)
    ensures LastUpserted(rs + [r], n) <==>
            if n.EntityNode? && n.kind in [Table, Column, Dataset, Job] && IsOf(r, n) then r.op.Upsert? else LastUpserted(rs, n)
  {
    hide IsOf;
    var more := rs + [r];
    assert more[|rs|] == r && forall i :: 0 <= i < |rs| ==> more[i] == rs[i];
    if IsOf(r, n) {
      assert LastOf(more, |rs|, n);
    } else {
      forall i ensures LastOf(more, i, n) <==> LastOf(rs, i, n) {
      }
    }
  }

  lemma FlagWritten(g: Graph, r: Record, n: NodeId)
    requires UpsertGraph(g, r).Some?
    ensures var g' := UpsertGraph(g, r).value;
            if n == NodeOf(r) && !r.kind.LineageEdge? then Flagged(g', n, r.op.Delete?)
            else Flagged(g', n, false) <==> Flagged(g, n, false)
  {
    hide LinksOf, BareNodesOf, EndpointsOf, MergeDerives, SanitizeProps;
  }

  lemma FlagStep(ct: string, c: Catalog, r: Record, rs: seq<Record>, n: NodeId)
    requires ProcessOne(ct, c, r).Done? && FlagFollows(c, rs, n)
    ensures FlagFollows(ProcessOne(ct, c, r).catalog, rs + [r], n)
  {
    hide ProcessOne, UpsertGraph, LastUpserted, WriteRow, Flagged;
    Projections.DoneShape(ct, c, r, NoFault);
    LastOneMore(rs, r, n);
    if UpsertGraph(c.graph, r).Some? {
      FlagWritten(c.graph, r, n);
    }
    OneFlag(ProcessOne(ct, c, r).catalog.graph, n);
  }

  lemma OneFlag(g: Graph, n: NodeId)
    ensures !(Flagged(g, n, false) && Flagged(g, n, true))
  {
  }

  /** Over every run that goes through, a node is live exactly when the last record of its entity is an upsert. */
  lemma {:induction false} LiveIffLastUpserted(ct: string, rs: seq<Record>, n: NodeId)
    requires ProcessAll(ct, EmptyCatalog, rs).Done?
    ensures FlagFollows(ProcessAll(ct, EmptyCatalog, rs).catalog, rs, n)
    decreases |rs|
  {
    if rs != [] {
      hide ProcessOne, FlagFollows;
      var front, r := rs[..|rs| - 1], rs[|rs| - 1];
      assert rs == front + [r];
      ProcessOneMore(ct, EmptyCatalog, front, r);
      LiveIffLastUpserted(ct, front, n);
      FlagStep(ct, ProcessAll(ct, EmptyCatalog, front).catalog, r, front, n);
    }
  }

  lemma LiveNode(ct: string, rs: seq<Record>, n: NodeId)
    requires ProcessAll(ct, EmptyCatalog, rs).Done?
    ensures var g := ProcessAll(ct, EmptyCatalog, rs).catalog.graph;
            n in g.nodes && g.nodes[n].isDeleted == Some(false) <==> LastUpserted(rs, n)
  {
    LiveIffLastUpserted(ct, rs, n);
    hide LastUpserted, ProcessAll;
  }

  // ---------------------------------------------------------------- chains of records

  /** The upstream end of the one is the downstream end of the other. */
  predicate Follows(a: Record, b: Record) {
    && Get(a.payload, UpstreamUrn) == Get(b.payload, DownstreamUrn)
    && Get(a.payload, UpstreamEntityType) == Get(b.payload, DownstreamEntityType)
  }

  ghost predicate NamesAnEdge(r: Record) {
    exists e :: EdgeFrom(e, r)
  }

  /** Upserted lineage records of the tenant, by their places in the run, each following on the one before. */
  ghost predicate IsChain(rs: seq<Record>, tenant: string, s: seq<nat>) {
    && s != []
    && (forall i :: 0 <= i < |s| ==> s[i] < |rs| && rs[s[i]].tenant == tenant && NamesAnEdge(rs[s[i]]))
    && (forall i :: 0 <= i < |s| - 1 ==> Follows(rs[s[i]], rs[s[i + 1]]))
  }

  /** Upstream of a urn: the chain leads from the urn to the node; downstream of it: from the node to the urn. */
  ghost predicate ChainJoins(rs: seq<Record>, s: seq<nat>, urn: string, dir: Direction, n: NodeId)
    requires s != [] && forall i :: 0 <= i < |s| ==> s[i] < |rs|
  {
    var first, last := rs[s[0]], rs[s[|s| - 1]];
    match dir
    case Upstream =>
      Get(first.payload, DownstreamUrn) == Str(urn) && NamesNode(last, UpstreamUrn, UpstreamEntityType, n)
    case Downstream =>
      NamesNode(first, DownstreamUrn, DownstreamEntityType, n) && Get(last.payload, UpstreamUrn) == Str(urn)
  }

  ghost predicate ChainOfLength(rs: seq<Record>, tenant: string, urn: string, dir: Direction, n: NodeId, h: nat) {
    exists s :: IsChain(rs, tenant, s) && ChainJoins(rs, s, urn, dir, n) && |s| == h
  }

  ghost predicate ShortestChain(rs: seq<Record>, tenant: string, urn: string, dir: Direction, n: NodeId, h: nat) {
    ChainOfLength(rs, tenant, urn, dir, n, h) && forall k: nat :: k < h ==> !ChainOfLength(rs, tenant, urn, dir, n, k)
  }

  /** The graph's edges are those the records name, and their ends exist. */
  ghost predicate EdgesNamed(g: Graph, rs: seq<Record>) {
    EdgesWithinTenant(g) && forall e :: e in g.derives <==> SomeEdgeFrom(rs, e)
  }

  /** Each edge of a walk is named by some record of the run. */
  lemma {:induction false} WalkHasRecords(g: Graph, rs: seq<Record>, tenant: string, w: seq<DerivesKey>)
    returns (s: seq<nat>)
    requires EdgesNamed(g, rs) && IsWalk(g, tenant, w)
    ensures Match(rs, w, s)
    decreases |w|
  {
    hide EdgeFrom;
    var last := |w| - 1;
    assert SomeEdgeFrom(rs, w[last]);
    var m: nat :| m < |rs| && EdgeFrom(w[last], rs[m]);
    if last == 0 {
      s := [m];
    } else {
      assert IsWalk(g, tenant, w[..last]);
      var front := WalkHasRecords(g, rs, tenant, w[..last]);
      s := front + [m];
    }
  }

  lemma EdgesFollow(a: DerivesKey, b: DerivesKey, r: Record, q: Record)
    requires EdgeFrom(a, r) && EdgeFrom(b, q)
    ensures a.up == b.down ==> Follows(r, q)
    ensures Follows(r, q) && r.tenant == q.tenant ==> a.up == b.down
  {
    KindNamesDiffer(a.up, b.down);
  }

  lemma KindNamesDiffer(m: NodeId, n: NodeId)
    ensures HasLabel(m) && HasLabel(n) && KindName(m.kind) == KindName(n.kind) ==> m.kind == n.kind
  {
    if m.EntityNode? && n.EntityNode? {
      NameOfKind(m.kind);
      NameOfKind(n.kind);
    }
  }

  predicate HasLabel(n: NodeId) {
    n.EntityNode? && n.kind in [Table, Column, Dataset, Job, Dashboard]
  }

  lemma NameOfKind(kind: Kind)
    ensures kind in [Table, Column, Dataset, Job, Dashboard] ==> KindFrom(KindName(kind)) == kind
  {
  }

  /** The records at these places name these edges. */
  ghost predicate Match(rs: seq<Record>, w: seq<DerivesKey>, s: seq<nat>) {
    |w| == |s| && forall i :: 0 <= i < |s| ==> s[i] < |rs| && EdgeFrom(w[i], rs[s[i]])
  }

  /** Edges of a tenant whose ends exist form a walk exactly when their records form a chain. */
  lemma WalkIffChain(g: Graph, rs: seq<Record>, tenant: string, w: seq<DerivesKey>, s: seq<nat>)
    requires Match(rs, w, s) && forall i :: 0 <= i < |w| ==> w[i] in g.derives
    ensures IsWalk(g, tenant, w) <==> IsChain(rs, tenant, s)
  {
    hide EdgeFrom, Follows;
    forall i | 0 <= i < |s|
      ensures w[i].down.tenant == w[i].up.tenant == w[i].tenant == rs[s[i]].tenant && NamesAnEdge(rs[s[i]])
    {
      EdgeTenant(w[i], rs[s[i]]);
    }
    forall i | 0 <= i < |s| - 1
      ensures rs[s[i]].tenant == rs[s[i + 1]].tenant ==> (w[i].up == w[i + 1].down <==> Follows(rs[s[i]], rs[s[i + 1]]))
    {
      EdgesFollow(w[i], w[i + 1], rs[s[i]], rs[s[i + 1]]);
    }
  }

  /** And they have the same ends. */
  lemma JoinsIff(g: Graph, rs: seq<Record>, w: seq<DerivesKey>, s: seq<nat>, tenant: string, urn: string, dir: Direction,
      n: NodeId)
    requires Match(rs, w, s) && w != [] && w[0].down in g.nodes && w[|w| - 1].up in g.nodes
    requires w[0].down.tenant == tenant && w[|w| - 1].up.tenant == tenant
    ensures Joins(w, From(g, tenant, urn, dir, n), To(g, tenant, urn, dir, n)) <==> ChainJoins(rs, s, urn, dir, n)
  {
    hide EdgeFrom, NamesNode;
    var last := |w| - 1;
    assert EdgeFrom(w[0], rs[s[0]]) && EdgeFrom(w[last], rs[s[last]]);
    EdgeEnds(w[0], rs[s[0]]);
    EdgeEnds(w[last], rs[s[last]]);
    if dir.Upstream? {
      SameNodeNamed(rs[s[last]], UpstreamUrn, UpstreamEntityType, w[last].up, n);
    } else {
      SameNodeNamed(rs[s[0]], DownstreamUrn, DownstreamEntityType, w[0].down, n);
    }
  }

  lemma WalkIsChain(g: Graph, rs: seq<Record>, tenant: string, urn: string, dir: Direction, n: NodeId, h: nat)
    requires EdgesNamed(g, rs) && NodeWalk(g, tenant, urn, dir, n, h)
    ensures ChainOfLength(rs, tenant, urn, dir, n, h)
  {
    hide EdgeFrom, ChainJoins, IsChain, From, To, SomeEdgeFrom;
    var w :| IsWalk(g, tenant, w) && Joins(w, From(g, tenant, urn, dir, n), To(g, tenant, urn, dir, n)) && |w| == h;
    var s := WalkHasRecords(g, rs, tenant, w);
    WalkIffChain(g, rs, tenant, w, s);
    JoinsIff(g, rs, w, s, tenant, urn, dir, n);
  }

  lemma EdgeTenant(e: DerivesKey, r: Record)
    requires EdgeFrom(e, r)
    ensures e.down.tenant == e.up.tenant == e.tenant == r.tenant
  {
  }

  lemma EdgeEnds(e: DerivesKey, r: Record)
    requires EdgeFrom(e, r)
    ensures NamesNode(r, UpstreamUrn, UpstreamEntityType, e.up) && NamesNode(r, DownstreamUrn, DownstreamEntityType, e.down)
    ensures e.up.EntityNode? && Get(r.payload, UpstreamUrn) == Str(e.up.urn)
    ensures e.down.EntityNode? && Get(r.payload, DownstreamUrn) == Str(e.down.urn)
  {
  }

  lemma SameNodeNamed(r: Record, urn: Field, kind: Field, m: NodeId, n: NodeId)
    requires NamesNode(r, urn, kind, m)
    ensures NamesNode(r, urn, kind, n) <==> m == n
  {
    KindNamesDiffer(m, n);
  }

  /** The edges that the records of a chain name form a walk. */
  lemma {:induction false} ChainHasEdges(rs: seq<Record>, tenant: string, s: seq<nat>) returns (w: seq<DerivesKey>)
    requires IsChain(rs, tenant, s)
    ensures Match(rs, w, s)
    decreases |s|
  {
    hide EdgeFrom, Follows;
    var last := |s| - 1;
    assert NamesAnEdge(rs[s[last]]);
    var e :| EdgeFrom(e, rs[s[last]]);
    if last == 0 {
      w := [e];
    } else {
      assert IsChain(rs, tenant, s[..last]);
      var front := ChainHasEdges(rs, tenant, s[..last]);
      w := front + [e];
    }
  }

  lemma MatchedAreEdges(g: Graph, rs: seq<Record>, w: seq<DerivesKey>, s: seq<nat>)
    requires EdgesNamed(g, rs) && Match(rs, w, s)
    ensures forall i :: 0 <= i < |w| ==> w[i] in g.derives && w[i].down in g.nodes && w[i].up in g.nodes
  {
    hide EdgeFrom;
    forall i | 0 <= i < |w| ensures w[i] in g.derives {
      assert SomeEdgeFrom(rs, w[i]);
    }
  }

  lemma ChainIsWalk(g: Graph, rs: seq<Record>, tenant: string, urn: string, dir: Direction, n: NodeId, h: nat)
    requires EdgesNamed(g, rs) && ChainOfLength(rs, tenant, urn, dir, n, h)
    ensures NodeWalk(g, tenant, urn, dir, n, h)
  {
    hide EdgeFrom, ChainJoins, Follows, NamesAnEdge, From, To, EdgesNamed;
    var s :| IsChain(rs, tenant, s) && ChainJoins(rs, s, urn, dir, n) && |s| == h;
    var w := ChainHasEdges(rs, tenant, s);
    MatchedAreEdges(g, rs, w, s);
    WalkIffChain(g, rs, tenant, w, s);
    JoinsIff(g, rs, w, s, tenant, urn, dir, n);
  }

  /** How far a query looks: the bound asked for, but at least one hop and at most fifteen. */
  predicate WithinBound(h: nat, maxHops: int) {
    h <= 1 || (h <= maxHops && h <= 15)
  }

  /** Main result from writing to reading, for every run that goes through, in terms of its records alone: the lineage of a
      urn reports an entity of the tenant at h hops exactly when the last record of the entity is an upsert and the
      shortest chain of upserted lineage records between the two - by the ends their payloads name, in the direction
      asked for - has h records, within the bound. */
  lemma LineageFollowsTheRecords(ct: string, rs: seq<Record>, tenant: string, urn: string, dir: Direction, maxHops: int,
      n: NodeId, h: nat)
    requires HashesDeterminePayloads(rs) && ProcessAll(ct, EmptyCatalog, rs).Done?
    ensures var g := ProcessAll(ct, EmptyCatalog, rs).catalog.graph;
            Reports(g, tenant, urn, dir, maxHops, n, h) <==>
            && n.tenant == tenant && LastUpserted(rs, n)
            && WithinBound(h, maxHops) && ShortestChain(rs, tenant, urn, dir, n, h)
  {
    LiveNode(ct, rs, n);
    hide LastUpserted, From, To, Clamp, ShortestChain, ProcessAll, HashesDeterminePayloads, SomeEdgeFrom, Reports, Live, ChainOfLength, EdgesWithinTenant, ShortestWalk;
    var g := ProcessAll(ct, EmptyCatalog, rs).catalog.graph;
    NoEdges();
    RunKeepsEdgesWithinTenant(ct, EmptyCatalog, rs);
    forall e ensures e in g.derives <==> SomeEdgeFrom(rs, e) {
      EdgesAreThoseNamed(ct, rs, e);
    }
    assert EdgesNamed(g, rs);
    LineageIsShortestWalks(g, tenant, urn, dir, maxHops, n, h);
    ShortestIsShortest(g, rs, tenant, urn, dir, n, h);
    ClampBounds(h, maxHops);
  }

  lemma ClampBounds(h: nat, maxHops: int)
    ensures h <= Clamp(maxHops) <==> WithinBound(h, maxHops)
  {
  }

  lemma NoEdges()
    ensures EdgesWithinTenant(EmptyCatalog.graph)
  {
  }

  lemma ShortestIsShortest(g: Graph, rs: seq<Record>, tenant: string, urn: string, dir: Direction, n: NodeId, h: nat)
    requires EdgesNamed(g, rs)
    ensures ShortestWalk(g, tenant, From(g, tenant, urn, dir, n), To(g, tenant, urn, dir, n), h) <==>
            ShortestChain(rs, tenant, urn, dir, n, h)
    ensures ShortestChain(rs, tenant, urn, dir, n, h) ==> h > 0
  {
    hide EdgesNamed, WalkOfLength, ChainOfLength;
    forall k: nat
      ensures WalkOfLength(g, tenant, From(g, tenant, urn, dir, n), To(g, tenant, urn, dir, n), k) <==>
              ChainOfLength(rs, tenant, urn, dir, n, k)
    {
      if NodeWalk(g, tenant, urn, dir, n, k) {
        WalkIsChain(g, rs, tenant, urn, dir, n, k);
      }
      if ChainOfLength(rs, tenant, urn, dir, n, k) {
        ChainIsWalk(g, rs, tenant, urn, dir, n, k);
      }
    }
    NoEmptyChain(rs, tenant, urn, dir, n);
  }

  lemma NoEmptyChain(rs: seq<Record>, tenant: string, urn: string, dir: Direction, n: NodeId)
    ensures !ChainOfLength(rs, tenant, urn, dir, n, 0)
  {
  }

  /** What one lineage record writes is read back in its direction, after every run that goes through and for every
      bound: upstream of the urn it names as downstream is the node it names as upstream, at one hop, and the other way
      round. */
  lemma WrittenEdgeIsRead(ct: string, rs: seq<Record>, i: nat, up: NodeId, down: NodeId, maxHops: int)
    requires HashesDeterminePayloads(rs) && ProcessAll(ct, EmptyCatalog, rs).Done?
    requires i < |rs| && rs[i].kind.LineageEdge? && rs[i].op.Upsert?
    requires NamesNode(rs[i], UpstreamUrn, UpstreamEntityType, up)
    requires NamesNode(rs[i], DownstreamUrn, DownstreamEntityType, down)
    ensures var g := ProcessAll(ct, EmptyCatalog, rs).catalog.graph;
            && (LastUpserted(rs, up) ==> Reports(g, rs[i].tenant, down.urn, Upstream, maxHops, up, 1))
            && (LastUpserted(rs, down) ==> Reports(g, rs[i].tenant, up.urn, Downstream, maxHops, down, 1))
  {
    hide ProcessAll, HashesDeterminePayloads, Reports, LastUpserted;
    LineageFollowsTheRecords(ct, rs, rs[i].tenant, down.urn, Upstream, maxHops, up, 1);
    LineageFollowsTheRecords(ct, rs, rs[i].tenant, up.urn, Downstream, maxHops, down, 1);
    OneRecordChain(rs, i, up, down);
  }

  lemma OneRecordChain(rs: seq<Record>, i: nat, up: NodeId, down: NodeId)
    requires i < |rs| && rs[i].kind.LineageEdge? && rs[i].op.Upsert?
    requires NamesNode(rs[i], UpstreamUrn, UpstreamEntityType, up)
    requires NamesNode(rs[i], DownstreamUrn, DownstreamEntityType, down)
    ensures ShortestChain(rs, rs[i].tenant, down.urn, Upstream, up, 1)
    ensures ShortestChain(rs, rs[i].tenant, up.urn, Downstream, down, 1)
  {
    NoEmptyChain(rs, rs[i].tenant, down.urn, Upstream, up);
    NoEmptyChain(rs, rs[i].tenant, up.urn, Downstream, down);
    assert EdgeFrom(DerivesKey(down, up, rs[i].tenant, rs[i].urn), rs[i]);
    var s: seq<nat> := [i];
    assert IsChain(rs, rs[i].tenant, s);
    assert ChainJoins(rs, s, down.urn, Upstream, up) && ChainJoins(rs, s, up.urn, Downstream, down);
  }
}
