/** What the hypotheses of the projection theorems are for: a store that raises between two writes, and an
    urn that changes its entity type. */
module Faults {
  import opened Types
  import opened Catalog
  import opened Projections
  import opened GraphFold
  import opened Reapply

  /** The graph or search write raised after the relational write had gone through. */
  predicate RaisedBetweenStores(ct: string, c: Catalog, r: Record, fault: Fault) {
    RoutesToRelational(r.kind) && RoutesToSearch(r.kind) && (fault.GraphRaises? || fault.SearchRaises?) &&
    ProcessOne(ct, c, r, fault).Raised?
  }

  /** What the aborted attempt leaves: the row always, the graph when search raised and the transactions committed by
      then when the graph did, never the document. */
  lemma AbortedAttempt(ct: string, c: Catalog, r: Record, fault: Fault)
    requires RaisedBetweenStores(ct, c, r, fault) && Storable(r)
    ensures Changed(c, r) && UpsertGraph(c.graph, r).Some?
    ensures ProcessOne(ct, c, r, fault).catalog ==
            c.(rows := UpsertRow(c.rows, r),
               graph := if fault.GraphRaises? then GraphPart(c.graph, r, fault.committed) else UpsertGraph(c.graph, r).value)
  {
    hide UpsertRow, IndexEntity, WriteNode, WriteEdge, LinksOf, BareNodesOf, Lookup, RowResult, GraphPart;
  }

  /** An attempt without faults on a record that changes something, and on one that is skipped. */
  lemma CleanAttempt(ct: string, c: Catalog, r: Record)
    requires RoutesToRelational(r.kind) && RoutesToSearch(r.kind) && RoutesToGraph(r.kind)
    requires Changed(c, r) ==> UpsertGraph(c.graph, r).Some?
    ensures ProcessOne(ct, c, r).Done?
    ensures ProcessOne(ct, c, r).catalog.rows == UpsertRow(c.rows, r)
    ensures ProcessOne(ct, c, r).catalog.graph == if Changed(c, r) then UpsertGraph(c.graph, r).value else c.graph
    ensures ProcessOne(ct, c, r).catalog.docs == if Changed(c, r) then IndexEntity(c.docs, r) else c.docs
  {
    hide UpsertRow, IndexEntity, UpsertGraph, Changed, EventTypeOf;
  }

  /** The retry finds the row already written: an upsert with a hash is skipped, anything else is not. */
  lemma RetrySkips(c: Catalog, c1: Catalog, r: Record)
    requires c1.rows == UpsertRow(c.rows, r) && RoutesToRelational(r.kind) && Changed(c, r)
    ensures Changed(c1, r) <==> r.op.Delete? || r.hash.None?
    ensures SameRows(UpsertRow(c1.rows, r), UpsertRow(c.rows, r))
  {
    var k := KeyOf(r);
    if r.op.Upsert? {
      assert c1.rows[k].columns + Project(r.kind, r.payload) == c1.rows[k].columns;
    }
  }

  lemma GraphWriteTwice(g: Graph, r: Record)
    requires RoutesToGraph(r.kind) && UpsertGraph(g, r).Some?
    ensures UpsertGraph(UpsertGraph(g, r).value, r).Some?
    ensures SameGraph(UpsertGraph(UpsertGraph(g, r).value, r).value, UpsertGraph(g, r).value)
  {
    var once := UpsertGraph(g, r).value;
    GraphBatchTwice(g, [r]);
    assert UpsertGraph(once, r).Some?;
    hide UpsertGraph, SameGraph;
    OneInBatch(g, r);
    OneInBatch(once, r);
  }

  lemma OneInBatch(g: Graph, r: Record)
    ensures GraphAll(g, [r]) == GraphStep(g, r)
  {
    hide GraphStep;
    assert [r][1..] == [];
  }

  lemma FirstLinksAreLinks(r: Record, n: nat)
    requires !r.kind.LineageEdge?
    ensures FirstLinks(r, n) <= LinksOf(r.kind, r.tenant, r.urn, r.payload)
    ensures LinkEnds(FirstLinks(r, n)) <= BareNodesOf(r.kind, r.tenant, r.urn, r.payload)
  {
  }

  lemma WriteNodeTwice(g: Graph, r: Record, some: set<Link>, ends: set<NodeId>, links: set<Link>, bare: set<NodeId>)
    requires some <= links && ends <= bare
    ensures SameGraph(WriteNode(WriteNode(g, r, some, ends), r, links, bare), WriteNode(g, r, links, bare))
  {
    hide SanitizeProps;
    var part, whole := WriteNode(g, r, some, ends), WriteNode(g, r, links, bare);
    var again := WriteNode(part, r, links, bare);
    assert again.nodes.Keys == whole.nodes.Keys;
    assert again.links == whole.links;
    forall k | k in whole.nodes.Keys ensures SameNode(again.nodes[k], whole.nodes[k]) {
    }
  }

  /** Whatever a raising graph write had committed, writing the record again completes it. */
  lemma PartThenWhole(g: Graph, r: Record, n: nat)
    requires RoutesToGraph(r.kind) && !r.kind.LineageEdge? && UpsertGraph(g, r).Some?
    ensures UpsertGraph(GraphPart(g, r, n), r).Some?
    ensures SameGraph(UpsertGraph(GraphPart(g, r, n), r).value, UpsertGraph(g, r).value)
  {
    hide WriteNode, SameGraph, LinksOf, BareNodesOf, FirstLinks, LinkEnds;
    if n == 0 {
      SameGraphReflexive(UpsertGraph(g, r).value);
    } else {
      FirstLinksAreLinks(r, n - 1);
      WriteNodeTwice(g, r, FirstLinks(r, n - 1), LinkEnds(FirstLinks(r, n - 1)),
                     LinksOf(r.kind, r.tenant, r.urn, r.payload), BareNodesOf(r.kind, r.tenant, r.urn, r.payload));
    }
  }

  /** What the retry has to leave undone for the two to agree. */
  lemma RetryLeavesOut(ct: string, c: Catalog, r: Record, fault: Fault)
    requires RaisedBetweenStores(ct, c, r, fault) && Storable(r)
    ensures ProcessOne(ct, c, r).Done?
    ensures ProcessOne(ct, c, r).catalog.graph == UpsertGraph(c.graph, r).value
    ensures ProcessOne(ct, c, r).catalog.docs == IndexEntity(c.docs, r)
    ensures var aborted := ProcessOne(ct, c, r, fault).catalog;
            var undisturbed := ProcessOne(ct, c, r).catalog;
            && ProcessOne(ct, aborted, r).Done?
            && (SameCatalog(ProcessOne(ct, aborted, r).catalog, undisturbed) <==>
                  r.op.Delete? || r.hash.None? ||
                  (SameDocs(c.docs, undisturbed.docs) &&
                   (fault.GraphRaises? ==> SameGraph(GraphPart(c.graph, r, fault.committed), undisturbed.graph))))
  {
    AbortedAttempt(ct, c, r, fault);
    CleanAttempt(ct, c, r);
    var c1 := ProcessOne(ct, c, r, fault).catalog;
    RetrySkips(c, c1, r);
    GraphWriteTwice(c.graph, r);
    if fault.GraphRaises? {
      PartThenWhole(c.graph, r, fault.committed);
    }
    hide ProcessOne, UpsertGraph, UpsertRow, IndexEntity, SameRows, Changed, GraphPart;
    CleanAttempt(ct, c1, r);
    SameGraphReflexive(c.graph);
    SameGraphReflexive(UpsertGraph(c.graph, r).value);
    hide SameGraph;
    SameDocsReflexive(IndexEntity(c.docs, r));
  }

  /** The graph holds already what an upsert of this record writes: its relationships and their ends, and its node with
      these properties, unflagged, from this source. */
  ghost predicate GraphShows(g: Graph, r: Record) {
    && LinksOf(r.kind, r.tenant, r.urn, r.payload) <= g.links && BareNodesOf(r.kind, r.tenant, r.urn,
        r.payload) <= g.nodes.Keys
    && NodeOf(r) in g.nodes && Includes(g.nodes[NodeOf(r)].props, SanitizeProps(r.payload))
    && g.nodes[NodeOf(r)].isDeleted == Some(false) && g.nodes[NodeOf(r)].sourceConn == Some(r.sourceConn)
  }

  /** The index holds already the document of this record, or needs none. */
  predicate IndexShows(docs: map<string, Doc>, r: Record) {
    Searchable(r.kind) ==> DocIdOf(r) in docs && SameDoc(docs[DocIdOf(r)], BuildDocument(r))
  }

  lemma WriteNodeIdleIff(g: Graph, r: Record)
    requires r.op.Upsert? && RoutesToGraph(r.kind) && !r.kind.LineageEdge? && UpsertGraph(g, r).Some?
    ensures SameGraph(g, UpsertGraph(g, r).value) <==> GraphShows(g, r)
  {
    hide LinksOf, BareNodesOf, SanitizeProps;
    var links, bare := LinksOf(r.kind, r.tenant, r.urn, r.payload), BareNodesOf(r.kind, r.tenant, r.urn, r.payload);
    var id, after := NodeOf(r), WriteNode(g, r, links, bare);
    assert UpsertGraph(g, r).value == after;
    assert after.links == g.links + links && after.nodes.Keys == g.nodes.Keys + {id} + bare;
    if GraphShows(g, r) {
      WriteNodeIdle(g, r, links, bare);
    }
    if SameGraph(g, after) {
      assert id in g.nodes && SameNode(g.nodes[id], after.nodes[id]);
      assert after.nodes[id] == MergeNode(Some(g.nodes[id]), r);
    }
  }

  /** What the graph write had not committed was there before: all of it, or the relationships still to be merged and
      their ends. */
  ghost predicate RestShows(g: Graph, r: Record, n: nat) {
    if n == 0 then GraphShows(g, r)
    else
      && LinksOf(r.kind, r.tenant, r.urn, r.payload) <= g.links + FirstLinks(r, n - 1)
      && BareNodesOf(r.kind, r.tenant, r.urn, r.payload) <= g.nodes.Keys + {NodeOf(r)} + LinkEnds(FirstLinks(r, n - 1))
  }

  lemma PartShowsIff(g: Graph, r: Record, n: nat)
    requires r.op.Upsert? && RoutesToGraph(r.kind) && !r.kind.LineageEdge? && UpsertGraph(g, r).Some?
    ensures GraphShows(GraphPart(g, r, n), r) <==> RestShows(g, r, n)
  {
    hide LinksOf, BareNodesOf, SanitizeProps, FirstLinks, LinkEnds;
    if n > 0 {
      var part := GraphPart(g, r, n);
      assert part.nodes.Keys == g.nodes.Keys + {NodeOf(r)} + LinkEnds(FirstLinks(r, n - 1));
      assert part.nodes[NodeOf(r)] == MergeNode(Lookup(g.nodes, NodeOf(r)), r);
    }
  }

  lemma PartIsWholeIff(g: Graph, r: Record, n: nat)
    requires r.op.Upsert? && RoutesToGraph(r.kind) && !r.kind.LineageEdge? && UpsertGraph(g, r).Some?
    ensures SameGraph(GraphPart(g, r, n), UpsertGraph(g, r).value) <==> RestShows(g, r, n)
  {
    var part, whole := GraphPart(g, r, n), UpsertGraph(g, r).value;
    PartThenWhole(g, r, n);
    WriteNodeIdleIff(part, r);
    PartShowsIff(g, r, n);
    hide GraphPart, UpsertGraph, SameGraph, GraphShows, RestShows;
    var again := UpsertGraph(part, r).value;
    SameGraphSymmetric(again, whole);
    if SameGraph(part, whole) {
      SameGraphTransitive(part, whole, again);
    }
    if SameGraph(part, again) {
      SameGraphTransitive(part, again, whole);
    }
  }

  lemma IndexIdleIff(docs: map<string, Doc>, r: Record)
    requires r.op.Upsert?
    ensures SameDocs(docs, IndexEntity(docs, r)) <==> IndexShows(docs, r)
  {
    hide BuildDocument, ScopedKey;
    var after, id := IndexEntity(docs, r), DocIdOf(r);
    if Searchable(r.kind) && SameDocs(docs, after) {
      assert id in after && after[id] == BuildDocument(r);
    }
  }

  /** Main result, for every catalog and record, with the exact condition: when a projection write raised after the
      relational write, the clean retry restores agreement with an undisturbed attempt exactly when the record is a
      delete or carries no hash - so that the retry writes again - or the index and, if it was the graph write that
      raised, the graph showed already what was still to be written. */
  lemma RetryRepairsProjections(ct: string, c: Catalog, r: Record, fault: Fault)
    requires RaisedBetweenStores(ct, c, r, fault) && Storable(r)
    ensures ProcessOne(ct, c, r).Done?
    ensures var aborted := ProcessOne(ct, c, r, fault).catalog;
            && ProcessOne(ct, aborted, r).Done?
            && (SameCatalog(ProcessOne(ct, aborted, r).catalog, ProcessOne(ct, c, r).catalog) <==>
                  r.op.Delete? || r.hash.None? || (IndexShows(c.docs, r) && (fault.GraphRaises? ==> RestShows(c.graph, r, fault.committed))))
  {
    RetryLeavesOut(ct, c, r, fault);
    AbortedAttempt(ct, c, r, fault);
    hide ProcessOne, UpsertGraph, GraphPart, IndexEntity, SameGraph, SameDocs, SameCatalog, RestShows, IndexShows,
         Changed;
    if r.op.Upsert? {
      IndexIdleIff(c.docs, r);
      if fault.GraphRaises? {
        PartIsWholeIff(c.graph, r, fault.committed);
      }
    }
  }

  lemma SameGraphReflexive(g: Graph)
    ensures SameGraph(g, g)
  {
  }

  lemma SameDocsReflexive(docs: map<string, Doc>)
    ensures SameDocs(docs, docs)
  {
  }

  /** In particular a new searchable entity that hit such a fault is in the system of record and, after the
      retry, still absent from search. */
  lemma NewEntityStaysUnsearchable(ct: string, c: Catalog, r: Record, fault: Fault)
    requires RaisedBetweenStores(ct, c, r, fault) && Storable(r) && Searchable(r.kind)
    requires r.op.Upsert? && r.hash.Some? && DocIdOf(r) !in c.docs
    ensures var retried := ProcessOne(ct, ProcessOne(ct, c, r, fault).catalog, r).catalog;
            KeyOf(r) in retried.rows && !retried.rows[KeyOf(r)].isDeleted && DocIdOf(r) !in retried.docs
  {
    AbortedAttempt(ct, c, r, fault);
    var c1 := ProcessOne(ct, c, r, fault).catalog;
    RetrySkips(c, c1, r);
    hide ProcessOne, UpsertGraph;
    CleanAttempt(ct, c1, r);
  }

  lemma ProcessThree(ct: string, c: Catalog, a: Record, b: Record, d: Record)
    requires ProcessOne(ct, c, a).Done? && ProcessOne(ct, ProcessOne(ct, c, a).catalog, b).Done?
    ensures ProcessAll(ct, c, [a, b, d]) ==
            match ProcessOne(ct, ProcessOne(ct, ProcessOne(ct, c, a).catalog, b).catalog, d)
            case Raised(x) => Raised(x)
            case Done(x) => Done(x)
  {
    hide ProcessOne;
    var c1 := ProcessOne(ct, c, a).catalog;
    var c2 := ProcessOne(ct, c1, b).catalog;
    assert [a, b, d][1..] == [b, d] && [b, d][1..] == [d] && [d][1..] == [];
    assert ProcessAll(ct, c2, [d]) == match ProcessOne(ct, c2, d) case Raised(x) => Raised(x) case Done(x) => Done(x);
    assert ProcessAll(ct, c1, [b, d]) == ProcessAll(ct, c2, [d]);
  }

  lemma FoldDocThree(x: Option<Doc>, a: Record, b: Record, d: Record, id: string)
    requires DocIdOf(d) == id && RoutesToSearch(d.kind) && Searchable(d.kind) && d.op.Upsert?
    ensures FoldDoc(x, [a, b, d], id) == Some(BuildDocument(d))
  {
    hide BuildDocument, ScopedKey;
    var x1 := if DocIdOf(a) == id && RoutesToSearch(a.kind) then DocStep(x, a) else x;
    var x2 := if DocIdOf(b) == id && RoutesToSearch(b.kind) then DocStep(x1, b) else x1;
    assert [a, b, d][1..] == [b, d] && [b, d][1..] == [d] && [d][1..] == [];
    assert FoldDoc(x2, [d], id) == Some(BuildDocument(d));
    assert FoldDoc(x1, [b, d], id) == FoldDoc(x2, [d], id);
  }

  /** A table, then a dataset under the same urn, then the table again unchanged: the last push is skipped and
      the search document stays the dataset's. */
  lemma SkippingKeepsDataset(ct: string, table: Record, dataset: Record, again: Record)
    requires table.kind.Table? && dataset == table.(kind := Dataset, at := dataset.at)
    requires again == table.(at := again.at)
    requires table.op.Upsert? && table.hash.Some?
    ensures ProcessAll(ct, EmptyCatalog, [table, dataset, again]).Done?
    ensures DocIdOf(table) in ProcessAll(ct, EmptyCatalog, [table, dataset, again]).catalog.docs
    ensures ProcessAll(ct, EmptyCatalog, [table, dataset, again]).catalog.docs[DocIdOf(table)].kind == Dataset
  {
    hide LinksOf, BareNodesOf, BuildDocument, ScopedKey, PayloadColumns, WriteNode, ProcessOne;
    BuiltDocument(dataset);
    CleanAttempt(ct, EmptyCatalog, table);
    var c1 := ProcessOne(ct, EmptyCatalog, table).catalog;
    CleanAttempt(ct, c1, dataset);
    var c2 := ProcessOne(ct, c1, dataset).catalog;
    CleanAttempt(ct, c2, again);
    ProcessThree(ct, EmptyCatalog, table, dataset, again);
  }

  /** So the hypothesis that a urn keeps one entity type is needed. */
  lemma SharedUrnBreaksAgreement(ct: string, table: Record, dataset: Record, again: Record)
    requires table.kind.Table? && dataset == table.(kind := Dataset, at := dataset.at)
    requires again == table.(at := again.at)
    requires table.op.Upsert? && table.hash.Some?
    ensures var rs := [table, dataset, again];
            HashesDeterminePayloads(rs) && AllStorable(rs) && !OneKindPerUrn(rs) &&
            ProcessAll(ct, EmptyCatalog, rs).Done? && AlwaysAll(ct, EmptyCatalog, rs).Done? &&
            !SameCatalog(ProcessAll(ct, EmptyCatalog, rs).catalog, AlwaysAll(ct, EmptyCatalog, rs).catalog)
  {
    hide LinksOf, BareNodesOf, BuildDocument, ScopedKey, PayloadColumns, ProcessOne, AlwaysOne, ProcessAll, AlwaysAll,
         EndpointsOf, SameGraph, SameRows, FoldDoc;
    var rs := [table, dataset, again];
    var id := DocIdOf(table);
    assert SameSearchableUrn(rs[0], rs[1]);
    AlwaysAllDone(ct, EmptyCatalog, rs);
    AlwaysAllFolds(ct, EmptyCatalog, rs, KeyOf(table), id);
    FoldDocThree(Lookup(EmptyCatalog.docs, id), table, dataset, again, id);
    BuiltDocument(again);
    SkippingKeepsDataset(ct, table, dataset, again);
    assert id in AlwaysAll(ct, EmptyCatalog, rs).catalog.docs;
    assert !SameDoc(ProcessAll(ct, EmptyCatalog, rs).catalog.docs[id], AlwaysAll(ct, EmptyCatalog, rs).catalog.docs[id]);
  }
}
