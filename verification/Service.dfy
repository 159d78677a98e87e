/** The fan-out worker and `process_batch` as they run, proved against the catalog and ingest functions. */
module Service {
  import opened Types
  import opened Catalog
  import Spec = Catalog
  import opened Ingest
  import opened Stores
  import opened Reapply

  /** What was written for one entity. */
  datatype EntityOutcome = EntityOutcome(
    urn: string, wroteRelational: bool, wroteGraph: bool, wroteSearch: bool, skippedAsUnchanged: bool)

  function OutcomeFor(c: Catalog, r: Record): EntityOutcome {
    if r.kind.ScrapeRun? then EntityOutcome(r.urn, false, false, false, false)
    else EntityOutcome(r.urn, RoutesToRelational(r.kind), Changed(c, r) && RoutesToGraph(r.kind),
                       Changed(c, r) && RoutesToSearch(r.kind), !Changed(c, r))
  }

  /** The outcomes of a batch that goes through. */
  function OutcomesFor(connectorType: string, c: Catalog, rs: seq<Record>): seq<EntityOutcome>
    decreases |rs|
  {
    if rs == [] then [] else [OutcomeFor(c, rs[0])] + OutcomesFor(connectorType, Spec.ProcessOne(connectorType, c, rs[0]).catalog, rs[1..])
  }

  /** The flags, by what the row was: an upsert is skipped exactly when the row was live under the same hash. */
  lemma OutcomeIs(c: Catalog, r: Record)
    ensures var o := OutcomeFor(c, r);
            && o.urn == r.urn
            && (o.wroteRelational <==> r.kind in [Table, Column, Dataset, Job, LineageEdge])
            && (o.skippedAsUnchanged ==> !o.wroteGraph && !o.wroteSearch)
            && (r.op.Upsert? && r.kind in [Table, Column, Dataset, Job, LineageEdge] ==>
                  (o.skippedAsUnchanged <==> LiveUnderHash(c, r)))
            && (!o.skippedAsUnchanged && r.kind in [Table, Column, Dataset, Job, LineageEdge] ==>
                  o.wroteGraph && (o.wroteSearch <==> !r.kind.LineageEdge?))
  {
  }

  class FanoutWorker {
    const relational: RelationalStore
    const graph: GraphStore
    const search: SearchStore
    const analytics: AnalyticsStore
    const connectorType: string

    constructor (relational: RelationalStore, graph: GraphStore, search: SearchStore, analytics: AnalyticsStore,
        connectorType: string)
      ensures this.relational == relational && this.graph == graph && this.search == search
      ensures this.analytics == analytics
      ensures this.connectorType == connectorType
    {
      this.relational, this.graph, this.search, this.analytics := relational, graph, search, analytics;
      this.connectorType := connectorType;
    }

    function Value(): Catalog
      reads relational, graph, search, analytics
    {
      Catalog(relational.rows, graph.Value(), search.docs, analytics.events)
    }

    /** `_process_one`; `fault` says which store write raises, if one does. */
    method ProcessOne(r: Record, fault: Fault) returns (ok: bool, outcome: EntityOutcome)
      modifies relational, graph, search, analytics
      ensures (if ok then Done(Value()) else Raised(Value())) == Spec.ProcessOne(connectorType, old(Value()), r, fault)
      ensures ok ==> outcome == OutcomeFor(old(Value()), r)
      ensures ok ==>
                && outcome.urn == r.urn
                && (outcome.wroteRelational <==> r.kind in [Table, Column, Dataset, Job, LineageEdge])
                && (outcome.skippedAsUnchanged ==> !outcome.wroteGraph && !outcome.wroteSearch)
                && (r.op.Upsert? && r.kind in [Table, Column, Dataset, Job, LineageEdge] ==>
                      (outcome.skippedAsUnchanged <==> LiveUnderHash(old(Value()), r)))
                && (!outcome.skippedAsUnchanged && r.kind in [Table, Column, Dataset, Job, LineageEdge] ==>
                      outcome.wroteGraph && (outcome.wroteSearch <==> !r.kind.LineageEdge?))
    {
      OutcomeIs(Value(), r);
      hide LiveUnderHash, UpsertRow, UpsertGraph, GraphPart, Spec.IndexEntity, RowResult;
      outcome := EntityOutcome(r.urn, false, false, false, false);
      if r.kind.ScrapeRun? {
        ok := analytics.RecordEvent(EventOf(connectorType, r, ScrapeRunEvent), fault.AnalyticsRaises?);
        return;
      }
      if r.kind.Unknown? {
        ok := false;
        return;
      }
      var wroteRelational, changed := false, true;
      if RoutesToRelational(r.kind) {
        var result := relational.UpsertEntity(r, fault.RelationalRaises?);
        if result.None? {
          ok := false;
          return;
        }
        wroteRelational := true;
        changed := !result.value.skipped || r.op.Delete?;
      }
      var wroteGraph, wroteSearch := false, false;
      if changed {
        if RoutesToGraph(r.kind) {
          ok := graph.UpsertEntity(r, if fault.GraphRaises? then Some(fault.committed) else None);
          if !ok {
            return;
          }
          wroteGraph := true;
        }
        if RoutesToSearch(r.kind) {
          ok := search.IndexEntity(r, fault.SearchRaises?);
          if !ok {
            return;
          }
          wroteSearch := true;
        }
      }
      ok := analytics.RecordEvent(EventOf(connectorType, r, EventTypeOf(r, changed)), fault.AnalyticsRaises?);
      outcome := EntityOutcome(r.urn, wroteRelational, wroteGraph, wroteSearch, !changed);
    }

    /** `process_batch`: entities in order, ended by the first exception. */
    method ProcessBatch(rs: seq<Record>) returns (ok: bool, outcomes: seq<EntityOutcome>)
      modifies relational, graph, search, analytics
      ensures (if ok then Done(Value()) else Raised(Value())) == ProcessAll(connectorType, old(Value()), rs)
      ensures ok ==> outcomes == OutcomesFor(connectorType, old(Value()), rs)
    {
      hide Spec.ProcessOne, OutcomeFor;
      outcomes := [];
      for i := 0 to |rs|
        invariant ProcessAll(connectorType, Value(), rs[i..]) == ProcessAll(connectorType, old(Value()), rs)
        invariant outcomes + OutcomesFor(connectorType, Value(), rs[i..]) == OutcomesFor(connectorType, old(Value()), rs)
      {
        assert rs[i..][1..] == rs[i + 1..];
        var outcome;
        ok, outcome := ProcessOne(rs[i], NoFault);
        if !ok {
          return;
        }
        outcomes := outcomes + [outcome];
      }
      ok := true;
    }
  }

  /** `process_batch` of the ingest service with its dependencies. */
  class IngestService {
    const cfg: Config
    const idempotency: IdempotencyStore
    const relational: RelationalStore
    const graph: GraphStore
    const search: SearchStore
    const analytics: AnalyticsStore

    constructor (cfg: Config)
      ensures this.cfg == cfg && idempotency.ttl == cfg.ttl && Value() == Server(map[], EmptyCatalog)
      ensures fresh(idempotency) && fresh(relational) && fresh(graph) && fresh(search) && fresh(analytics)
    {
      this.cfg := cfg;
      idempotency := new IdempotencyStore(cfg.ttl);
      relational := new RelationalStore();
      graph := new GraphStore();
      search := new SearchStore();
      analytics := new AnalyticsStore();
    }

    function Value(): Server
      reads idempotency, relational, graph, search, analytics
    {
      Server(idempotency.records, Catalog(relational.rows, graph.Value(), search.docs, analytics.events))
    }

    method ProcessBatch(q: Request) returns (reply: Reply)
      requires idempotency.ttl == cfg.ttl
      modifies idempotency, relational, graph, search, analytics
      ensures reply == ReplyTo(cfg, old(Value()), q)
      ensures Value() == Serve(cfg, old(Value()), q)
      ensures reply.Accepted? ==>
                q.wellShaped && q.envelope.dataPlane == q.auth.dataPlane && q.envelope.schemaVersion == cfg.schemaVersion
      ensures !q.wellShaped ==> reply == BadRequest("envelope_validation_failed")
      ensures q.wellShaped && q.envelope.dataPlane != q.auth.dataPlane ==> reply == BadRequest("data_plane_id_mismatch")
      ensures q.wellShaped && q.envelope.dataPlane == q.auth.dataPlane && q.envelope.schemaVersion != cfg.schemaVersion ==>
                reply == BadRequest("unsupported_schema_version")
      ensures reply.BadRequest? ==> Value() == old(Value())
    {
      hide ProcessAll, BuildRecord;
      AdmissionIsExact(cfg, Value(), q);
      if !q.wellShaped {
        return BadRequest("envelope_validation_failed");
      }
      if q.envelope.dataPlane != q.auth.dataPlane {
        return BadRequest("data_plane_id_mismatch");
      }
      if q.envelope.schemaVersion != cfg.schemaVersion {
        return BadRequest("unsupported_schema_version");
      }
      var cached := idempotency.Find(q.auth.tenant, q.envelope.batchId, q.now);
      if cached.Some? {
        return Accepted(cached.value, true);
      }
      var accepted, urns, rejected := Split(q.envelope.items, q.auth);
      if accepted != [] {
        var worker := new FanoutWorker(relational, graph, search, analytics, q.envelope.connectorType);
        var ok, _ := worker.ProcessBatch(accepted);
        if !ok {
          return ServerError;
        }
      } else {
        NothingToProcess(q.envelope.connectorType, Value().catalog);
      }
      var body := Body(q.envelope.batchId, urns, rejected);
      idempotency.Put(q.auth.tenant, q.envelope.batchId, body, q.storedAt);
      reply := Accepted(body, false);
    }

    lemma NothingToProcess(ct: string, c: Catalog)
      ensures ProcessAll(ct, c, []) == Done(c)
    {
    }

    /** The accept/reject loop: both lists keep the envelope's order, and each item is in exactly one of them. */
    method Split(items: seq<Item>, auth: Auth)
      returns (accepted: seq<Record>, urns: seq<string>, rejected: seq<Rejection>)
      ensures accepted == BuildRecords(AcceptedItems(items, cfg.check), auth)
      ensures urns == Urns(AcceptedItems(items, cfg.check))
      ensures rejected == Rejections(items, cfg.check)
      ensures |accepted| == |urns| && |accepted| + |rejected| == |items|
      ensures InOrder(items, cfg.check, AcceptedItems(items, cfg.check), rejected)
    {
      hide BuildRecord, InOrder;
      accepted, urns, rejected := [], [], [];
      for i := 0 to |items|
        invariant accepted == BuildRecords(AcceptedItems(items[..i], cfg.check), auth)
        invariant urns == Urns(AcceptedItems(items[..i], cfg.check))
        invariant rejected == Rejections(items[..i], cfg.check)
      {
        assert items[..i + 1][..i] == items[..i];
        var rejection := cfg.check(items[i]);
        if rejection.Some? {
          rejected := rejected + [rejection.value];
        } else {
          accepted := accepted + [BuildRecord(items[i], auth)];
          urns := urns + [items[i].urn];
        }
      }
      assert items[..|items|] == items;
      SplitConserves(items, cfg.check);
      SplitKeepsOrder(items, cfg.check);
    }
  }
}
