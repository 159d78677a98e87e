/** Every row, event and idempotency record of the server, after any run of requests, goes back to a request that was
    admitted and to an entity of its envelope that passed the validation. */
module Origins {
  import opened Types
  import opened Catalog
  import opened Projections
  import opened Reapply
  import opened Ingest
  import opened Contents
  import opened Validation

  // ---------------------------------------------------------------- admitted requests, literally

  /** A well-shaped envelope of the API key's own data plane and of the configured schema version. */
  predicate Admitted(cfg: Config, q: Request) {
    q.wellShaped && q.envelope.dataPlane == q.auth.dataPlane && q.envelope.schemaVersion == cfg.schemaVersion
  }

  predicate Passes(cfg: Config, q: Request, j: int) {
    0 <= j < |q.envelope.items| && cfg.check(q.envelope.items[j]).None?
  }

  function SourceOf(payload: Payload): string {
    match Get(payload, SourceConnectionId)
    case Str(s) => s
    case _ => ""
  }

  /** The row bears what this entity of the request carries, and the identity the API key resolves to. */
  ghost predicate RowFrom(cfg: Config, q: Request, j: int, k: RowKey, row: Row) {
    Passes(cfg, q, j) &&
    var item := q.envelope.items[j];
    && item.op.Upsert? && k == RowKey(item.kind, q.auth.tenant, item.urn)
    && row.dataPlane == q.auth.dataPlane && row.hash == item.hash && row.sourceConn == SourceOf(item.payload)
    && forall f :: f in item.payload && f in PayloadColumns(item.kind) ==>
         f in row.columns && row.columns[f] == item.payload[f]
  }

  ghost predicate EventFrom(cfg: Config, q: Request, j: int, e: Event) {
    Passes(cfg, q, j) &&
    var item := q.envelope.items[j];
    && e.tenant == q.auth.tenant && e.dataPlane == q.auth.dataPlane && e.connectorType == q.envelope.connectorType
    && e.urn == item.urn && e.kind == item.kind && e.op == item.op && e.at == item.extractedAt
  }

  /** Some request of the run that was admitted. */
  ghost predicate RowHasRequest(cfg: Config, qs: seq<Request>, k: RowKey, row: Row) {
    exists i, j :: 0 <= i < |qs| && Admitted(cfg, qs[i]) && RowFrom(cfg, qs[i], j, k, row)
  }

  ghost predicate EventHasRequest(cfg: Config, qs: seq<Request>, e: Event) {
    exists i, j :: 0 <= i < |qs| && Admitted(cfg, qs[i]) && EventFrom(cfg, qs[i], j, e)
  }

  ghost predicate KeyHasRequest(cfg: Config, qs: seq<Request>, key: string, stored: Stored) {
    exists i :: 0 <= i < |qs| && Admitted(cfg, qs[i]) && key == qs[i].auth.tenant + ":" + qs[i].envelope.batchId &&
                stored.at == qs[i].storedAt && stored.body.batchId == qs[i].envelope.batchId
  }

  ghost predicate AllHaveRequests(cfg: Config, s: Server, qs: seq<Request>) {
    && (forall k :: k in s.catalog.rows ==> RowHasRequest(cfg, qs, k, s.catalog.rows[k]))
    && (forall i :: 0 <= i < |s.catalog.events| ==> EventHasRequest(cfg, qs, s.catalog.events[i]))
    && (forall key :: key in s.records ==> KeyHasRequest(cfg, qs, key, s.records[key]))
  }

  // ---------------------------------------------------------------- one request

  /** An accepted record is an entity of the envelope that passed, under the identity of the API key. */
  lemma RecordIsOfItem(cfg: Config, q: Request, m: nat) returns (j: nat)
    requires m < |AcceptedRecords(cfg, q)|
    ensures Passes(cfg, q, j)
    ensures var item, r := q.envelope.items[j], AcceptedRecords(cfg, q)[m];
            r == Record(q.auth.tenant, item.urn, item.kind, q.auth.dataPlane, SourceOf(item.payload), item.payload, item.op,
                        item.hash, item.extractedAt)
  {
    SplitConserves(q.envelope.items, cfg.check);
    var item := AcceptedItems(q.envelope.items, cfg.check)[m];
    assert item in AcceptedItems(q.envelope.items, cfg.check);
    j :| 0 <= j < |q.envelope.items| && q.envelope.items[j] == item;
  }

  lemma RowHasItsItem(cfg: Config, q: Request, m: nat, k: RowKey, row: Row)
    requires m < |AcceptedRecords(cfg, q)|
    requires Upserts(AcceptedRecords(cfg, q)[m], k) && RowBears(row, AcceptedRecords(cfg, q)[m])
    ensures exists j :: RowFrom(cfg, q, j, k, row)
  {
    hide AcceptedRecords, PayloadColumns, SourceOf;
    var j := RecordIsOfItem(cfg, q, m);
    assert RowFrom(cfg, q, j, k, row);
  }

  lemma EventHasItsItem(cfg: Config, q: Request, m: nat, e: Event)
    requires m < |AcceptedRecords(cfg, q)| && EventOfRecord(q.envelope.connectorType, e, AcceptedRecords(cfg, q)[m])
    ensures exists j :: EventFrom(cfg, q, j, e)
  {
    hide AcceptedRecords;
    var j := RecordIsOfItem(cfg, q, m);
    assert EventFrom(cfg, q, j, e);
  }

  lemma OneMoreRequest(cfg: Config, qs: seq<Request>, q: Request)
    ensures forall k, row :: RowHasRequest(cfg, qs, k, row) ==> RowHasRequest(cfg, qs + [q], k, row)
    ensures forall e :: EventHasRequest(cfg, qs, e) ==> EventHasRequest(cfg, qs + [q], e)
    ensures forall key, x :: KeyHasRequest(cfg, qs, key, x) ==> KeyHasRequest(cfg, qs + [q], key, x)
  {
    hide RowFrom, EventFrom, Admitted;
    var more := qs + [q];
    assert forall i :: 0 <= i < |qs| ==> more[i] == qs[i];
    forall k, row | RowHasRequest(cfg, qs, k, row) ensures RowHasRequest(cfg, more, k, row) {
      var i, j :| 0 <= i < |qs| && Admitted(cfg, qs[i]) && RowFrom(cfg, qs[i], j, k, row);
      assert Admitted(cfg, more[i]) && RowFrom(cfg, more[i], j, k, row);
    }
    forall e | EventHasRequest(cfg, qs, e) ensures EventHasRequest(cfg, more, e) {
      var i, j :| 0 <= i < |qs| && Admitted(cfg, qs[i]) && EventFrom(cfg, qs[i], j, e);
      assert Admitted(cfg, more[i]) && EventFrom(cfg, more[i], j, e);
    }
    forall key, x | KeyHasRequest(cfg, qs, key, x) ensures KeyHasRequest(cfg, more, key, x) {
      var i :| 0 <= i < |qs| && Admitted(cfg, qs[i]) && key == qs[i].auth.tenant + ":" + qs[i].envelope.batchId &&
               x.at == qs[i].storedAt && x.body.batchId == qs[i].envelope.batchId;
      assert Admitted(cfg, more[i]);
    }
  }

  /** A row whose flag or freshness alone changes keeps its request. */
  lemma SameRequest(cfg: Config, qs: seq<Request>, k: RowKey, row: Row, row': Row)
    requires RowHasRequest(cfg, qs, k, row) && row' == row.(isDeleted := row'.isDeleted, lastScraped := row'.lastScraped)
    ensures RowHasRequest(cfg, qs, k, row')
  {
    hide Admitted;
    var i, j :| 0 <= i < |qs| && Admitted(cfg, qs[i]) && RowFrom(cfg, qs[i], j, k, row);
    assert RowFrom(cfg, qs[i], j, k, row');
  }

  lemma FannedOutHaveRequests(cfg: Config, s: Server, q: Request, qs: seq<Request>)
    requires AllHaveRequests(cfg, s, qs) && Admitted(cfg, q)
    ensures var d := FanOut(cfg, s, q).catalog;
            && (forall k :: k in d.rows ==> RowHasRequest(cfg, qs + [q], k, d.rows[k]))
            && (forall i :: 0 <= i < |d.events| ==> EventHasRequest(cfg, qs + [q], d.events[i]))
  {
    hide ProcessAll, AcceptedRecords, RowFrom, EventFrom, Admitted, RowBears, EventOfRecord;
    OneMoreRequest(cfg, qs, q);
    var rs, ct := AcceptedRecords(cfg, q), q.envelope.connectorType;
    var c, d := s.catalog, FanOut(cfg, s, q).catalog;
    assert (qs + [q])[|qs|] == q;
    var e0 := Event("", "", "", "", Table, Upsert, EntityDeleted, 0);
    forall k | k in d.rows ensures RowHasRequest(cfg, qs + [q], k, d.rows[k]) {
      OneFanOut(ct, c, rs, k, e0);
      if m :| 0 <= m < |rs| && Upserts(rs[m], k) && RowBears(d.rows[k], rs[m]) {
        RowHasItsItem(cfg, q, m, k, d.rows[k]);
      } else {
        SameRequest(cfg, qs, k, c.rows[k], d.rows[k]);
      }
    }
    forall i | 0 <= i < |d.events| ensures EventHasRequest(cfg, qs + [q], d.events[i]) {
      OneFanOut(ct, c, rs, RowKey(Table, "", ""), d.events[i]);
      if d.events[i] !in c.events {
        var m :| 0 <= m < |rs| && EventOfRecord(ct, d.events[i], rs[m]);
        EventHasItsItem(cfg, q, m, d.events[i]);
      }
    }
  }

  lemma ServedHaveRequests(cfg: Config, s: Server, q: Request, qs: seq<Request>)
    requires AllHaveRequests(cfg, s, qs)
    ensures AllHaveRequests(cfg, Serve(cfg, s, q), qs + [q])
  {
    AdmissionIsExact(cfg, s, q);
    OneMoreRequest(cfg, qs, q);
    if Admitted(cfg, q) {
      FannedOutHaveRequests(cfg, s, q, qs);
      RecordHasRequest(cfg, q, qs);
    }
    hide FanOut, RowHasRequest, EventHasRequest, KeyHasRequest, Admitted, BodyFor;
  }

  lemma RecordHasRequest(cfg: Config, q: Request, qs: seq<Request>)
    requires Admitted(cfg, q)
    ensures KeyHasRequest(cfg, qs + [q], KeyFor(q), Stored(BodyFor(cfg, q), q.storedAt))
  {
    assert (qs + [q])[|qs|] == q;
    hide Admitted;
  }

  /** The columns keep all that the agent demands of an entity, the connection apart, which the row holds by itself, and
      the source type of a column or job, which is not stored. */
  lemma RequiredFieldsAreStored(cfg: Config, q: Request, j: int, k: RowKey, row: Row, f: Field)
    requires RowFrom(cfg, q, j, k, row) && ValidItem(q.envelope.items[j])
    requires f in RequiredFields(k.kind) && f != SourceConnectionId && !((k.kind.Column? || k.kind.Job?) && f == SourceType)
    ensures f in row.columns && row.columns[f] != Null && row.columns[f] != Str("")
    ensures row.columns[f] == q.envelope.items[j].payload[f]
  {
    RequiredHasColumn(k.kind, f);
    hide PayloadColumns;
    var fields, item := RequiredFields(k.kind), q.envelope.items[j];
    var i :| 0 <= i < |fields| && fields[i] == f;
    assert Filled(item.payload, RequiredFields(item.kind)[i]);
  }

  /** A string, when the field is there at all. */
  predicate StringAt(payload: Payload, f: Field) {
    f in payload ==> payload[f].Null? || payload[f].Str?
  }

  predicate KnownTypeAt(payload: Payload, f: Field) {
    f in payload ==> KindNamed(payload[f]).Some?
  }

  lemma RequiredIsFilled(item: Item, f: Field)
    requires ValidItem(item) && item.op.Upsert? && f in RequiredFields(item.kind)
    ensures f in item.payload && item.payload[f] != Null && item.payload[f] != Str("")
  {
    var fields := RequiredFields(item.kind);
    var i :| 0 <= i < |fields| && fields[i] == f;
    assert Filled(item.payload, RequiredFields(item.kind)[i]);
  }

  /** Main result on what the agent's validation is for: a valid lineage edge, its urns strings and its types known, is one
      the server can store. */
  lemma ValidEdgesAreStorable(item: Item, auth: Auth)
    requires ValidItem(item) && item.op.Upsert? && item.kind.LineageEdge?
    requires StringAt(item.payload, UpstreamUrn) && KnownTypeAt(item.payload, UpstreamEntityType)
    requires StringAt(item.payload, DownstreamUrn) && KnownTypeAt(item.payload, DownstreamEntityType)
    ensures Storable(BuildRecord(item, auth))
  {
    EndsAreRequired();
    hide ValidItem, RequiredFields, KindNamed, SourceConnOf;
    RequiredIsFilled(item, UpstreamUrn);
    RequiredIsFilled(item, UpstreamEntityType);
    RequiredIsFilled(item, DownstreamUrn);
    RequiredIsFilled(item, DownstreamEntityType);
  }

  lemma EndsAreRequired()
    ensures UpstreamUrn in RequiredFields(LineageEdge) && UpstreamEntityType in RequiredFields(LineageEdge)
    ensures DownstreamUrn in RequiredFields(LineageEdge) && DownstreamEntityType in RequiredFields(LineageEdge)
  {
  }

  /** And a valid table, column, dataset or job can be found: its document goes by its own name field and has a source
      type, tables and datasets have a qualified name, and a column hangs off its table. */
  lemma ValidEntitiesAreFound(item: Item, auth: Auth, d: Doc)
    requires ValidItem(item) && item.op.Upsert? && item.kind in [Table, Column, Dataset, Job]
    requires StringAt(item.payload, NameField(item.kind)) && DocHolds(d, BuildRecord(item, auth))
    ensures d.name == Get(item.payload, NameField(item.kind)) && d.name != Str("") && d.sourceType != Null
    ensures item.kind.Table? || item.kind.Dataset? ==> d.fullyQualifiedName != Null
  {
    NameIsRequired(item.kind);
    hide ValidItem, RequiredFields, SourceConnOf;
    RequiredIsFilled(item, NameField(item.kind));
    RequiredIsFilled(item, SourceType);
    if item.kind.Table? || item.kind.Dataset? {
      RequiredIsFilled(item, FullyQualifiedName);
    }
  }

  lemma ValidColumnsHaveTables(item: Item, auth: Auth)
    requires ValidItem(item) && item.op.Upsert? && item.kind.Column? && StringAt(item.payload, TableUrn)
    ensures exists table :: LinkFrom(Link(table, HasColumn, EntityNode(Column, auth.tenant, item.urn)), BuildRecord(item, auth))
  {
    NameIsRequired(Column);
    hide ValidItem, RequiredFields, SourceConnOf;
    RequiredIsFilled(item, TableUrn);
    var table := EntityNode(Table, auth.tenant, item.payload[TableUrn].s);
    assert LinkFrom(Link(table, HasColumn, EntityNode(Column, auth.tenant, item.urn)), BuildRecord(item, auth));
  }

  lemma NameIsRequired(kind: Kind)
    requires kind in [Table, Column, Dataset, Job]
    ensures NameField(kind) in RequiredFields(kind)
    ensures SourceType in RequiredFields(kind)
    ensures kind.Table? || kind.Dataset? ==> FullyQualifiedName in RequiredFields(kind)
    ensures kind.Column? ==> TableUrn in RequiredFields(kind)
  {
  }

  lemma RequiredHasColumn(kind: Kind, f: Field)
    requires f in RequiredFields(kind)
    ensures f in PayloadColumns(kind) <==> f != SourceConnectionId && !((kind.Column? || kind.Job?) && f == SourceType)
  {
    var fields := RequiredFields(kind);
    var i :| 0 <= i < |fields| && fields[i] == f;
    match kind
    case Table =>
    case Column =>
    case Dataset =>
    case Job =>
    case LineageEdge =>
    case _ =>
  }

  // ---------------------------------------------------------------- runs of requests

  lemma {:induction false} RunHasRequests(cfg: Config, s: Server, before: seq<Request>, qs: seq<Request>)
    requires AllHaveRequests(cfg, s, before)
    ensures AllHaveRequests(cfg, Run(cfg, s, qs), before + qs)
    decreases |qs|
  {
    hide AllHaveRequests, Serve;
    if qs == [] {
      assert before + qs == before;
    } else {
      ServedHaveRequests(cfg, s, qs[0], before);
      assert before + qs == (before + [qs[0]]) + qs[1..];
      RunHasRequests(cfg, Serve(cfg, s, qs[0]), before + [qs[0]], qs[1..]);
    }
  }

  /** Main result, for every run of requests from the empty server, requests that end in a server error included: each
      row, live or tombstoned, bears an upserted entity that some admitted request carried and that passed the
      validation, under that request's tenant and data plane; each event is of such an entity; and each idempotency
      record is of an admitted request. Nothing of a foreign data plane is ever stored. */
  lemma EverythingHasARequest(cfg: Config, qs: seq<Request>)
    ensures AllHaveRequests(cfg, Run(cfg, Server(map[], EmptyCatalog), qs), qs)
  {
    assert AllHaveRequests(cfg, Server(map[], EmptyCatalog), []);
    hide AllHaveRequests, Run;
    RunHasRequests(cfg, Server(map[], EmptyCatalog), [], qs);
    assert [] + qs == qs;
  }
}
