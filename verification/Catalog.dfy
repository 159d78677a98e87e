/** The four stores behind the fan-out worker as values, and the effect of one write on each.
    Each write touches the entry of one key, so it is given as a step on that entry. */
module Catalog {
  import opened Types

  function Lookup<K, V>(m: map<K, V>, k: K): Option<V> {
    if k in m then Some(m[k]) else None
  }

  function Store<K, V>(m: map<K, V>, k: K, v: Option<V>): map<K, V> {
    match v
    case None => m
    case Some(x) => m[k := x]
  }

  // ---------------------------------------------------------------- relational store

  datatype RowKey = RowKey(kind: Kind, tenant: string, urn: string)

  datatype Row = Row(
    columns: map<Field, Json>, dataPlane: string, sourceConn: string,
    hash: Option<string>, lastScraped: int, isDeleted: bool)

  datatype UpsertResult = UpsertResult(created: bool, skipped: bool, tombstoned: bool)

  /** The columns of each entity table that a payload may fill (envelope-managed ones excluded). */
  function PayloadColumns(kind: Kind): set<Field> {
    match kind
    case Table => {SourceType, DatabaseName, SchemaName, TableName, FullyQualifiedName, ObjectType, Description,
                   DescriptionSource, Owner, OwnerSource, Tags, RowCountEstimate, SizeBytesEstimate,
                   SourceCreatedAt, SourceLastModifiedAt}
    case Column => {TableUrn, Name, OrdinalPosition, NativeDataType, NormalizedDataType, IsNullable, IsPrimaryKey,
                    IsForeignKey, ForeignKeyRef, Description, DescriptionSource, Tags}
    case Dataset => {SourceType, Bucket, Prefix, FullyQualifiedName, FileFormat, SchemaInferred,
                     ObjectCountEstimate, TotalSizeBytesEstimate, Description, DescriptionSource, Owner,
                     OwnerSource, Tags, Fields}
    case Job => {JobType, Name, SourceSystem, Owner, Schedule, Description, LastRunAt, LastRunStatus}
    case LineageEdge => {UpstreamUrn, UpstreamEntityType, DownstreamUrn, DownstreamEntityType, EdgeGranularity,
                         ProducerJobUrn, Confidence, DiscoveredAt, LastConfirmedAt}
    case _ => {}
  }

  function Project(kind: Kind, payload: Payload): map<Field, Json> {
    map f | f in payload && f in PayloadColumns(kind) :: payload[f]
  }

  function KeyOf(r: Record): RowKey {
    RowKey(r.kind, r.tenant, r.urn)
  }

  /** True when an upsert is answered by the cheap no-op. */
  predicate Unchanged(x: Option<Row>, r: Record) {
    r.op.Upsert? && x.Some? && r.hash.Some? && x.value.hash == r.hash && !x.value.isDeleted
  }

  function WriteRow(x: Option<Row>, r: Record): Row {
    Row((if x.Some? then x.value.columns else map[]) + Project(r.kind, r.payload),
        r.dataPlane, r.sourceConn, r.hash, r.at, false)
  }

  function TombstoneRow(x: Option<Row>, r: Record): Option<Row> {
    match x
    case None => None
    case Some(row) => Some(row.(isDeleted := true, lastScraped := r.at))
  }

  function RowStep(x: Option<Row>, r: Record): Option<Row> {
    if r.op.Delete? then TombstoneRow(x, r)
    else if Unchanged(x, r) then Some(x.value.(lastScraped := r.at))
    else Some(WriteRow(x, r))
  }

  function RowResult(x: Option<Row>, r: Record): UpsertResult {
    if r.op.Delete? then UpsertResult(false, x.None?, x.Some?)
    else if Unchanged(x, r) then UpsertResult(false, true, false)
    else UpsertResult(x.None?, false, false)
  }

  function UpsertRow(rows: map<RowKey, Row>, r: Record): map<RowKey, Row> {
    Store(rows, KeyOf(r), RowStep(Lookup(rows, KeyOf(r)), r))
  }

  // ---------------------------------------------------------------- search index

  /** A timestamp property: taken from the payload, or the extraction time. */
  datatype Stamp = Given(j: Json) | At(t: int)

  datatype Doc = Doc(
    tenant: string, urn: string, kind: Kind, sourceType: Json, dataPlane: string, sourceConn: string,
    name: Json, description: Json, tags: Json, owner: Json, fullyQualifiedName: Json,
    firstSeen: Stamp, lastScraped: int, isDeleted: bool)

  predicate Searchable(kind: Kind) {
    kind.Table? || kind.Column? || kind.Dataset? || kind.Dashboard?
  }

  function Or(a: Json, b: Json): Json {
    if Truthy(a) then a else b
  }

  function ResolveName(kind: Kind, payload: Payload): Json {
    var fallback := Or(Get(payload, FullyQualifiedName), Str(""));
    match kind
    case Table => Or(Get(payload, TableName), fallback)
    case Dataset => Or(Get(payload, Prefix), fallback)
    case _ => Or(Get(payload, Name), fallback)
  }

  function BuildDocument(r: Record): Doc {
    var p := r.payload;
    Doc(r.tenant, r.urn, r.kind, Get(p, SourceType), r.dataPlane, r.sourceConn, ResolveName(r.kind, p),
        Get(p, Description), Or(Get(p, Tags), List([])), Get(p, Field.Owner), Get(p, FullyQualifiedName),
        if Truthy(Get(p, FirstSeenAt)) then Given(Get(p, FirstSeenAt)) else At(r.at), r.at, false)
  }

  function DocIdOf(r: Record): string {
    ScopedKey(r.tenant, r.urn)
  }

  function DocStep(x: Option<Doc>, r: Record): Option<Doc> {
    if !Searchable(r.kind) then x
    else if r.op.Upsert? then Some(BuildDocument(r))
    else match x
      case None => None
      case Some(d) => Some(d.(isDeleted := true))
  }

  function IndexEntity(docs: map<string, Doc>, r: Record): map<string, Doc> {
    Store(docs, DocIdOf(r), DocStep(Lookup(docs, DocIdOf(r)), r))
  }

  // ---------------------------------------------------------------- graph store

  datatype NodeId = EntityNode(kind: Kind, tenant: string, urn: string) | OwnerNode(tenant: string, name: Json)

  /** A node property: scalars and lists of scalars as they are, anything else as dumped JSON text. */
  datatype Prop = Plain(j: Json) | Dumped(j: Json)

  /** Unset properties are None; a node that only ever was an edge endpoint has none set. */
  datatype Node = Node(
    props: map<Field, Prop>, firstSeen: Option<int>, lastScraped: Option<int>,
    isDeleted: Option<bool>, dataPlane: Option<string>, sourceConn: Option<string>)

  datatype Rel = HasColumn | OwnedBy | Produces | Consumes
  datatype Link = Link(from: NodeId, rel: Rel, to: NodeId)

  datatype DerivesKey = DerivesKey(down: NodeId, up: NodeId, tenant: string, urn: string)
  datatype Derives = Derives(
    confidence: Json, granularity: Json, discoveredAt: int, lastConfirmed: int, isDeleted: bool)

  datatype Graph = Graph(nodes: map<NodeId, Node>, links: set<Link>, derives: map<DerivesKey, Derives>)

  const BareNode := Node(map[], None, None, None, None, None)

  predicate Scalar(j: Json) {
    j.Bool? || j.Num? || j.Str?
  }

  function SanitizeValue(j: Json): Prop {
    if Scalar(j) || (j.List? && forall i :: 0 <= i < |j.items| ==> Scalar(j.items[i])) then Plain(j) else Dumped(j)
  }

  function SanitizeProps(payload: Payload): map<Field, Prop> {
    map f | f in payload && !payload[f].Null? :: SanitizeValue(payload[f])
  }

  predicate HasNodeLabel(kind: Kind) {
    kind.Table? || kind.Column? || kind.Dataset? || kind.Job? || kind.Dashboard?
  }

  function NodeOf(r: Record): NodeId {
    EntityNode(r.kind, r.tenant, r.urn)
  }

  function MergeNode(x: Option<Node>, r: Record): Node {
    var prior := if x.Some? then x.value else BareNode.(firstSeen := Some(r.at));
    Node(prior.props + SanitizeProps(r.payload), prior.firstSeen, Some(r.at), Some(r.op.Delete?),
         Some(r.dataPlane), Some(r.sourceConn))
  }

  /** The endpoints named by a lineage payload, when it names them. */
  datatype Endpoints = Endpoints(up: NodeId, down: NodeId)

  function KindNamed(j: Json): Option<Kind> {
    if j == Str("table") then Some(Table)
    else if j == Str("column") then Some(Column)
    else if j == Str("dataset") then Some(Dataset)
    else if j == Str("job") then Some(Job)
    else if j == Str("dashboard") then Some(Dashboard)
    else None
  }

  function EndpointsOf(tenant: string, payload: Payload): Option<Endpoints> {
    match (Get(payload, UpstreamUrn), KindNamed(Get(payload, UpstreamEntityType)),
           Get(payload, DownstreamUrn), KindNamed(Get(payload, DownstreamEntityType)))
    case (Str(up), Some(upKind), Str(down), Some(downKind)) =>
      Some(Endpoints(EntityNode(upKind, tenant, up), EntityNode(downKind, tenant, down)))
    case _ => None
  }

  /** The relationships a non-delete write of this payload merges, lineage edges apart. */
  function LinksOf(kind: Kind, tenant: string, urn: string, payload: Payload): set<Link> {
    if kind.LineageEdge? then
      match (EndpointsOf(tenant, payload), NonEmptyString(payload, ProducerJobUrn))
      case (Some(ends), Some(job)) =>
        {Link(EntityNode(Job, tenant, job), Produces, ends.down), Link(EntityNode(Job, tenant, job), Consumes, ends.up)}
      case _ => {}
    else
      var self := EntityNode(kind, tenant, urn);
      (match NonEmptyString(payload, TableUrn)
       case Some(table) => if kind.Column? then {Link(EntityNode(Table, tenant, table), HasColumn, self)} else {}
       case None => {})
      + (if Truthy(Get(payload, Field.Owner)) then {Link(self, OwnedBy, OwnerNode(tenant, Get(payload, Field.Owner)))} else {})
  }

  function LinkEnds(links: set<Link>): set<NodeId> {
    (set l | l in links :: l.from) + (set l | l in links :: l.to)
  }

  /** The nodes such a write merges as bare endpoints when they do not exist. */
  function BareNodesOf(kind: Kind, tenant: string, urn: string, payload: Payload): set<NodeId> {
    LinkEnds(LinksOf(kind, tenant, urn, payload)) +
    (if kind.LineageEdge? then
       match EndpointsOf(tenant, payload)
       case Some(ends) => {ends.up, ends.down}
       case None => {}
     else {})
  }

  function AddBare(nodes: map<NodeId, Node>, ids: set<NodeId>): map<NodeId, Node> {
    map id | id in nodes.Keys + ids :: if id in nodes then nodes[id] else BareNode
  }

  function OrDefault(payload: Payload, f: Field, default: Json): Json {
    if f in payload then payload[f] else default
  }

  function DerivesKeyOf(ends: Endpoints, tenant: string, urn: string): DerivesKey {
    DerivesKey(ends.down, ends.up, tenant, urn)
  }

  function MergeDerives(x: Option<Derives>, r: Record): Derives {
    Derives(OrDefault(r.payload, Confidence, Str("inferred")), OrDefault(r.payload, EdgeGranularity, Str("table_level")),
            if x.Some? then x.value.discoveredAt else r.at, r.at, false)
  }

  function TombstoneDerives(derives: map<DerivesKey, Derives>, tenant: string, urn: string): map<DerivesKey, Derives> {
    map k | k in derives :: if k.tenant == tenant && k.urn == urn then derives[k].(isDeleted := true) else derives[k]
  }

  /** The node of the entity is merged; a non-delete also merges its relationships and their endpoints. */
  function WriteNode(g: Graph, r: Record, links: set<Link>, bare: set<NodeId>): Graph {
    var nodes := g.nodes[NodeOf(r) := MergeNode(Lookup(g.nodes, NodeOf(r)), r)];
    if r.op.Delete? then g.(nodes := nodes)
    else Graph(AddBare(nodes, bare), g.links + links, g.derives)
  }

  /** A lineage edge is merged with its endpoints and job links, or flagged on delete. */
  function WriteEdge(g: Graph, r: Record, k: DerivesKey, links: set<Link>, bare: set<NodeId>): Graph {
    if r.op.Delete? then g.(derives := TombstoneDerives(g.derives, r.tenant, r.urn))
    else Graph(AddBare(g.nodes, bare), g.links + links, g.derives[k := MergeDerives(Lookup(g.derives, k), r)])
  }

  /** None models the exception raised for a kind without a label and for a lineage payload without endpoints. */
  function UpsertGraph(g: Graph, r: Record): Option<Graph> {
    var links := LinksOf(r.kind, r.tenant, r.urn, r.payload);
    var bare := BareNodesOf(r.kind, r.tenant, r.urn, r.payload);
    if r.kind.LineageEdge? then
      match EndpointsOf(r.tenant, r.payload)
      case None => None
      case Some(ends) => Some(WriteEdge(g, r, DerivesKeyOf(ends, r.tenant, r.urn), links, bare))
    else if !HasNodeLabel(r.kind) then None
    else Some(WriteNode(g, r, links, bare))
  }

  /** The relationships merged by the first n link transactions of a node upsert: a column's table, then the owner. */
  function FirstLinks(r: Record, n: nat): set<Link> {
    var table := if r.kind.Column? then NonEmptyString(r.payload, TableUrn) else None;
    if n == 0 then {}
    else if n == 1 && table.Some? then {Link(EntityNode(Table, r.tenant, table.value), HasColumn, NodeOf(r))}
    else LinksOf(r.kind, r.tenant, r.urn, r.payload)
  }

  /** The graph when the upsert raises after n of its transactions have been committed. */
  function GraphPart(g: Graph, r: Record, n: nat): Graph {
    if n == 0 || UpsertGraph(g, r).None? then g
    else if r.kind.LineageEdge? then
      var ends := EndpointsOf(r.tenant, r.payload).value;
      if n == 1 then WriteEdge(g, r, DerivesKeyOf(ends, r.tenant, r.urn), {}, {ends.up, ends.down}) else UpsertGraph(g, r).value
    else WriteNode(g, r, FirstLinks(r, n - 1), LinkEnds(FirstLinks(r, n - 1)))
  }

  // ---------------------------------------------------------------- analytics store

  datatype EventType = ScrapeRunEvent | EntityDeleted | EntityUpserted | EntityUnchanged

  datatype Event = Event(
    tenant: string, dataPlane: string, connectorType: string, urn: string, kind: Kind, op: Op,
    eventType: EventType, at: int)

  function EventOf(connectorType: string, r: Record, eventType: EventType): Event {
    Event(r.tenant, r.dataPlane, connectorType, r.urn, r.kind, r.op, eventType, r.at)
  }

  // ---------------------------------------------------------------- all four

  datatype Catalog = Catalog(rows: map<RowKey, Row>, graph: Graph, docs: map<string, Doc>, events: seq<Event>)

  const EmptyCatalog := Catalog(map[], Graph(map[], {}, map[]), map[], [])

  predicate RoutesToRelational(kind: Kind) {
    kind.Table? || kind.Column? || kind.Dataset? || kind.Job? || kind.LineageEdge?
  }

  predicate RoutesToGraph(kind: Kind) {
    kind.Table? || kind.Column? || kind.Dataset? || kind.Job? || kind.LineageEdge?
  }

  predicate RoutesToSearch(kind: Kind) {
    kind.Table? || kind.Column? || kind.Dataset? || kind.Job?
  }

  /** Where a store write raises while one entity is processed, if anywhere; the graph write commits transaction by
      transaction. */
  datatype Fault = NoFault | RelationalRaises | GraphRaises(committed: nat) | SearchRaises | AnalyticsRaises

  /** The catalog after the call, and whether the call returned or raised. */
  datatype Outcome = Done(catalog: Catalog) | Raised(catalog: Catalog)

  predicate Changed(c: Catalog, r: Record) {
    RoutesToRelational(r.kind) ==> !RowResult(Lookup(c.rows, KeyOf(r)), r).skipped || r.op.Delete?
  }

  function EventTypeOf(r: Record, changed: bool): EventType {
    if r.op.Delete? then EntityDeleted else if changed then EntityUpserted else EntityUnchanged
  }

  /** The fan-out worker on one entity: relational first, then the projections when something changed,
      then the audit event. */
  function ProcessOne(connectorType: string, c: Catalog, r: Record, fault: Fault := NoFault): Outcome {
    if r.kind.ScrapeRun? then
      if fault.AnalyticsRaises? then Raised(c)
      else Done(c.(events := c.events + [EventOf(connectorType, r, ScrapeRunEvent)]))
    else if r.kind.Unknown? then Raised(c)
    else if RoutesToRelational(r.kind) && fault.RelationalRaises? then Raised(c)
    else
      var changed := Changed(c, r);
      var c1 := if RoutesToRelational(r.kind) then c.(rows := UpsertRow(c.rows, r)) else c;
      var g := if !changed || !RoutesToGraph(r.kind) then Some(c1.graph)
               else if fault.GraphRaises? then None
               else UpsertGraph(c1.graph, r);
      if g.None? then Raised(if fault.GraphRaises? then c1.(graph := GraphPart(c1.graph, r, fault.committed)) else c1)
      else
        var c2 := c1.(graph := g.value);
        if changed && RoutesToSearch(r.kind) && fault.SearchRaises? then Raised(c2)
        else
          var c3 := if changed && RoutesToSearch(r.kind) then c2.(docs := IndexEntity(c2.docs, r)) else c2;
          if fault.AnalyticsRaises? then Raised(c3)
          else Done(c3.(events := c3.events + [EventOf(connectorType, r, EventTypeOf(r, changed))]))
  }

  /** A batch in order; the first exception ends it. */
  function ProcessAll(connectorType: string, c: Catalog, rs: seq<Record>): Outcome
    decreases |rs|
  {
    if rs == [] then Done(c)
    else
      match ProcessOne(connectorType, c, rs[0])
      case Raised(c') => Raised(c')
      case Done(c') => ProcessAll(connectorType, c', rs[1..])
  }

  /** The worker raises on nothing else: an unknown kind, or a lineage edge without its endpoints. */
  predicate Storable(r: Record) {
    !r.kind.Unknown? && (r.kind.LineageEdge? ==> EndpointsOf(r.tenant, r.payload).Some?)
  }

  ghost predicate AllStorable(rs: seq<Record>) {
    forall i :: 0 <= i < |rs| ==> Storable(rs[i])
  }
}
