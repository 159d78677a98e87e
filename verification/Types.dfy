/** The values that travel through the pipeline: JSON payloads, entities as connectors emit them,
    closed batches, and the tenant-scoped records the control plane writes. */
module Types {

  datatype Option<+T> = None | Some(value: T)

  /** A JSON value as Python sees it after `json.loads`. */
  datatype Json =
    | Null
    | Bool(b: bool)
    | Num(n: real)
    | Str(s: string)
    | List(items: seq<Json>)
    | Obj(fields: map<string, Json>)

  /** Python truthiness of a JSON value. */
  predicate Truthy(j: Json) {
    match j
    case Null => false
    case Bool(b) => b
    case Num(n) => n != 0.0
    case Str(s) => s != ""
    case List(items) => items != []
    case Obj(fields) => fields != map[]
  }

  /** The payload keys that some table column, search field or graph property is named after.
      `Other` is any further key. */
  datatype Field =
    | SourceType | SourceConnectionId | FullyQualifiedName | Description | DescriptionSource
    | Owner | OwnerSource | Tags
    | DatabaseName | SchemaName | TableName | ObjectType | RowCountEstimate | SizeBytesEstimate
    | SourceCreatedAt | SourceLastModifiedAt
    | TableUrn | Name | OrdinalPosition | NativeDataType | NormalizedDataType | IsNullable
    | IsPrimaryKey | IsForeignKey | ForeignKeyRef
    | Bucket | Prefix | FileFormat | SchemaInferred | ObjectCountEstimate | TotalSizeBytesEstimate
    | Fields
    | JobType | SourceSystem | Schedule | LastRunAt | LastRunStatus
    | UpstreamUrn | UpstreamEntityType | DownstreamUrn | DownstreamEntityType | EdgeGranularity
    | ProducerJobUrn | Confidence | DiscoveredAt | LastConfirmedAt
    | FirstSeenAt
    | Other(name: string)

  type Payload = map<Field, Json>

  /** `payload.get(field)`: an absent key reads as null. */
  function Get(payload: Payload, field: Field): Json {
    if field in payload then payload[field] else Null
  }

  /** The string stored under `field`, when there is a non-empty one. */
  function NonEmptyString(payload: Payload, field: Field): Option<string> {
    match Get(payload, field)
    case Str(s) => if s == "" then None else Some(s)
    case _ => None
  }

  /** `entity_type`. Any string outside the two enumerations is `Unknown`. */
  datatype Kind = Table | Column | Dataset | Job | LineageEdge | Dashboard | ScrapeRun | Unknown(name: string)

  /** The wire name of an entity type. */
  function KindName(kind: Kind): string {
    match kind
    case Table => "table"
    case Column => "column"
    case Dataset => "dataset"
    case Job => "job"
    case LineageEdge => "lineage_edge"
    case Dashboard => "dashboard"
    case ScrapeRun => "scrape_run"
    case Unknown(name) => name
  }

  function KindFrom(name: string): Kind {
    if name == "table" then Table
    else if name == "column" then Column
    else if name == "dataset" then Dataset
    else if name == "job" then Job
    else if name == "lineage_edge" then LineageEdge
    else if name == "dashboard" then Dashboard
    else if name == "scrape_run" then ScrapeRun
    else Unknown(name)
  }

  datatype Op = Upsert | Delete

  /** One entity as a connector emits it and as it travels on the wire. */
  datatype Item = Item(urn: string, kind: Kind, op: Op, payload: Payload, extractedAt: int, hash: Option<string>)

  /** A closed batch. Its id is minted once and reused by every later attempt. */
  datatype Batch = Batch(id: string, connectorType: string, entities: seq<Item>)

  /** One entity after authentication, as the stores receive it. */
  datatype Record = Record(
    tenant: string, urn: string, kind: Kind, dataPlane: string, sourceConn: string,
    payload: Payload, op: Op, hash: Option<string>, at: int)

  /** The strings the string-keyed stores use: the tenant, a colon, and the second part. */
  function ScopedKey(tenant: string, rest: string): string {
    tenant + ":" + rest
  }

  predicate ColonFree(tenant: string) {
    ':' !in tenant
  }

  function FirstColon(s: string): nat {
    if s == [] || s[0] == ':' then 0 else 1 + FirstColon(s[1..])
  }

  lemma {:induction false} FirstColonOfKey(tenant: string, rest: string)
    requires ColonFree(tenant)
    ensures FirstColon(ScopedKey(tenant, rest)) == |tenant|
  {
    if tenant != [] {
      assert ScopedKey(tenant, rest)[1..] == ScopedKey(tenant[1..], rest);
      FirstColonOfKey(tenant[1..], rest);
    }
  }

  /** Keys of colon-free tenants never collide, whatever the second part contains. */
  lemma ScopedKeyInjective(t1: string, r1: string, t2: string, r2: string)
    requires ColonFree(t1) && ColonFree(t2)
    requires ScopedKey(t1, r1) == ScopedKey(t2, r2)
    ensures t1 == t2 && r1 == r2
  {
    FirstColonOfKey(t1, r1);
    FirstColonOfKey(t2, r2);
    var k := ScopedKey(t1, r1);
    assert t1 == k[..|t1|] && t2 == k[..|t2|];
    assert r1 == k[|t1| + 1..] && r2 == k[|t2| + 1..];
  }

  /** Without that hypothesis they do collide. */
  lemma ScopedKeyCollidesWithColons()
    ensures ScopedKey("a", "b:c") == ScopedKey("a:b", "c") && "a" != "a:b"
  {
    assert |"a"| != |"a:b"|;
    assert "a" + ":" + "b:c" == "a:b:c" == "a:b" + ":" + "c";
  }

  /** Exactly when two tenants have a key in common: they are one, or one of them continues the other after a colon. */
  lemma KeysCollideIff(t1: string, t2: string)
    ensures (exists r1, r2 :: ScopedKey(t1, r1) == ScopedKey(t2, r2)) <==> t1 == t2 || t1 + ":" <= t2 || t2 + ":" <= t1
  {
    if r1, r2 :| ScopedKey(t1, r1) == ScopedKey(t2, r2) {
      PrefixOfBoth(t1 + ":", r1, t2 + ":", r2);
    }
    if t1 == t2 {
      assert ScopedKey(t1, "") == ScopedKey(t2, "");
    } else if t1 + ":" <= t2 {
      var rest := t2[|t1| + 1..] + ":";
      assert t1 + ":" + rest == t2 + ":" + "";
      assert ScopedKey(t1, rest) == ScopedKey(t2, "");
    } else if t2 + ":" <= t1 {
      var rest := t1[|t2| + 1..] + ":";
      assert t2 + ":" + rest == t1 + ":" + "";
      assert ScopedKey(t1, "") == ScopedKey(t2, rest);
    }
  }

  lemma PrefixOfBoth(a: string, r1: string, b: string, r2: string)
    requires a + r1 == b + r2 && a != [] && b != []
    requires a[|a| - 1] == ':' && b[|b| - 1] == ':'
    ensures a == b || a <= b[..|b| - 1] || b <= a[..|a| - 1]
  {
    var k := a + r1;
    assert a == k[..|a|] && b == k[..|b|];
    if |a| < |b| {
      assert a == b[..|a|];
    } else if |b| < |a| {
      assert b == a[..|b|];
    }
  }

  // ---------------------------------------------------------------- stock facts

  lemma SameMap<K, V>(a: map<K, V>, b: map<K, V>)
    requires a.Keys == b.Keys && forall k :: k in a ==> a[k] == b[k]
    ensures a == b
  {
  }

  lemma ScaleMonotone(k: real, a: real, b: real)
    requires 0.0 <= k && a <= b
    ensures k * a <= k * b
  {
    assert 0.0 <= k * (b - a);
  }
}
