/** Which entities the agent drops before batching. */
module Validation {
  import opened Types

  const HashPrefix := "sha256:"

  predicate AgentKind(kind: Kind) {
    kind.Table? || kind.Column? || kind.Dataset? || kind.Job? || kind.LineageEdge?
  }

  /** The payload fields an upsert must fill, per entity type. */
  function RequiredFields(kind: Kind): seq<Field> {
    match kind
    case Table => [SourceType, SourceConnectionId, DatabaseName, SchemaName, TableName, FullyQualifiedName, ObjectType]
    case Column => [SourceType, SourceConnectionId, TableUrn, Name, OrdinalPosition, NativeDataType]
    case Dataset => [SourceType, SourceConnectionId, Bucket, Prefix, FullyQualifiedName, SchemaInferred]
    case Job => [SourceType, SourceConnectionId, Name, JobType]
    case LineageEdge => [UpstreamUrn, UpstreamEntityType, DownstreamUrn, DownstreamEntityType]
    case _ => []
  }

  predicate Filled(payload: Payload, f: Field) {
    var v := Get(payload, f);
    !v.Null? && v != Str("")
  }

  predicate WellHashed(hash: Option<string>) {
    hash.Some? && HashPrefix <= hash.value
  }

  predicate ValidItem(item: Item) {
    && item.urn != ""
    && AgentKind(item.kind)
    && WellHashed(item.hash)
    && (item.op.Upsert? ==> forall i :: 0 <= i < |RequiredFields(item.kind)| ==> Filled(item.payload, RequiredFields(item.kind)[i]))
  }

  datatype Error = MissingUrn | UnknownEntityType | MissingHash | MissingField(field: Field)

  /** The error list is empty exactly for valid entities, and names every required field left unfilled. */
  method ValidateEntity(item: Item) returns (errors: seq<Error>)
    ensures errors == [] <==> ValidItem(item)
    ensures forall f :: MissingField(f) in errors <==>
                        item.op.Upsert? && f in RequiredFields(item.kind) && !Filled(item.payload, f)
    ensures MissingUrn in errors <==> item.urn == ""
    ensures UnknownEntityType in errors <==> item.kind !in [Table, Column, Dataset, Job, LineageEdge]
    ensures MissingHash in errors <==> item.hash.None? || !("sha256:" <= item.hash.value)
  {
    errors := [];
    if item.urn == "" {
      errors := errors + [MissingUrn];
    }
    if !AgentKind(item.kind) {
      errors := errors + [UnknownEntityType];
    }
    if !WellHashed(item.hash) {
      errors := errors + [MissingHash];
    }
    if item.op.Upsert? {
      var required := RequiredFields(item.kind);
      ghost var before := errors;
      for i := 0 to |required|
        invariant before <= errors
        invariant |errors| == |before| <==> forall j :: 0 <= j < i ==> Filled(item.payload, required[j])
        invariant forall f :: MissingField(f) in errors <==> f in required[..i] && !Filled(item.payload, f)
        invariant forall e: Error :: !e.MissingField? ==> (e in errors <==> e in before)
      {
        assert required[..i + 1] == required[..i] + [required[i]];
        if !Filled(item.payload, required[i]) {
          errors := errors + [MissingField(required[i])];
        }
      }
      assert required[..|required|] == required;
    }
  }
}
