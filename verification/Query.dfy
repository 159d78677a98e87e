/** Search queries as JSON trees: which documents they match, and the base query the catalog search builds. */
module Query {
  import opened Types
  import opened Catalog

  // ---------------------------------------------------------------- matching

  /** Does a text query match? Given the clause's scalar parameters, the names of the searched fields, and the
      document. */
  type TextMatch = (map<string, Json>, seq<string>, Doc) -> bool

  /** The value a `term` or `terms` clause compares. */
  function DocField(d: Doc, field: string): Json {
    if field == "tenant_id" then Str(d.tenant)
    else if field == "urn" then Str(d.urn)
    else if field == "entity_type" then Str(KindName(d.kind))
    else if field == "source_type" then d.sourceType
    else if field == "data_plane_id" then Str(d.dataPlane)
    else if field == "source_connection_id" then Str(d.sourceConn)
    else if field == "is_deleted" then Bool(d.isDeleted)
    else Null
  }

  predicate Single(f: map<string, Json>, key: string) {
    f.Keys == {key}
  }

  predicate TermMatches(j: Json, d: Doc) {
    match j
    case Obj(f) => |f| == 1 && forall k :: k in f ==> Scalar(f[k]) && DocField(d, k) == f[k]
    case _ => false
  }

  predicate ListHolds(j: Json, v: Json) {
    j.List? && exists i :: 0 <= i < |j.items| && Scalar(j.items[i]) && v == j.items[i]
  }

  predicate TermsMatches(j: Json, d: Doc) {
    match j
    case Obj(f) => |f| == 1 && forall k :: k in f ==> ListHolds(f[k], DocField(d, k))
    case _ => false
  }

  /** A field spec `name^boost` without its boost. */
  function BaseField(spec: string): string {
    if spec == "" || spec[0] == '^' then "" else [spec[0]] + BaseField(spec[1..])
  }

  function BaseFields(items: seq<Json>): seq<string> {
    if items == [] then []
    else BaseFields(items[..|items| - 1]) + match items[|items| - 1] case Str(s) => [BaseField(s)] case _ => []
  }

  /** The fields a `multi_match` searches; a bare string names one field. */
  function SearchedFields(clause: map<string, Json>): seq<string> {
    if "fields" !in clause then []
    else
      match clause["fields"]
      case List(items) => BaseFields(items)
      case Str(s) => if s == "" then [] else [BaseField(s)]
      case _ => []
  }

  /** Every scalar parameter of the clause besides the fields. */
  function Params(clause: map<string, Json>): map<string, Json> {
    map k | k in clause && k != "fields" && Scalar(clause[k]) :: clause[k]
  }

  predicate MultiMatches(text: TextMatch, j: Json, d: Doc) {
    match j
    case Obj(clause) => text(Params(clause), SearchedFields(clause), d)
    case _ => false
  }

  /** The clauses under one key of a `bool`: a list, or a single clause. */
  function Clauses(b: map<string, Json>, key: string): (r: seq<Json>)
    ensures forall i :: 0 <= i < |r| ==> r[i] < Obj(b)
  {
    if key !in b then []
    else
      match b[key]
      case List(items) => items
      case Obj(_) => [b[key]]
      case _ => []
  }

  /** Whether a query clause matches a document. Boosts, weights and score functions play no part in it; a tree
      that is none of the known clauses matches nothing. */
  predicate Matches(text: TextMatch, q: Json, d: Doc)
    decreases q
  {
    match q
    case Obj(f) =>
      if Single(f, "match_all") then true
      else if Single(f, "term") then TermMatches(f["term"], d)
      else if Single(f, "terms") then TermsMatches(f["terms"], d)
      else if Single(f, "multi_match") then MultiMatches(text, f["multi_match"], d)
      else if Single(f, "function_score") && f["function_score"].Obj? && "query" in f["function_score"].fields then
        Matches(text, f["function_score"].fields["query"], d)
      else Single(f, "bool") && f["bool"].Obj? && BoolMatches(text, f["bool"].fields, d)
    case _ => false
  }

  /** Every `must` and `filter` clause matches, no `must_not` does, and without the former some `should` does. */
  predicate BoolMatches(text: TextMatch, b: map<string, Json>, d: Doc)
    decreases Obj(b)
  {
    var must, filters, should, mustNot := Clauses(b, "must"), Clauses(b, "filter"), Clauses(b, "should"), Clauses(b,
        "must_not");
    && (forall i :: 0 <= i < |must| ==> Matches(text, must[i], d))
    && (forall i :: 0 <= i < |filters| ==> Matches(text, filters[i], d))
    && (forall i :: 0 <= i < |mustNot| ==> !Matches(text, mustNot[i], d))
    && (must == [] && filters == [] && should != [] ==> exists i :: 0 <= i < |should| && Matches(text, should[i], d))
  }

  /** A request body is executed on its `query`; a body without one is refused. */
  function Executed(text: TextMatch, body: Json, d: Doc): Option<bool> {
    if body.Obj? && "query" in body.fields then Some(Matches(text, body.fields["query"], d)) else None
  }

  // ---------------------------------------------------------------- the tenant filter

  predicate IsTenantTerm(f: map<string, Json>, tenant: string) {
    "term" in f && f["term"].Obj? && "tenant_id" in f["term"].fields && f["term"].fields["tenant_id"] == Str(tenant)
  }

  /** `_has_tenant_filter`: a term on the tenant somewhere in the tree. */
  predicate HasTenantFilter(j: Json, tenant: string) {
    match j
    case Obj(f) => IsTenantTerm(f, tenant) || exists k :: k in f && HasTenantFilter(f[k], tenant)
    case List(items) => exists i :: 0 <= i < |items| && HasTenantFilter(items[i], tenant)
    case _ => false
  }

  // ---------------------------------------------------------------- the base query

  const TextFields := [Str("name^3"), Str("tags^2"), Str("description"), Str("owner")]

  /** `SEARCHABLE_ENTITY_TYPES`, sorted. */
  const SearchableTypes := ["column", "dashboard", "dataset", "table"]

  function Strings(ss: seq<string>): seq<Json> {
    seq(|ss|, i requires 0 <= i < |ss| => Str(ss[i]))
  }

  /** `sorted(requested & SEARCHABLE_ENTITY_TYPES)`; nothing requested means all. */
  function TypesFor(requested: seq<string>): seq<string> {
    if requested == [] then SearchableTypes else Kept(SearchableTypes, requested)
  }

  function Kept(types: seq<string>, requested: seq<string>): seq<string> {
    if types == [] then []
    else Kept(types[..|types| - 1], requested) + if types[|types| - 1] in requested then [types[|types| - 1]] else []
  }

  function TextClause(queryText: string): Json {
    if queryText != "" then
      Obj(map["multi_match" := Obj(map["query" := Str(queryText), "fields" := List(TextFields),
                                       "type" := Str("best_fields"), "fuzziness" := Str("AUTO")])])
    else Obj(map["match_all" := Obj(map[])])
  }

  function Term(field: string, value: Json): Json {
    Obj(map["term" := Obj(map[field := value])])
  }

  function Terms(field: string, values: seq<Json>): Json {
    Obj(map["terms" := Obj(map[field := List(values)])])
  }

  function Filters(tenant: string, entityTypes: seq<string>, sourceTypes: seq<string>): seq<Json> {
    [Term("tenant_id", Str(tenant)), Term("is_deleted", Bool(false)),
        Terms("entity_type", Strings(TypesFor(entityTypes)))]
    + if sourceTypes == [] then [] else [Terms("source_type", Strings(sourceTypes))]
  }

  function BaseQuery(tenant: string, queryText: string, entityTypes: seq<string>, sourceTypes: seq<string>,
      limit: int, offset: int): Json
  {
    Obj(map["query" := Obj(map["bool" := Obj(map["must" := List([TextClause(queryText)]),
                                                  "filter" := List(Filters(tenant, entityTypes, sourceTypes))])]),
            "from" := Num(offset as real), "size" := Num(limit as real)])
  }

  /** The body asks for this many hits, beginning behind that many. */
  predicate PagesBy(body: Json, limit: int, offset: int) {
    && body.Obj? && "from" in body.fields && "size" in body.fields
    && body.fields["from"] == Num(offset as real) && body.fields["size"] == Num(limit as real)
  }

  lemma BasePages(tenant: string, queryText: string, entityTypes: seq<string>, sourceTypes: seq<string>, limit: int,
      offset: int)
    ensures PagesBy(BaseQuery(tenant, queryText, entityTypes, sourceTypes, limit, offset), limit, offset)
  {
    hide Filters, TextClause;
  }

  /** A boost hook: None when it raises. */
  type Hook = Json -> Option<Json>

  datatype Built = Query(body: Json) | TenantFilterStripped | HookRaised

  /** `build_search_query`: whatever a hook returns, a body without the tenant filter is never returned, and
      without a hook the base query is. */
  method BuildSearchQuery(tenant: string, queryText: string, entityTypes: seq<string>, sourceTypes: seq<string>,
      limit: int, offset: int, hook: Option<Hook>)
    returns (built: Built)
    ensures hook.None? ==> built == Query(BaseQuery(tenant, queryText, entityTypes, sourceTypes, limit, offset))
    ensures hook.Some? ==>
              built == match hook.value(BaseQuery(tenant, queryText, entityTypes, sourceTypes, limit, offset))
                       case None => HookRaised
                       case Some(body) => if HasTenantFilter(body, tenant) then Query(body) else TenantFilterStripped
    ensures built.Query? ==> HasTenantFilter(built.body, tenant)
    ensures hook.None? ==> built.Query? && PagesBy(built.body, limit, offset)
  {
    var must := [TextClause(queryText)];
    var filters := [Term("tenant_id", Str(tenant)), Term("is_deleted", Bool(false))];
    filters := filters + [Terms("entity_type", Strings(TypesFor(entityTypes)))];
    if sourceTypes != [] {
      filters := filters + [Terms("source_type", Strings(sourceTypes))];
    }
    assert filters == Filters(tenant, entityTypes, sourceTypes);
    var body := Obj(map["query" := Obj(map["bool" := Obj(map["must" := List(must), "filter" := List(filters)])]),
                        "from" := Num(offset as real), "size" := Num(limit as real)]);
    BaseHasTenantFilter(tenant, queryText, entityTypes, sourceTypes, limit, offset);
    BasePages(tenant, queryText, entityTypes, sourceTypes, limit, offset);
    hide HasTenantFilter, BaseQuery, Filters, PagesBy;
    if hook.None? {
      return Query(body);
    }
    var boosted := hook.value(body);
    if boosted.None? {
      return HookRaised;
    }
    built := if HasTenantFilter(boosted.value, tenant) then Query(boosted.value) else TenantFilterStripped;
  }

  lemma TenantTermIsFilter(tenant: string)
    ensures HasTenantFilter(Term("tenant_id", Str(tenant)), tenant)
  {
  }

  lemma FilterInList(items: seq<Json>, i: nat, tenant: string)
    requires i < |items| && HasTenantFilter(items[i], tenant)
    ensures HasTenantFilter(List(items), tenant)
  {
  }

  lemma FilterInObject(f: map<string, Json>, key: string, tenant: string)
    requires key in f && HasTenantFilter(f[key], tenant)
    ensures HasTenantFilter(Obj(f), tenant)
  {
  }

  lemma BaseHasTenantFilter(tenant: string, queryText: string, entityTypes: seq<string>, sourceTypes: seq<string>,
      limit: int, offset: int)
    ensures HasTenantFilter(BaseQuery(tenant, queryText, entityTypes, sourceTypes, limit, offset), tenant)
  {
    hide HasTenantFilter;
    var body := BaseQuery(tenant, queryText, entityTypes, sourceTypes, limit, offset);
    var filters := Filters(tenant, entityTypes, sourceTypes);
    TenantTermIsFilter(tenant);
    assert filters[0] == Term("tenant_id", Str(tenant));
    FilterInList(filters, 0, tenant);
    FilterInObject(body.fields["query"].fields["bool"].fields, "filter", tenant);
    FilterInObject(body.fields["query"].fields, "bool", tenant);
    FilterInObject(body.fields, "query", tenant);
  }

  // ---------------------------------------------------------------- soundness and completeness

  lemma TermIff(text: TextMatch, field: string, value: Json, d: Doc)
    requires Scalar(value)
    ensures Matches(text, Term(field, value), d) <==> DocField(d, field) == value
  {
    var f := map[field := value];
    assert f.Keys == {field};
    assert Term(field, value).fields["term"] == Obj(f);
  }

  lemma TermsIff(text: TextMatch, field: string, values: seq<string>, d: Doc)
    ensures Matches(text, Terms(field, Strings(values)), d) <==> exists i :: 0 <= i < |values| && DocField(d, field) == Str(values[i])
  {
    var f := map[field := List(Strings(values))];
    assert f.Keys == {field};
    assert Terms(field, Strings(values)).fields["terms"] == Obj(f);
    hide DocField;
    if i :| 0 <= i < |values| && DocField(d, field) == Str(values[i]) {
      assert Strings(values)[i] == Str(values[i]);
    }
  }

  /** The parameters of the text clause and the four searched fields. */
  predicate TextMatches(text: TextMatch, queryText: string, d: Doc) {
    queryText == "" ||
    text(map["query" := Str(queryText), "type" := Str("best_fields"), "fuzziness" := Str("AUTO")],
         ["name", "tags", "description", "owner"], d)
  }

  lemma TextFieldNames()
    ensures BaseFields(TextFields) == ["name", "tags", "description", "owner"]
  {
    hide BaseField, BaseFields;
    BaseOf("name", "3");
    BaseOf("tags", "2");
    BaseOfPlain("description");
    BaseOfPlain("owner");
    assert "name" + "^" + "3" == "name^3" && "tags" + "^" + "2" == "tags^2";
    BaseFieldsOfFour(TextFields[0], TextFields[1], TextFields[2], TextFields[3]);
  }

  lemma BaseFieldsOfFour(a: Json, b: Json, c: Json, e: Json)
    requires a.Str? && b.Str? && c.Str? && e.Str?
    ensures BaseFields([a, b, c, e]) == [BaseField(a.s), BaseField(b.s), BaseField(c.s), BaseField(e.s)]
  {
    hide BaseField;
    assert [a, b, c, e][..3] == [a, b, c] && [a, b, c][..2] == [a, b] && [a, b][..1] == [a] && [a][..0] == [];
    assert BaseFields([a]) == [BaseField(a.s)];
    assert BaseFields([a, b]) == [BaseField(a.s), BaseField(b.s)];
    assert BaseFields([a, b, c]) == [BaseField(a.s), BaseField(b.s), BaseField(c.s)];
  }

  lemma {:induction false} BaseOf(name: string, boost: string)
    requires '^' !in name
    ensures BaseField(name + "^" + boost) == name
  {
    if name != "" {
      assert (name + "^" + boost)[1..] == name[1..] + "^" + boost;
      BaseOf(name[1..], boost);
    }
  }

  lemma {:induction false} BaseOfPlain(name: string)
    requires '^' !in name
    ensures BaseField(name) == name
  {
    if name != "" {
      BaseOfPlain(name[1..]);
    }
  }

  lemma TextParams(queryText: string)
    ensures Params(map["query" := Str(queryText), "fields" := List(TextFields), "type" := Str("best_fields"),
              "fuzziness" := Str("AUTO")]) ==
            map["query" := Str(queryText), "type" := Str("best_fields"), "fuzziness" := Str("AUTO")]
  {
  }

  lemma TextClauseIff(text: TextMatch, queryText: string, d: Doc)
    ensures Matches(text, TextClause(queryText), d) <==> TextMatches(text, queryText, d)
  {
    hide BaseFields, BaseField;
    var q := TextClause(queryText);
    if queryText != "" {
      var clause := q.fields["multi_match"].fields;
      TextFieldNames();
      hide TextFields;
      TextParams(queryText);
      assert q.fields.Keys == {"multi_match"};
    } else {
      assert q.fields.Keys == {"match_all"};
    }
  }

  lemma {:induction false} KeptIff(types: seq<string>, requested: seq<string>, t: string)
    ensures t in Kept(types, requested) <==> t in types && t in requested
  {
    if types != [] {
      KeptIff(types[..|types| - 1], requested, t);
      assert types == types[..|types| - 1] + [types[|types| - 1]];
    }
  }

  /** The type is searchable and was asked for. */
  predicate TypeWanted(kind: Kind, entityTypes: seq<string>) {
    Searchable(kind) && (entityTypes == [] || KindName(kind) in entityTypes)
  }

  lemma TypeIff(text: TextMatch, entityTypes: seq<string>, d: Doc)
    requires KindFrom(KindName(d.kind)) == d.kind
    ensures Matches(text, Terms("entity_type", Strings(TypesFor(entityTypes))), d) <==> TypeWanted(d.kind, entityTypes)
  {
    hide Matches;
    TermsIff(text, "entity_type", TypesFor(entityTypes), d);
    KeptIff(SearchableTypes, entityTypes, KindName(d.kind));
    assert KindName(d.kind) in SearchableTypes <==> Searchable(d.kind);
  }

  predicate All(text: TextMatch, clauses: seq<Json>, d: Doc) {
    forall i :: 0 <= i < |clauses| ==> Matches(text, clauses[i], d)
  }

  lemma AllOfOne(text: TextMatch, clause: Json, d: Doc)
    ensures All(text, [clause], d) <==> Matches(text, clause, d)
  {
    hide Matches;
    assert [clause][0] == clause;
  }

  lemma AllOfBoth(text: TextMatch, a: seq<Json>, b: seq<Json>, d: Doc)
    ensures All(text, a + b, d) <==> All(text, a, d) && All(text, b, d)
  {
    hide Matches;
    if All(text, a + b, d) {
      forall i | 0 <= i < |a| ensures Matches(text, a[i], d) {
        assert (a + b)[i] == a[i];
      }
      forall i | 0 <= i < |b| ensures Matches(text, b[i], d) {
        assert (a + b)[|a| + i] == b[i];
      }
    }
  }

  lemma BoolIff(text: TextMatch, must: seq<Json>, filters: seq<Json>, d: Doc)
    requires filters != []
    ensures Matches(text, Obj(map["bool" := Obj(map["must" := List(must), "filter" := List(filters)])]), d) <==>
            All(text, must, d) && All(text, filters, d)
  {
    var q := Obj(map["bool" := Obj(map["must" := List(must), "filter" := List(filters)])]);
    assert q.fields.Keys == {"bool"};
    var b := q.fields["bool"].fields;
    assert Clauses(b, "must") == must && Clauses(b, "filter") == filters && Clauses(b, "must_not") == [];
  }

  lemma FiltersIff(text: TextMatch, tenant: string, entityTypes: seq<string>, sourceTypes: seq<string>, d: Doc)
    requires KindFrom(KindName(d.kind)) == d.kind
    ensures All(text, Filters(tenant, entityTypes, sourceTypes), d) <==>
            d.tenant == tenant && !d.isDeleted && TypeWanted(d.kind, entityTypes) &&
            (sourceTypes == [] || (d.sourceType.Str? && d.sourceType.s in sourceTypes))
  {
    hide Matches, All, TypeWanted, TypesFor, KindName, KindFrom, Terms, Term, Strings;
    var byTenant, live := Term("tenant_id", Str(tenant)), Term("is_deleted", Bool(false));
    var typed, sourced := Terms("entity_type", Strings(TypesFor(entityTypes))), Terms("source_type",
        Strings(sourceTypes));
    var fixed := [byTenant] + [live] + [typed];
    assert Filters(tenant, entityTypes, sourceTypes) == fixed + if sourceTypes == [] then [] else [sourced];
    AllOfBoth(text, fixed, if sourceTypes == [] then [] else [sourced], d);
    AllOfBoth(text, [byTenant] + [live], [typed], d);
    AllOfBoth(text, [byTenant], [live], d);
    AllOfOne(text, byTenant, d);
    AllOfOne(text, live, d);
    AllOfOne(text, typed, d);
    AllOfOne(text, sourced, d);
    NothingFails(text, d);
    TermIff(text, "tenant_id", Str(tenant), d);
    TermIff(text, "is_deleted", Bool(false), d);
    TypeIff(text, entityTypes, d);
    TermsIff(text, "source_type", sourceTypes, d);
  }

  lemma NothingFails(text: TextMatch, d: Doc)
    ensures All(text, [], d)
  {
  }

  /** Main result: for every document, the base query matches exactly when the text does, the tenant is the
      caller's, the document is not deleted, its type is searchable and requested (or none was), and its source
      type is requested (or none was). */
  lemma SearchIsSoundAndComplete(text: TextMatch, tenant: string, queryText: string, entityTypes: seq<string>,
      sourceTypes: seq<string>, limit: int, offset: int, d: Doc)
    requires KindFrom(KindName(d.kind)) == d.kind
    ensures Executed(text, BaseQuery(tenant, queryText, entityTypes, sourceTypes, limit, offset), d) ==
            Some(TextMatches(text, queryText, d) && d.tenant == tenant && !d.isDeleted && TypeWanted(d.kind,
                entityTypes) &&
                 (sourceTypes == [] || (d.sourceType.Str? && d.sourceType.s in sourceTypes)))
  {
    var must, filters := [TextClause(queryText)], Filters(tenant, entityTypes, sourceTypes);
    BoolIff(text, must, filters, d);
    ExecutedIs(text, tenant, queryText, entityTypes, sourceTypes, limit, offset, d);
    hide *;
    AllOfOne(text, TextClause(queryText), d);
    TextClauseIff(text, queryText, d);
    FiltersIff(text, tenant, entityTypes, sourceTypes, d);
  }

  lemma ExecutedIs(text: TextMatch, tenant: string, queryText: string, entityTypes: seq<string>,
      sourceTypes: seq<string>, limit: int, offset: int, d: Doc)
    ensures Executed(text, BaseQuery(tenant, queryText, entityTypes, sourceTypes, limit, offset), d) ==
            Some(Matches(text, Obj(map["bool" := Obj(map["must" := List([TextClause(queryText)]),
                                                         "filter" := List(Filters(tenant, entityTypes,
                                                             sourceTypes))])]), d))
  {
    hide Matches, Filters, TextClause;
  }
}
