/** Ingest and search together: what a tenant's search shows is what the system of record holds live. */
module SearchCatalog {
  import opened Types
  import opened Catalog
  import opened Projections
  import opened Reapply
  import opened Query

  /** The search finds the document. */
  predicate Hit(text: TextMatch, body: Json, docs: map<string, Doc>, id: string) {
    id in docs && Executed(text, body, docs[id]) == Some(true)
  }

  /** The tenant's live row of this kind. */
  predicate LiveRow(c: Catalog, kind: Kind, tenant: string, urn: string) {
    RowKey(kind, tenant, urn) in c.rows && !c.rows[RowKey(kind, tenant, urn)].isDeleted
  }

  lemma SearchableKindsAreNamed(kind: Kind)
    requires Searchable(kind)
    ensures KindFrom(KindName(kind)) == kind
  {
  }

  /** Any document the index can hold, by its id. */
  lemma HitIffLive(text: TextMatch, c: Catalog, payloadOf: string -> Payload, kindOf: (string, string) -> Kind,
      tenant: string, urn: string, limit: int, offset: int)
    requires Agree(c, payloadOf, kindOf) && ColonFree(tenant)
    ensures Hit(text, BaseQuery(tenant, "", [], [], limit, offset), c.docs, ScopedKey(tenant, urn)) <==>
            exists kind :: Searchable(kind) && LiveRow(c, kind, tenant, urn)
  {
    hide BaseQuery, ScopedKey, GraphHolds, DocFor, SameDoc, Includes, Executed, KindName, KindFrom;
    var id := ScopedKey(tenant, urn);
    if id in c.docs {
      var d := c.docs[id];
      assert DocHasRow(c, id);
      ScopedKeyInjective(tenant, urn, d.tenant, d.urn);
      SearchableKindsAreNamed(d.kind);
      SearchIsSoundAndComplete(text, tenant, "", [], [], limit, offset, d);
      assert RowAgrees(c, RowKey(d.kind, tenant, urn), payloadOf, kindOf);
    }
    if kind :| Searchable(kind) && LiveRow(c, kind, tenant, urn) {
      assert RowAgrees(c, RowKey(kind, tenant, urn), payloadOf, kindOf);
    }
  }

  /** And every hit is one of the tenant's own documents. */
  lemma HitsAreOwn(text: TextMatch, c: Catalog, payloadOf: string -> Payload, kindOf: (string, string) -> Kind,
      tenant: string, id: string, limit: int, offset: int)
    requires Agree(c, payloadOf, kindOf) && Hit(text, BaseQuery(tenant, "", [], [], limit, offset), c.docs, id)
    ensures id == ScopedKey(tenant, c.docs[id].urn)
  {
    hide BaseQuery, GraphHolds, RowAgrees, Executed, KindName, KindFrom;
    assert DocHasRow(c, id);
    SearchableKindsAreNamed(c.docs[id].kind);
    SearchIsSoundAndComplete(text, tenant, "", [], [], limit, offset, c.docs[id]);
  }

  /** Main result: after every sequence of records fanned out from an empty catalog, a search without text shows a
      tenant exactly its live searchable rows, and nothing of anyone else's. */
  lemma SearchShowsTheLiveRows(text: TextMatch, ct: string, rs: seq<Record>, tenant: string, urn: string,
      id: string, limit: int, offset: int)
    requires HashesDeterminePayloads(rs) && OneKindPerUrn(rs) && WellScoped(rs) && AllStorable(rs) && ColonFree(tenant)
    ensures var c := ProcessAll(ct, EmptyCatalog, rs).catalog;
            var body := BaseQuery(tenant, "", [], [], limit, offset);
            && (Hit(text, body, c.docs, ScopedKey(tenant, urn)) <==> exists kind :: Searchable(kind) && LiveRow(c, kind, tenant, urn))
            && (Hit(text, body, c.docs, id) ==> id == ScopedKey(tenant, c.docs[id].urn))
  {
    var payloadOf, kindOf := h => PayloadOf(rs, h), (t, u) => KindOf(rs, t, u);
    SkipRefinesAlwaysWrite(ct, rs);
    PairwiseIsLawful(rs);
    EmptyAgrees(payloadOf, kindOf);
    RunKeepsAgree(ct, EmptyCatalog, rs, payloadOf, kindOf);
    hide Agree, BaseQuery, ProcessAll, ScopedKey, Executed, AllLawful;
    var c := ProcessAll(ct, EmptyCatalog, rs).catalog;
    HitIffLive(text, c, payloadOf, kindOf, tenant, urn, limit, offset);
    if Hit(text, BaseQuery(tenant, "", [], [], limit, offset), c.docs, id) {
      HitsAreOwn(text, c, payloadOf, kindOf, tenant, id, limit, offset);
    }
  }

  lemma EmptyAgrees(payloadOf: string -> Payload, kindOf: (string, string) -> Kind)
    ensures Agree(EmptyCatalog, payloadOf, kindOf)
  {
  }
}
