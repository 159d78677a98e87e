/** Field-weight boosting: a rewriting of query trees that must not change which documents match. */
module Boosting {
  import opened Types
  import opened Catalog
  import opened Query

  /** `show` writes a weight the way `%g` does; `keys` lists the keys of an object in its own order. */
  datatype Profile = Profile(
    nameWeight: real, descriptionWeight: real, tagsWeight: real, popularityWeight: real, maxFunctions: nat,
    show: real -> string, keys: map<string, Json> -> seq<string>)

  // ---------------------------------------------------------------- one field

  /** The part of a base field name before its first dot. */
  function RootOf(base: string): string {
    if base == "" || base[0] == '.' then "" else [base[0]] + RootOf(base[1..])
  }

  function WeightOf(p: Profile, spec: string): Option<real> {
    var root := RootOf(BaseField(spec));
    if root == "name" then Some(p.nameWeight)
    else if root == "description" then Some(p.descriptionWeight)
    else if root == "tags" then Some(p.tagsWeight)
    else None
  }

  /** `_reweight_field` */
  function Reweight(p: Profile, spec: string): string {
    match WeightOf(p, spec)
    case None => spec
    case Some(weight) => BaseField(spec) + "^" + p.show(weight)
  }

  lemma {:induction false} BaseHasNoCaret(spec: string)
    ensures '^' !in BaseField(spec)
  {
    if spec != "" && spec[0] != '^' {
      BaseHasNoCaret(spec[1..]);
    }
  }

  /** A reweighted field is the same field, and reweighting it again changes nothing. */
  lemma ReweightKeepsField(p: Profile, spec: string)
    ensures BaseField(Reweight(p, spec)) == BaseField(spec)
    ensures Reweight(p, Reweight(p, spec)) == Reweight(p, spec)
  {
    hide BaseField, RootOf;
    BaseHasNoCaret(spec);
    var w := WeightOf(p, spec);
    if w.Some? {
      BaseOf(BaseField(spec), p.show(w.value));
    }
  }

  lemma {:induction false} RootIs(root: string, sub: string)
    requires '.' !in root && (sub == "" || sub[0] == '.')
    ensures RootOf(root + sub) == root
  {
    if root == "" {
      assert root + sub == sub;
    } else {
      assert (root + sub)[1..] == root[1..] + sub;
      RootIs(root[1..], sub);
    }
  }

  /** Main result on one field: a name, description or tags field - itself or one of its sub-fields, with whatever boost
      or none - ends up with the weight the profile has for it, and any other field stays as it is. */
  lemma FieldGetsItsWeight(p: Profile, root: string, sub: string, boost: string)
    requires '.' !in root && '^' !in root && '^' !in sub
    requires (sub == "" || sub[0] == '.') && (boost == "" || boost[0] == '^')
    ensures Reweight(p, root + sub + boost) ==
            if root == "name" then root + sub + "^" + p.show(p.nameWeight)
            else if root == "description" then root + sub + "^" + p.show(p.descriptionWeight)
            else if root == "tags" then root + sub + "^" + p.show(p.tagsWeight)
            else root + sub + boost
  {
    RootIs(root, sub);
    if boost == "" {
      assert root + sub + boost == root + sub;
      BaseOfPlain(root + sub);
    } else {
      assert boost == "^" + boost[1..];
      assert root + sub + boost == root + sub + "^" + boost[1..];
      BaseOf(root + sub, boost[1..]);
    }
    hide BaseField, RootOf;
  }

  /** So the catalog search, boosted, searches its four fields with the profile's weights on three of them. */
  lemma SearchFieldsGetTheirWeights(p: Profile)
    ensures ReweightAll(p, TextFields) ==
            [Str("name^" + p.show(p.nameWeight)), Str("tags^" + p.show(p.tagsWeight)),
                Str("description^" + p.show(p.descriptionWeight)), Str("owner")]
  {
    hide Reweight;
    NameWeight(p);
    TagsWeight(p);
    OtherWeights(p);
  }

  lemma NameWeight(p: Profile)
    ensures Reweight(p, "name^3") == "name^" + p.show(p.nameWeight)
  {
    FieldGetsItsWeight(p, "name", "", "^3");
    hide *;
    assert "name" + "" + "^3" == "name^3" && "name" + "" + "^" == "name^";
  }

  lemma TagsWeight(p: Profile)
    ensures Reweight(p, "tags^2") == "tags^" + p.show(p.tagsWeight)
  {
    FieldGetsItsWeight(p, "tags", "", "^2");
    hide *;
    assert "tags" + "" + "^2" == "tags^2" && "tags" + "" + "^" == "tags^";
  }

  lemma OtherWeights(p: Profile)
    ensures Reweight(p, "description") == "description^" + p.show(p.descriptionWeight)
    ensures Reweight(p, "owner") == "owner"
  {
    FieldGetsItsWeight(p, "description", "", "");
    FieldGetsItsWeight(p, "owner", "", "");
    hide *;
    assert "description" + "" + "" == "description" && "description" + "" + "^" == "description^";
    assert "owner" + "" + "" == "owner";
  }

  // ---------------------------------------------------------------- the tree

  /** `[_reweight_field(f) for f in fields]`: a list of strings, a string taken character by character, or an object
      taken key by key. */
  predicate Reweightable(fields: Json) {
    match fields
    case List(items) => forall i :: 0 <= i < |items| ==> items[i].Str?
    case Str(_) => true
    case Obj(_) => true
    case _ => false
  }

  function Characters(s: string): seq<Json> {
    seq(|s|, i requires 0 <= i < |s| => Str([s[i]]))
  }

  function Specs(p: Profile, fields: Json): seq<Json> {
    match fields
    case List(items) => items
    case Str(s) => Characters(s)
    case Obj(f) => Strings(p.keys(f))
    case _ => []
  }

  function ReweightAll(p: Profile, specs: seq<Json>): seq<Json> {
    seq(|specs|, i requires 0 <= i < |specs| => match specs[i] case Str(s) => Str(Reweight(p, s)) case j => j)
  }

  /** The value stored under one key of an object; `inClause` says that the object is a `multi_match` clause. */
  predicate Boostable(j: Json) {
    match j
    case Obj(f) => forall k :: k in f ==> if k == "multi_match" && f[k].Obj? then ClauseBoostable(f[k].fields) else Boostable(f[k])
    case List(items) => forall i :: 0 <= i < |items| ==> Boostable(items[i])
    case _ => true
  }

  predicate ClauseBoostable(clause: map<string, Json>)
    decreases Obj(clause)
  {
    forall k :: k in clause ==>
      if k == "fields" && Truthy(clause[k]) then Reweightable(clause[k])
      else if k == "multi_match" && clause[k].Obj? then ClauseBoostable(clause[k].fields)
      else Boostable(clause[k])
  }

  function Boost(p: Profile, j: Json): Json
    decreases j
  {
    match j
    case Obj(f) => Obj(map k | k in f :: if k == "multi_match" && f[k].Obj? then BoostClause(p, f[k].fields) else Boost(p, f[k]))
    case List(items) => List(seq(|items|, i requires 0 <= i < |items| => Boost(p, items[i])))
    case _ => j
  }

  function BoostClause(p: Profile, clause: map<string, Json>): (r: Json)
    ensures r.Obj? && r.fields.Keys == clause.Keys
    decreases Obj(clause)
  {
    Obj(map k | k in clause ::
      if k == "fields" && Truthy(clause[k]) then List(ReweightAll(p, Specs(p, clause[k])))
      else if k == "multi_match" && clause[k].Obj? then BoostClause(p, clause[k].fields)
      else Boost(p, clause[k]))
  }

  /** `apply_field_boosts`: None when a clause holds fields that cannot be iterated as strings. */
  function ApplyFieldBoosts(p: Profile, query: Json): Option<Json> {
    if Boostable(query) then Some(Boost(p, query)) else None
  }

  // ---------------------------------------------------------------- shape is kept

  lemma ScalarsKept(p: Profile, j: Json)
    ensures Scalar(j) ==> Boost(p, j) == j
    ensures Scalar(Boost(p, j)) <==> Scalar(j)
    ensures Boost(p, j).Obj? <==> j.Obj?
    ensures Boost(p, j).List? <==> j.List?
    ensures Boost(p, j).Str? <==> j.Str?
    ensures j.Obj? ==> Boost(p, j).fields.Keys == j.fields.Keys
    ensures j.List? ==> |Boost(p, j).items| == |j.items|
  {
  }

  /** What boosting leaves under one key. */
  function BoostAt(p: Profile, f: map<string, Json>, k: string): Json
    requires k in f
  {
    if k == "multi_match" && f[k].Obj? then BoostClause(p, f[k].fields) else Boost(p, f[k])
  }

  lemma BoostedObject(p: Profile, f: map<string, Json>, k: string)
    requires k in f
    ensures Boost(p, Obj(f)).fields[k] == BoostAt(p, f, k)
  {
  }

  // ---------------------------------------------------------------- the tenant filter

  lemma {:induction false} TenantTermKept(p: Profile, f: map<string, Json>, g: map<string, Json>, tenant: string)
    requires f.Keys == g.Keys && ("term" in f ==> g["term"] == Boost(p, f["term"]))
    ensures IsTenantTerm(f, tenant) <==> IsTenantTerm(g, tenant)
  {
    if "term" in f && f["term"].Obj? && "tenant_id" in f["term"].fields {
      BoostedObject(p, f["term"].fields, "tenant_id");
      ScalarsKept(p, f["term"].fields["tenant_id"]);
    }
    if "term" in f {
      ScalarsKept(p, f["term"]);
    }
  }

  lemma {:induction false} StringsHoldNoFilter(items: seq<Json>, tenant: string)
    requires forall i :: 0 <= i < |items| ==> items[i].Str?
    ensures !HasTenantFilter(List(items), tenant)
  {
  }

  /** A tenant filter somewhere in the tree, objects given as `fields` of a clause apart. */
  predicate HasFilterOutside(j: Json, tenant: string) {
    match j
    case Obj(f) =>
      IsTenantTerm(f, tenant) ||
      exists k :: k in f &&
        if k == "multi_match" && f[k].Obj? then ClauseHasFilterOutside(f[k].fields, tenant) else HasFilterOutside(f[k], tenant)
    case List(items) => exists i :: 0 <= i < |items| && HasFilterOutside(items[i], tenant)
    case _ => false
  }

  predicate ClauseHasFilterOutside(clause: map<string, Json>, tenant: string)
    decreases Obj(clause)
  {
    IsTenantTerm(clause, tenant) ||
    exists k :: k in clause && !(k == "fields" && clause[k].Obj?) &&
      if k == "multi_match" && clause[k].Obj? then ClauseHasFilterOutside(clause[k].fields, tenant) else HasFilterOutside(clause[k], tenant)
  }

  lemma StringsHoldNoFilterOutside(items: seq<Json>, tenant: string)
    requires forall i :: 0 <= i < |items| ==> items[i].Str?
    ensures !HasFilterOutside(List(items), tenant)
  {
  }

  /** With the exact condition: boosting never adds a tenant filter, and keeps every one but those that sit in an
      object given as the `fields` of a clause. */
  lemma {:induction false} BoostKeepsTenantFilter(p: Profile, j: Json, tenant: string)
    requires Boostable(j)
    ensures HasTenantFilter(Boost(p, j), tenant) <==> HasFilterOutside(j, tenant)
    decreases j
  {
    match j
    case Obj(f) =>
      var g := Boost(p, j).fields;
      TenantTermKept(p, f, g, tenant);
      forall k | k in f
        ensures HasTenantFilter(g[k], tenant) <==>
                if k == "multi_match" && f[k].Obj? then ClauseHasFilterOutside(f[k].fields, tenant) else HasFilterOutside(f[k], tenant)
      {
        BoostedObject(p, f, k);
        if k == "multi_match" && f[k].Obj? {
          ClauseKeepsTenantFilter(p, f[k].fields, tenant);
        } else {
          BoostKeepsTenantFilter(p, f[k], tenant);
        }
      }
    case List(items) =>
      var boosted := Boost(p, j).items;
      forall i | 0 <= i < |items| ensures HasTenantFilter(boosted[i], tenant) <==> HasFilterOutside(items[i], tenant) {
        BoostKeepsTenantFilter(p, items[i], tenant);
      }
    case _ =>
  }

  lemma {:induction false} ClauseKeepsTenantFilter(p: Profile, clause: map<string, Json>, tenant: string)
    requires ClauseBoostable(clause)
    ensures HasTenantFilter(BoostClause(p, clause), tenant) <==> ClauseHasFilterOutside(clause, tenant)
    decreases Obj(clause)
  {
    var g := BoostClause(p, clause).fields;
    TenantTermKept(p, clause, g, tenant);
    forall k | k in clause
      ensures HasTenantFilter(g[k], tenant) <==>
              !(k == "fields" && clause[k].Obj?) &&
              if k == "multi_match" && clause[k].Obj? then ClauseHasFilterOutside(clause[k].fields, tenant) else HasFilterOutside(clause[k], tenant)
    {
      if k == "fields" && Truthy(clause[k]) {
        StringsHoldNoFilter(ReweightAll(p, Specs(p, clause[k])), tenant);
        if clause[k].List? {
          StringsHoldNoFilterOutside(clause[k].items, tenant);
        }
      } else if k == "multi_match" && clause[k].Obj? {
        ClauseKeepsTenantFilter(p, clause[k].fields, tenant);
      } else {
        BoostKeepsTenantFilter(p, clause[k], tenant);
        EmptyHoldsNoFilter(clause[k], tenant);
      }
    }
  }

  lemma EmptyHoldsNoFilter(j: Json, tenant: string)
    ensures j.Obj? && !Truthy(j) ==> !HasFilterOutside(j, tenant)
  {
  }

  /** Clauses that list their fields hide no filter. */
  lemma {:induction false} ListedHidesNoFilter(j: Json, tenant: string)
    requires FieldsListed(j) && Boostable(j)
    ensures HasFilterOutside(j, tenant) <==> HasTenantFilter(j, tenant)
    decreases j
  {
    match j
    case Obj(f) =>
      forall k | k in f
        ensures HasTenantFilter(f[k], tenant) <==>
                if k == "multi_match" && f[k].Obj? then ClauseHasFilterOutside(f[k].fields, tenant) else HasFilterOutside(f[k], tenant)
      {
        if k == "multi_match" && f[k].Obj? {
          ListedClauseHidesNoFilter(f[k].fields, tenant);
        } else {
          ListedHidesNoFilter(f[k], tenant);
        }
      }
    case List(items) =>
      forall i | 0 <= i < |items| ensures HasTenantFilter(items[i], tenant) <==> HasFilterOutside(items[i], tenant) {
        ListedHidesNoFilter(items[i], tenant);
      }
    case _ =>
  }

  lemma {:induction false} ListedClauseHidesNoFilter(clause: map<string, Json>, tenant: string)
    requires ClauseListed(clause) && ClauseBoostable(clause)
    ensures ClauseHasFilterOutside(clause, tenant) <==> HasTenantFilter(Obj(clause), tenant)
    decreases Obj(clause)
  {
    forall k | k in clause
      ensures HasTenantFilter(clause[k], tenant) <==>
              !(k == "fields" && clause[k].Obj?) &&
              if k == "multi_match" && clause[k].Obj? then ClauseHasFilterOutside(clause[k].fields, tenant) else HasFilterOutside(clause[k], tenant)
    {
      if k == "fields" {
        ListedFieldsHoldNoFilter(clause[k], tenant);
      } else if k == "multi_match" && clause[k].Obj? {
        ListedClauseHidesNoFilter(clause[k].fields, tenant);
      } else {
        ListedHidesNoFilter(clause[k], tenant);
      }
    }
  }

  lemma ListedFieldsHoldNoFilter(fields: Json, tenant: string)
    requires KeepsMeaning(fields) && (Truthy(fields) ==> Reweightable(fields))
    ensures !HasTenantFilter(fields, tenant) && !HasFilterOutside(fields, tenant)
  {
    if Truthy(fields) && fields.List? {
      StringsHoldNoFilter(fields.items, tenant);
      StringsHoldNoFilterOutside(fields.items, tenant);
    }
  }

  // ---------------------------------------------------------------- idempotence

  lemma ReweightTwice(p: Profile, specs: seq<Json>)
    ensures ReweightAll(p, ReweightAll(p, specs)) == ReweightAll(p, specs)
  {
    hide Reweight;
    forall i | 0 <= i < |specs| ensures ReweightAll(p, ReweightAll(p, specs))[i] == ReweightAll(p, specs)[i] {
      if specs[i].Str? {
        ReweightKeepsField(p, specs[i].s);
      }
    }
  }

  lemma EmptyStaysEmpty(p: Profile)
    ensures Boost(p, List([])) == List([])
  {
    assert Boost(p, List([])).items == [];
  }

  /** Boosting a boosted query changes nothing, and it never raises. */
  lemma {:induction false} BoostIsIdempotent(p: Profile, j: Json)
    requires Boostable(j)
    ensures Boostable(Boost(p, j)) && Boost(p, Boost(p, j)) == Boost(p, j)
    decreases j
  {
    hide Reweight;
    match j
    case Obj(f) =>
      var g := Boost(p, j).fields;
      forall k | k in f
        ensures if k == "multi_match" && g[k].Obj? then ClauseBoostable(g[k].fields) else Boostable(g[k])
        ensures BoostAt(p, g, k) == g[k]
      {
        BoostedObject(p, f, k);
        if k == "multi_match" && f[k].Obj? {
          ClauseBoostIsIdempotent(p, f[k].fields);
        } else {
          BoostIsIdempotent(p, f[k]);
          ScalarsKept(p, f[k]);
        }
      }
      SameMap(Boost(p, Obj(g)).fields, g);
    case List(items) =>
      forall i | 0 <= i < |items| ensures Boostable(Boost(p, items[i])) && Boost(p, Boost(p, items[i])) == Boost(p,
          items[i]) {
        BoostIsIdempotent(p, items[i]);
      }
    case _ =>
  }

  lemma {:induction false} ClauseBoostIsIdempotent(p: Profile, clause: map<string, Json>)
    requires ClauseBoostable(clause)
    ensures BoostClause(p, clause).Obj? && ClauseBoostable(BoostClause(p, clause).fields)
    ensures BoostClause(p, BoostClause(p, clause).fields) == BoostClause(p, clause)
    decreases Obj(clause)
  {
    hide Reweight;
    var g := BoostClause(p, clause).fields;
    var h := BoostClause(p, g).fields;
    forall k | k in clause
      ensures if k == "fields" && Truthy(g[k]) then Reweightable(g[k])
              else if k == "multi_match" && g[k].Obj? then ClauseBoostable(g[k].fields) else Boostable(g[k])
      ensures h[k] == g[k]
    {
      if k == "fields" && Truthy(clause[k]) {
        var specs := Specs(p, clause[k]);
        ReweightTwice(p, specs);
        EmptyStaysEmpty(p);
      } else if k == "multi_match" && clause[k].Obj? {
        ClauseBoostIsIdempotent(p, clause[k].fields);
      } else {
        BoostIsIdempotent(p, clause[k]);
        ScalarsKept(p, clause[k]);
      }
    }
    SameMap(h, g);
  }

  // ---------------------------------------------------------------- meaning

  /** Fields that mean the same once they are read as a list: a list, a one-character string, or nothing. */
  predicate KeepsMeaning(fields: Json) {
    !Truthy(fields) || fields.List? || (fields.Str? && |fields.s| == 1)
  }

  /** Every clause of the tree lists its fields. */
  predicate FieldsListed(j: Json) {
    match j
    case Obj(f) => forall k :: k in f ==> if k == "multi_match" && f[k].Obj? then ClauseListed(f[k].fields) else FieldsListed(f[k])
    case List(items) => forall i :: 0 <= i < |items| ==> FieldsListed(items[i])
    case _ => true
  }

  predicate ClauseListed(clause: map<string, Json>)
    decreases Obj(clause)
  {
    && ("fields" in clause ==> KeepsMeaning(clause["fields"]))
    && forall k :: k in clause && k != "fields" ==>
         if k == "multi_match" && clause[k].Obj? then ClauseListed(clause[k].fields) else FieldsListed(clause[k])
  }

  lemma {:induction false} SameBaseFields(p: Profile, specs: seq<Json>)
    ensures BaseFields(ReweightAll(p, specs)) == BaseFields(specs)
  {
    hide Reweight, BaseField;
    if specs != [] {
      var last := specs[|specs| - 1];
      assert ReweightAll(p, specs)[..|specs| - 1] == ReweightAll(p, specs[..|specs| - 1]);
      SameBaseFields(p, specs[..|specs| - 1]);
      if last.Str? {
        ReweightKeepsField(p, last.s);
      }
    }
  }

  lemma OneCharacter(s: string)
    requires |s| == 1
    ensures Characters(s) == [Str(s)] && BaseFields(Characters(s)) == [BaseField(s)]
  {
    hide BaseField;
    assert [s[0]] == s;
    assert [Str(s)][..0] == [];
  }

  lemma ClauseParts(p: Profile, clause: map<string, Json>)
    ensures BoostClause(p, clause).Obj?
    ensures Params(BoostClause(p, clause).fields) == Params(clause)
    ensures "fields" in clause && Truthy(clause["fields"]) ==>
              BoostClause(p, clause).fields["fields"] == List(ReweightAll(p, Specs(p, clause["fields"])))
    ensures "fields" in clause && !Truthy(clause["fields"]) ==> BoostClause(p, clause).fields["fields"] == Boost(p, clause["fields"])
  {
    var g := BoostClause(p, clause).fields;
    forall k | k in clause && k != "fields" ensures Scalar(g[k]) <==> Scalar(clause[k]) {
      ScalarsKept(p, clause[k]);
    }
    forall k | k in clause && k != "fields" && Scalar(clause[k]) ensures g[k] == clause[k] {
      ScalarsKept(p, clause[k]);
    }
    SameMap(Params(g), Params(clause));
  }

  lemma ClauseSearchesSameFields(p: Profile, clause: map<string, Json>)
    requires "fields" in clause ==> KeepsMeaning(clause["fields"])
    ensures SearchedFields(BoostClause(p, clause).fields) == SearchedFields(clause)
  {
    ClauseParts(p, clause);
    if "fields" in clause {
      var fields := clause["fields"];
      if Truthy(fields) {
        SameBaseFields(p, Specs(p, fields));
        if fields.Str? {
          OneCharacter(fields.s);
        }
      } else {
        ScalarsKept(p, fields);
      }
    }
  }

  lemma SameWidth(p: Profile, f: map<string, Json>)
    ensures Boost(p, Obj(f)).Obj? && |Boost(p, Obj(f)).fields| == |f|
  {
    assert Boost(p, Obj(f)).fields.Keys == f.Keys;
    assert |f.Keys| == |f| && |Boost(p, Obj(f)).fields.Keys| == |Boost(p, Obj(f)).fields|;
  }

  lemma TermKept(p: Profile, j: Json, d: Doc)
    ensures TermMatches(Boost(p, j), d) <==> TermMatches(j, d)
  {
    hide DocField;
    ScalarsKept(p, j);
    if j.Obj? {
      var f, g := j.fields, Boost(p, j).fields;
      SameWidth(p, f);
      forall k | k in f ensures Scalar(g[k]) && DocField(d, k) == g[k] <==> Scalar(f[k]) && DocField(d, k) == f[k] {
        BoostedObject(p, f, k);
        ScalarsKept(p, f[k]);
      }
    }
  }

  lemma TermsKept(p: Profile, j: Json, d: Doc)
    ensures TermsMatches(Boost(p, j), d) <==> TermsMatches(j, d)
  {
    hide DocField, ListHolds;
    ScalarsKept(p, j);
    if j.Obj? {
      var f, g := j.fields, Boost(p, j).fields;
      SameWidth(p, f);
      forall k | k in f ensures ListHolds(g[k], DocField(d, k)) <==> ListHolds(f[k], DocField(d, k)) {
        BoostedObject(p, f, k);
        ListKept(p, f[k], DocField(d, k));
        ObjectHoldsNoList(g[k], DocField(d, k));
        ObjectHoldsNoList(f[k], DocField(d, k));
      }
    }
  }

  lemma ObjectHoldsNoList(j: Json, v: Json)
    ensures j.Obj? ==> !ListHolds(j, v)
  {
  }

  lemma ListKept(p: Profile, j: Json, v: Json)
    ensures ListHolds(Boost(p, j), v) <==> ListHolds(j, v)
  {
    ScalarsKept(p, j);
    if j.List? {
      forall i | 0 <= i < |j.items|
        ensures Scalar(Boost(p, j).items[i]) && v == Boost(p, j).items[i] <==> Scalar(j.items[i]) && v == j.items[i]
      {
        ScalarsKept(p, j.items[i]);
      }
    }
  }

  lemma ClausesKept(p: Profile, b: map<string, Json>, key: string)
    requires key != "multi_match"
    ensures Boost(p, Obj(b)).Obj?
    ensures var b' := Boost(p, Obj(b)).fields;
            && |Clauses(b', key)| == |Clauses(b, key)|
            && forall i :: 0 <= i < |Clauses(b, key)| ==> Clauses(b', key)[i] == Boost(p, Clauses(b, key)[i])
  {
    if key in b {
      BoostedObject(p, b, key);
      ScalarsKept(p, b[key]);
    }
  }

  lemma ClausesListed(b: map<string, Json>, key: string)
    requires FieldsListed(Obj(b)) && key != "multi_match"
    ensures forall i :: 0 <= i < |Clauses(b, key)| ==> FieldsListed(Clauses(b, key)[i])
  {
  }

  /** Main result: boosting a query whose clauses list their fields leaves the set of matching documents as it
      was, for every text matcher, document and profile. */
  lemma {:induction false} BoostPreservesMatches(p: Profile, text: TextMatch, q: Json, d: Doc)
    requires FieldsListed(q)
    ensures Matches(text, Boost(p, q), d) <==> Matches(text, q, d)
    decreases q
  {
    hide BoolMatches, TermMatches, TermsMatches, MultiMatches, Clauses, ClauseListed, DocField, Truthy, BaseFields;
    if q.Obj? {
      var f, g := q.fields, Boost(p, q).fields;
      assert g.Keys == f.Keys;
      if Single(f, "term") {
        BoostedObject(p, f, "term");
        TermKept(p, f["term"], d);
      } else if Single(f, "terms") {
        BoostedObject(p, f, "terms");
        TermsKept(p, f["terms"], d);
      } else if Single(f, "multi_match") {
        BoostedObject(p, f, "multi_match");
        MultiMatchKept(p, text, f, d);
      } else if Single(f, "function_score") {
        BoostedObject(p, f, "function_score");
        ScalarsKept(p, f["function_score"]);
        if f["function_score"].Obj? && "query" in f["function_score"].fields {
          BoostedObject(p, f["function_score"].fields, "query");
          BoostPreservesMatches(p, text, f["function_score"].fields["query"], d);
        }
      } else if Single(f, "bool") {
        BoostedObject(p, f, "bool");
        ScalarsKept(p, f["bool"]);
        if f["bool"].Obj? {
          BoolKept(p, text, f["bool"].fields, d);
        }
      }
    }
  }

  lemma MultiMatchKept(p: Profile, text: TextMatch, f: map<string, Json>, d: Doc)
    requires Single(f, "multi_match") && FieldsListed(Obj(f))
    ensures MultiMatches(text, BoostAt(p, f, "multi_match"), d) <==> MultiMatches(text, f["multi_match"], d)
  {
    if f["multi_match"].Obj? {
      assert "multi_match" in f;
      ClauseParts(p, f["multi_match"].fields);
      ClauseSearchesSameFields(p, f["multi_match"].fields);
    } else {
      ScalarsKept(p, f["multi_match"]);
    }
  }

  lemma {:induction false} BoolKept(p: Profile, text: TextMatch, b: map<string, Json>, d: Doc)
    requires FieldsListed(Obj(b))
    ensures Boost(p, Obj(b)).Obj?
    ensures BoolMatches(text, Boost(p, Obj(b)).fields, d) <==> BoolMatches(text, b, d)
    decreases Obj(b), 1
  {
    ClausesMatchAlike(p, text, b, "must", d);
    ClausesMatchAlike(p, text, b, "filter", d);
    ClausesMatchAlike(p, text, b, "must_not", d);
    ClausesMatchAlike(p, text, b, "should", d);
    hide Matches, Clauses, FieldsListed, Boost;
  }

  lemma {:induction false} ClausesMatchAlike(p: Profile, text: TextMatch, b: map<string, Json>, key: string, d: Doc)
    requires FieldsListed(Obj(b)) && key != "multi_match"
    ensures Boost(p, Obj(b)).Obj?
    ensures var now, was := Clauses(Boost(p, Obj(b)).fields, key), Clauses(b, key);
            |now| == |was| && forall i :: 0 <= i < |was| ==> (Matches(text, now[i], d) <==> Matches(text, was[i], d))
    decreases Obj(b), 0
  {
    ClausesKept(p, b, key);
    ClausesListed(b, key);
    var now, was := Clauses(Boost(p, Obj(b)).fields, key), Clauses(b, key);
    forall i | 0 <= i < |was| ensures Matches(text, now[i], d) <==> Matches(text, was[i], d) {
      BoostPreservesMatches(p, text, was[i], d);
    }
  }

  // ---------------------------------------------------------------- exactly which clauses keep their meaning

  function MultiMatch(params: map<string, Json>, fields: Json): Json {
    Obj(map["multi_match" := Obj(params["fields" := fields])])
  }

  /** A text matcher that tells field lists apart. */
  function Searching(fields: seq<string>): TextMatch {
    (params: map<string, Json>, searched: seq<string>, d: Doc) => searched == fields
  }

  predicate KeptFor(p: Profile, text: TextMatch, q: Json, d: Doc) {
    Matches(text, Boost(p, q), d) <==> Matches(text, q, d)
  }

  /** What a `multi_match` and its boosted form search. */
  lemma MultiMatchMeans(p: Profile, text: TextMatch, params: map<string, Json>, fields: Json, d: Doc)
    ensures var q, clause := MultiMatch(params, fields), params["fields" := fields];
            && (Matches(text, q, d) <==> text(Params(clause), SearchedFields(clause), d))
            && (Matches(text, Boost(p, q), d) <==> text(Params(clause), SearchedFields(BoostClause(p, clause).fields), d))
  {
    var q, clause := MultiMatch(params, fields), params["fields" := fields];
    assert Single(q.fields, "multi_match") && q.fields["multi_match"] == Obj(clause);
    BoostedObject(p, q.fields, "multi_match");
    assert Single(Boost(p, q).fields, "multi_match");
    assert Boost(p, q).fields["multi_match"] == BoostClause(p, clause);
    ClauseParts(p, clause);
    hide Boost, BoostClause, Params, SearchedFields;
  }

  lemma ClauseKept(p: Profile, text: TextMatch, params: map<string, Json>, fields: Json, d: Doc)
    requires KeepsMeaning(fields)
    ensures KeptFor(p, text, MultiMatch(params, fields), d)
  {
    hide Matches, Boost, BoostClause, MultiMatch;
    MultiMatchMeans(p, text, params, fields, d);
    ClauseSearchesSameFields(p, params["fields" := fields]);
  }

  /** Every key of an object, each once. */
  ghost predicate ListsKeys(p: Profile) {
    forall f :: |p.keys(f)| == |f|
  }

  /** The one list of fields that tells the clause from its boosted form. */
  function Telling(fields: Json): seq<string> {
    if fields.Str? then [BaseField(fields.s)] else []
  }

  lemma ClauseBroken(p: Profile, params: map<string, Json>, fields: Json, d: Doc)
    requires ListsKeys(p) && ((fields.Str? && |fields.s| >= 2) || (fields.Obj? && fields.fields != map[]))
    ensures !KeptFor(p, Searching(Telling(fields)), MultiMatch(params, fields), d)
  {
    hide Matches, Boost, BoostClause, MultiMatch, Params, BaseField, BaseFields, ReweightAll, Characters, Strings,
         ListsKeys;
    var clause := params["fields" := fields];
    MultiMatchMeans(p, Searching(Telling(fields)), params, fields, d);
    ClauseParts(p, clause);
    if fields.Str? {
      SplitsIntoCharacters(p, fields.s);
    } else {
      BecomesKeys(p, fields.fields);
    }
  }

  lemma BecomesKeys(p: Profile, f: map<string, Json>)
    requires ListsKeys(p) && f != map[]
    ensures BaseFields(ReweightAll(p, Strings(p.keys(f)))) != []
  {
    hide ReweightAll, BaseFields;
    SameBaseFields(p, Strings(p.keys(f)));
    EachIsAField(Strings(p.keys(f)));
  }

  lemma BoostableFields(params: map<string, Json>, fields: Json)
    requires Boostable(MultiMatch(params, fields))
    ensures KeepsMeaning(fields) || (fields.Str? && |fields.s| >= 2) || (fields.Obj? && fields.fields != map[])
  {
    var q, clause := MultiMatch(params, fields), params["fields" := fields];
    assert q.fields["multi_match"] == Obj(clause);
    assert ClauseBoostable(clause) && clause["fields"] == fields;
  }

  /** With the exact condition: a clause keeps its meaning under boosting, for every text matcher, if and only if its
      fields are absent in effect, a list, or a string of one character. A longer string is taken apart into its
      characters, and of an object the keys are taken. */
  lemma ClauseKeptIff(p: Profile, params: map<string, Json>, fields: Json, d: Doc)
    requires ListsKeys(p) && Boostable(MultiMatch(params, fields))
    ensures (forall text :: KeptFor(p, text, MultiMatch(params, fields), d)) <==> KeepsMeaning(fields)
  {
    BoostableFields(params, fields);
    hide *;
    if KeepsMeaning(fields) {
      forall text ensures KeptFor(p, text, MultiMatch(params, fields), d) {
        ClauseKept(p, text, params, fields, d);
      }
    } else {
      ClauseBroken(p, params, fields, d);
    }
  }

  lemma SplitsIntoCharacters(p: Profile, s: string)
    requires |s| >= 2
    ensures BaseFields(ReweightAll(p, Characters(s))) != [BaseField(s)]
  {
    SameBaseFields(p, Characters(s));
    EachIsAField(Characters(s));
  }

  lemma {:induction false} EachIsAField(items: seq<Json>)
    requires forall i :: 0 <= i < |items| ==> items[i].Str?
    ensures |BaseFields(items)| == |items|
  {
    if items != [] {
      EachIsAField(items[..|items| - 1]);
    }
  }

  // ---------------------------------------------------------------- the base query

  /** Nothing in the tree is rewritten in a way that could raise or change meaning. */
  predicate Plain(j: Json) {
    FieldsListed(j) && Boostable(j)
  }

  lemma ScalarIsPlain(j: Json)
    requires Scalar(j)
    ensures Plain(j)
  {
  }

  lemma ListIsPlain(items: seq<Json>)
    requires forall i :: 0 <= i < |items| ==> Plain(items[i])
    ensures Plain(List(items))
  {
  }

  lemma ObjectIsPlain(f: map<string, Json>)
    requires "multi_match" !in f && forall k :: k in f ==> Plain(f[k])
    ensures Plain(Obj(f))
  {
  }

  lemma TermIsPlain(field: string, value: Json)
    requires Scalar(value) && field != "multi_match"
    ensures Plain(Term(field, value))
  {
    hide Plain;
    ScalarIsPlain(value);
    ObjectIsPlain(map[field := value]);
    ObjectIsPlain(map["term" := Obj(map[field := value])]);
  }

  lemma TermsArePlain(field: string, values: seq<string>)
    requires field != "multi_match"
    ensures Plain(Terms(field, Strings(values)))
  {
    hide Plain;
    var items := Strings(values);
    forall i | 0 <= i < |items| ensures Plain(items[i]) {
      ScalarIsPlain(items[i]);
    }
    ListIsPlain(items);
    ObjectIsPlain(map[field := List(items)]);
    ObjectIsPlain(map["terms" := Obj(map[field := List(items)])]);
  }

  lemma TextIsPlain(queryText: string)
    ensures Plain(TextClause(queryText))
  {
    if queryText == "" {
      ObjectIsPlain(map[]);
    } else {
      var clause := TextClause(queryText).fields["multi_match"].fields;
      assert clause["fields"] == List(TextFields);
      assert Reweightable(clause["fields"]);
      assert ClauseBoostable(clause) && ClauseListed(clause);
    }
  }

  lemma FiltersArePlain(tenant: string, entityTypes: seq<string>, sourceTypes: seq<string>)
    ensures Plain(List(Filters(tenant, entityTypes, sourceTypes)))
  {
    hide Plain, Term, Terms;
    TermIsPlain("tenant_id", Str(tenant));
    TermIsPlain("is_deleted", Bool(false));
    TermsArePlain("entity_type", TypesFor(entityTypes));
    TermsArePlain("source_type", sourceTypes);
    ListIsPlain(Filters(tenant, entityTypes, sourceTypes));
  }

  lemma BaseQueryIsPlain(tenant: string, queryText: string, entityTypes: seq<string>, sourceTypes: seq<string>,
      limit: int, offset: int)
    ensures Plain(BaseQuery(tenant, queryText, entityTypes, sourceTypes, limit, offset))
  {
    hide Plain, Filters, TextClause;
    var must, filters := List([TextClause(queryText)]), List(Filters(tenant, entityTypes, sourceTypes));
    TextIsPlain(queryText);
    ListIsPlain([TextClause(queryText)]);
    FiltersArePlain(tenant, entityTypes, sourceTypes);
    ScalarIsPlain(Num(offset as real));
    ScalarIsPlain(Num(limit as real));
    var clauses := map["must" := must, "filter" := filters];
    ObjectIsPlain(clauses);
    ObjectIsPlain(map["bool" := Obj(clauses)]);
    ObjectIsPlain(map["query" := Obj(map["bool" := Obj(clauses)]), "from" := Num(offset as real),
        "size" := Num(limit as real)]);
  }

  /** Main result: with field boosting as its hook, the catalog search builds a query - it neither raises nor is
      refused - and that query finds exactly the documents the base query finds. */
  lemma BoostedSearchFindsTheSame(p: Profile, text: TextMatch, tenant: string, queryText: string,
      entityTypes: seq<string>, sourceTypes: seq<string>, limit: int, offset: int, d: Doc)
    ensures var base := BaseQuery(tenant, queryText, entityTypes, sourceTypes, limit, offset);
            && ApplyFieldBoosts(p, base).Some?
            && HasTenantFilter(ApplyFieldBoosts(p, base).value, tenant)
            && Executed(text, ApplyFieldBoosts(p, base).value, d) == Executed(text, base, d)
  {
    var base := BaseQuery(tenant, queryText, entityTypes, sourceTypes, limit, offset);
    BaseQueryIsPlain(tenant, queryText, entityTypes, sourceTypes, limit, offset);
    BaseHasTenantFilter(tenant, queryText, entityTypes, sourceTypes, limit, offset);
    BoostKeepsTenantFilter(p, base, tenant);
    ListedHidesNoFilter(base, tenant);
    BodyBoosted(p, text, base, d);
  }

  /** A body without a top-level `multi_match` is boosted at its query. */
  lemma BodyBoosted(p: Profile, text: TextMatch, body: Json, d: Doc)
    requires FieldsListed(body) && body.Obj? && "query" in body.fields
    ensures Executed(text, Boost(p, body), d) == Executed(text, body, d)
  {
    hide Matches;
    BoostedObject(p, body.fields, "query");
    assert FieldsListed(body.fields["query"]);
    BoostPreservesMatches(p, text, body.fields["query"], d);
  }
}
