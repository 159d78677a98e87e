/** Popularity boosting of a query: which urns are boosted, by how much, and what the wrapping does to matching. */
module Ranking {
  import opened Types
  import opened Catalog
  import opened Query
  import opened Boosting

  /** One item of the score mapping, in the mapping's order. */
  datatype Scored = Scored(urn: string, score: real)

  /** One boost function: a weight for the document of one urn. */
  datatype BoostFunction = BoostFunction(urn: string, weight: real)

  // ---------------------------------------------------------------- a stable descending sort

  /** Insert behind everything that scores at least as much. */
  function InsertRanked(ranked: seq<Scored>, x: Scored): seq<Scored> {
    if ranked == [] || ranked[|ranked| - 1].score >= x.score then ranked + [x]
    else InsertRanked(ranked[..|ranked| - 1], x) + [ranked[|ranked| - 1]]
  }

  /** `sorted(..., key=score, reverse=True)` */
  function Ranked(items: seq<Scored>): seq<Scored> {
    if items == [] then [] else InsertRanked(Ranked(items[..|items| - 1]), items[|items| - 1])
  }

  ghost predicate Descending(items: seq<Scored>) {
    forall i, j :: 0 <= i < j < |items| ==> items[i].score >= items[j].score
  }

  function WithScore(items: seq<Scored>, score: real): seq<Scored> {
    if items == [] then []
    else WithScore(items[..|items| - 1], score) + if items[|items| - 1].score == score then [items[|items| - 1]] else []
  }

  lemma {:induction false} InsertPermutes(ranked: seq<Scored>, x: Scored)
    ensures multiset(InsertRanked(ranked, x)) == multiset(ranked) + multiset{x}
  {
    if ranked != [] && ranked[|ranked| - 1].score < x.score {
      InsertPermutes(ranked[..|ranked| - 1], x);
      assert ranked == ranked[..|ranked| - 1] + [ranked[|ranked| - 1]];
    }
  }

  lemma InsertMembers(ranked: seq<Scored>, x: Scored)
    ensures forall y :: y in InsertRanked(ranked, x) <==> y in ranked || y == x
  {
    InsertPermutes(ranked, x);
    hide InsertRanked;
    forall y ensures y in InsertRanked(ranked, x) <==> y in ranked || y == x {
      assert y in InsertRanked(ranked, x) <==> y in multiset(InsertRanked(ranked, x));
    }
  }

  lemma AppendDescends(front: seq<Scored>, last: Scored)
    requires Descending(front) && forall y :: y in front ==> y.score >= last.score
    ensures Descending(front + [last])
  {
  }

  lemma {:induction false} InsertDescends(ranked: seq<Scored>, x: Scored)
    requires Descending(ranked)
    ensures Descending(InsertRanked(ranked, x))
  {
    if ranked == [] || ranked[|ranked| - 1].score >= x.score {
      AppendDescends(ranked, x);
    } else {
      var front, last := ranked[..|ranked| - 1], ranked[|ranked| - 1];
      InsertDescends(front, x);
      InsertMembers(front, x);
      AppendDescends(InsertRanked(front, x), last);
    }
  }

  lemma WithScoreOneMore(items: seq<Scored>, x: Scored, score: real)
    ensures WithScore(items + [x], score) == WithScore(items, score) + if x.score == score then [x] else []
  {
    assert (items + [x])[..|items|] == items;
  }

  lemma {:induction false} InsertKeepsTies(ranked: seq<Scored>, x: Scored, score: real)
    requires Descending(ranked)
    ensures WithScore(InsertRanked(ranked, x), score) == WithScore(ranked, score) + if x.score == score then [x] else []
  {
    if ranked == [] || ranked[|ranked| - 1].score >= x.score {
      WithScoreOneMore(ranked, x, score);
    } else {
      var front, last := ranked[..|ranked| - 1], ranked[|ranked| - 1];
      InsertKeepsTies(front, x, score);
      WithScoreOneMore(InsertRanked(front, x), last, score);
    }
  }

  /** The ranking is a permutation, descending, and keeps the order of equal scores: that makes it unique. */
  lemma {:induction false} RankedSorts(items: seq<Scored>)
    ensures Descending(Ranked(items)) && multiset(Ranked(items)) == multiset(items)
    ensures forall y :: y in Ranked(items) <==> y in items
    ensures forall score :: WithScore(Ranked(items), score) == WithScore(items, score)
  {
    hide InsertRanked;
    if items != [] {
      var front, last := items[..|items| - 1], items[|items| - 1];
      assert items == front + [last];
      RankedSorts(front);
      InsertDescends(Ranked(front), last);
      InsertPermutes(Ranked(front), last);
      InsertMembers(Ranked(front), last);
      forall score ensures WithScore(Ranked(items), score) == WithScore(items, score) {
        InsertKeepsTies(Ranked(front), last, score);
      }
    }
  }

  // ---------------------------------------------------------------- the functions

  function Top(items: seq<Scored>, n: nat): seq<Scored> {
    if n < |items| then items[..n] else items
  }

  function FunctionFor(p: Profile, x: Scored): BoostFunction {
    BoostFunction(x.urn, 1.0 + p.popularityWeight * x.score)
  }

  function Functions(p: Profile, top: seq<Scored>): seq<BoostFunction> {
    if top == [] then []
    else
      var x := top[|top| - 1];
      Functions(p, top[..|top| - 1]) + if x.score > 0.0 then [FunctionFor(p, x)] else []
  }

  /** `build_popularity_functions` */
  function BuildPopularityFunctions(p: Profile, items: seq<Scored>): seq<BoostFunction> {
    Functions(p, Top(Ranked(items), p.maxFunctions))
  }

  /** A mapping lists each urn once. */
  ghost predicate DistinctUrns(items: seq<Scored>) {
    forall i, j :: 0 <= i < j < |items| ==> items[i].urn != items[j].urn
  }

  function PositiveCount(items: seq<Scored>): nat {
    if items == [] then 0 else PositiveCount(items[..|items| - 1]) + if items[|items| - 1].score > 0.0 then 1 else 0
  }

  /** In descending order the positive items come first, so the functions are a prefix of the ranking. */
  lemma {:induction false} FunctionsArePrefix(p: Profile, ranked: seq<Scored>)
    requires Descending(ranked)
    ensures |Functions(p, ranked)| == PositiveCount(ranked) <= |ranked|
    ensures forall i :: 0 <= i < |ranked| ==> (i < PositiveCount(ranked) <==> ranked[i].score > 0.0)
    ensures forall i :: 0 <= i < |Functions(p, ranked)| ==> Functions(p, ranked)[i] == FunctionFor(p, ranked[i])
  {
    hide FunctionFor;
    if ranked != [] {
      FunctionsArePrefix(p, ranked[..|ranked| - 1]);
    }
  }

  lemma {:induction false} PositiveCountSplits(a: seq<Scored>, b: seq<Scored>)
    ensures PositiveCount(a + b) == PositiveCount(a) + PositiveCount(b)
  {
    if b == [] {
      assert a + b == a;
    } else {
      assert (a + b)[..|a + b| - 1] == a + b[..|b| - 1];
      PositiveCountSplits(a, b[..|b| - 1]);
    }
  }

  lemma {:induction false} PositiveCountOfInsert(ranked: seq<Scored>, x: Scored)
    ensures PositiveCount(InsertRanked(ranked, x)) == PositiveCount(ranked) + if x.score > 0.0 then 1 else 0
  {
    if ranked == [] || ranked[|ranked| - 1].score >= x.score {
      PositiveCountSplits(ranked, [x]);
    } else {
      PositiveCountOfInsert(ranked[..|ranked| - 1], x);
      PositiveCountSplits(InsertRanked(ranked[..|ranked| - 1], x), [ranked[|ranked| - 1]]);
    }
  }

  lemma {:induction false} PositiveCountOfRanked(items: seq<Scored>)
    ensures PositiveCount(Ranked(items)) == PositiveCount(items)
  {
    hide InsertRanked;
    if items != [] {
      PositiveCountOfRanked(items[..|items| - 1]);
      PositiveCountOfInsert(Ranked(items[..|items| - 1]), items[|items| - 1]);
    }
  }

  predicate Chosen(fs: seq<BoostFunction>, urn: string) {
    exists i :: 0 <= i < |fs| && fs[i].urn == urn
  }

  lemma RankedDescends(items: seq<Scored>)
    ensures Descending(Ranked(items)) && forall y :: y in Ranked(items) <==> y in items
  {
    RankedSorts(items);
  }

  lemma TopDescends(p: Profile, ranked: seq<Scored>, n: nat)
    requires Descending(ranked)
    ensures Descending(Top(ranked, n)) && |Top(ranked, n)| <= |ranked|
    ensures forall i :: 0 <= i < |Top(ranked, n)| ==> Top(ranked, n)[i] == ranked[i]
    ensures PositiveCount(Top(ranked, n)) == if PositiveCount(ranked) < n then PositiveCount(ranked) else n
  {
    FunctionsArePrefix(p, ranked);
    FunctionsArePrefix(p, Top(ranked, n));
    hide Functions, PositiveCount, FunctionFor;
    var all, some := PositiveCount(ranked), PositiveCount(Top(ranked, n));
    if some < |Top(ranked, n)| {
      assert Top(ranked, n)[some] == ranked[some];
    }
    if 0 < some {
      assert Top(ranked, n)[some - 1] == ranked[some - 1];
    }
  }

  /** How many functions there are, and which item of the ranking each belongs to. */
  lemma FunctionsShape(p: Profile, items: seq<Scored>)
    ensures var fs, ranked := BuildPopularityFunctions(p, items), Ranked(items);
            && |fs| == (if PositiveCount(items) < p.maxFunctions then PositiveCount(items) else p.maxFunctions)
            && |fs| <= |ranked|
            && (forall i :: 0 <= i < |fs| ==> ranked[i].score > 0.0 && fs[i] == FunctionFor(p, ranked[i]))
            && (forall i :: |fs| <= i < |ranked| ==> ranked[i].score <= 0.0 || |fs| == p.maxFunctions)
  {
    var ranked := Ranked(items);
    RankedDescends(items);
    PositiveCountOfRanked(items);
    TopDescends(p, ranked, p.maxFunctions);
    FunctionsArePrefix(p, ranked);
    FunctionsArePrefix(p, Top(ranked, p.maxFunctions));
    hide Ranked, Functions, FunctionFor, PositiveCount, Descending, Top;
  }

  /** Main result: the boosted urns are a true top N. Every function belongs to an item with a positive score; there
      are as many as allowed or as there are positive scores; and any item left out scores no more than any chosen
      one, or nothing. */
  lemma ChosenAreTheTop(p: Profile, items: seq<Scored>)
    requires DistinctUrns(items)
    ensures var fs := BuildPopularityFunctions(p, items);
            && |fs| == (if PositiveCount(items) < p.maxFunctions then PositiveCount(items) else p.maxFunctions)
            && (forall i, j :: 0 <= i < j < |fs| ==> fs[i].urn != fs[j].urn)
            && (forall i :: 0 <= i < |fs| ==>
                  exists x :: x in items && x.score > 0.0 && fs[i] == FunctionFor(p, x))
            && (forall x, y :: x in items && y in items && Chosen(fs, x.urn) && !Chosen(fs, y.urn) ==> y.score <= x.score)
            && (forall y :: y in items && !Chosen(fs, y.urn) && y.score > 0.0 ==> |fs| == p.maxFunctions)
  {
    var fs, ranked := BuildPopularityFunctions(p, items), Ranked(items);
    FunctionsShape(p, items);
    RankedDescends(items);
    RankedIsDistinct(items);
    FunctionUrns(p, ranked);
    hide BuildPopularityFunctions, Ranked, PositiveCount, FunctionFor, Chosen;
    forall i | 0 <= i < |fs| ensures exists x :: x in items && x.score > 0.0 && fs[i] == FunctionFor(p, x) {
      assert ranked[i] in items;
    }
    forall x, y | x in items && y in items && Chosen(fs, x.urn) && !Chosen(fs, y.urn) ensures y.score <= x.score {
      var i := ChosenByRank(p, items, x);
      var j := ChosenByRank(p, items, y);
    }
    forall y | y in items && !Chosen(fs, y.urn) && y.score > 0.0 ensures |fs| == p.maxFunctions {
      var j := ChosenByRank(p, items, y);
    }
  }

  /** An item is chosen exactly when its place in the ranking is within the number of functions. */
  lemma ChosenByRank(p: Profile, items: seq<Scored>, x: Scored) returns (i: nat)
    requires DistinctUrns(items) && x in items
    ensures i < |Ranked(items)| && Ranked(items)[i] == x
    ensures Chosen(BuildPopularityFunctions(p, items), x.urn) <==> i < |BuildPopularityFunctions(p, items)|
  {
    var fs, ranked := BuildPopularityFunctions(p, items), Ranked(items);
    FunctionsShape(p, items);
    RankedIsDistinct(items);
    FunctionUrns(p, ranked);
    hide BuildPopularityFunctions, Ranked, PositiveCount, FunctionFor;
    i := RankOf(ranked, x);
    if k :| 0 <= k < |fs| && fs[k].urn == x.urn {
      assert ranked[k].urn == x.urn;
    }
    if i < |fs| {
      assert fs[i].urn == x.urn;
    }
  }

  lemma FunctionUrns(p: Profile, ranked: seq<Scored>)
    ensures forall i :: 0 <= i < |ranked| ==> FunctionFor(p, ranked[i]).urn == ranked[i].urn
  {
  }

  lemma RankOf(ranked: seq<Scored>, x: Scored) returns (i: nat)
    requires x in ranked
    ensures i < |ranked| && ranked[i] == x
  {
    i :| i < |ranked| && ranked[i] == x;
  }

  lemma AppendIsDistinct(front: seq<Scored>, last: Scored)
    requires DistinctUrns(front) && forall y :: y in front ==> y.urn != last.urn
    ensures DistinctUrns(front + [last])
  {
  }

  lemma LastIsDistinct(items: seq<Scored>)
    requires DistinctUrns(items) && items != []
    ensures DistinctUrns(items[..|items| - 1])
    ensures forall y :: y in items[..|items| - 1] ==> y.urn != items[|items| - 1].urn
  {
  }

  lemma {:induction false} InsertIsDistinct(ranked: seq<Scored>, x: Scored)
    requires DistinctUrns(ranked) && forall y :: y in ranked ==> y.urn != x.urn
    ensures DistinctUrns(InsertRanked(ranked, x))
  {
    hide DistinctUrns;
    if ranked == [] || ranked[|ranked| - 1].score >= x.score {
      AppendIsDistinct(ranked, x);
    } else {
      var front, last := ranked[..|ranked| - 1], ranked[|ranked| - 1];
      LastIsDistinct(ranked);
      assert last in ranked;
      InsertIsDistinct(front, x);
      InsertMembers(front, x);
      AppendIsDistinct(InsertRanked(front, x), last);
    }
  }

  lemma {:induction false} RankedIsDistinct(items: seq<Scored>)
    requires DistinctUrns(items)
    ensures DistinctUrns(Ranked(items)) && forall y :: y in Ranked(items) <==> y in items
  {
    hide InsertRanked;
    if items != [] {
      var front, last := items[..|items| - 1], items[|items| - 1];
      assert items == front + [last];
      LastIsDistinct(items);
      RankedIsDistinct(front);
      InsertIsDistinct(Ranked(front), last);
      InsertMembers(Ranked(front), last);
    }
  }

  // ---------------------------------------------------------------- the factor

  /** `score_mode: sum` over the functions whose filter matches; 1 when none does. */
  function SumOfMatching(fs: seq<BoostFunction>, urn: string): real {
    if fs == [] then 0.0
    else SumOfMatching(fs[..|fs| - 1], urn) + if fs[|fs| - 1].urn == urn then fs[|fs| - 1].weight else 0.0
  }

  function Factor(fs: seq<BoostFunction>, d: Doc): real {
    if Chosen(fs, d.urn) then SumOfMatching(fs, d.urn) else 1.0
  }

  ghost predicate OneFunctionPerUrn(fs: seq<BoostFunction>) {
    forall i, j :: 0 <= i < j < |fs| ==> fs[i].urn != fs[j].urn
  }

  lemma {:induction false} NoneMatches(fs: seq<BoostFunction>, urn: string)
    requires forall i :: 0 <= i < |fs| ==> fs[i].urn != urn
    ensures SumOfMatching(fs, urn) == 0.0
  {
    if fs != [] {
      NoneMatches(fs[..|fs| - 1], urn);
    }
  }

  /** At most one function fires: the sum is the one matching weight. */
  lemma {:induction false} OneFires(fs: seq<BoostFunction>, i: nat)
    requires OneFunctionPerUrn(fs) && i < |fs|
    ensures SumOfMatching(fs, fs[i].urn) == fs[i].weight
  {
    var front := fs[..|fs| - 1];
    if i == |fs| - 1 {
      NoneMatches(front, fs[i].urn);
    } else {
      assert front[i] == fs[i];
      OneFires(front, i);
    }
  }

  /** Scores as `compute_popularity_scores` makes them. */
  ghost predicate UnitScores(items: seq<Scored>) {
    forall x :: x in items ==> 0.0 <= x.score <= 1.0
  }

  lemma FunctionBound(p: Profile, x: Scored)
    requires p.popularityWeight >= 0.0 && 0.0 <= x.score <= 1.0
    ensures FunctionFor(p, x).urn == x.urn && 1.0 <= FunctionFor(p, x).weight <= 1.0 + p.popularityWeight
  {
    ScaleMonotone(p.popularityWeight, 0.0, x.score);
    ScaleMonotone(p.popularityWeight, x.score, 1.0);
  }

  /** Main result: the factor a document's score is multiplied by lies between 1 and 1 plus the popularity weight;
      it is 1 unless the urn was chosen, and then it is that urn's own weight. */
  lemma FactorIsBounded(p: Profile, items: seq<Scored>, d: Doc)
    requires DistinctUrns(items) && UnitScores(items) && p.popularityWeight >= 0.0
    ensures var fs := BuildPopularityFunctions(p, items);
            && 1.0 <= Factor(fs, d) <= 1.0 + p.popularityWeight
            && (!Chosen(fs, d.urn) ==> Factor(fs, d) == 1.0)
            && (forall x :: x in items && x.urn == d.urn && Chosen(fs, d.urn) ==> Factor(fs, d) == FunctionFor(p, x).weight)
  {
    var fs := BuildPopularityFunctions(p, items);
    ChosenAreTheTop(p, items);
    hide BuildPopularityFunctions, PositiveCount, FunctionFor;
    if Chosen(fs, d.urn) {
      var i :| 0 <= i < |fs| && fs[i].urn == d.urn;
      OneFires(fs, i);
      var x :| x in items && x.score > 0.0 && fs[i] == FunctionFor(p, x);
      FunctionBound(p, x);
      forall y | y in items && y.urn == d.urn ensures y == x {
        OneItemPerUrn(items, x, y);
      }
    }
  }

  /** Main result: popularity is in the factor as configured. A chosen urn's factor exceeds 1 by the weight times its
      score, so with a positive weight a document of a more popular chosen urn - or of a chosen one against one that is
      not - gets the strictly larger factor. */
  lemma MorePopularRanksHigher(p: Profile, items: seq<Scored>, x: Scored, y: Scored, dx: Doc, dy: Doc)
    requires DistinctUrns(items) && UnitScores(items) && p.popularityWeight > 0.0
    requires x in items && y in items && dx.urn == x.urn && dy.urn == y.urn && x.score > y.score
    requires Chosen(BuildPopularityFunctions(p, items), x.urn)
    ensures var fs := BuildPopularityFunctions(p, items);
            && Factor(fs, dx) - 1.0 == p.popularityWeight * x.score
            && Factor(fs, dx) > 1.0
            && Factor(fs, dx) > Factor(fs, dy)
  {
    var fs := BuildPopularityFunctions(p, items);
    FactorIsBounded(p, items, dx);
    FactorIsBounded(p, items, dy);
    WeightsOrder(p, x, y);
    hide BuildPopularityFunctions, Factor, FunctionFor, Chosen;
    if Chosen(fs, y.urn) {
      assert Factor(fs, dy) == FunctionFor(p, y).weight;
    } else {
      assert Factor(fs, dy) == 1.0;
    }
  }

  lemma WeightsOrder(p: Profile, x: Scored, y: Scored)
    requires p.popularityWeight > 0.0 && x.score > y.score >= 0.0
    ensures FunctionFor(p, x).weight - 1.0 == p.popularityWeight * x.score
    ensures FunctionFor(p, x).weight > FunctionFor(p, y).weight >= 1.0
  {
    ProductGrows(p.popularityWeight, x.score, y.score);
  }

  lemma ProductGrows(w: real, a: real, b: real)
    requires w > 0.0 && a > b >= 0.0
    ensures w * a > w * b >= 0.0
  {
  }

  lemma OneItemPerUrn(items: seq<Scored>, x: Scored, y: Scored)
    requires DistinctUrns(items) && x in items && y in items && x.urn == y.urn
    ensures x == y
  {
    var i :| 0 <= i < |items| && items[i] == x;
    var j :| 0 <= j < |items| && items[j] == y;
    assert !(i < j) && !(j < i);
  }

  lemma ProductsOrder(a: real, b: real, fa: real, fb: real, w: real)
    requires 1.0 <= fa && 1.0 <= fb <= 1.0 + w && b >= 0.0 && a > (1.0 + w) * b && w >= 0.0
    ensures a * fa > b * fb
  {
    ScaleMonotone(b, fb, 1.0 + w);
    ScaleMonotone(b, 0.0, 1.0 + w);
    ScaleMonotone(a, 1.0, fa);
  }

  /** Main result: a base score more than 1 plus the popularity weight times another keeps its rank, whatever the
      popularity of the two documents. */
  lemma StrongMatchKeepsRank(p: Profile, items: seq<Scored>, strong: Doc, weak: Doc, strongBase: real, weakBase: real)
    requires DistinctUrns(items) && UnitScores(items) && p.popularityWeight >= 0.0
    requires weakBase >= 0.0 && strongBase > (1.0 + p.popularityWeight) * weakBase
    ensures var fs := BuildPopularityFunctions(p, items);
            strongBase * Factor(fs, strong) > weakBase * Factor(fs, weak)
  {
    var fs := BuildPopularityFunctions(p, items);
    FactorIsBounded(p, items, strong);
    FactorIsBounded(p, items, weak);
    hide BuildPopularityFunctions, Factor;
    ProductsOrder(strongBase, weakBase, Factor(fs, strong), Factor(fs, weak), p.popularityWeight);
  }

  // ---------------------------------------------------------------- wrapping a query

  function Product(a: real, b: real): real {
    a * b
  }

  /** What a `function_score` clause makes of a base score when it adds the firing weights up and multiplies by them;
      other modes are not modelled. */
  function Rescored(text: TextMatch, q: Json, d: Doc, base: real): Option<real> {
    if q.Obj? && "function_score" in q.fields && q.fields["function_score"].Obj? then
      var c := q.fields["function_score"].fields;
      if "functions" in c && c["functions"].List? && "score_mode" in c && c["score_mode"] == Str("sum") &&
         "boost_mode" in c && c["boost_mode"] == Str("multiply")
      then Some(Product(base, ScoreFactor(text, c["functions"].items, d)))
      else None
    else None
  }

  function FunctionJson(f: BoostFunction): Json {
    Obj(map["filter" := Term("urn", Str(f.urn)), "weight" := Num(f.weight)])
  }

  function FunctionsJson(fs: seq<BoostFunction>): seq<Json> {
    seq(|fs|, i requires 0 <= i < |fs| => FunctionJson(fs[i]))
  }

  function Wrapped(query: Json, fs: seq<BoostFunction>): Json {
    Obj(map["function_score" := Obj(map["query" := query, "functions" := List(FunctionsJson(fs)),
                                        "score_mode" := Str("sum"), "boost_mode" := Str("multiply")])])
  }

  /** `apply_popularity_boost` */
  function ApplyPopularityBoost(p: Profile, query: Json, items: seq<Scored>): Json {
    var fs := BuildPopularityFunctions(p, items);
    if fs == [] then query else Wrapped(query, fs)
  }

  /** `apply_relevance_boost`: None when field boosting raises. */
  function ApplyRelevanceBoost(p: Profile, query: Json, items: seq<Scored>): Option<Json> {
    match ApplyFieldBoosts(p, query)
    case None => None
    case Some(boosted) => Some(if items == [] then boosted else ApplyPopularityBoost(p, boosted, items))
  }

  /** The filter of each function selects the document with its urn. */
  lemma FilterSelectsUrn(text: TextMatch, f: BoostFunction, d: Doc)
    ensures Matches(text, FunctionJson(f).fields["filter"], d) <==> d.urn == f.urn
  {
    TermIff(text, "urn", Str(f.urn), d);
    hide Matches, Term;
  }

  /** The function of the wrapped clause applies to the document. */
  predicate Fires(text: TextMatch, f: Json, d: Doc) {
    f.Obj? && "filter" in f.fields && Matches(text, f.fields["filter"], d)
  }

  function WeightOf(f: Json): real {
    if f.Obj? && "weight" in f.fields && f.fields["weight"].Num? then f.fields["weight"].n else 1.0
  }

  function SumFiring(text: TextMatch, functions: seq<Json>, d: Doc): real {
    if functions == [] then 0.0
    else
      SumFiring(text, functions[..|functions| - 1], d)
      + if Fires(text, functions[|functions| - 1], d) then WeightOf(functions[|functions| - 1]) else 0.0
  }

  /** What `function_score` multiplies a document's score by: the sum of the weights of the functions whose filter it
      matches, or 1 if none fires. */
  function ScoreFactor(text: TextMatch, functions: seq<Json>, d: Doc): real {
    if exists i :: 0 <= i < |functions| && Fires(text, functions[i], d) then SumFiring(text, functions, d) else 1.0
  }

  lemma FiresIff(text: TextMatch, f: BoostFunction, d: Doc)
    ensures Fires(text, FunctionJson(f), d) <==> d.urn == f.urn
    ensures WeightOf(FunctionJson(f)) == f.weight
  {
    FilterSelectsUrn(text, f, d);
    hide Matches, Term;
  }

  lemma {:induction false} SumFiringIs(text: TextMatch, fs: seq<BoostFunction>, d: Doc)
    ensures SumFiring(text, FunctionsJson(fs), d) == SumOfMatching(fs, d.urn)
  {
    hide Fires, WeightOf, FunctionJson;
    if fs != [] {
      var front := fs[..|fs| - 1];
      assert FunctionsJson(fs)[..|fs| - 1] == FunctionsJson(front);
      SumFiringIs(text, front, d);
      FiresIff(text, fs[|fs| - 1], d);
    }
  }

  /** So does the clause as a whole, read with its modes. */
  lemma WrappedScore(text: TextMatch, query: Json, fs: seq<BoostFunction>, d: Doc, base: real)
    ensures Rescored(text, Wrapped(query, fs), d, base) == Some(Product(base, Factor(fs, d)))
  {
    ScoreFactorIsFactor(text, fs, d);
    hide FunctionsJson, ScoreFactor, Factor, Product;
    var c := Wrapped(query, fs).fields["function_score"].fields;
    assert c["functions"] == List(FunctionsJson(fs));
  }

  /** The body that is built gives each document exactly the factor whose bounds are proved above. */
  lemma ScoreFactorIsFactor(text: TextMatch, fs: seq<BoostFunction>, d: Doc)
    ensures ScoreFactor(text, FunctionsJson(fs), d) == Factor(fs, d)
  {
    hide Fires, WeightOf, FunctionJson, SumFiring, SumOfMatching;
    SumFiringIs(text, fs, d);
    forall i | 0 <= i < |fs| ensures Fires(text, FunctionsJson(fs)[i], d) <==> d.urn == fs[i].urn {
      FiresIff(text, fs[i], d);
    }
  }

  /** Around a query clause the wrapping changes no match and neither adds nor loses a tenant filter. */
  lemma PopularityPreservesMatches(p: Profile, text: TextMatch, query: Json, items: seq<Scored>, d: Doc, tenant: string)
    ensures Matches(text, ApplyPopularityBoost(p, query, items), d) <==> Matches(text, query, d)
    ensures HasTenantFilter(ApplyPopularityBoost(p, query, items), tenant) <==> HasTenantFilter(query, tenant)
  {
    hide BuildPopularityFunctions;
    var fs := BuildPopularityFunctions(p, items);
    WrappingKeepsFilter(query, fs, tenant);
    hide HasTenantFilter, FunctionsJson;
    var q := Wrapped(query, fs);
    assert Single(q.fields, "function_score");
    assert q.fields["function_score"].fields["query"] == query;
  }

  lemma FunctionHasNoTenantFilter(f: BoostFunction, tenant: string)
    ensures !HasTenantFilter(FunctionJson(f), tenant)
  {
    var term := map["urn" := Str(f.urn)];
    assert !HasTenantFilter(Obj(term), tenant);
    var outer := map["term" := Obj(term)];
    assert !IsTenantTerm(outer, tenant) && !HasTenantFilter(Obj(outer), tenant);
    assert !HasTenantFilter(Num(f.weight), tenant);
  }

  lemma FunctionsHaveNoTenantFilter(fs: seq<BoostFunction>, tenant: string)
    ensures !HasTenantFilter(List(FunctionsJson(fs)), tenant)
  {
    forall i | 0 <= i < |fs| ensures !HasTenantFilter(FunctionsJson(fs)[i], tenant) {
      FunctionHasNoTenantFilter(fs[i], tenant);
    }
    hide FunctionJson;
  }

  lemma WrappingKeepsFilter(query: Json, fs: seq<BoostFunction>, tenant: string)
    ensures HasTenantFilter(Wrapped(query, fs), tenant) <==> HasTenantFilter(query, tenant)
  {
    FunctionsHaveNoTenantFilter(fs, tenant);
    hide FunctionsJson;
    var inner := Wrapped(query, fs).fields["function_score"].fields;
    assert !HasTenantFilter(inner["score_mode"], tenant) && !HasTenantFilter(inner["boost_mode"], tenant);
    assert HasTenantFilter(Obj(inner), tenant) <==> HasTenantFilter(query, tenant) by {
      assert inner["query"] == query && inner.Keys == {"query", "functions", "score_mode", "boost_mode"};
    }
    assert Wrapped(query, fs).fields.Keys == {"function_score"};
  }

  /** With the exact condition: the hook is handed a whole request body. What it returns is still executed, with the
      matches of the body it was given, if and only if no function was built - no score is positive, or none is
      allowed. Otherwise the body has become the inside of a `function_score` and holds no `query`. */
  lemma WrappedBodyRunsIff(p: Profile, text: TextMatch, body: Json, items: seq<Scored>, d: Doc)
    requires body.Obj? && "query" in body.fields
    ensures Executed(text, ApplyPopularityBoost(p, body, items), d) == Executed(text, body, d) <==>
            PositiveCount(items) == 0 || p.maxFunctions == 0
    ensures !(PositiveCount(items) == 0 || p.maxFunctions == 0) ==> Executed(text, ApplyPopularityBoost(p, body, items), d) == None
  {
    FunctionsShape(p, items);
    hide BuildPopularityFunctions, Ranked, PositiveCount, Matches, FunctionsJson;
    var fs := BuildPopularityFunctions(p, items);
    if fs != [] {
      assert Wrapped(body, fs).fields.Keys == {"function_score"};
    }
  }

  /** The catalog search with the whole relevance hook: the tenant check lets its result pass in every case, and the
      result finds the documents of the base query exactly when no popularity function was built. */
  lemma RelevantSearchRunsIff(p: Profile, text: TextMatch, tenant: string, queryText: string,
      entityTypes: seq<string>, sourceTypes: seq<string>, limit: int, offset: int, items: seq<Scored>, d: Doc)
    ensures var base := BaseQuery(tenant, queryText, entityTypes, sourceTypes, limit, offset);
            var hooked := ApplyRelevanceBoost(p, base, items);
            && hooked.Some? && HasTenantFilter(hooked.value, tenant)
            && (Executed(text, hooked.value, d) == Executed(text, base, d) <==> PositiveCount(items) == 0 || p.maxFunctions == 0)
  {
    var base := BaseQuery(tenant, queryText, entityTypes, sourceTypes, limit, offset);
    BoostedSearchFindsTheSame(p, text, tenant, queryText, entityTypes, sourceTypes, limit, offset, d);
    var boosted := ApplyFieldBoosts(p, base).value;
    BoostedKeepsQuery(p, base);
    hide BaseQuery, ApplyFieldBoosts, Matches, HasTenantFilter, BuildPopularityFunctions;
    PopularityPreservesMatches(p, text, boosted, items, d, tenant);
    WrappedBodyRunsIff(p, text, boosted, items, d);
  }

  lemma BoostedKeepsQuery(p: Profile, body: Json)
    requires body.Obj? && "query" in body.fields && ApplyFieldBoosts(p, body).Some?
    ensures var b := ApplyFieldBoosts(p, body).value; b.Obj? && "query" in b.fields
  {
  }
}
