/** Popularity: time-decayed scores per urn from usage events. */
module Popularity {
  import opened Types

  // ---------------------------------------------------------------- scores

  datatype UsageEvent = UsageEvent(tenant: string, urn: string, action: string, at: int)

  const DefaultActionWeights: map<string, real> :=
    map["view" := 1.0, "search_result_click" := 1.0, "detail_view" := 1.5, "query" := 3.0, "query_execute" := 3.0,
        "download" := 2.0]

  /** `decay` maps an age, never negative, to a factor; `overrides` are the caller's action weights. */
  datatype Scoring = Scoring(tenant: string, now: int, decay: nat -> real, overrides: map<string, real>)

  function ActionWeight(s: Scoring, action: string): real {
    if action in s.overrides then s.overrides[action]
    else if action in DefaultActionWeights then DefaultActionWeights[action]
    else 1.0
  }

  function Age(s: Scoring, e: UsageEvent): nat {
    if s.now > e.at then s.now - e.at else 0
  }

  function Gain(s: Scoring, e: UsageEvent): real {
    ActionWeight(s, e.action) * s.decay(Age(s, e))
  }

  /** What one event adds to the score of one urn. */
  function Part(s: Scoring, e: UsageEvent, urn: string): real {
    if e.tenant == s.tenant && e.urn == urn then Gain(s, e) else 0.0
  }

  /** The sum over the tenant's events on one urn. */
  function Raw(s: Scoring, events: seq<UsageEvent>, urn: string): real {
    if events == [] then 0.0 else Raw(s, events[..|events| - 1], urn) + Part(s, events[|events| - 1], urn)
  }

  function UrnsUsed(s: Scoring, events: seq<UsageEvent>): set<string> {
    set e | e in events && e.tenant == s.tenant :: e.urn
  }

  function RawScores(s: Scoring, events: seq<UsageEvent>): map<string, real> {
    map urn | urn in UrnsUsed(s, events) :: Raw(s, events, urn)
  }

  ghost predicate IsTop(raw: map<string, real>, top: real) {
    (exists urn :: urn in raw && raw[urn] == top) && forall urn :: urn in raw ==> raw[urn] <= top
  }

  function Normalized(raw: map<string, real>, top: real): map<string, real> {
    map urn | urn in raw :: if top <= 0.0 then 0.0 else raw[urn] / top
  }

  /** These are the scores of the events: raw sums over the greatest of them. */
  ghost predicate AreScores(s: Scoring, events: seq<UsageEvent>, scores: map<string, real>) {
    if RawScores(s, events) == map[] then scores == map[]
    else exists top :: IsTop(RawScores(s, events), top) && scores == Normalized(RawScores(s, events), top)
  }

  lemma RawOneMore(s: Scoring, events: seq<UsageEvent>, e: UsageEvent)
    ensures UrnsUsed(s, events + [e]) == UrnsUsed(s, events) + if e.tenant == s.tenant then {e.urn} else {}
    ensures forall urn :: Raw(s, events + [e], urn) == Raw(s, events, urn) + Part(s, e, urn)
  {
    assert (events + [e])[..|events|] == events;
    hide Gain;
    forall urn ensures urn in UrnsUsed(s, events + [e]) <==> urn in UrnsUsed(s, events) || (e.tenant == s.tenant && urn == e.urn) {
      if urn in UrnsUsed(s, events) {
        var x :| x in events && x.tenant == s.tenant && x.urn == urn;
        assert x in events + [e];
      }
      if e.tenant == s.tenant && urn == e.urn {
        assert e in events + [e];
      }
    }
  }

  lemma {:induction false} UnusedUrnIsZero(s: Scoring, events: seq<UsageEvent>, urn: string)
    requires urn !in UrnsUsed(s, events)
    ensures Raw(s, events, urn) == 0.0
  {
    if events != [] {
      var front, last := events[..|events| - 1], events[|events| - 1];
      assert events == front + [last];
      RawOneMore(s, front, last);
      UnusedUrnIsZero(s, front, urn);
    }
  }

  lemma RawScoresOneMore(s: Scoring, events: seq<UsageEvent>, e: UsageEvent)
    ensures RawScores(s, events + [e]) ==
            if e.tenant != s.tenant then RawScores(s, events)
            else
              var raw := RawScores(s, events);
              raw[e.urn := (if e.urn in raw then raw[e.urn] else 0.0) + Gain(s, e)]
  {
    RawOneMore(s, events, e);
    UnusedOrNot(s, events, e.urn);
    hide Raw, Gain, UrnsUsed;
    SameMap(RawScores(s, events + [e]),
               if e.tenant != s.tenant then RawScores(s, events)
               else RawScores(s, events)[e.urn := (if e.urn in RawScores(s, events) then RawScores(s, events)[e.urn] else 0.0) + Gain(s, e)]);
  }

  /** `compute_popularity_scores` */
  method ComputePopularityScores(s: Scoring, events: seq<UsageEvent>) returns (scores: map<string, real>)
    ensures AreScores(s, events, scores)
  {
    hide RawScores, Gain, IsTop;
    var raw: map<string, real> := map[];
    NoScores(s);
    for i := 0 to |events|
      invariant raw == RawScores(s, events[..i])
    {
      var e := events[i];
      assert events[..i + 1] == events[..i] + [e];
      RawScoresOneMore(s, events[..i], e);
      if e.tenant == s.tenant {
        raw := raw[e.urn := (if e.urn in raw then raw[e.urn] else 0.0) + Gain(s, e)];
      }
    }
    assert events[..|events|] == events;
    if raw == map[] {
      return map[];
    }
    var top := Greatest(raw);
    scores := map urn | urn in raw :: if top <= 0.0 then 0.0 else raw[urn] / top;
    assert scores == Normalized(raw, top);
  }

  lemma NoScores(s: Scoring)
    ensures RawScores(s, []) == map[]
  {
  }

  method Greatest(raw: map<string, real>) returns (top: real)
    requires raw != map[]
    ensures IsTop(raw, top)
  {
    var rest := raw.Keys;
    var first :| first in rest;
    top := raw[first];
    while rest != {}
      invariant rest <= raw.Keys
      invariant exists urn :: urn in raw && raw[urn] == top
      invariant forall urn :: urn in raw && urn !in rest ==> raw[urn] <= top
      decreases |rest|
    {
      var urn :| urn in rest;
      rest := rest - {urn};
      if raw[urn] > top {
        top := raw[urn];
      }
    }
  }

  /** What an event is worth now: the caller's weight for its action, or the default one, or 1, times the decay over its
      age, an event of the future counting as new. */
  function Worth(tenant: string, now: int, decay: nat -> real, overrides: map<string, real>, e: UsageEvent,
      urn: string): real
  {
    if e.tenant != tenant || e.urn != urn then 0.0
    else
      (if e.action in overrides then overrides[e.action]
       else if e.action in ["view", "search_result_click"] then 1.0
       else if e.action == "detail_view" then 1.5
       else if e.action == "download" then 2.0
       else if e.action in ["query", "query_execute"] then 3.0
       else 1.0) * decay(if e.at <= now then now - e.at else 0)
  }

  function Total(tenant: string, now: int, decay: nat -> real, overrides: map<string, real>, events: seq<UsageEvent>,
      urn: string): real
    decreases |events|
  {
    if events == [] then 0.0
    else Worth(tenant, now, decay, overrides, events[0], urn) + Total(tenant, now, decay, overrides, events[1..], urn)
  }

  lemma PartIsWorth(s: Scoring, e: UsageEvent, urn: string)
    ensures Part(s, e, urn) == Worth(s.tenant, s.now, s.decay, s.overrides, e, urn)
  {
  }

  lemma {:induction false} TotalOneMore(s: Scoring, events: seq<UsageEvent>, e: UsageEvent, urn: string)
    ensures Total(s.tenant, s.now, s.decay, s.overrides, events + [e], urn) ==
            Total(s.tenant, s.now, s.decay, s.overrides, events, urn) + Worth(s.tenant, s.now, s.decay, s.overrides, e, urn)
    decreases |events|
  {
    hide Worth;
    if events == [] {
      assert events + [e] == [e] && [e][1..] == [];
    } else {
      assert (events + [e])[1..] == events[1..] + [e];
      TotalOneMore(s, events[1..], e, urn);
    }
  }

  lemma {:induction false} RawIsTotal(s: Scoring, events: seq<UsageEvent>, urn: string)
    ensures Raw(s, events, urn) == Total(s.tenant, s.now, s.decay, s.overrides, events, urn)
  {
    hide Worth, Part;
    if events != [] {
      var front, last := events[..|events| - 1], events[|events| - 1];
      assert events == front + [last];
      RawIsTotal(s, front, urn);
      PartIsWorth(s, last, urn);
      TotalOneMore(s, front, last, urn);
    }
  }

  /** Main result: the scored urns are those the tenant's events name, and any two of their scores relate as the worths of
      their events add up. */
  lemma ScoresRelateAsTotals(s: Scoring, events: seq<UsageEvent>, scores: map<string, real>, a: string, b: string)
    requires AreScores(s, events, scores) && a in scores && b in scores
    requires Total(s.tenant, s.now, s.decay, s.overrides, events, a) > 0.0
    ensures forall urn :: urn in scores <==> exists e :: e in events && e.tenant == s.tenant && e.urn == urn
    ensures var ta, tb := Total(s.tenant, s.now, s.decay, s.overrides, events, a),
                Total(s.tenant, s.now, s.decay, s.overrides, events, b);
            scores[a] > 0.0 && Times(scores[b], ta) == Times(scores[a], tb)
  {
    RawIsTotal(s, events, a);
    RawIsTotal(s, events, b);
    hide Raw, Total, IsTop, Times;
    var raw := RawScores(s, events);
    var top :| IsTop(raw, top) && scores == Normalized(raw, top);
    TopIsAtLeast(raw, top, a);
    Quotients(raw[a], raw[b], top);
  }

  lemma TopIsAtLeast(raw: map<string, real>, top: real, a: string)
    requires IsTop(raw, top) && a in raw
    ensures raw[a] <= top
  {
  }

  lemma Quotients(x: real, y: real, top: real)
    requires 0.0 < x <= top
    ensures x / top > 0.0 && Times(y / top, x) == Times(x / top, y)
  {
    Cancel(1.0, x, top);
  }

  lemma UnusedOrNot(s: Scoring, events: seq<UsageEvent>, urn: string)
    ensures urn !in RawScores(s, events) ==> Raw(s, events, urn) == 0.0
  {
    if urn !in UrnsUsed(s, events) {
      UnusedUrnIsZero(s, events, urn);
    }
  }

  /** No event lowers a score. */
  ghost predicate GainsAreNonNegative(s: Scoring) {
    (forall action :: ActionWeight(s, action) >= 0.0) && forall n: nat :: s.decay(n) >= 0.0
  }

  lemma {:induction false} RawIsNonNegative(s: Scoring, events: seq<UsageEvent>, urn: string)
    requires GainsAreNonNegative(s)
    ensures Raw(s, events, urn) >= 0.0
  {
    if events != [] {
      RawIsNonNegative(s, events[..|events| - 1], urn);
      var last := events[|events| - 1];
      assert ActionWeight(s, last.action) >= 0.0 && s.decay(Age(s, last)) >= 0.0;
    }
  }

  lemma QuotientInUnit(a: real, top: real)
    requires 0.0 <= a <= top && top > 0.0
    ensures 0.0 <= a / top <= 1.0 && (a == top ==> a / top == 1.0)
  {
  }

  /** Main result: scores lie in [0, 1], and unless all of them are 0 the greatest is exactly 1. */
  lemma ScoresAreNormalized(s: Scoring, events: seq<UsageEvent>, scores: map<string, real>)
    requires GainsAreNonNegative(s) && AreScores(s, events, scores)
    ensures scores.Keys == UrnsUsed(s, events)
    ensures forall urn :: urn in scores ==> 0.0 <= scores[urn] <= 1.0
    ensures (exists urn :: urn in scores && scores[urn] == 1.0) || (forall urn :: urn in scores ==> scores[urn] == 0.0)
    ensures (forall urn :: urn in scores ==> scores[urn] == 0.0) <==> forall urn :: urn in scores ==> Raw(s, events, urn) == 0.0
  {
    var raw := RawScores(s, events);
    forall urn ensures Raw(s, events, urn) >= 0.0 {
      RawIsNonNegative(s, events, urn);
    }
    hide Raw, GainsAreNonNegative;
    if raw != map[] {
      var top :| IsTop(raw, top) && scores == Normalized(raw, top);
      if top > 0.0 {
        forall urn | urn in raw ensures 0.0 <= scores[urn] <= 1.0 && (raw[urn] == top ==> scores[urn] == 1.0) {
          QuotientInUnit(raw[urn], top);
        }
      }
    }
  }

  lemma RawWithout(s: Scoring, events: seq<UsageEvent>, j: nat, urn: string)
    requires j < |events|
    ensures Raw(s, events, urn) ==
            Raw(s, events[..j] + events[j + 1..], urn) + Part(s, events[j], urn)
    decreases |events|
  {
    hide Part;
    var n := |events| - 1;
    if j == n {
      assert events[..j] + events[j + 1..] == events[..n];
    } else {
      RawWithout(s, events[..n], j, urn);
      var rest := events[..j] + events[j + 1..];
      assert rest[..n - 1] == events[..n][..j] + events[..n][j + 1..];
      assert rest[n - 1] == events[n];
    }
  }

  lemma {:induction false} RawIgnoresOrder(s: Scoring, xs: seq<UsageEvent>, ys: seq<UsageEvent>, urn: string)
    requires multiset(xs) == multiset(ys)
    ensures Raw(s, xs, urn) == Raw(s, ys, urn)
    decreases |xs|
  {
    hide Part;
    if xs == [] {
      assert |multiset(ys)| == 0;
    } else {
      var n := |xs| - 1;
      assert xs == xs[..n] + [xs[n]];
      assert xs[n] in multiset(ys);
      var j :| 0 <= j < |ys| && ys[j] == xs[n];
      assert ys == ys[..j] + [ys[j]] + ys[j + 1..];
      assert multiset(xs[..n]) == multiset(xs) - multiset{xs[n]};
      assert multiset(ys[..j] + ys[j + 1..]) == multiset(ys) - multiset{ys[j]};
      RawIgnoresOrder(s, xs[..n], ys[..j] + ys[j + 1..], urn);
      RawWithout(s, ys, j, urn);
    }
  }

  /** Main result: the order of events does not matter. */
  lemma ScoresIgnoreOrder(s: Scoring, xs: seq<UsageEvent>, ys: seq<UsageEvent>, scores: map<string, real>)
    requires multiset(xs) == multiset(ys) && AreScores(s, xs, scores)
    ensures AreScores(s, ys, scores)
  {
    forall urn ensures Raw(s, xs, urn) == Raw(s, ys, urn) {
      RawIgnoresOrder(s, xs, ys, urn);
    }
    hide Raw;
    forall e ensures e in xs <==> e in ys {
      assert e in multiset(xs) <==> e in multiset(ys);
    }
    assert UrnsUsed(s, xs) == UrnsUsed(s, ys);
    assert RawScores(s, xs) == RawScores(s, ys);
  }

  function OwnEvents(tenant: string, events: seq<UsageEvent>): seq<UsageEvent> {
    if events == [] then []
    else OwnEvents(tenant, events[..|events| - 1]) + if events[|events| - 1].tenant == tenant then [events[|events| - 1]] else []
  }

  lemma {:induction false} RawIgnoresOthers(s: Scoring, events: seq<UsageEvent>, urn: string)
    ensures Raw(s, OwnEvents(s.tenant, events), urn) == Raw(s, events, urn)
    ensures UrnsUsed(s, OwnEvents(s.tenant, events)) == UrnsUsed(s, events)
  {
    if events != [] {
      var front, last := events[..|events| - 1], events[|events| - 1];
      RawIgnoresOthers(s, front, urn);
      assert events == front + [last];
      RawOneMore(s, front, last);
      RawOneMore(s, OwnEvents(s.tenant, front), last);
      assert OwnEvents(s.tenant, front) + [] == OwnEvents(s.tenant, front);
      hide Raw, UrnsUsed, Gain;
    }
  }

  /** Main result: another tenant's events never move a score. */
  lemma ScoresIgnoreOtherTenants(s: Scoring, events: seq<UsageEvent>, scores: map<string, real>)
    ensures AreScores(s, OwnEvents(s.tenant, events), scores) <==> AreScores(s, events, scores)
  {
    forall urn ensures Raw(s, OwnEvents(s.tenant, events), urn) == Raw(s, events, urn) {
      RawIgnoresOthers(s, events, urn);
    }
    RawIgnoresOthers(s, events, "");
    hide Raw, OwnEvents;
    assert RawScores(s, OwnEvents(s.tenant, events)) == RawScores(s, events);
  }

  // ---------------------------------------------------------------- exponential decay

  predicate Compounds(decay: nat -> real, a: nat, b: nat) {
    decay(a + b) == decay(a) * decay(b) && decay(a) > 0.0
  }

  /** Decay by half-life, `0.5 ** (age / half_life)`, is a power law: ages add up as factors multiply. */
  ghost predicate Exponential(decay: nat -> real) {
    forall a: nat, b: nat :: Compounds(decay, a, b)
  }

  function Later(s: Scoring, d: nat): Scoring {
    s.(now := s.now + d)
  }

  predicate AllInThePast(s: Scoring, events: seq<UsageEvent>) {
    forall i :: 0 <= i < |events| ==> events[i].at <= s.now
  }

  function Times(k: real, x: real): real {
    k * x
  }

  lemma GainFades(s: Scoring, e: UsageEvent, d: nat)
    requires Exponential(s.decay) && e.at <= s.now
    ensures Gain(Later(s, d), e) == Times(s.decay(d), Gain(s, e))
  {
    var age, weight := Age(s, e), ActionWeight(s, e.action);
    assert Compounds(s.decay, age, d);
    hide Exponential, ActionWeight;
    assert Age(Later(s, d), e) == age + d && ActionWeight(Later(s, d), e.action) == weight by {
      SameWeight(s, e, d);
    }
    Reorder(weight, s.decay(age), s.decay(d));
  }

  lemma SameWeight(s: Scoring, e: UsageEvent, d: nat)
    ensures ActionWeight(Later(s, d), e.action) == ActionWeight(s, e.action)
  {
  }

  lemma Reorder(x: real, y: real, z: real)
    ensures x * (y * z) == Times(z, x * y)
  {
  }

  lemma Distribute(k: real, x: real, y: real)
    ensures Times(k, x + y) == Times(k, x) + Times(k, y) && Times(k, 0.0) == 0.0
  {
  }

  lemma {:induction false} RawFades(s: Scoring, events: seq<UsageEvent>, d: nat, urn: string)
    requires Exponential(s.decay) && AllInThePast(s, events)
    ensures Raw(Later(s, d), events, urn) == Times(s.decay(d), Raw(s, events, urn))
    ensures UrnsUsed(Later(s, d), events) == UrnsUsed(s, events)
  {
    hide Gain, Exponential, Times;
    Distribute(s.decay(d), 0.0, 0.0);
    if events != [] {
      var front, last := events[..|events| - 1], events[|events| - 1];
      RawFades(s, front, d, urn);
      GainFades(s, last, d);
      Distribute(s.decay(d), Raw(s, front, urn), Part(s, last, urn));
    }
  }

  lemma ScaledQuotient(k: real, x: real, top: real)
    requires k > 0.0
    ensures top <= 0.0 <==> Times(k, top) <= 0.0
    ensures top > 0.0 ==> Times(k, top) > 0.0 && Times(k, x) / Times(k, top) == x / top
  {
    if top > 0.0 {
      assert Times(k, top) > 0.0;
      Cancel(k, x, top);
    } else {
      ScaleMonotone(k, top, 0.0);
    }
  }

  lemma Cancel(k: real, x: real, top: real)
    requires k > 0.0 && top > 0.0 && k * top > 0.0
    ensures (k * x) / (k * top) == x / top
  {
    var q := x / top;
    assert q * top == x;
    assert k * x == q * (k * top);
  }

  lemma ScaledOrder(k: real, x: real, top: real)
    requires k > 0.0 && x <= top
    ensures Times(k, x) <= Times(k, top)
  {
    ScaleMonotone(k, x, top);
  }

  lemma ScaledTop(k: real, raw: map<string, real>, scaled: map<string, real>, top: real)
    requires k > 0.0 && scaled == (map urn | urn in raw :: Times(k, raw[urn])) && IsTop(raw, top)
    ensures IsTop(scaled, Times(k, top)) && Normalized(scaled, Times(k, top)) == Normalized(raw, top)
  {
    hide Times;
    forall urn | urn in raw ensures scaled[urn] <= Times(k, top) {
      ScaledOrder(k, raw[urn], top);
    }
    forall urn | urn in raw
      ensures (if Times(k, top) <= 0.0 then 0.0 else scaled[urn] / Times(k, top)) == (if top <= 0.0 then 0.0 else raw[urn] / top)
    {
      ScaledQuotient(k, raw[urn], top);
    }
  }

  /** Main result: scores fade together. While no new event comes in, computing them later gives the same scores. */
  lemma ScoresIgnoreTheClock(s: Scoring, events: seq<UsageEvent>, scores: map<string, real>, d: nat)
    requires Exponential(s.decay) && AllInThePast(s, events) && AreScores(s, events, scores)
    ensures AreScores(Later(s, d), events, scores)
  {
    var raw, faded, k := RawScores(s, events), RawScores(Later(s, d), events), s.decay(d);
    assert Compounds(s.decay, d, 0);
    assert k > 0.0;
    hide Exponential, Compounds, Times, IsTop, Normalized;
    RawScoresFade(s, events, d);
    hide RawScores;
    if raw != map[] {
      var top :| IsTop(raw, top) && scores == Normalized(raw, top);
      ScaledTop(k, raw, faded, top);
      assert faded.Keys == raw.Keys;
    }
  }

  lemma RawScoresFade(s: Scoring, events: seq<UsageEvent>, d: nat)
    requires Exponential(s.decay) && AllInThePast(s, events)
    ensures RawScores(Later(s, d), events) == map urn | urn in RawScores(s, events) :: Times(s.decay(d),
              RawScores(s, events)[urn])
  {
    hide Exponential, Times, Raw, UrnsUsed;
    RawFades(s, events, d, "");
    forall urn ensures Raw(Later(s, d), events, urn) == Times(s.decay(d), Raw(s, events, urn)) {
      RawFades(s, events, d, urn);
    }
  }
}
