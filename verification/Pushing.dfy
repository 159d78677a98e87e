/** The push client: bounded retries with capped exponential backoff and jitter. */
module Pushing {
  import opened Types

  datatype RetryPolicy = RetryPolicy(maxAttempts: int, base: real, cap: real)

  /** What one POST comes back with: a request exception, or a status with the body's two lists. */
  datatype Response = TransportError | Answer(status: int, accepted: seq<string>, rejected: seq<string>)

  datatype PushResult = PushResult(success: bool, accepted: seq<string>, rejected: seq<string>, status: Option<int>,
      attempts: nat)

  predicate Success(r: Response) {
    r.Answer? && (r.status == 200 || r.status == 202)
  }

  predicate Refused(r: Response) {
    r.Answer? && 400 <= r.status < 500
  }

  /** Answers that end the retries; every other status and every exception is retried. */
  predicate Final(r: Response) {
    Success(r) || Refused(r)
  }

  function Pow2(n: nat): real {
    if n == 0 then 1.0 else 2.0 * Pow2(n - 1)
  }

  /** The delay before the (n+2)-th attempt, jitter apart. */
  function BaseDelay(p: RetryPolicy, n: nat): real {
    Min(p.cap, Exponential(p, n))
  }

  function Exponential(p: RetryPolicy, n: nat): real {
    p.base * Pow2(n)
  }

  function Min(a: real, b: real): real {
    if b < a then b else a
  }

  /** The delay plus a fifth of it, scaled by the random draw. */
  function Jittered(d: real, r: real): real {
    d + d * 0.2 * r
  }

  function Sum(xs: seq<real>): real {
    if xs == [] then 0.0 else Sum(xs[..|xs| - 1]) + xs[|xs| - 1]
  }

  function BaseDelays(p: RetryPolicy, n: nat): seq<real> {
    seq(n, i requires 0 <= i < n => BaseDelay(p, i))
  }

  /** How many posts are made when i have been made already. */
  function AttemptsFrom(p: RetryPolicy, answers: nat -> Response, i: nat): (n: nat)
    ensures i <= n && (i < p.maxAttempts ==> i < n <= p.maxAttempts) && (i >= p.maxAttempts ==> n == i)
    ensures forall j :: i <= j < n - 1 ==> !Final(answers(j))
    ensures i < n < p.maxAttempts ==> Final(answers(n - 1))
    decreases p.maxAttempts - i
  {
    if i >= p.maxAttempts then i
    else if Final(answers(i)) then i + 1
    else AttemptsFrom(p, answers, i + 1)
  }

  /** The result of a push that gets these answers: the last one decides. */
  function ResultOf(p: RetryPolicy, answers: nat -> Response): PushResult {
    var n := AttemptsFrom(p, answers, 0);
    if n > 0 && Success(answers(n - 1)) then
      var a := answers(n - 1);
      PushResult(true, a.accepted, a.rejected, Some(a.status), n)
    else if n > 0 && Refused(answers(n - 1)) then PushResult(false, [], answers(n - 1).rejected, Some(answers(n - 1).status), n)
    else PushResult(false, [], [], None, n)
  }

  lemma {:induction false} SameAnswersSameAttempts(p: RetryPolicy, f: nat -> Response, g: nat -> Response, i: nat)
    requires forall j: nat :: f(j) == g(j)
    ensures AttemptsFrom(p, f, i) == AttemptsFrom(p, g, i)
    decreases p.maxAttempts - i
  {
    hide Final;
    if i < p.maxAttempts && !Final(f(i)) {
      SameAnswersSameAttempts(p, f, g, i + 1);
    }
  }

  lemma SameAnswersSameResult(p: RetryPolicy, f: nat -> Response, g: nat -> Response)
    requires forall j: nat :: f(j) == g(j)
    ensures ResultOf(p, f) == ResultOf(p, g)
  {
    SameAnswersSameAttempts(p, f, g, 0);
    hide Final, AttemptsFrom;
  }

  lemma SuccessNeedsAnAnswer(p: RetryPolicy, answers: nat -> Response)
    requires ResultOf(p, answers).success
    ensures var r := ResultOf(p, answers);
            r.attempts > 0 && Success(answers(r.attempts - 1)) &&
            answers(r.attempts - 1).accepted == r.accepted && answers(r.attempts - 1).rejected == r.rejected
  {
  }

  /** When no answer refuses the batch, a push succeeds exactly when some attempt within the limit does. */
  lemma SucceedsIff(p: RetryPolicy, answers: nat -> Response)
    requires forall i: nat :: Final(answers(i)) ==> Success(answers(i))
    ensures ResultOf(p, answers).success <==> exists i: nat :: i < p.maxAttempts && Success(answers(i))
  {
    hide Success, Refused;
    var n := AttemptsFrom(p, answers, 0);
    if ResultOf(p, answers).success {
      assert n - 1 < p.maxAttempts && Success(answers(n - 1));
    }
    if i: nat :| i < p.maxAttempts && Success(answers(i)) {
      assert Final(answers(i));
      assert n > 0 && i >= n - 1;
      assert Final(answers(n - 1));
    }
  }

  /** An exception, or a status that is neither a success nor a client error: the post is made again. */
  predicate Retried(r: Response) {
    r.TransportError? || (r.status !in [200, 202] && !(400 <= r.status < 500))
  }

  // ---------------------------------------------------------------- the sleeps

  /** The base after n doublings. */
  function Doubled(base: real, n: nat): real {
    if n == 0 then base else 2.0 * Doubled(base, n - 1)
  }

  function WithJitter(d: real, r: real): real {
    d * (1.0 + r / 5.0)
  }

  /** Two to the n, as doublings of one. */
  function TwoTo(n: nat): nat {
    if n == 0 then 1 else TwoTo(n - 1) + TwoTo(n - 1)
  }

  /** Capped doubling, in terms of the two configured figures alone: the first delay is the base, each further one is
      twice the one before, none is above the cap; and each sleep is its delay plus at most a fifth of it. */
  ghost predicate BacksOff(base: real, cap: real, random: nat -> real, delays: seq<real>, sleeps: seq<real>) {
    && |delays| == |sleeps|
    && (delays != [] ==> delays[0] == if cap < base then cap else base)
    && (forall i :: 0 <= i < |delays| - 1 ==>
          delays[i + 1] == if cap < 2.0 * delays[i] then cap else 2.0 * delays[i])
    && (forall i :: 0 <= i < |sleeps| ==> sleeps[i] == WithJitter(delays[i], random(i)))
  }

  lemma DelaysDouble(p: RetryPolicy, n: nat)
    requires 0.0 <= p.cap
    ensures BaseDelay(p, 0) == if p.cap < p.base then p.cap else p.base
    ensures BaseDelay(p, n + 1) == if p.cap < 2.0 * BaseDelay(p, n) then p.cap else 2.0 * BaseDelay(p, n)
  {
    assert Exponential(p, n + 1) == 2.0 * Exponential(p, n);
    assert Exponential(p, 0) == p.base;
    hide Exponential;
  }

  /** One sleep after each failed post but the last. */
  ghost predicate SleptFor(p: RetryPolicy, random: nat -> real, sleeps: seq<real>) {
    forall i :: 0 <= i < |sleeps| ==> sleeps[i] == Jittered(BaseDelay(p, i), random(i))
  }

  ghost predicate Doubles(base: real, cap: real, random: nat -> real, sleeps: seq<real>) {
    exists delays :: BacksOff(base, cap, random, delays, sleeps)
  }

  lemma NoSleeps(p: RetryPolicy, random: nat -> real)
    ensures SleptFor(p, random, []) && Doubles(p.base, p.cap, random, [])
  {
    assert BacksOff(p.base, p.cap, random, [], []);
  }

  lemma OneMoreSleep(p: RetryPolicy, random: nat -> real, sleeps: seq<real>)
    requires SleptFor(p, random, sleeps)
    ensures var more := sleeps + [Jittered(BaseDelay(p, |sleeps|), random(|sleeps|))];
            SleptFor(p, random, more) && (0.0 <= p.cap ==> Doubles(p.base, p.cap, random, more))
  {
    hide Jittered, BaseDelay, BacksOff;
    var more := sleeps + [Jittered(BaseDelay(p, |sleeps|), random(|sleeps|))];
    if 0.0 <= p.cap {
      JitteredSleepsBackOff(p, random, more);
    }
  }

  lemma JitteredSleepsBackOff(p: RetryPolicy, random: nat -> real, sleeps: seq<real>)
    requires 0.0 <= p.cap && SleptFor(p, random, sleeps)
    ensures BacksOff(p.base, p.cap, random, BaseDelays(p, |sleeps|), sleeps)
  {
    hide Jittered, BaseDelay, WithJitter;
    var delays := BaseDelays(p, |sleeps|);
    DelaysDouble(p, 0);
    forall i | 0 <= i < |delays| - 1
      ensures delays[i + 1] == if p.cap < 2.0 * delays[i] then p.cap else 2.0 * delays[i]
    {
      DelaysDouble(p, i);
    }
    forall i | 0 <= i < |sleeps| ensures sleeps[i] == WithJitter(delays[i], random(i)) {
      JitterIsAFactor(BaseDelay(p, i), random(i));
    }
  }

  lemma JitterIsAFactor(d: real, r: real)
    ensures Jittered(d, r) == WithJitter(d, r)
  {
  }

  /** Which answer a push ends with, by its status. */
  lemma ResultIs(p: RetryPolicy, answers: nat -> Response)
    ensures var result := ResultOf(p, answers);
            && result.attempts <= (if p.maxAttempts < 0 then 0 else p.maxAttempts)
            && (forall i :: 0 <= i < result.attempts - 1 ==> Retried(answers(i)))
            && (result.attempts < p.maxAttempts ==> result.attempts > 0 && !Retried(answers(result.attempts - 1)))
            && (result.success <==>
                  && result.attempts > 0 && answers(result.attempts - 1).Answer?
                  && answers(result.attempts - 1).status in [200, 202])
            && (result.success ==>
                  && result.accepted == answers(result.attempts - 1).accepted
                  && result.rejected == answers(result.attempts - 1).rejected)
  {
  }

  lemma AttemptsStep(p: RetryPolicy, answers: nat -> Response, i: nat)
    ensures AttemptsFrom(p, answers, i) ==
            if i >= p.maxAttempts then i else if Final(answers(i)) then i + 1 else AttemptsFrom(p, answers, i + 1)
  {
  }

  /** Main result, for every sequence of answers and every random source: posting stops at the first 200, 202 or 4xx
      answer or at the attempt limit and not before, that answer decides the result, and between two posts the client
      sleeps once, for delays that double from the base up to the cap, plus at most a fifth of jitter. */
  method Push(p: RetryPolicy, entities: seq<Item>, answers: nat -> Response, random: nat -> real)
    returns (result: PushResult, sleeps: seq<real>)
    ensures entities == [] ==> result == PushResult(true, [], [], None, 0)
    ensures entities != [] ==> result == ResultOf(p, answers)
    ensures entities != [] ==> result.attempts <= (if p.maxAttempts < 0 then 0 else p.maxAttempts)
    ensures entities != [] ==> forall i :: 0 <= i < result.attempts - 1 ==> Retried(answers(i))
    ensures entities != [] && result.attempts < p.maxAttempts ==>
              result.attempts > 0 && !Retried(answers(result.attempts - 1))
    ensures entities != [] ==> (result.success <==>
              && result.attempts > 0 && answers(result.attempts - 1).Answer?
              && answers(result.attempts - 1).status in [200, 202])
    ensures |sleeps| == if result.attempts == 0 then 0 else result.attempts - 1
    ensures SleptFor(p, random, sleeps)
    ensures 0.0 <= p.cap ==> Doubles(p.base, p.cap, random, sleeps)
  {
    hide Jittered, WithJitter, BaseDelay, SleptFor, Doubles, Retried, AttemptsFrom;
    ResultIs(p, answers);
    sleeps := [];
    NoSleeps(p, random);
    if entities == [] {
      return PushResult(true, [], [], None, 0), sleeps;
    }
    var attempts: nat := 0;
    while attempts < p.maxAttempts
      invariant attempts == 0 || attempts <= p.maxAttempts
      invariant AttemptsFrom(p, answers, 0) == AttemptsFrom(p, answers, attempts)
      invariant attempts > 0 ==> !Final(answers(attempts - 1))
      invariant |sleeps| == if attempts == 0 then 0 else if attempts < p.maxAttempts then attempts else attempts - 1
      invariant SleptFor(p, random, sleeps) && (0.0 <= p.cap ==> Doubles(p.base, p.cap, random, sleeps))
    {
      AttemptsStep(p, answers, attempts);
      var answer := answers(attempts);
      attempts := attempts + 1;
      if Success(answer) {
        return PushResult(true, answer.accepted, answer.rejected, Some(answer.status), attempts), sleeps;
      }
      if Refused(answer) {
        return PushResult(false, [], answer.rejected, Some(answer.status), attempts), sleeps;
      }
      if attempts < p.maxAttempts {
        OneMoreSleep(p, random, sleeps);
        var delay := BaseDelay(p, attempts - 1);
        sleeps := sleeps + [Jittered(delay, random(attempts - 1))];
      }
    }
    AttemptsStep(p, answers, attempts);
    result := PushResult(false, [], [], None, attempts);
  }

  lemma {:induction false} DoubledOnce(base: real, n: nat)
    requires 0.0 <= base
    ensures Doubled(base, 0) == base
    ensures 0.0 <= Doubled(base, n) <= Doubled(base, n + 1) == 2.0 * Doubled(base, n)
  {
    if n > 0 {
      DoubledOnce(base, n - 1);
    }
  }

  /** The base times two to the n less one. */
  function Total(base: real, n: nat): real {
    base * (TwoTo(n) - 1) as real
  }

  lemma {:induction false} TotalIs(base: real, n: nat)
    ensures Total(base, n) == Doubled(base, n) - base
  {
    if n == 0 {
      assert base * 0.0 == 0.0;
    } else {
      TotalIs(base, n - 1);
      TotalDoubles(base, TwoTo(n - 1) as real);
      assert (TwoTo(n) - 1) as real == 2.0 * TwoTo(n - 1) as real - 1.0;
    }
  }

  lemma TotalDoubles(base: real, x: real)
    ensures base * (2.0 * x - 1.0) == 2.0 * (base * (x - 1.0)) + base
  {
  }

  /** Capped doubling in closed form. */
  lemma {:induction false} DelaysAre(base: real, cap: real, random: nat -> real, delays: seq<real>, sleeps: seq<real>,
      i: nat)
    requires 0.0 <= base && 0.0 <= cap && BacksOff(base, cap, random, delays, sleeps) && i < |delays|
    ensures 0.0 <= delays[i] == if cap < Doubled(base, i) then cap else Doubled(base, i)
  {
    hide Doubled;
    DoubledOnce(base, i);
    if i > 0 {
      DelaysAre(base, cap, random, delays, sleeps, i - 1);
      NextDelay(base, cap, random, delays, sleeps, i - 1);
      hide BacksOff;
      DoubledOnce(base, i - 1);
    }
  }

  lemma NextDelay(base: real, cap: real, random: nat -> real, delays: seq<real>, sleeps: seq<real>, i: nat)
    requires BacksOff(base, cap, random, delays, sleeps) && i + 1 < |delays|
    ensures delays[i + 1] == if cap < 2.0 * delays[i] then cap else 2.0 * delays[i]
  {
  }

  /** At least this long, and at most a fifth longer. */
  predicate About(d: real, slept: real) {
    d <= slept <= 1.2 * d
  }

  lemma SleepIsAboutItsDelay(base: real, cap: real, random: nat -> real, delays: seq<real>, sleeps: seq<real>, i: nat)
    requires BacksOff(base, cap, random, delays, sleeps) && i < |sleeps|
    requires 0.0 <= delays[i] && 0.0 <= random(i) <= 1.0
    ensures About(delays[i], sleeps[i])
  {
    JitterIsAFactor(delays[i], random(i));
    JitterIsAFifth(delays[i], random(i));
    hide Jittered;
  }

  lemma BacksOffBefore(base: real, cap: real, random: nat -> real, delays: seq<real>, sleeps: seq<real>)
    requires BacksOff(base, cap, random, delays, sleeps) && sleeps != []
    ensures BacksOff(base, cap, random, delays[..|sleeps| - 1], sleeps[..|sleeps| - 1])
  {
  }

  /** Main result on the sleeps of a push, for every jitter source in [0, 1]: the i-th is about the base doubled i
      times, cut off at the cap; and as long as the cap cuts nothing off, n sleeps together take about the base times
      two to the n less one. */
  lemma SleepsGrowExponentially(base: real, cap: real, random: nat -> real, delays: seq<real>, sleeps: seq<real>)
    requires 0.0 <= base && 0.0 <= cap && BacksOff(base, cap, random, delays, sleeps)
    requires forall i: nat :: 0.0 <= random(i) <= 1.0
    ensures forall i :: 0 <= i < |sleeps| ==>
              About(if cap < Doubled(base, i) then cap else Doubled(base, i), sleeps[i])
    ensures sleeps == [] || Doubled(base, |sleeps| - 1) <= cap ==>
              About(Total(base, |sleeps|), Sum(sleeps))
  {
    hide BacksOff, Doubled, About, Total, Sum;
    forall i | 0 <= i < |sleeps| ensures About(if cap < Doubled(base, i) then cap else Doubled(base, i), sleeps[i]) {
      SleepAt(base, cap, random, delays, sleeps, i);
    }
    if sleeps == [] || Doubled(base, |sleeps| - 1) <= cap {
      TotalSleep(base, cap, random, delays, sleeps);
      TotalIs(base, |sleeps|);
    }
  }

  lemma SleepAt(base: real, cap: real, random: nat -> real, delays: seq<real>, sleeps: seq<real>, i: nat)
    requires 0.0 <= base && 0.0 <= cap && BacksOff(base, cap, random, delays, sleeps)
    requires forall i: nat :: 0.0 <= random(i) <= 1.0
    requires i < |sleeps|
    ensures About(if cap < Doubled(base, i) then cap else Doubled(base, i), sleeps[i])
  {
    hide About, Doubled;
    DelaysAre(base, cap, random, delays, sleeps, i);
    SleepIsAboutItsDelay(base, cap, random, delays, sleeps, i);
  }

  lemma OneDelayEach(base: real, cap: real, random: nat -> real, delays: seq<real>, sleeps: seq<real>)
    requires BacksOff(base, cap, random, delays, sleeps)
    ensures |delays| == |sleeps|
  {
  }

  lemma {:induction false} TotalSleep(base: real, cap: real, random: nat -> real, delays: seq<real>, sleeps: seq<real>)
    requires 0.0 <= base && 0.0 <= cap && BacksOff(base, cap, random, delays, sleeps)
    requires forall i: nat :: 0.0 <= random(i) <= 1.0
    requires sleeps == [] || Doubled(base, |sleeps| - 1) <= cap
    ensures About(Doubled(base, |sleeps|) - base, Sum(sleeps))
    decreases |sleeps|
  {
    hide BacksOff, Doubled;
    if sleeps == [] {
      DoubledOnce(base, 0);
    } else {
      var n := |sleeps| - 1;
      DoubledOnce(base, n);
      if n > 0 {
        DoubledOnce(base, n - 1);
      }
      BacksOffBefore(base, cap, random, delays, sleeps);
      OneDelayEach(base, cap, random, delays, sleeps);
      TotalSleep(base, cap, random, delays[..n], sleeps[..n]);
      SleepAt(base, cap, random, delays, sleeps, n);
      SumLast(sleeps);
    }
  }

  lemma {:induction false} Pow2Grows(m: nat, n: nat)
    requires m <= n
    ensures 1.0 <= Pow2(m) <= Pow2(n)
    decreases n
  {
    if m < n {
      Pow2Grows(m, n - 1);
    } else if n > 0 {
      Pow2Grows(n - 1, n - 1);
    }
  }

  /** Capped base delays never decrease, and double until they meet the cap. */
  lemma BaseDelayNeverDecreases(p: RetryPolicy, m: nat, n: nat)
    requires 0.0 <= p.base && m <= n
    ensures BaseDelay(p, m) <= BaseDelay(p, n) <= p.cap
    ensures 0.0 <= p.cap && 2.0 * BaseDelay(p, m) <= p.cap ==> BaseDelay(p, m + 1) == 2.0 * BaseDelay(p, m)
    ensures 0.0 <= p.cap && 2.0 * BaseDelay(p, m) > p.cap ==> BaseDelay(p, m + 1) == p.cap
  {
    ExponentialGrows(p, m, n);
    if 0.0 <= p.cap {
      DelaysDouble(p, m);
    }
    hide Exponential;
  }

  lemma ExponentialGrows(p: RetryPolicy, m: nat, n: nat)
    requires 0.0 <= p.base && m <= n
    ensures 0.0 <= Exponential(p, m) <= Exponential(p, n)
  {
    Pow2Grows(m, n);
    ScaleMonotone(p.base, 0.0, Pow2(m));
    ScaleMonotone(p.base, Pow2(m), Pow2(n));
    hide Pow2;
  }

  lemma BaseDelayIsNonNegative(p: RetryPolicy, n: nat)
    requires 0.0 <= p.base && 0.0 <= p.cap
    ensures 0.0 <= BaseDelay(p, n)
  {
    ExponentialGrows(p, n, n);
    hide Exponential;
  }

  lemma JitterIsAFifth(d: real, r: real)
    requires 0.0 <= d && 0.0 <= r <= 1.0
    ensures d <= Jittered(d, r) <= 1.2 * d
  {
    ScaleMonotone(d * 0.2, 0.0, r);
    ScaleMonotone(d * 0.2, r, 1.0);
  }

  lemma SumLast(xs: seq<real>)
    requires xs != []
    ensures Sum(xs) == Sum(xs[..|xs| - 1]) + xs[|xs| - 1]
  {
  }

  lemma BoundsAdd(a: real, b: real, d: real, x: real)
    requires a <= b <= 1.2 * a && d <= x <= 1.2 * d
    ensures a + d <= b + x <= 1.2 * (a + d)
  {
  }

  /** With a jitter source in [0, 1], the total time slept lies between the sum of the capped delays and 1.2 times that
      sum, and those delays double from the base up to the cap. */
  lemma {:induction false} TotalSleepIsBounded(p: RetryPolicy, sleeps: seq<real>, random: nat -> real)
    requires 0.0 <= p.base && 0.0 <= p.cap
    requires SleptFor(p, random, sleeps) && forall i: nat :: 0.0 <= random(i) <= 1.0
    ensures Sum(BaseDelays(p, |sleeps|)) <= Sum(sleeps) <= 1.2 * Sum(BaseDelays(p, |sleeps|))
    ensures BacksOff(p.base, p.cap, random, BaseDelays(p, |sleeps|), sleeps)
    decreases |sleeps|
  {
    JitteredSleepsBackOff(p, random, sleeps);
    if sleeps != [] {
      var n := |sleeps| - 1;
      TotalSleepIsBounded(p, sleeps[..n], random);
      assert BaseDelays(p, n + 1)[..n] == BaseDelays(p, n);
      BaseDelayIsNonNegative(p, n);
      JitterIsAFifth(BaseDelay(p, n), random(n));
      SumLast(sleeps);
      SumLast(BaseDelays(p, n + 1));
      hide BaseDelay, Sum, Jittered, BacksOff;
      BoundsAdd(Sum(BaseDelays(p, n)), Sum(sleeps[..n]), BaseDelay(p, n), sleeps[n]);
    }
  }
}
