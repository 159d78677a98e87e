/** The retrying client against the ingest API over a network that loses requests and responses. */
module Delivery {
  import opened Ingest
  import opened Pushing

  /** The request never arrives, or its response never comes back, or both come through. */
  datatype Fate = RequestLost | ResponseLost | Delivered

  /** One POST: requests of others served before it arrives, its fate, and the server's clock readings. */
  datatype Post = Post(others: seq<Request>, fate: Fate, now: int, storedAt: int)

  /** The batch being delivered: the request apart from its times, and the posts made for it, in order. Retries
      from the dead-letter directory are further posts of the same campaign. */
  datatype Campaign = Campaign(request: Request, posts: nat -> Post)

  function RequestAt(c: Campaign, i: nat): Request {
    c.request.(now := c.posts(i).now, storedAt := c.posts(i).storedAt)
  }

  function RejectedUrns(rejections: seq<Rejection>): seq<string> {
    seq(|rejections|, i requires 0 <= i < |rejections| => rejections[i].urn)
  }

  function ToResponse(reply: Reply): Response {
    match reply
    case Accepted(body, _) => Answer(202, body.accepted, RejectedUrns(body.rejected))
    case BadRequest(_) => Answer(400, [], [])
    case ServerError => Answer(500, [], [])
  }

  // ---------------------------------------------------------------- the server along a campaign

  function BeforePost(cfg: Config, s: Server, c: Campaign, i: nat): Server {
    Run(cfg, ServerAfter(cfg, s, c, i), c.posts(i).others)
  }

  function ServerAfter(cfg: Config, s: Server, c: Campaign, n: nat): Server {
    if n == 0 then s
    else
      var there := Run(cfg, ServerAfter(cfg, s, c, n - 1), c.posts(n - 1).others);
      if c.posts(n - 1).fate.RequestLost? then there else Serve(cfg, there, RequestAt(c, n - 1))
  }

  /** What the client sees of its i-th post. */
  function AnswerAt(cfg: Config, s: Server, c: Campaign, i: nat): Response {
    if c.posts(i).fate.Delivered? then ToResponse(ReplyTo(cfg, BeforePost(cfg, s, c, i), RequestAt(c, i))) else TransportError
  }

  /** Every request that reaches the server during the first n posts, in order. */
  function Trace(c: Campaign, n: nat): seq<Request> {
    if n == 0 then []
    else Trace(c, n - 1) + c.posts(n - 1).others + if c.posts(n - 1).fate.RequestLost? then [] else [RequestAt(c, n - 1)]
  }

  lemma {:induction false} RunConcatenates(cfg: Config, s: Server, a: seq<Request>, b: seq<Request>)
    ensures Run(cfg, s, a + b) == Run(cfg, Run(cfg, s, a), b)
    decreases |a|
  {
    hide Serve;
    if a == [] {
      assert a + b == b;
    } else {
      assert (a + b)[1..] == a[1..] + b;
      RunConcatenates(cfg, Serve(cfg, s, a[0]), a[1..], b);
    }
  }

  lemma {:induction false} TimesConcatenate(cfg: Config, s: Server, a: seq<Request>, b: seq<Request>, key: string)
    ensures TimesProcessed(cfg, s, a + b, key) == TimesProcessed(cfg, s, a, key) + TimesProcessed(cfg, Run(cfg, s, a),
              b, key)
    decreases |a|
  {
    hide Serve, Processes, KeyFor;
    if a == [] {
      assert a + b == b;
    } else {
      assert (a + b)[1..] == a[1..] + b;
      TimesConcatenate(cfg, Serve(cfg, s, a[0]), a[1..], b, key);
    }
  }

  lemma {:induction false} ReplyInContext(cfg: Config, s: Server, a: seq<Request>, q: Request, b: seq<Request>)
    ensures ReplyAt(cfg, s, a + [q] + b, |a|) == ReplyTo(cfg, Run(cfg, s, a), q)
    decreases |a|
  {
    hide Serve, ReplyTo;
    if a == [] {
      assert a + [q] + b == [q] + b;
    } else {
      assert (a + [q] + b)[1..] == a[1..] + [q] + b;
      ReplyInContext(cfg, Serve(cfg, s, a[0]), a[1..], q, b);
    }
  }

  lemma {:induction false} ServerRunsTrace(cfg: Config, s: Server, c: Campaign, n: nat)
    ensures ServerAfter(cfg, s, c, n) == Run(cfg, s, Trace(c, n))
  {
    hide Serve;
    if n > 0 {
      ServerRunsTrace(cfg, s, c, n - 1);
      var before, others := Trace(c, n - 1), c.posts(n - 1).others;
      RunConcatenates(cfg, s, before, others);
      var last := if c.posts(n - 1).fate.RequestLost? then [] else [RequestAt(c, n - 1)];
      RunConcatenates(cfg, s, before + others, last);
      RunOne(cfg, Run(cfg, s, before + others), RequestAt(c, n - 1));
    }
  }

  lemma RunOne(cfg: Config, s: Server, q: Request)
    ensures Run(cfg, s, [q]) == Serve(cfg, s, q) && Run(cfg, s, []) == s
  {
    hide Serve;
    assert [q][1..] == [];
  }

  /** Later posts extend the trace. */
  lemma {:induction false} TraceExtends(c: Campaign, i: nat, n: nat) returns (rest: seq<Request>)
    requires i < n && !c.posts(i).fate.RequestLost?
    ensures Trace(c, n) == Trace(c, i) + c.posts(i).others + [RequestAt(c, i)] + rest
  {
    if i == n - 1 {
      rest := [];
    } else {
      var mid := TraceExtends(c, i, n - 1);
      rest := mid + c.posts(n - 1).others + if c.posts(n - 1).fate.RequestLost? then [] else [RequestAt(c, n - 1)];
    }
  }

  // ---------------------------------------------------------------- exactly once, end to end

  /** The other requests carry other idempotency keys. */
  ghost predicate OthersAreOthers(c: Campaign, n: nat) {
    forall i, j :: 0 <= i < n && 0 <= j < |c.posts(i).others| ==> KeyFor(c.posts(i).others[j]) != KeyFor(c.request)
  }

  /** Every request of the trace with the campaign's key is one of its posts. */
  lemma {:induction false} TraceMembers(c: Campaign, n: nat, j: nat)
    requires OthersAreOthers(c, n) && j < |Trace(c, n)| && KeyFor(Trace(c, n)[j]) == KeyFor(c.request)
    ensures exists i: nat :: i < n && !c.posts(i).fate.RequestLost? && Trace(c, n)[j] == RequestAt(c, i)
  {
    hide KeyFor;
    var before, others := Trace(c, n - 1), c.posts(n - 1).others;
    forall m | |before| <= m < |before| + |others| ensures Trace(c, n)[m] == others[m - |before|] {
    }
    if j < |before| {
      TraceMembers(c, n - 1, j);
    }
  }

  lemma FirstBodyIsAsked(cfg: Config, qs: seq<Request>, key: string) returns (j: nat)
    requires FirstBody(cfg, qs, key).Some?
    ensures Asks(cfg, qs, j, key) && FirstBody(cfg, qs, key).value == BodyFor(cfg, qs[j])
    decreases |qs|
  {
    hide BodyFor, KeyFor, WellFormed;
    if KeyFor(qs[0]) == key && WellFormed(cfg, qs[0]) {
      j := 0;
    } else {
      var i := FirstBodyIsAsked(cfg, qs[1..], key);
      j := i + 1;
    }
  }

  /** The trace asks for the batch exactly when one of its posts arrived. */
  lemma AskedIffArrived(cfg: Config, c: Campaign, n: nat)
    requires WellFormed(cfg, c.request) && OthersAreOthers(c, n)
    ensures (exists j :: Asks(cfg, Trace(c, n), j, KeyFor(c.request))) <==> exists i: nat :: i < n && !c.posts(i).fate.RequestLost?
  {
    hide Trace, KeyFor, OthersAreOthers;
    forall i: nat | i < n && !c.posts(i).fate.RequestLost?
      ensures exists j :: Asks(cfg, Trace(c, n), j, KeyFor(c.request))
    {
      var j := PostIsAsked(cfg, c, i, n);
    }
    if j: nat :| Asks(cfg, Trace(c, n), j, KeyFor(c.request)) {
      TraceMembers(c, n, j);
    }
  }

  /** Main result: over every interleaving of posts, lost requests, lost responses, dead-letter retries and other
      requests, a batch is processed at most once, exactly once when any of its requests arrived, and every answer
      the client gets to see lists the accepted and rejected entities of that one processing. */
  lemma CampaignIsExactlyOnce(cfg: Config, s: Server, c: Campaign, n: nat)
    requires WellFormed(cfg, c.request) && OthersAreOthers(c, n)
    requires CleanRun(cfg, s, Trace(c, n), KeyFor(c.request))
    ensures TimesProcessed(cfg, s, Trace(c, n), KeyFor(c.request)) ==
            if exists i: nat :: i < n && !c.posts(i).fate.RequestLost? then 1 else 0
    ensures forall i: nat :: i < n && c.posts(i).fate.Delivered? ==>
              AnswerAt(cfg, s, c, i) == Answer(202, BodyFor(cfg, c.request).accepted,
                  RejectedUrns(BodyFor(cfg, c.request).rejected))
  {
    hide *;
    ExactlyOnce(cfg, s, Trace(c, n), KeyFor(c.request));
    AskedIffArrived(cfg, c, n);
    forall i: nat | i < n && c.posts(i).fate.Delivered?
      ensures AnswerAt(cfg, s, c, i) == Answer(202, BodyFor(cfg, c.request).accepted,
                RejectedUrns(BodyFor(cfg, c.request).rejected))
    {
      AnswerIsFirstBody(cfg, s, c, i, n);
    }
  }

  lemma PostIsAsked(cfg: Config, c: Campaign, i: nat, n: nat) returns (j: nat)
    requires WellFormed(cfg, c.request) && i < n && !c.posts(i).fate.RequestLost?
    ensures Asks(cfg, Trace(c, n), j, KeyFor(c.request))
    ensures j == |Trace(c, i)| + |c.posts(i).others| && Trace(c, n)[j] == RequestAt(c, i)
  {
    hide Trace;
    var rest := TraceExtends(c, i, n);
    j := |Trace(c, i)| + |c.posts(i).others|;
  }

  lemma AnswerIsFirstBody(cfg: Config, s: Server, c: Campaign, i: nat, n: nat)
    requires WellFormed(cfg, c.request) && OthersAreOthers(c, n) && i < n && c.posts(i).fate.Delivered?
    requires CleanRun(cfg, s, Trace(c, n), KeyFor(c.request))
    ensures AnswerAt(cfg, s, c, i) == Answer(202, BodyFor(cfg, c.request).accepted,
              RejectedUrns(BodyFor(cfg, c.request).rejected))
  {
    var key, trace := KeyFor(c.request), Trace(c, n);
    ExactlyOnce(cfg, s, trace, key);
    hide CleanRun, ReplyTo, BodyFor, Trace, TimesProcessed, FirstBody, ReplyAt, ServerAfter, OthersAreOthers;
    var j := PostIsAsked(cfg, c, i, n);
    var rest := TraceExtends(c, i, n);
    ReplyInContext(cfg, s, Trace(c, i) + c.posts(i).others, RequestAt(c, i), rest);
    ServerRunsTrace(cfg, s, c, i);
    RunConcatenates(cfg, s, Trace(c, i), c.posts(i).others);
    var first := FirstBodyIsAsked(cfg, trace, key);
    TraceMembers(c, n, first);
    BodiesAgree(cfg, c, first, n);
  }

  lemma BodiesAgree(cfg: Config, c: Campaign, j: nat, n: nat)
    requires exists i: nat :: j < |Trace(c, n)| && Trace(c, n)[j] == RequestAt(c, i)
    ensures j < |Trace(c, n)| && BodyFor(cfg, Trace(c, n)[j]) == BodyFor(cfg, c.request)
  {
    hide Trace;
  }

  /** The result of a push whose first post is number `start` of the campaign. */
  function PushFrom(p: RetryPolicy, cfg: Config, s: Server, c: Campaign, start: nat): PushResult {
    ResultOf(p, (i: nat) => AnswerAt(cfg, s, c, start + i))
  }

  /** A successful push ends with a post that came through both ways. */
  lemma SuccessIsDelivered(p: RetryPolicy, cfg: Config, s: Server, c: Campaign, start: nat) returns (last: nat)
    requires PushFrom(p, cfg, s, c, start).success
    ensures last + 1 == start + PushFrom(p, cfg, s, c, start).attempts
    ensures c.posts(last).fate.Delivered? && Success(AnswerAt(cfg, s, c, last))
    ensures AnswerAt(cfg, s, c, last).accepted == PushFrom(p, cfg, s, c, start).accepted
    ensures AnswerAt(cfg, s, c, last).rejected == PushFrom(p, cfg, s, c, start).rejected
  {
    hide BeforePost, ReplyTo, ResultOf, ToResponse;
    SuccessNeedsAnAnswer(p, (i: nat) => AnswerAt(cfg, s, c, start + i));
    last := start + PushFrom(p, cfg, s, c, start).attempts - 1;
    OnlyDeliveredAnswers(cfg, s, c, last);
  }

  lemma OnlyDeliveredAnswers(cfg: Config, s: Server, c: Campaign, i: nat)
    ensures AnswerAt(cfg, s, c, i).Answer? <==> c.posts(i).fate.Delivered?
  {
    hide BeforePost, ReplyTo;
  }

  /** How a push goes on and ends, by what became of its posts: one that is lost on either way or meets a server error is
      made again while attempts are left; the first one that is answered 202 or 400 ends the push, with success exactly
      when it is 202. A refused envelope is never posted twice. */
  lemma PushFollowsReplies(p: RetryPolicy, cfg: Config, s: Server, c: Campaign, start: nat)
    ensures var result := PushFrom(p, cfg, s, c, start);
            && (forall i: nat :: i + 1 < result.attempts ==> GoesAstray(cfg, s, c, start, i))
            && (result.attempts < p.maxAttempts ==>
                  && result.attempts > 0 && c.posts(start + result.attempts - 1).fate.Delivered?
                  && !ReplyToPost(cfg, s, c, start + result.attempts - 1).ServerError?)
            && (result.success <==>
                  && result.attempts > 0 && c.posts(start + result.attempts - 1).fate.Delivered?
                  && ReplyToPost(cfg, s, c, start + result.attempts - 1).Accepted?)
  {
    hide BeforePost, ReplyTo, ResultOf, AnswerAt, Retried, ReplyToPost;
    var answers := (i: nat) => AnswerAt(cfg, s, c, start + i);
    ResultIs(p, answers);
    var n := ResultOf(p, answers).attempts;
    forall i: nat | i + 1 < n ensures GoesAstray(cfg, s, c, start, i) {
      assert Retried(answers(i));
      AnswerMeans(cfg, s, c, start + i);
    }
    if n > 0 {
      assert answers(n - 1) == AnswerAt(cfg, s, c, start + n - 1);
      AnswerMeans(cfg, s, c, start + n - 1);
    }
  }

  lemma AnswerMeans(cfg: Config, s: Server, c: Campaign, i: nat)
    ensures Retried(AnswerAt(cfg, s, c, i)) <==> !c.posts(i).fate.Delivered? || ReplyToPost(cfg, s, c, i).ServerError?
    ensures AnswerAt(cfg, s, c, i).Answer? && AnswerAt(cfg, s, c, i).status in [200, 202] <==>
            c.posts(i).fate.Delivered? && ReplyToPost(cfg, s, c, i).Accepted?
  {
    hide BeforePost, ReplyTo;
  }

  predicate GoesAstray(cfg: Config, s: Server, c: Campaign, start: nat, i: nat) {
    !c.posts(start + i).fate.Delivered? || ReplyToPost(cfg, s, c, start + i).ServerError?
  }

  function ReplyToPost(cfg: Config, s: Server, c: Campaign, i: nat): Reply {
    ReplyTo(cfg, BeforePost(cfg, s, c, i), RequestAt(c, i))
  }

  /** The client's view: a push that reports success - made from post `start` on, a first push or a dead-letter
      retry - means the batch was processed exactly once, and it reports the lists of that processing. */
  lemma SuccessMeansProcessedOnce(p: RetryPolicy, cfg: Config, s: Server, c: Campaign, start: nat, n: nat)
    requires WellFormed(cfg, c.request) && OthersAreOthers(c, n)
    requires CleanRun(cfg, s, Trace(c, n), KeyFor(c.request))
    requires PushFrom(p, cfg, s, c, start).success && start + PushFrom(p, cfg, s, c, start).attempts <= n
    ensures TimesProcessed(cfg, s, Trace(c, n), KeyFor(c.request)) == 1
    ensures PushFrom(p, cfg, s, c, start).accepted == BodyFor(cfg, c.request).accepted
    ensures PushFrom(p, cfg, s, c, start).rejected == RejectedUrns(BodyFor(cfg, c.request).rejected)
  {
    hide *;
    var last := SuccessIsDelivered(p, cfg, s, c, start);
    CampaignIsExactlyOnce(cfg, s, c, n);
    assert !c.posts(last).fate.RequestLost?;
  }

  /** So a successful answer lists every entity of the batch, as accepted or as rejected. */
  lemma SuccessAnswersInFull(p: RetryPolicy, cfg: Config, s: Server, c: Campaign, start: nat, n: nat)
    requires WellFormed(cfg, c.request) && OthersAreOthers(c, n)
    requires CleanRun(cfg, s, Trace(c, n), KeyFor(c.request))
    requires PushFrom(p, cfg, s, c, start).success && start + PushFrom(p, cfg, s, c, start).attempts <= n
    ensures |PushFrom(p, cfg, s, c, start).accepted| + |PushFrom(p, cfg, s, c,
              start).rejected| == |c.request.envelope.items|
  {
    SuccessMeansProcessedOnce(p, cfg, s, c, start, n);
    SplitConserves(c.request.envelope.items, cfg.check);
    hide PushFrom, Trace, CleanRun, OthersAreOthers, AcceptedItems, Rejections;
  }
}
