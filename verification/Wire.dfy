/** One agent, the network and the server as one system: the environment answers a post with what the server, after
    everything that reached it before, replies - if request and response come through. */
module Wire {
  import opened Types
  import opened Catalog
  import opened Ingest
  import opened Pushing
  import opened Delivery
  import opened Convergence
  import opened Agent
  import opened Disk

  /** What is given: the server at the start, the agent's key, post i of the k-th push, and the rest of the agent's
      environment. */
  datatype Net = Net(
    cfg: Config, auth: Auth, start: Server, policy: RetryPolicy, posts: (nat, nat) -> Post,
    raisesAfter: nat -> Option<nat>, addRaises: nat -> bool, uuid: nat -> string)

  function RequestFor(net: Net, b: Batch): Request {
    Request(net.auth, Envelope(b.id, net.auth.dataPlane, b.connectorType, net.cfg.schemaVersion, b.entities), true, 0, 0)
  }

  function CampaignFor(net: Net, k: nat, b: Batch): Campaign {
    Campaign(RequestFor(net, b), (i: nat) => net.posts(k, i))
  }

  /** The push client's result for the k-th push when it meets this server. */
  function PushOn(net: Net, s: Server, k: nat, b: Batch): PushResult {
    PushFrom(net.policy, net.cfg, s, CampaignFor(net, k, b), 0)
  }

  /** How many posts the k-th push makes: none for an empty batch, and if it raises, as many as were made by then. */
  function PostsMade(net: Net, s: Server, k: nat, b: Batch): nat {
    if b.entities == [] then 0
    else if net.raisesAfter(k).Some? then net.raisesAfter(k).value
    else PushOn(net, s, k, b).attempts
  }

  function AfterPush(net: Net, s: Server, k: nat, b: Batch): Server {
    ServerAfter(net.cfg, s, CampaignFor(net, k, b), PostsMade(net, s, k, b))
  }

  /** The server once the pushes of the log have been made. */
  function ServerAt(net: Net, log: seq<Attempt>): Server {
    if log == [] then net.start
    else AfterPush(net, ServerAt(net, log[..|log| - 1]), |log| - 1, log[|log| - 1].batch)
  }

  function ServerNow(net: Net, a: State): Server {
    ServerAt(net, a.log)
  }

  function AnswerOn(net: Net, log: seq<Attempt>, b: Batch, i: nat): Response {
    AnswerAt(net.cfg, ServerAt(net, log), CampaignFor(net, |log|, b), i)
  }

  /** The environment of an agent on this network. */
  function WorldOn(net: Net): World {
    World(net.policy, (log: seq<Attempt>, b: Batch, i: nat) => AnswerOn(net, log, b, i), net.raisesAfter,
        net.addRaises, net.uuid)
  }

  function PushEnds(net: Net, s: Server, k: nat, b: Batch): PushOutcome {
    if b.entities == [] then Pushed([], [])
    else if net.raisesAfter(k).Some? then PushRaised
    else FromResult(PushOn(net, s, k, b))
  }

  /** The request of a push is the envelope the client builds, as it reads on arrival: this batch's id, type and entities
      in their order, the agent's data plane and the configured version. */
  lemma RequestIsTheEnvelope(net: Net, rd: Reader, b: Batch, sentAt: int)
    requires AllProper(b.entities)
    ensures var sent, got := BuildEnvelope(net.auth.dataPlane, net.cfg.schemaVersion, b, sentAt), RequestFor(net, b);
            && got.auth == net.auth && got.wellShaped
            && got.envelope.batchId == sent.batchId == b.id
            && got.envelope.dataPlane == sent.dataPlane == net.auth.dataPlane
            && got.envelope.connectorType == sent.connectorType == b.connectorType
            && got.envelope.schemaVersion == sent.schemaVersion == net.cfg.schemaVersion
            && sent.sentAt == sentAt
            && FromDocs(rd, sent.entities) == Some(got.envelope.items)
  {
    DocsRoundTrip(rd, b.entities);
    hide FromDocs, ToDocs, AllProper;
  }

  lemma ServerStep(net: Net, log: seq<Attempt>, x: Attempt)
    ensures ServerAt(net, log + [x]) == AfterPush(net, ServerAt(net, log), |log|, x.batch)
  {
    hide AfterPush;
    assert (log + [x])[..|log|] == log;
  }

  lemma OutcomeOnNet(net: Net, log: seq<Attempt>, b: Batch)
    ensures OutcomeOf(WorldOn(net), log, b) == PushEnds(net, ServerAt(net, log), |log|, b)
  {
    hide AnswerAt, ResultOf, ServerAt;
    var c, s := CampaignFor(net, |log|, b), ServerAt(net, log);
    var w := WorldOn(net);
    var seen, made := (i: nat) => w.answers(log, b, i), (i: nat) => AnswerAt(net.cfg, s, c, 0 + i);
    forall i: nat ensures seen(i) == made(i) {
      assert seen(i) == AnswerOn(net, log, b, i) && 0 + i == i;
    }
    SameAnswersSameResult(net.policy, seen, made);
  }

  // ---------------------------------------------------------------- who else is on the wire

  function KeyOn(net: Net, id: string): string {
    RecordKey(net.auth.tenant, id)
  }

  predicate UsesOurKey(net: Net, q: Request, n: nat) {
    KeyFor(q) == KeyOn(net, net.uuid(n))
  }

  /** No one else's request has the idempotency key of a batch of this agent. */
  ghost predicate KeysAreOurs(net: Net) {
    forall k: nat, i: nat, j, n: nat :: 0 <= j < |net.posts(k, i).others| ==> !UsesOurKey(net, net.posts(k, i).others[j], n)
  }

  /** The request holds an entity of this row. */
  predicate Mentions(q: Request, row: RowKey) {
    exists i :: 0 <= i < |q.envelope.items| && RowKey(q.envelope.items[i].kind, q.auth.tenant, q.envelope.items[i].urn) == row
  }

  /** No one else writes to this row. */
  ghost predicate RowIsOurs(net: Net, row: RowKey) {
    forall k: nat, i: nat, j :: 0 <= j < |net.posts(k, i).others| ==> !Mentions(net.posts(k, i).others[j], row)
  }

  ghost predicate OthersAreForeignTenants(net: Net) {
    && ColonFree(net.auth.tenant)
    && (forall k: nat, i: nat, j :: 0 <= j < |net.posts(k, i).others| ==>
          ColonFree(net.posts(k, i).others[j].auth.tenant) && net.posts(k, i).others[j].auth.tenant != net.auth.tenant)
  }

  /** Other tenants, all without colons in their ids, are such neighbours. */
  lemma ForeignTenantsKeepOff(net: Net)
    requires OthersAreForeignTenants(net)
    ensures KeysAreOurs(net)
    ensures forall kind, urn :: RowIsOurs(net, RowKey(kind, net.auth.tenant, urn))
  {
    forall k: nat, i: nat, j, n: nat | 0 <= j < |net.posts(k, i).others|
      ensures !UsesOurKey(net, net.posts(k, i).others[j], n)
    {
      var q := net.posts(k, i).others[j];
      if UsesOurKey(net, q, n) {
        ScopedKeyInjective(q.auth.tenant, q.envelope.batchId, net.auth.tenant, net.uuid(n));
      }
    }
  }

  // ---------------------------------------------------------------- requests that are someone else's

  lemma OtherKeepsRecord(cfg: Config, s: Server, q: Request, key: string)
    requires KeyFor(q) != key
    ensures Lookup(Serve(cfg, s, q).records, key) == Lookup(s.records, key)
  {
    hide FanOut, BodyFor, KeyFor, WellFormed;
  }

  lemma {:induction false} OthersKeepRecord(cfg: Config, s: Server, qs: seq<Request>, key: string)
    requires forall i :: 0 <= i < |qs| ==> KeyFor(qs[i]) != key
    ensures Lookup(Run(cfg, s, qs).records, key) == Lookup(s.records, key)
    ensures TimesProcessed(cfg, s, qs, key) == 0
    decreases |qs|
  {
    hide Serve, KeyFor, Processes;
    if qs != [] {
      OtherKeepsRecord(cfg, s, qs[0], key);
      OthersKeepRecord(cfg, Serve(cfg, s, qs[0]), qs[1..], key);
    }
  }

  lemma {:induction false} OtherBatchKeepsRow(ct: string, c: Catalog, rs: seq<Record>, row: RowKey)
    requires forall i :: 0 <= i < |rs| ==> KeyOf(rs[i]) != row
    ensures Lookup(ProcessAll(ct, c, rs).catalog.rows, row) == Lookup(c.rows, row)
    decreases |rs|
  {
    hide ProcessOne;
    if rs != [] {
      OtherRecordKeepsRow(ct, c, rs[0], row);
      if ProcessOne(ct, c, rs[0]).Done? {
        OtherBatchKeepsRow(ct, ProcessOne(ct, c, rs[0]).catalog, rs[1..], row);
      }
    }
  }

  lemma OtherRecordKeepsRow(ct: string, c: Catalog, r: Record, row: RowKey)
    requires KeyOf(r) != row
    ensures Lookup(ProcessOne(ct, c, r).catalog.rows, row) == Lookup(c.rows, row)
  {
    hide RowStep, UpsertGraph, IndexEntity, Changed;
  }

  lemma AcceptedAreSent(cfg: Config, q: Request, row: RowKey)
    requires !Mentions(q, row)
    ensures forall i :: 0 <= i < |AcceptedRecords(cfg, q)| ==> KeyOf(AcceptedRecords(cfg, q)[i]) != row
  {
    SplitConserves(q.envelope.items, cfg.check);
    var kept := AcceptedItems(q.envelope.items, cfg.check);
    forall i | 0 <= i < |kept| ensures RowKey(kept[i].kind, q.auth.tenant, kept[i].urn) != row {
      assert kept[i] in q.envelope.items;
      var j :| 0 <= j < |q.envelope.items| && q.envelope.items[j] == kept[i];
    }
  }

  lemma OtherKeepsRow(cfg: Config, s: Server, q: Request, row: RowKey)
    requires !Mentions(q, row)
    ensures Lookup(Serve(cfg, s, q).catalog.rows, row) == Lookup(s.catalog.rows, row)
  {
    AcceptedAreSent(cfg, q, row);
    hide AcceptedRecords, ProcessAll, BodyFor, KeyFor, WellFormed, Mentions;
    OtherBatchKeepsRow(q.envelope.connectorType, s.catalog, AcceptedRecords(cfg, q), row);
  }

  lemma {:induction false} OthersKeepRow(cfg: Config, s: Server, qs: seq<Request>, row: RowKey)
    requires forall i :: 0 <= i < |qs| ==> !Mentions(qs[i], row)
    ensures Lookup(Run(cfg, s, qs).catalog.rows, row) == Lookup(s.catalog.rows, row)
    decreases |qs|
  {
    hide Serve, Mentions;
    if qs != [] {
      OtherKeepsRow(cfg, s, qs[0], row);
      OthersKeepRow(cfg, Serve(cfg, s, qs[0]), qs[1..], row);
    }
  }

  // ---------------------------------------------------------------- records of the agent's own batches

  /** A record under the batch's key, if there is one, answers with the lists of this batch. */
  predicate RecordIsOf(net: Net, record: Option<Stored>, b: Batch) {
    record.Some? ==> record.value.body == BodyFor(net.cfg, RequestFor(net, b))
  }

  lemma ServeOwn(net: Net, s: Server, k: nat, b: Batch, i: nat)
    requires RecordIsOf(net, Lookup(s.records, KeyOn(net, b.id)), b)
    ensures var q := RequestAt(CampaignFor(net, k, b), i);
            && RecordIsOf(net, Lookup(Serve(net.cfg, s, q).records, KeyOn(net, b.id)), b)
            && (ReplyTo(net.cfg, s, q).Accepted? ==> ReplyTo(net.cfg, s, q).body == BodyFor(net.cfg, RequestFor(net, b)))
  {
    hide FanOut, BodyFor, ScopedKey;
    var q := RequestAt(CampaignFor(net, k, b), i);
    SameBody(net.cfg, q, RequestFor(net, b));
  }

  lemma OthersOfPost(net: Net, k: nat, i: nat, id: string)
    requires KeysAreOurs(net) && exists n: nat :: id == net.uuid(n)
    ensures forall j :: 0 <= j < |net.posts(k, i).others| ==> KeyFor(net.posts(k, i).others[j]) != KeyOn(net, id)
  {
    hide KeyFor, KeyOn;
    var n: nat :| id == net.uuid(n);
    assert forall j :: 0 <= j < |net.posts(k, i).others| ==> !UsesOurKey(net, net.posts(k, i).others[j], n);
  }

  /** Whatever becomes of the posts of a push, the record under its batch's key is of that batch. */
  lemma {:induction false} PostsKeepRecordOf(net: Net, s: Server, k: nat, b: Batch, n: nat)
    requires KeysAreOurs(net) && RecordIsOf(net, Lookup(s.records, KeyOn(net, b.id)), b)
    requires exists m: nat :: b.id == net.uuid(m)
    ensures RecordIsOf(net, Lookup(ServerAfter(net.cfg, s, CampaignFor(net, k, b), n).records, KeyOn(net, b.id)), b)
  {
    hide RecordIsOf, Serve, Run, KeyOn, KeysAreOurs;
    if n > 0 {
      PostsKeepRecordOf(net, s, k, b, n - 1);
      BeforeKeepsRecordOf(net, s, k, b, n - 1);
      ServeOwn(net, BeforePost(net.cfg, s, CampaignFor(net, k, b), n - 1), k, b, n - 1);
    }
  }

  lemma BeforeKeepsRecordOf(net: Net, s: Server, k: nat, b: Batch, i: nat)
    requires KeysAreOurs(net) && exists m: nat :: b.id == net.uuid(m)
    ensures var c := CampaignFor(net, k, b);
            Lookup(BeforePost(net.cfg, s, c, i).records, KeyOn(net, b.id)) ==
            Lookup(ServerAfter(net.cfg, s, c, i).records, KeyOn(net, b.id))
  {
    hide ServerAfter, KeyOn, KeysAreOurs, Run, KeyFor;
    var c := CampaignFor(net, k, b);
    OthersOfPost(net, k, i, b.id);
    OthersKeepRecord(net.cfg, ServerAfter(net.cfg, s, c, i), c.posts(i).others, KeyOn(net, b.id));
  }

  lemma DifferentIdDifferentKey(net: Net, a: string, b: string)
    requires a != b
    ensures KeyOn(net, a) != KeyOn(net, b)
  {
    var t := net.auth.tenant + ":";
    assert KeyOn(net, a) == t + a && KeyOn(net, b) == t + b;
    assert (t + a)[|t|..] == a && (t + b)[|t|..] == b;
  }

  /** And the records of the agent's other ids stay as they were. */
  lemma {:induction false} PostsKeepOtherRecord(net: Net, s: Server, k: nat, b: Batch, n: nat, m: nat)
    requires KeysAreOurs(net) && b.id != net.uuid(m)
    ensures Lookup(ServerAfter(net.cfg, s, CampaignFor(net, k, b), n).records, KeyOn(net, net.uuid(m))) ==
            Lookup(s.records, KeyOn(net, net.uuid(m)))
  {
    hide Serve, Run, KeyOn, KeyFor, KeysAreOurs;
    if n > 0 {
      PostsKeepOtherRecord(net, s, k, b, n - 1, m);
      var c, key := CampaignFor(net, k, b), KeyOn(net, net.uuid(m));
      var there := ServerAfter(net.cfg, s, c, n - 1);
      OthersOfPost(net, k, n - 1, net.uuid(m));
      OthersKeepRecord(net.cfg, there, c.posts(n - 1).others, key);
      OwnKey(net, k, b, n - 1);
      DifferentIdDifferentKey(net, b.id, net.uuid(m));
      OtherKeepsRecord(net.cfg, Run(net.cfg, there, c.posts(n - 1).others), RequestAt(c, n - 1), key);
    }
  }

  lemma OwnKey(net: Net, k: nat, b: Batch, i: nat)
    ensures KeyFor(RequestAt(CampaignFor(net, k, b), i)) == KeyOn(net, b.id)
    ensures KeyFor(RequestFor(net, b)) == KeyOn(net, b.id)
    ensures WellFormed(net.cfg, RequestAt(CampaignFor(net, k, b), i)) && WellFormed(net.cfg, RequestFor(net, b))
  {
  }

  /** A successful push answers with as many accepted urns as entities of its batch pass the server's validation, and as
      many rejected ones as do not. */
  lemma SuccessIsInFull(net: Net, s: Server, k: nat, b: Batch)
    requires KeysAreOurs(net) && RecordIsOf(net, Lookup(s.records, KeyOn(net, b.id)), b)
    requires exists m: nat :: b.id == net.uuid(m)
    requires PushEnds(net, s, k, b).Pushed?
    ensures |PushEnds(net, s, k, b).accepted| == CountPassing(b.entities, net.cfg.check)
    ensures |PushEnds(net, s, k, b).rejected| == CountFailing(b.entities, net.cfg.check)
    ensures |PushEnds(net, s, k, b).accepted| + |PushEnds(net, s, k, b).rejected| == |b.entities|
  {
    hide KeysAreOurs, RecordIsOf, KeyOn, PushFrom;
    if b.entities != [] {
      var c := CampaignFor(net, k, b);
      var last := SuccessIsDelivered(net.policy, net.cfg, s, c, 0);
      PostsKeepRecordOf(net, s, k, b, last);
      BeforeKeepsRecordOf(net, s, k, b, last);
      AnswerIsInFull(net, BeforePost(net.cfg, s, c, last), s, k, b, last);
    }
  }

  lemma AnswerIsInFull(net: Net, there: Server, s: Server, k: nat, b: Batch, i: nat)
    requires there == BeforePost(net.cfg, s, CampaignFor(net, k, b), i)
    requires RecordIsOf(net, Lookup(there.records, KeyOn(net, b.id)), b)
    requires Success(AnswerAt(net.cfg, s, CampaignFor(net, k, b), i))
    ensures var answer := AnswerAt(net.cfg, s, CampaignFor(net, k, b), i);
            && |answer.accepted| == CountPassing(b.entities, net.cfg.check)
            && |answer.rejected| == CountFailing(b.entities, net.cfg.check)
            && |answer.accepted| + |answer.rejected| == |b.entities|
  {
    hide BeforePost, ReplyTo, RecordIsOf, BodyFor, KeyOn, WellFormed;
    ServeOwn(net, there, k, b, i);
    BodyIsInFull(net, b);
  }

  lemma BodyIsInFull(net: Net, b: Batch)
    ensures var body := BodyFor(net.cfg, RequestFor(net, b));
            && |body.accepted| == CountPassing(b.entities, net.cfg.check)
            && |RejectedUrns(body.rejected)| == CountFailing(b.entities, net.cfg.check)
            && |body.accepted| + |RejectedUrns(body.rejected)| == |b.entities|
  {
    SplitConserves(b.entities, net.cfg.check);
    SplitKeepsOrder(b.entities, net.cfg.check);
    hide AcceptedItems, Rejections, CountPassing, CountFailing;
  }

  // ---------------------------------------------------------------- one push, exactly

  /** The first of the first n posts of a push that reaches the server. */
  function FirstArrival(net: Net, k: nat, n: nat): Option<nat> {
    if n == 0 then None
    else
      match FirstArrival(net, k, n - 1)
      case Some(i) => Some(i)
      case None => if net.posts(k, n - 1).fate.RequestLost? then None else Some(n - 1)
  }

  predicate IsExpired(net: Net, record: Stored, k: nat, i: nat) {
    Expired(record, net.posts(k, i).now, net.cfg.ttl)
  }

  /** A record stored before the push does not expire while it is under way, nor does one that it leaves itself. */
  ghost predicate InTime(net: Net, record: Option<Stored>, k: nat) {
    && (record.Some? ==> forall i: nat :: IsExpired(net, record.value, k, i) == IsExpired(net, record.value, k, 0))
    && (forall i: nat, j: nat :: i < j ==> net.posts(k, j).now - net.posts(k, i).storedAt <= net.cfg.ttl)
  }

  /** The server answers this push from the record. */
  predicate Replays(net: Net, record: Option<Stored>, k: nat) {
    record.Some? && !IsExpired(net, record.value, k, 0)
  }

  /** The push has its batch fanned out by the time n posts are made. */
  predicate FansOut(net: Net, record: Option<Stored>, k: nat, n: nat) {
    !Replays(net, record, k) && FirstArrival(net, k, n).Some?
  }

  function RecordAfter(net: Net, record: Option<Stored>, k: nat, b: Batch, n: nat): Option<Stored> {
    if FansOut(net, record, k, n)
    then Some(Stored(BodyFor(net.cfg, RequestFor(net, b)), net.posts(k, FirstArrival(net, k, n).value).storedAt))
    else record
  }

  function Records(net: Net, b: Batch): seq<Record> {
    AcceptedRecords(net.cfg, RequestFor(net, b))
  }

  lemma {:induction false} FirstArrivalIs(net: Net, k: nat, n: nat)
    ensures FirstArrival(net, k, n).Some? <==> exists i: nat :: i < n && !net.posts(k, i).fate.RequestLost?
    ensures FirstArrival(net, k, n).Some? ==> FirstArrival(net, k, n).value < n
  {
    if n > 0 {
      FirstArrivalIs(net, k, n - 1);
    }
  }

  /** A post of the push that reaches the server there. */
  lemma ServeOwnExactly(net: Net, there: Server, k: nat, b: Batch, i: nat, row: RowKey)
    requires AllStorable(Records(net, b))
    ensures var q := RequestAt(CampaignFor(net, k, b), i);
            var record := Lookup(there.records, KeyOn(net, b.id));
            var after := Serve(net.cfg, there, q);
            if record.Some? && !IsExpired(net, record.value, k, i) then
              after == there && !Processes(net.cfg, there, q)
            else
              && Processes(net.cfg, there, q)
              && Lookup(after.records, KeyOn(net, b.id)) == Some(Stored(BodyFor(net.cfg, RequestFor(net, b)),
                  net.posts(k, i).storedAt))
              && Lookup(after.catalog.rows, row) == FoldSkip(Lookup(there.catalog.rows, row), Records(net, b), row)
  {
    var q := RequestAt(CampaignFor(net, k, b), i);
    SameBody(net.cfg, q, RequestFor(net, b));
    SameRecords(net.cfg, q, RequestFor(net, b));
    OwnKey(net, k, b, i);
    hide BodyFor, AcceptedRecords, ProcessAll, FoldSkip, ScopedKey, AllStorable, RecordKey;
    BatchFoldsRows(q.envelope.connectorType, there.catalog, Records(net, b), row);
  }

  /** The server just before post i, compared with after the post before it. */
  lemma BeforePostIs(net: Net, s: Server, k: nat, b: Batch, i: nat, row: RowKey)
    requires KeysAreOurs(net) && exists m: nat :: b.id == net.uuid(m)
    ensures var c := CampaignFor(net, k, b);
            var there := BeforePost(net.cfg, s, c, i);
            && Lookup(there.records, KeyOn(net, b.id)) == Lookup(ServerAfter(net.cfg, s, c, i).records, KeyOn(net, b.id))
            && (RowIsOurs(net, row) ==> Lookup(there.catalog.rows, row) == Lookup(ServerAfter(net.cfg, s, c, i).catalog.rows, row))
            && TimesProcessed(net.cfg, s, Trace(c, i) + c.posts(i).others, KeyOn(net, b.id)) ==
               TimesProcessed(net.cfg, s, Trace(c, i), KeyOn(net, b.id))
            && there == Run(net.cfg, s, Trace(c, i) + c.posts(i).others)
  {
    hide ServerAfter, KeyOn, KeysAreOurs, Run, KeyFor, Mentions, Trace, TimesProcessed;
    var c := CampaignFor(net, k, b);
    var before := ServerAfter(net.cfg, s, c, i);
    OthersOfPost(net, k, i, b.id);
    OthersKeepRecord(net.cfg, before, c.posts(i).others, KeyOn(net, b.id));
    ServerRunsTrace(net.cfg, s, c, i);
    TimesConcatenate(net.cfg, s, Trace(c, i), c.posts(i).others, KeyOn(net, b.id));
    RunConcatenates(net.cfg, s, Trace(c, i), c.posts(i).others);
    if RowIsOurs(net, row) {
      forall j | 0 <= j < |c.posts(i).others| ensures !Mentions(c.posts(i).others[j], row) {
        assert !Mentions(net.posts(k, i).others[j], row);
      }
      OthersKeepRow(net.cfg, before, c.posts(i).others, row);
    }
  }

  /** The n-th post in terms of the record alone: lost or replayed it changes nothing, otherwise it is the one that
      has the batch fanned out. */
  lemma OneMorePost(net: Net, record: Option<Stored>, k: nat, b: Batch, n: nat)
    requires n > 0 && InTime(net, record, k)
    ensures var before := RecordAfter(net, record, k, b, n - 1);
            if net.posts(k, n - 1).fate.RequestLost? || (before.Some? && !IsExpired(net, before.value, k, n - 1)) then
              RecordAfter(net, record, k, b, n) == before && FansOut(net, record, k, n) == FansOut(net, record, k, n - 1)
            else
              && !FansOut(net, record, k, n - 1) && FansOut(net, record, k, n)
              && RecordAfter(net, record, k, b, n) == Some(Stored(BodyFor(net.cfg, RequestFor(net, b)),
                  net.posts(k, n - 1).storedAt))
  {
    hide BodyFor;
    FirstArrivalIs(net, k, n - 1);
  }

  /** The n-th post as counted in the trace. */
  lemma PostTimes(net: Net, s: Server, k: nat, b: Batch, n: nat, row: RowKey)
    requires KeysAreOurs(net) && n > 0 && exists m: nat :: b.id == net.uuid(m)
    ensures var c := CampaignFor(net, k, b);
            TimesProcessed(net.cfg, s, Trace(c, n), KeyOn(net, b.id)) ==
            TimesProcessed(net.cfg, s, Trace(c, n - 1), KeyOn(net, b.id)) +
            if !net.posts(k, n - 1).fate.RequestLost? && Processes(net.cfg, BeforePost(net.cfg, s, c, n - 1), RequestAt(c, n - 1)) then 1 else 0
  {
    var c, i := CampaignFor(net, k, b), n - 1;
    var last := if c.posts(i).fate.RequestLost? then [] else [RequestAt(c, i)];
    BeforePostIs(net, s, k, b, i, row);
    TimesConcatenate(net.cfg, s, Trace(c, i) + c.posts(i).others, last, KeyOn(net, b.id));
    TimesOfLast(net, BeforePost(net.cfg, s, c, i), k, b, i);
    hide Serve, Run, KeyOn, KeyFor, Processes, RowIsOurs, KeysAreOurs, ServerAfter, BeforePost, TimesProcessed;
    assert Trace(c, n) == Trace(c, i) + c.posts(i).others + last;
  }

  lemma ServedLast(net: Net, s: Server, k: nat, b: Batch, n: nat)
    requires n > 0
    ensures var c := CampaignFor(net, k, b);
            var there := BeforePost(net.cfg, s, c, n - 1);
            ServerAfter(net.cfg, s, c, n) ==
            if net.posts(k, n - 1).fate.RequestLost? then there else Serve(net.cfg, there, RequestAt(c, n - 1))
  {
    hide Serve, Run;
  }

  lemma TimesOfLast(net: Net, there: Server, k: nat, b: Batch, i: nat)
    ensures var c := CampaignFor(net, k, b);
            var last := if c.posts(i).fate.RequestLost? then [] else [RequestAt(c, i)];
            TimesProcessed(net.cfg, there, last, KeyOn(net, b.id)) ==
            if !c.posts(i).fate.RequestLost? && Processes(net.cfg, there, RequestAt(c, i)) then 1 else 0
  {
    hide Serve, Processes, KeyFor, KeyOn;
    OwnKey(net, k, b, i);
    assert [RequestAt(CampaignFor(net, k, b), i)][1..] == [];
  }

  lemma NoPosts(net: Net, s: Server, k: nat, b: Batch, row: RowKey)
    ensures ServerAfter(net.cfg, s, CampaignFor(net, k, b), 0) == s
    ensures RecordAfter(net, Lookup(s.records, KeyOn(net, b.id)), k, b, 0) == Lookup(s.records, KeyOn(net, b.id))
    ensures TimesProcessed(net.cfg, s, Trace(CampaignFor(net, k, b), 0), KeyOn(net, b.id)) == 0
    ensures !FansOut(net, Lookup(s.records, KeyOn(net, b.id)), k, 0)
  {
  }

  /** The record that post i meets. */
  lemma RecordMet(net: Net, s: Server, k: nat, b: Batch, i: nat, row: RowKey)
    requires KeysAreOurs(net) && AllStorable(Records(net, b)) && exists m: nat :: b.id == net.uuid(m)
    requires InTime(net, Lookup(s.records, KeyOn(net, b.id)), k)
    ensures var record := Lookup(s.records, KeyOn(net, b.id));
            Lookup(BeforePost(net.cfg, s, CampaignFor(net, k, b), i).records, KeyOn(net, b.id)) == RecordAfter(net,
                record, k, b, i)
    decreases i, 1
  {
    hide *;
    PostsLeaveRecord(net, s, k, b, i, row);
    BeforePostIs(net, s, k, b, i, row);
  }

  lemma {:induction false} PostsLeaveRecord(net: Net, s: Server, k: nat, b: Batch, n: nat, row: RowKey)
    requires KeysAreOurs(net) && AllStorable(Records(net, b)) && exists m: nat :: b.id == net.uuid(m)
    requires InTime(net, Lookup(s.records, KeyOn(net, b.id)), k)
    ensures Lookup(ServerAfter(net.cfg, s, CampaignFor(net, k, b), n).records, KeyOn(net, b.id)) ==
            RecordAfter(net, Lookup(s.records, KeyOn(net, b.id)), k, b, n)
    decreases n, 0
  {
    hide *;
    if n == 0 {
      NoPosts(net, s, k, b, row);
    } else {
      RecordMet(net, s, k, b, n - 1, row);
      ServeOwnExactly(net, BeforePost(net.cfg, s, CampaignFor(net, k, b), n - 1), k, b, n - 1, row);
      OneMorePost(net, Lookup(s.records, KeyOn(net, b.id)), k, b, n);
      ServedLast(net, s, k, b, n);
    }
  }

  lemma {:induction false} PostsCount(net: Net, s: Server, k: nat, b: Batch, n: nat, row: RowKey)
    requires KeysAreOurs(net) && AllStorable(Records(net, b)) && exists m: nat :: b.id == net.uuid(m)
    requires InTime(net, Lookup(s.records, KeyOn(net, b.id)), k)
    ensures TimesProcessed(net.cfg, s, Trace(CampaignFor(net, k, b), n), KeyOn(net, b.id)) ==
            if FansOut(net, Lookup(s.records, KeyOn(net, b.id)), k, n) then 1 else 0
  {
    hide *;
    if n == 0 {
      NoPosts(net, s, k, b, row);
    } else {
      PostsCount(net, s, k, b, n - 1, row);
      RecordMet(net, s, k, b, n - 1, row);
      ServeOwnExactly(net, BeforePost(net.cfg, s, CampaignFor(net, k, b), n - 1), k, b, n - 1, row);
      OneMorePost(net, Lookup(s.records, KeyOn(net, b.id)), k, b, n);
      PostTimes(net, s, k, b, n, row);
    }
  }

  lemma {:induction false} PostsWriteRow(net: Net, s: Server, k: nat, b: Batch, n: nat, row: RowKey)
    requires KeysAreOurs(net) && AllStorable(Records(net, b)) && exists m: nat :: b.id == net.uuid(m)
    requires InTime(net, Lookup(s.records, KeyOn(net, b.id)), k) && RowIsOurs(net, row)
    ensures Lookup(ServerAfter(net.cfg, s, CampaignFor(net, k, b), n).catalog.rows, row) ==
            if FansOut(net, Lookup(s.records, KeyOn(net, b.id)), k, n)
            then FoldSkip(Lookup(s.catalog.rows, row), Records(net, b), row) else Lookup(s.catalog.rows, row)
  {
    hide *;
    if n == 0 {
      NoPosts(net, s, k, b, row);
    } else {
      PostsWriteRow(net, s, k, b, n - 1, row);
      RecordMet(net, s, k, b, n - 1, row);
      BeforePostIs(net, s, k, b, n - 1, row);
      ServeOwnExactly(net, BeforePost(net.cfg, s, CampaignFor(net, k, b), n - 1), k, b, n - 1, row);
      OneMorePost(net, Lookup(s.records, KeyOn(net, b.id)), k, b, n);
      ServedLast(net, s, k, b, n);
    }
  }

  /** Main step, for every push over every network: its batch is fanned out exactly once if some post arrives and no
      record answers for it, and not at all otherwise; no one else's request makes a difference. */
  lemma PushIsExact(net: Net, s: Server, k: nat, b: Batch, row: RowKey)
    requires KeysAreOurs(net) && AllStorable(Records(net, b)) && exists m: nat :: b.id == net.uuid(m)
    requires InTime(net, Lookup(s.records, KeyOn(net, b.id)), k)
    ensures var record := Lookup(s.records, KeyOn(net, b.id));
            var c, n, after := CampaignFor(net, k, b), PostsMade(net, s, k, b), AfterPush(net, s, k, b);
            && Lookup(after.records, KeyOn(net, b.id)) == RecordAfter(net, record, k, b, n)
            && TimesProcessed(net.cfg, s, Trace(c, n), KeyOn(net, b.id)) == (if FansOut(net, record, k, n) then 1 else 0)
            && (RowIsOurs(net, row) ==>
                  Lookup(after.catalog.rows, row) ==
                  if FansOut(net, record, k, n) then FoldSkip(Lookup(s.catalog.rows, row), Records(net, b), row)
                  else Lookup(s.catalog.rows, row))
  {
    var n := PostsMade(net, s, k, b);
    PostsLeaveRecord(net, s, k, b, n, row);
    PostsCount(net, s, k, b, n, row);
    hide ServerAfter, FansOut, RecordAfter, KeyOn, TimesProcessed, Trace, PostsMade, InTime, RowIsOurs, KeysAreOurs,
         Records, AllStorable, FoldSkip;
    if RowIsOurs(net, row) {
      PostsWriteRow(net, s, k, b, n, row);
    }
  }

  // ---------------------------------------------------------------- when a push succeeds

  /** Some post of this push, within the attempt limit, comes through both ways, and nothing else ends it. */
  ghost predicate GetsThrough(net: Net, k: nat) {
    net.raisesAfter(k) == None && exists i: nat :: i < net.policy.maxAttempts && net.posts(k, i).fate.Delivered?
  }

  /** A batch the server can store is reported as pushed exactly when its push gets through. */
  lemma PushedIffThrough(net: Net, s: Server, k: nat, b: Batch)
    requires AllStorable(Records(net, b)) && b.entities != []
    ensures PushEnds(net, s, k, b).Pushed? <==> GetsThrough(net, k)
  {
    var c := CampaignFor(net, k, b);
    OwnKey(net, k, b, 0);
    hide AllStorable, AcceptedRecords, WellFormed, PushFrom, KeyFor, KeyOn;
    PushSucceedsIffDelivered(net.policy, net.cfg, s, c);
    assert forall i: nat :: c.posts(i) == net.posts(k, i);
  }

  /** A batch reported as pushed has arrived. */
  lemma PushedHasArrived(net: Net, s: Server, k: nat, b: Batch)
    requires PushEnds(net, s, k, b).Pushed? && b.entities != []
    ensures FirstArrival(net, k, PostsMade(net, s, k, b)).Some?
  {
    hide PushFrom, FirstArrival;
    var c := CampaignFor(net, k, b);
    var last := SuccessIsDelivered(net.policy, net.cfg, s, c, 0);
    assert c.posts(last) == net.posts(k, last);
    FirstArrivalIs(net, k, PostsMade(net, s, k, b));
  }

  /** The trace of a push holds no request under another of the agent's ids. */
  lemma {:induction false} TraceUsesOwnKey(net: Net, k: nat, b: Batch, n: nat, m: nat, j: nat)
    requires KeysAreOurs(net) && b.id != net.uuid(m) && j < |Trace(CampaignFor(net, k, b), n)|
    ensures KeyFor(Trace(CampaignFor(net, k, b), n)[j]) != KeyOn(net, net.uuid(m))
  {
    hide KeyFor, KeyOn, KeysAreOurs;
    var c := CampaignFor(net, k, b);
    var before, others := Trace(c, n - 1), c.posts(n - 1).others;
    if j < |before| {
      TraceUsesOwnKey(net, k, b, n - 1, m, j);
    } else if j < |before| + |others| {
      OthersOfPost(net, k, n - 1, net.uuid(m));
      assert Trace(c, n)[j] == others[j - |before|];
    } else {
      OwnKey(net, k, b, n - 1);
      DifferentIdDifferentKey(net, b.id, net.uuid(m));
      assert Trace(c, n)[j] == RequestAt(c, n - 1);
    }
  }
}
