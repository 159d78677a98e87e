/** `POST /v1/ingest/batches` as a state machine: idempotency records, the accept/reject split, fan-out, and the
    properties of every run of requests. */
module Ingest {
  import opened Types
  import opened Catalog
  import opened Projections

  datatype Rejection = Rejection(urn: string, error: string, detail: string)

  /** What the API key resolves to. */
  datatype Auth = Auth(tenant: string, dataPlane: string)

  datatype Envelope = Envelope(
    batchId: string, dataPlane: string, connectorType: string, schemaVersion: string, items: seq<Item>)

  /** One authenticated request. `wellShaped` is the verdict of the envelope schema; `now` and `storedAt` are the
      clock readings of the idempotency lookup and of the record written at the end. */
  datatype Request = Request(auth: Auth, envelope: Envelope, wellShaped: bool, now: int, storedAt: int)

  datatype Body = Body(batchId: string, accepted: seq<string>, rejected: seq<Rejection>)

  /** 202 with the body, 400, or 500 when a store write raised. */
  datatype Reply = Accepted(body: Body, replayed: bool) | BadRequest(error: string) | ServerError

  datatype Stored = Stored(body: Body, at: int)

  datatype Server = Server(records: map<string, Stored>, catalog: Catalog)

  /** `check` is the per-entity validation: None when the entity is acceptable. */
  datatype Config = Config(check: Item -> Option<Rejection>, ttl: int, schemaVersion: string)

  // ---------------------------------------------------------------- idempotency store

  function RecordKey(tenant: string, batchId: string): string {
    ScopedKey(tenant, batchId)
  }

  predicate Expired(stored: Stored, now: int, ttl: int) {
    now - stored.at > ttl
  }

  /** `get` forgets an expired record. */
  function AfterGet(records: map<string, Stored>, key: string, now: int, ttl: int): map<string, Stored> {
    if key in records && Expired(records[key], now, ttl) then records - {key} else records
  }

  function Replayable(records: map<string, Stored>, key: string, now: int, ttl: int): Option<Body> {
    if key in records && !Expired(records[key], now, ttl) then Some(records[key].body) else None
  }

  // ---------------------------------------------------------------- the accept/reject split

  function BuildRecord(item: Item, auth: Auth): Record {
    Record(auth.tenant, item.urn, item.kind, auth.dataPlane, SourceConnOf(item.payload), item.payload, item.op,
           item.hash, item.extractedAt)
  }

  function AcceptedItems(items: seq<Item>, check: Item -> Option<Rejection>): seq<Item> {
    if items == [] then []
    else
      var rest := AcceptedItems(items[..|items| - 1], check);
      var last := items[|items| - 1];
      if check(last).None? then rest + [last] else rest
  }

  function Rejections(items: seq<Item>, check: Item -> Option<Rejection>): seq<Rejection> {
    if items == [] then []
    else
      var rest := Rejections(items[..|items| - 1], check);
      match check(items[|items| - 1])
      case None => rest
      case Some(rejection) => rest + [rejection]
  }

  function Urns(items: seq<Item>): seq<string> {
    seq(|items|, i requires 0 <= i < |items| => items[i].urn)
  }

  function BuildRecords(items: seq<Item>, auth: Auth): seq<Record> {
    seq(|items|, i requires 0 <= i < |items| => BuildRecord(items[i], auth))
  }

  /** Every item is accepted or rejected, never both. */
  lemma {:induction false} SplitConserves(items: seq<Item>, check: Item -> Option<Rejection>)
    ensures |AcceptedItems(items, check)| + |Rejections(items, check)| == |items|
    ensures forall it :: it in AcceptedItems(items, check) <==> it in items && check(it).None?
  {
    if items != [] {
      var front, last := items[..|items| - 1], items[|items| - 1];
      SplitConserves(front, check);
      assert items == front + [last];
    }
  }

  /** How many of the items the validation lets pass, and how many it does not. */
  function CountPassing(items: seq<Item>, check: Item -> Option<Rejection>): nat {
    if items == [] then 0 else CountPassing(items[..|items| - 1], check) + if check(items[|items| - 1]).None? then 1 else 0
  }

  function CountFailing(items: seq<Item>, check: Item -> Option<Rejection>): nat {
    if items == [] then 0 else CountFailing(items[..|items| - 1], check) + if check(items[|items| - 1]).None? then 0 else 1
  }

  /** The two lists in envelope order, position by position: an item that passes is accepted after as many as pass
      before it, one that does not is rejected with the verdict on it after as many as fail before it. */
  ghost predicate InOrder(items: seq<Item>, check: Item -> Option<Rejection>, accepted: seq<Item>, rejected: seq<Rejection>)
  {
    && |accepted| == CountPassing(items, check) && |rejected| == CountFailing(items, check)
    && forall i :: 0 <= i < |items| ==> Placed(items, check, accepted, rejected, i)
  }

  ghost predicate Placed(items: seq<Item>, check: Item -> Option<Rejection>, accepted: seq<Item>,
      rejected: seq<Rejection>, i: nat)
    requires i < |items|
  {
    var passing, failing := CountPassing(items[..i], check), CountFailing(items[..i], check);
    if check(items[i]).None? then passing < |accepted| && accepted[passing] == items[i]
    else failing < |rejected| && rejected[failing] == check(items[i]).value
  }

  lemma {:induction false} SplitKeepsOrder(items: seq<Item>, check: Item -> Option<Rejection>)
    ensures InOrder(items, check, AcceptedItems(items, check), Rejections(items, check))
  {
    if items != [] {
      var front, last := items[..|items| - 1], items[|items| - 1];
      SplitKeepsOrder(front, check);
      forall i | 0 <= i < |items| ensures Placed(items, check, AcceptedItems(items, check), Rejections(items, check), i) {
        if i < |front| {
          assert front[..i] == items[..i];
          assert Placed(front, check, AcceptedItems(front, check), Rejections(front, check), i);
        }
      }
    }
  }

  lemma {:induction false} AllAcceptedIsEverything(items: seq<Item>, check: Item -> Option<Rejection>)
    requires forall it :: it in items ==> check(it).None?
    ensures AcceptedItems(items, check) == items && Rejections(items, check) == []
  {
    if items != [] {
      var front, last := items[..|items| - 1], items[|items| - 1];
      assert items == front + [last];
      AllAcceptedIsEverything(front, check);
    }
  }

  // ---------------------------------------------------------------- one request

  function KeyFor(q: Request): string {
    RecordKey(q.auth.tenant, q.envelope.batchId)
  }

  predicate WellFormed(cfg: Config, q: Request) {
    q.wellShaped && q.envelope.dataPlane == q.auth.dataPlane && q.envelope.schemaVersion == cfg.schemaVersion
  }

  function BadRequestError(cfg: Config, q: Request): string {
    if !q.wellShaped then "envelope_validation_failed"
    else if q.envelope.dataPlane != q.auth.dataPlane then "data_plane_id_mismatch"
    else "unsupported_schema_version"
  }

  /** The request gets past the idempotency check, so its entities are validated and fanned out. */
  predicate Processes(cfg: Config, s: Server, q: Request) {
    WellFormed(cfg, q) && Replayable(s.records, KeyFor(q), q.now, cfg.ttl).None?
  }

  function AcceptedRecords(cfg: Config, q: Request): seq<Record> {
    BuildRecords(AcceptedItems(q.envelope.items, cfg.check), q.auth)
  }

  function FanOut(cfg: Config, s: Server, q: Request): Outcome {
    ProcessAll(q.envelope.connectorType, s.catalog, AcceptedRecords(cfg, q))
  }

  function BodyFor(cfg: Config, q: Request): Body {
    Body(q.envelope.batchId, Urns(AcceptedItems(q.envelope.items, cfg.check)), Rejections(q.envelope.items, cfg.check))
  }

  function ReplyTo(cfg: Config, s: Server, q: Request): Reply {
    if !WellFormed(cfg, q) then BadRequest(BadRequestError(cfg, q))
    else
      match Replayable(s.records, KeyFor(q), q.now, cfg.ttl)
      case Some(body) => Accepted(body, true)
      case None => if FanOut(cfg, s, q).Done? then Accepted(BodyFor(cfg, q), false) else ServerError
  }

  function Serve(cfg: Config, s: Server, q: Request): Server {
    if !WellFormed(cfg, q) then s
    else
      var records := AfterGet(s.records, KeyFor(q), q.now, cfg.ttl);
      if !Processes(cfg, s, q) then Server(records, s.catalog)
      else
        match FanOut(cfg, s, q)
        case Raised(catalog) => Server(records, catalog)
        case Done(catalog) => Server(records[KeyFor(q) := Stored(BodyFor(cfg, q), q.storedAt)], catalog)
  }

  /** Main result on admission, for every request and server: an answer of 202 means a well-shaped envelope of the
      API key's own data plane and of the configured schema version; otherwise the first of the three that is not met
      names the error, and the server stays as it is. */
  lemma AdmissionIsExact(cfg: Config, s: Server, q: Request)
    ensures ReplyTo(cfg, s, q).Accepted? ==>
              q.wellShaped && q.envelope.dataPlane == q.auth.dataPlane && q.envelope.schemaVersion == cfg.schemaVersion
    ensures !q.wellShaped ==> ReplyTo(cfg, s, q) == BadRequest("envelope_validation_failed")
    ensures q.wellShaped && q.envelope.dataPlane != q.auth.dataPlane ==>
              ReplyTo(cfg, s, q) == BadRequest("data_plane_id_mismatch")
    ensures q.wellShaped && q.envelope.dataPlane == q.auth.dataPlane && q.envelope.schemaVersion != cfg.schemaVersion ==>
              ReplyTo(cfg, s, q) == BadRequest("unsupported_schema_version")
    ensures !q.wellShaped || q.envelope.dataPlane != q.auth.dataPlane || q.envelope.schemaVersion != cfg.schemaVersion ==>
              Serve(cfg, s, q) == s && !Processes(cfg, s, q)
    ensures q.wellShaped && q.envelope.dataPlane == q.auth.dataPlane && q.envelope.schemaVersion == cfg.schemaVersion ==>
              !ReplyTo(cfg, s, q).BadRequest?
  {
    hide FanOut, BodyFor, ScopedKey;
  }

  /** What an answer of 202 lists when the request was processed: the batch id, the urns of the entities that pass the
      validation, and the verdicts on the others, each list in envelope order. */
  lemma AnswerListsTheBatch(cfg: Config, s: Server, q: Request)
    requires ReplyTo(cfg, s, q).Accepted? && !ReplyTo(cfg, s, q).replayed
    ensures var body := ReplyTo(cfg, s, q).body;
            && body.batchId == q.envelope.batchId
            && exists accepted: seq<Item> ::
                 && InOrder(q.envelope.items, cfg.check, accepted, body.rejected)
                 && |body.accepted| == |accepted|
                 && forall i :: 0 <= i < |accepted| ==> body.accepted[i] == accepted[i].urn
  {
    hide FanOut, ScopedKey, InOrder;
    SplitKeepsOrder(q.envelope.items, cfg.check);
  }

  // ---------------------------------------------------------------- runs of requests

  function Run(cfg: Config, s: Server, qs: seq<Request>): Server
    decreases |qs|
  {
    if qs == [] then s else Run(cfg, Serve(cfg, s, qs[0]), qs[1..])
  }

  /** The reply to the i-th request of a run. */
  function ReplyAt(cfg: Config, s: Server, qs: seq<Request>, i: nat): Reply
    requires i < |qs|
    decreases |qs|
  {
    if i == 0 then ReplyTo(cfg, s, qs[0]) else ReplyAt(cfg, Serve(cfg, s, qs[0]), qs[1..], i - 1)
  }

  /** How often a run processes requests with this idempotency key. */
  function TimesProcessed(cfg: Config, s: Server, qs: seq<Request>, key: string): nat
    decreases |qs|
  {
    if qs == [] then 0
    else (if KeyFor(qs[0]) == key && Processes(cfg, s, qs[0]) then 1 else 0)
         + TimesProcessed(cfg, Serve(cfg, s, qs[0]), qs[1..], key)
  }

  predicate Asks(cfg: Config, qs: seq<Request>, i: int, key: string) {
    0 <= i < |qs| && KeyFor(qs[i]) == key && WellFormed(cfg, qs[i])
  }

  /** The requests of a run that are well shaped, of their key's own data plane and of the configured version. */
  function Admissible(cfg: Config, qs: seq<Request>): seq<Request>
    decreases |qs|
  {
    if qs == [] then []
    else
      var q := qs[0];
      (if q.wellShaped && q.envelope.dataPlane == q.auth.dataPlane && q.envelope.schemaVersion == cfg.schemaVersion then [q]
       else []) + Admissible(cfg, qs[1..])
  }

  /** Main result over every run: it ends as if the others had never been made - no envelope of a foreign data plane
      leaves a record, a row, a node, a document or an event. */
  lemma {:induction false} OnlyAdmissibleRequestsCount(cfg: Config, s: Server, qs: seq<Request>, key: string)
    ensures Run(cfg, s, qs) == Run(cfg, s, Admissible(cfg, qs))
    ensures TimesProcessed(cfg, s, qs, key) == TimesProcessed(cfg, s, Admissible(cfg, qs), key)
    decreases |qs|
  {
    hide Serve, Processes, KeyFor;
    if qs != [] {
      AdmissionIsExact(cfg, s, qs[0]);
      OnlyAdmissibleRequestsCount(cfg, Serve(cfg, s, qs[0]), qs[1..], key);
      var rest := Admissible(cfg, qs[1..]);
      assert Admissible(cfg, qs) == rest || Admissible(cfg, qs) == [qs[0]] + rest;
      assert ([qs[0]] + rest)[1..] == rest;
    }
  }

  // ---------------------------------------------------------------- exactly once

  /** Once a record is stored, every request with its key inside the TTL is answered from it. */
  lemma {:induction false} StoredBatchesReplay(cfg: Config, s: Server, qs: seq<Request>, key: string)
    requires key in s.records
    requires forall i :: Asks(cfg, qs, i, key) ==> !Expired(s.records[key], qs[i].now, cfg.ttl)
    ensures TimesProcessed(cfg, s, qs, key) == 0
    ensures forall i :: Asks(cfg, qs, i, key) ==> ReplyAt(cfg, s, qs, i) == Accepted(s.records[key].body, true)
    ensures key in Run(cfg, s, qs).records && Run(cfg, s, qs).records[key] == s.records[key]
    decreases |qs|
  {
    if qs != [] {
      hide FanOut, BodyFor, BadRequestError, ScopedKey;
      assert Asks(cfg, qs, 0, key) <==> KeyFor(qs[0]) == key && WellFormed(cfg, qs[0]);
      var s1 := Serve(cfg, s, qs[0]);
      assert key in s1.records && s1.records[key] == s.records[key];
      forall i | Asks(cfg, qs[1..], i, key) ensures !Expired(s.records[key], qs[1..][i].now, cfg.ttl) {
        assert Asks(cfg, qs, i + 1, key);
      }
      StoredBatchesReplay(cfg, s1, qs[1..], key);
      forall i | Asks(cfg, qs, i, key) ensures ReplyAt(cfg, s, qs, i) == Accepted(s.records[key].body, true) {
        if i > 0 {
          assert Asks(cfg, qs[1..], i - 1, key);
        }
      }
    }
  }

  predicate FirstAsk(cfg: Config, qs: seq<Request>, i: int, key: string) {
    Asks(cfg, qs, i, key) && forall h :: 0 <= h < i ==> !Asks(cfg, qs, h, key)
  }

  /** Hypotheses of the exactly-once law for one key: no record yet, all its requests within the TTL of the
      record the first one leaves, and no store write raises for it. */
  ghost predicate CleanRun(cfg: Config, s: Server, qs: seq<Request>, key: string) {
    && key !in s.records
    && (forall i, j :: FirstAsk(cfg, qs, i, key) && Asks(cfg, qs, j, key) && i < j ==> qs[j].now - qs[i].storedAt <= cfg.ttl)
    && (forall i :: Asks(cfg, qs, i, key) ==> ReplyAt(cfg, s, qs, i) != ServerError)
  }

  /** The body every request with this key is answered with: that of the first one. */
  function FirstBody(cfg: Config, qs: seq<Request>, key: string): Option<Body>
    decreases |qs|
  {
    if qs == [] then None
    else if KeyFor(qs[0]) == key && WellFormed(cfg, qs[0]) then Some(BodyFor(cfg, qs[0]))
    else FirstBody(cfg, qs[1..], key)
  }

  lemma CleanRunTail(cfg: Config, s: Server, qs: seq<Request>, key: string)
    requires CleanRun(cfg, s, qs, key) && qs != [] && !Asks(cfg, qs, 0, key)
    ensures CleanRun(cfg, Serve(cfg, s, qs[0]), qs[1..], key)
  {
    hide FanOut, BodyFor, BadRequestError, ScopedKey, ReplyTo;
    var s1 := Serve(cfg, s, qs[0]);
    assert key !in s1.records;
    forall i | Asks(cfg, qs[1..], i, key) ensures ReplyAt(cfg, s1, qs[1..], i) != ServerError && Asks(cfg, qs, i + 1,
        key) {
      assert Asks(cfg, qs, i + 1, key);
      assert ReplyAt(cfg, s, qs, i + 1) == ReplyAt(cfg, s1, qs[1..], i);
    }
    forall i | FirstAsk(cfg, qs[1..], i, key) ensures FirstAsk(cfg, qs, i + 1, key) {
      assert Asks(cfg, qs, i + 1, key);
      forall h | 0 <= h < i + 1 ensures !Asks(cfg, qs, h, key) {
        assert h > 0 ==> (Asks(cfg, qs, h, key) <==> Asks(cfg, qs[1..], h - 1, key));
      }
    }
  }

  /** Main result: over every interleaving of requests, a batch id is processed exactly once if it is asked for
      at all, and every reply to it carries the accepted and rejected lists of that one processing. */
  lemma {:induction false} ExactlyOnce(cfg: Config, s: Server, qs: seq<Request>, key: string)
    requires CleanRun(cfg, s, qs, key)
    ensures TimesProcessed(cfg, s, qs, key) == if exists i :: Asks(cfg, qs, i, key) then 1 else 0
    ensures forall i :: Asks(cfg, qs, i, key) ==>
              FirstBody(cfg, qs, key).Some? && ReplyAt(cfg, s, qs, i).Accepted? &&
              ReplyAt(cfg, s, qs, i).body == FirstBody(cfg, qs, key).value
    decreases |qs|
  {
    if qs != [] {
      var s1 := Serve(cfg, s, qs[0]);
      if Asks(cfg, qs, 0, key) {
        hide FanOut, BodyFor, BadRequestError, ScopedKey;
        assert ReplyAt(cfg, s, qs, 0) != ServerError && FirstAsk(cfg, qs, 0, key);
        assert s1.records[key] == Stored(BodyFor(cfg, qs[0]), qs[0].storedAt);
        forall i | Asks(cfg, qs[1..], i, key) ensures !Expired(s1.records[key], qs[1..][i].now, cfg.ttl) {
          assert Asks(cfg, qs, i + 1, key);
        }
        StoredBatchesReplay(cfg, s1, qs[1..], key);
        forall i | Asks(cfg, qs, i, key)
          ensures ReplyAt(cfg, s, qs, i).Accepted? && ReplyAt(cfg, s, qs, i).body == BodyFor(cfg, qs[0])
        {
          if i > 0 {
            assert Asks(cfg, qs[1..], i - 1, key);
          }
        }
      } else {
        CleanRunTail(cfg, s, qs, key);
        hide Serve, ReplyTo, Processes, BodyFor, ScopedKey, CleanRun, WellFormed;
        ExactlyOnce(cfg, s1, qs[1..], key);
        forall i | Asks(cfg, qs, i, key) ensures i > 0 && Asks(cfg, qs[1..], i - 1, key) {
        }
        if i :| Asks(cfg, qs[1..], i, key) {
          assert Asks(cfg, qs, i + 1, key);
        }
        NotAskedNotProcessed(cfg, s, qs, key);
      }
    }
  }

  lemma NotAskedNotProcessed(cfg: Config, s: Server, qs: seq<Request>, key: string)
    requires qs != [] && !Asks(cfg, qs, 0, key)
    ensures !(KeyFor(qs[0]) == key && Processes(cfg, s, qs[0]))
    ensures FirstBody(cfg, qs, key) == FirstBody(cfg, qs[1..], key)
  {
    hide FanOut, BodyFor, ScopedKey;
  }

  /** The TTL hypothesis is exact: a stored batch id asked for again is processed a second time precisely when
      more than the TTL has passed since its record was written. */
  lemma ReprocessedIffExpired(cfg: Config, s: Server, q: Request)
    requires WellFormed(cfg, q) && KeyFor(q) in s.records
    ensures Processes(cfg, s, q) <==> q.now - s.records[KeyFor(q)].at > cfg.ttl
    ensures !Processes(cfg, s, q) ==> Serve(cfg, s, q) == s
  {
    hide FanOut, BodyFor, ScopedKey;
  }
}
