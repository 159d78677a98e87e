/** Agent, network and server over whole runs: every answer accounts for its batch, every batch is fanned out once,
    and each row holds what one fan-out of the batches, in order of first arrival, wrote. */
module Together {
  import opened Types
  import opened Catalog
  import opened Ingest
  import opened Delivery
  import opened Convergence
  import opened Batching
  import opened Validation
  import opened Agent
  import opened NothingLost
  import opened Conservation
  import opened Moves
  import opened Wire

  /** The ids are fresh, no one else uses them, and the server starts without a record under any of them. */
  ghost predicate NetOk(net: Net) {
    && IdsAreFresh(WorldOn(net)) && KeysAreOurs(net)
    && (forall n: nat :: RecordOn(net, net.start, net.uuid(n)) == None)
  }

  function RecordOn(net: Net, s: Server, id: string): Option<Stored> {
    Lookup(s.records, KeyOn(net, id))
  }

  // ---------------------------------------------------------------- the records of a run

  /** Every record is of the batch its id stands for, and there is none under an id still to be drawn. */
  ghost predicate RecordsAreOfBatches(net: Net, c: Core) {
    && (forall k :: 0 <= k < |c.log| ==> RecordIsOf(net, RecordOn(net, ServerAt(net, c.log), c.log[k].batch.id), c.log[k].batch))
    && NoneAhead(net, ServerAt(net, c.log), c.minted)
  }

  ghost predicate NoneAhead(net: Net, s: Server, minted: nat) {
    forall n: nat :: n >= minted ==> RecordOn(net, s, net.uuid(n)) == None
  }

  ghost predicate FromSupply(net: Net, id: string) {
    exists n: nat :: id == net.uuid(n)
  }

  lemma MovedBatchIsKnown(net: Net, c: Core, s: Move)
    requires Logged(WorldOn(net), c) && RecordsAreOfBatches(net, c) && Possible(WorldOn(net), c, s)
    ensures var b := MoveBatch(WorldOn(net), c, s);
            FromSupply(net, b.id) && RecordIsOf(net, RecordOn(net, ServerAt(net, c.log), b.id), b)
  {
    hide ServerAt, RecordIsOf, RecordOn, OneBatchPerId, Truthful;
    var w := WorldOn(net);
    if s.Again? {
      InLogIsDrawn(w, c, c.dead[s.path]);
      var n: nat :| n < c.minted && w.uuid(n) == c.dead[s.path].id;
      assert c.dead[s.path].id == net.uuid(n);
      var k :| 0 <= k < |c.log| && c.log[k].batch == c.dead[s.path];
    } else {
      assert s.batch.id == net.uuid(c.minted);
      NoRecordIsOf(net, s.batch);
    }
  }

  lemma NoRecordIsOf(net: Net, b: Batch)
    ensures RecordIsOf(net, None, b)
  {
  }

  /** What one push does to the records under this agent's keys. */
  lemma PushKeepsRecords(net: Net, s: Server, k: nat, b: Batch)
    requires KeysAreOurs(net) && FromSupply(net, b.id) && RecordIsOf(net, RecordOn(net, s, b.id), b)
    ensures RecordIsOf(net, RecordOn(net, AfterPush(net, s, k, b), b.id), b)
    ensures forall id :: FromSupply(net, id) && id != b.id ==>
              RecordOn(net, AfterPush(net, s, k, b), id) == RecordOn(net, s, id)
  {
    hide RecordIsOf, KeysAreOurs, ServerAfter, KeyOn;
    PostsKeepRecordOf(net, s, k, b, PostsMade(net, s, k, b));
    forall id | FromSupply(net, id) && id != b.id ensures RecordOn(net, AfterPush(net, s, k, b), id) == RecordOn(net,
        s, id) {
      var n: nat :| id == net.uuid(n);
      PostsKeepOtherRecord(net, s, k, b, PostsMade(net, s, k, b), n);
    }
  }

  lemma DrawnIsFromSupply(net: Net, n: nat, id: string)
    requires Drawn(WorldOn(net), n, id)
    ensures FromSupply(net, id)
  {
    var i: nat :| i < n && WorldOn(net).uuid(i) == id;
    assert id == net.uuid(i);
  }

  lemma NothingNewAhead(net: Net, c: Core, s: Move)
    requires NetOk(net) && Logged(WorldOn(net), c) && RecordsAreOfBatches(net, c) && Possible(WorldOn(net), c, s)
    ensures var d := AfterMove(WorldOn(net), c, s);
            NoneAhead(net, AfterPush(net, ServerAt(net, c.log), |c.log|, MoveBatch(WorldOn(net), c, s)), d.minted)
  {
    var w := WorldOn(net);
    MovedBatchIsKnown(net, c, s);
    MoveIsLogged(w, c, s);
    var b, d, before := MoveBatch(w, c, s), AfterMove(w, c, s), ServerAt(net, c.log);
    PushKeepsRecords(net, before, |c.log|, b);
    MovedBatchIsDrawn(net, c, s);
    hide ServerAt, AfterPush, RecordIsOf, RecordOn, AfterMove, Logged, KeysAreOurs;
    var i: nat :| i < d.minted && w.uuid(i) == b.id;
    forall n: nat | n >= d.minted ensures RecordOn(net, AfterPush(net, before, |c.log|, b), net.uuid(n)) == None {
      assert w.uuid(n) != w.uuid(i);
      assert FromSupply(net, net.uuid(n));
    }
  }

  lemma MovedBatchIsDrawn(net: Net, c: Core, s: Move)
    requires Logged(WorldOn(net), c) && Possible(WorldOn(net), c, s)
    ensures Drawn(WorldOn(net), AfterMove(WorldOn(net), c, s).minted, MoveBatch(WorldOn(net), c, s).id)
  {
    var w := WorldOn(net);
    MoveIsLogged(w, c, s);
    hide AfterMove, Truthful, OneBatchPerId;
    if s.Again? {
      InLogIsDrawn(w, c, c.dead[s.path]);
    }
  }

  lemma MoveKeepsRecords(net: Net, c: Core, s: Move)
    requires NetOk(net) && Logged(WorldOn(net), c) && RecordsAreOfBatches(net, c) && Possible(WorldOn(net), c, s)
    ensures RecordsAreOfBatches(net, AfterMove(WorldOn(net), c, s))
  {
    var w := WorldOn(net);
    MovedBatchIsKnown(net, c, s);
    MoveIsLogged(w, c, s);
    OneBatchGrows(w, c, s);
    var b, d, before := MoveBatch(w, c, s), AfterMove(w, c, s), ServerAt(net, c.log);
    var x := Attempt(b, OutcomeOf(w, c.log, b));
    ServerStep(net, c.log, x);
    PushKeepsRecords(net, before, |c.log|, b);
    NothingNewAhead(net, c, s);
    hide ServerAt, AfterPush, RecordIsOf, RecordOn, AfterMove, OutcomeOf, NetOk, Truthful, NoneAhead, FromSupply,
         Drawn;
    forall k | 0 <= k < |d.log| ensures RecordIsOf(net, RecordOn(net, ServerAt(net, d.log), d.log[k].batch.id),
        d.log[k].batch) {
      if k < |c.log| {
        assert d.log[k] == c.log[k];
        DrawnIsFromSupply(net, c.minted, c.log[k].batch.id);
        assert d.log[|c.log|].batch == b;
      }
    }
  }

  // ---------------------------------------------------------------- every answer in full

  /** Every successful answer lists as many entities of its batch accepted as the server's validation lets pass, and as
      many rejected as it does not. */
  ghost predicate AnsweredAsValidated(net: Net, log: seq<Attempt>) {
    forall k :: 0 <= k < |log| && log[k].outcome.Pushed? ==> ListsAsValidated(net, log[k])
  }

  ghost predicate ListsAsValidated(net: Net, x: Attempt)
    requires x.outcome.Pushed?
  {
    && |x.outcome.accepted| == CountPassing(x.batch.entities, net.cfg.check)
    && |x.outcome.rejected| == CountFailing(x.batch.entities, net.cfg.check)
  }

  /** How many entities of the answered batches pass the server's validation, and how many do not. */
  function PassingIn(net: Net, log: seq<Attempt>): nat {
    if log == [] then 0
    else PassingIn(net, log[..|log| - 1]) +
         if log[|log| - 1].outcome.Pushed? then CountPassing(log[|log| - 1].batch.entities, net.cfg.check) else 0
  }

  function FailingIn(net: Net, log: seq<Attempt>): nat {
    if log == [] then 0
    else FailingIn(net, log[..|log| - 1]) +
         if log[|log| - 1].outcome.Pushed? then CountFailing(log[|log| - 1].batch.entities, net.cfg.check) else 0
  }

  lemma {:induction false} ListedAsValidated(net: Net, log: seq<Attempt>)
    requires AnsweredAsValidated(net, log)
    ensures AcceptedIn(log) == PassingIn(net, log) && RejectedIn(log) == FailingIn(net, log)
  {
    hide CountPassing, CountFailing;
    if log != [] {
      var front := log[..|log| - 1];
      forall k | 0 <= k < |front| && front[k].outcome.Pushed? ensures ListsAsValidated(net, front[k]) {
        assert front[k] == log[k];
      }
      ListedAsValidated(net, front);
    }
  }

  /** Main invariant of agent and server together. */
  ghost predicate Coherent(net: Net, c: Core) {
    Logged(WorldOn(net), c) && RecordsAreOfBatches(net, c) && FullyAnswered(c.log) && AnsweredAsValidated(net, c.log)
  }

  lemma MoveIsAnsweredInFull(net: Net, c: Core, s: Move)
    requires NetOk(net) && Coherent(net, c) && Possible(WorldOn(net), c, s)
    ensures FullyAnswered(AfterMove(WorldOn(net), c, s).log) && AnsweredAsValidated(net, AfterMove(WorldOn(net), c, s).log)
  {
    var w := WorldOn(net);
    MovedBatchIsKnown(net, c, s);
    MoveIsLogged(w, c, s);
    var b, d, before := MoveBatch(w, c, s), AfterMove(w, c, s), ServerAt(net, c.log);
    OutcomeOnNet(net, c.log, b);
    if OutcomeOf(w, c.log, b).Pushed? {
      SuccessIsInFull(net, before, |c.log|, b);
    }
    hide ServerAt, PushEnds, RecordIsOf, AfterMove, OutcomeOf, NetOk, Logged, RecordsAreOfBatches;
    forall k | 0 <= k < |d.log| && d.log[k].outcome.Pushed?
      ensures |d.log[k].outcome.accepted| + |d.log[k].outcome.rejected| == |d.log[k].batch.entities|
      ensures ListsAsValidated(net, d.log[k])
    {
      assert k < |c.log| ==> d.log[k] == c.log[k];
    }
  }

  lemma {:induction false} LeadsKeepsCoherent(net: Net, a: Core, moves: seq<Move>, b: Core)
    requires NetOk(net) && Coherent(net, a) && Leads(WorldOn(net), a, moves, b)
    ensures Coherent(net, b)
    decreases |moves|
  {
    hide NetOk, Logged, RecordsAreOfBatches, FullyAnswered, AnsweredAsValidated, AfterMove, Possible;
    if moves != [] {
      var w := WorldOn(net);
      FreshOn(net);
      MoveKeepsLogged(w, a, moves[0]);
      MoveKeepsRecords(net, a, moves[0]);
      MoveIsAnsweredInFull(net, a, moves[0]);
      LeadsKeepsCoherent(net, AfterMove(w, a, moves[0]), moves[1..], b);
    }
  }

  lemma FreshOn(net: Net)
    requires NetOk(net)
    ensures IdsAreFresh(WorldOn(net)) && KeysAreOurs(net)
  {
  }

  lemma ReachesCoherent(net: Net, a: Core, b: Core)
    requires NetOk(net) && Coherent(net, a) && Reaches(WorldOn(net), a, b)
    ensures Coherent(net, b)
  {
    hide NetOk, Coherent, Leads;
    var moves :| Leads(WorldOn(net), a, moves, b);
    LeadsKeepsCoherent(net, a, moves, b);
  }

  lemma FreshIsCoherent(net: Net)
    requires NetOk(net)
    ensures Coherent(net, CoreOf(FreshAgent))
  {
  }

  lemma CyclesAreCoherent(net: Net, limits: Limits, cs: seq<Cycle>)
    requires NetOk(net)
    ensures Coherent(net, CoreOf(RunCycles(WorldOn(net), limits, FreshAgent, cs)))
  {
    FreshIsCoherent(net);
    hide NetOk, Coherent, Reaches, RunCycles;
    CyclesReach(WorldOn(net), limits, FreshAgent, cs);
    ReachesCoherent(net, CoreOf(FreshAgent), CoreOf(RunCycles(WorldOn(net), limits, FreshAgent, cs)));
  }

  /** The state in which run i of this cycle begins, after these earlier cycles of a new agent. */
  function AtTurn(net: Net, limits: Limits, history: seq<Cycle>, c: Cycle, i: nat): State
    requires i <= |c.runs|
  {
    var w := WorldOn(net);
    var a := RunCycles(w, limits, FreshAgent, history);
    RunSources(w, limits, RetryDeadLetters(w, a.(report := EmptyReport), c.listing, c.unreadable).state, c.runs[..i])
  }

  lemma TurnsAreCoherent(net: Net, limits: Limits, history: seq<Cycle>, c: Cycle, i: nat)
    requires NetOk(net) && i <= |c.runs|
    ensures Coherent(net, CoreOf(AtTurn(net, limits, history, c, i)))
  {
    hide NetOk, Coherent, Reaches, RunCycles, RetryDeadLetters, RunSources;
    var w := WorldOn(net);
    var a := RunCycles(w, limits, FreshAgent, history).(report := EmptyReport);
    CyclesAreCoherent(net, limits, history);
    RetryReaches(w, a, c.listing, c.unreadable);
    var b := RetryDeadLetters(w, a, c.listing, c.unreadable).state;
    ReachesCoherent(net, CoreOf(a), CoreOf(b));
    RunsReach(w, limits, b, c.runs[..i]);
    ReachesCoherent(net, CoreOf(b), CoreOf(AtTurn(net, limits, history, c, i)));
  }

  /** Main result, conservation across the planes: for every source run that completes, after any history of cycles
      over any network - pushes failing or raising, responses lost, dead letters retried, batches replayed or processed
      again after their record expired - its report counts as accepted the entities of its answered batches that pass
      the server's validation, as rejected those that do not, and discovered equals invalid plus accepted plus rejected
      plus dead-lettered. */
  lemma RunsConserveAcrossPlanes(net: Net, limits: Limits, history: seq<Cycle>, c: Cycle, i: nat)
    requires NetOk(net) && i < |c.runs|
    requires RunSource(WorldOn(net), limits, AtTurn(net, limits, history, c, i), c.runs[i]).Go?
    ensures var a := AtTurn(net, limits, history, c, i);
            var b := RunSource(WorldOn(net), limits, a, c.runs[i]).state;
            && a.log <= b.log
            && b.report.accepted - a.report.accepted == PassingIn(net, b.log[|a.log|..])
            && b.report.rejected - a.report.rejected == FailingIn(net, b.log[|a.log|..])
            && b.report.discovered - a.report.discovered ==
               (b.report.invalid - a.report.invalid) + (b.report.accepted - a.report.accepted)
               + (b.report.rejected - a.report.rejected) + DeadEntities(b.log[|a.log|..])
  {
    TurnsAreCoherent(net, limits, history, c, i);
    hide NetOk, Reaches, RunSource, AtTurn, Logged, RecordsAreOfBatches, FullyAnswered, DeadEntities, PassingIn, FailingIn,
         AnsweredAsValidated;
    var w, a := WorldOn(net), AtTurn(net, limits, history, c, i);
    var b := RunSource(w, limits, a, c.runs[i]).state;
    RunReaches(w, limits, a, c.runs[i]);
    ReachesCoherent(net, CoreOf(a), CoreOf(b));
    CompletedRunConserves(w, limits, a, c.runs[i]);
    AnsweredSuffix(net, b.log, |a.log|);
    ListedAsValidated(net, b.log[|a.log|..]);
  }

  /** The same two figures for every cycle, whatever fails or raises in it: they count the entities of the batches that
      its source runs - not its retries - had answered. */
  lemma CyclesReportWhatPassed(net: Net, limits: Limits, history: seq<Cycle>, c: Cycle)
    requires NetOk(net)
    ensures var a := RunCycles(WorldOn(net), limits, FreshAgent, history);
            var b, mid := RunCycle(WorldOn(net), limits, a, c), AfterRetries(WorldOn(net), a, c).state.log;
            && a.log <= mid <= b.log
            && b.report.accepted == PassingIn(net, b.log[|mid|..])
            && b.report.rejected == FailingIn(net, b.log[|mid|..])
  {
    hide NetOk, Coherent, Reaches, RunCycles, RunCycle, AfterRetries, PassingIn, FailingIn, AnsweredAsValidated, AcceptedIn,
         RejectedIn, CountPushed, CountFailed;
    var w := WorldOn(net);
    var a := RunCycles(w, limits, FreshAgent, history);
    var b, mid := RunCycle(w, limits, a, c), AfterRetries(w, a, c).state.log;
    CyclesAreCoherent(net, limits, history);
    CycleReaches(w, limits, a, c);
    ReachesCoherent(net, CoreOf(a), CoreOf(b));
    CycleReportAddsUp(w, limits, a, c);
    CoherentIsAnswered(net, CoreOf(b));
    AnsweredSuffix(net, b.log, |mid|);
    ListedAsValidated(net, b.log[|mid|..]);
  }

  lemma CoherentIsAnswered(net: Net, c: Core)
    requires Coherent(net, c)
    ensures FullyAnswered(c.log) && AnsweredAsValidated(net, c.log)
  {
  }

  lemma AnsweredSuffix(net: Net, log: seq<Attempt>, n: nat)
    requires FullyAnswered(log) && AnsweredAsValidated(net, log) && n <= |log|
    ensures FullyAnswered(log[n..]) && AnsweredAsValidated(net, log[n..])
  {
    forall k | 0 <= k < |log[n..]| && log[n..][k].outcome.Pushed?
      ensures |log[n..][k].outcome.accepted| + |log[n..][k].outcome.rejected| == |log[n..][k].batch.entities|
      ensures ListsAsValidated(net, log[n..][k])
    {
      assert log[n..][k] == log[n + k];
    }
  }

  // ---------------------------------------------------------------- every batch once

  /** Everything that reaches the server while the pushes of the log are made, in order. */
  function TraceOf(net: Net, log: seq<Attempt>): seq<Request> {
    if log == [] then []
    else TraceOf(net, log[..|log| - 1]) + TraceOfPush(net, log[..|log| - 1], log[|log| - 1].batch)
  }

  function TraceOfPush(net: Net, log: seq<Attempt>, b: Batch): seq<Request> {
    Trace(CampaignFor(net, |log|, b), PostsMade(net, ServerAt(net, log), |log|, b))
  }

  /** The post of the push made after this log that reaches the server first. */
  function Arrival(net: Net, log: seq<Attempt>, b: Batch): Option<nat> {
    FirstArrival(net, |log|, PostsMade(net, ServerAt(net, log), |log|, b))
  }

  /** When the record of the id's first arrival was written, if a batch with this id has arrived. */
  function ArrivedFirst(net: Net, log: seq<Attempt>, id: string): Option<int> {
    if log == [] then None
    else
      var front, b := log[..|log| - 1], log[|log| - 1].batch;
      match ArrivedFirst(net, front, id)
      case Some(t) => Some(t)
      case None =>
        if b.id != id || Arrival(net, front, b).None? then None
        else Some(net.posts(|front|, Arrival(net, front, b).value).storedAt)
  }

  /** The accepted records of the batches in the order in which they arrived first. */
  function FannedOut(net: Net, log: seq<Attempt>): seq<Record> {
    if log == [] then []
    else
      var front, b := log[..|log| - 1], log[|log| - 1].batch;
      FannedOut(net, front) + if ArrivedFirst(net, front, b.id).None? && Arrival(net, front, b).Some? then Records(net, b) else []
  }

  function TimesFannedOut(net: Net, log: seq<Attempt>, id: string): nat {
    TimesProcessed(net.cfg, net.start, TraceOf(net, log), KeyOn(net, id))
  }

  /** Posts of one batch, its retries included, fall within the TTL of the record an earlier one may have left. (Posts
      that are never made have no clock readings of their own and can be taken to comply.) */
  ghost predicate WithinTtl(net: Net, log: seq<Attempt>) {
    && (forall k: nat, i: nat, j: nat :: i < j ==> net.posts(k, j).now - net.posts(k, i).storedAt <= net.cfg.ttl)
    && (forall k, m, i: nat, j: nat :: 0 <= k < m < |log| && log[k].batch.id == log[m].batch.id ==>
          net.posts(m, j).now - net.posts(k, i).storedAt <= net.cfg.ttl)
  }

  /** The server can store whatever it accepts. */
  ghost predicate StoresWhatItAccepts(net: Net) {
    forall item :: net.cfg.check(item).None? ==> Storable(BuildRecord(item, net.auth))
  }

  lemma AcceptedIsStorable(net: Net, b: Batch)
    requires StoresWhatItAccepts(net)
    ensures AllStorable(Records(net, b))
  {
    SplitConserves(b.entities, net.cfg.check);
    hide Storable, BuildRecord;
    var kept := AcceptedItems(b.entities, net.cfg.check);
    forall i | 0 <= i < |kept| ensures Storable(BuildRecord(kept[i], net.auth)) {
      assert kept[i] in kept;
    }
  }

  lemma {:induction false} ServerRunsLog(net: Net, log: seq<Attempt>)
    ensures ServerAt(net, log) == Run(net.cfg, net.start, TraceOf(net, log))
  {
    hide ServerAfter, Run, Trace, PostsMade;
    if log == [] {
      RunNone(net.cfg, net.start);
    } else {
      var front, b := log[..|log| - 1], log[|log| - 1].batch;
      ServerRunsLog(net, front);
      ServerRunsTrace(net.cfg, ServerAt(net, front), CampaignFor(net, |front|, b),
          PostsMade(net, ServerAt(net, front), |front|, b));
      RunConcatenates(net.cfg, net.start, TraceOf(net, front), TraceOfPush(net, front, b));
    }
  }

  lemma RunNone(cfg: Config, s: Server)
    ensures Run(cfg, s, []) == s
  {
  }

  /** What one more push adds to the count of an id. */
  lemma TimesOneMore(net: Net, log: seq<Attempt>, x: Attempt, id: string)
    ensures TimesFannedOut(net, log + [x], id) ==
            TimesFannedOut(net, log, id) + TimesProcessed(net.cfg, ServerAt(net, log), TraceOfPush(net, log, x.batch),
                KeyOn(net, id))
  {
    hide TimesProcessed, ServerAt, KeyOn, TraceOfPush;
    assert (log + [x])[..|log|] == log;
    ServerRunsLog(net, log);
    TimesConcatenate(net.cfg, net.start, TraceOf(net, log), TraceOfPush(net, log, x.batch), KeyOn(net, id));
  }

  lemma ArrivedOneMore(net: Net, log: seq<Attempt>, x: Attempt, id: string)
    ensures ArrivedFirst(net, log + [x], id) ==
            match ArrivedFirst(net, log, id)
            case Some(t) => Some(t)
            case None =>
              if x.batch.id != id || Arrival(net, log, x.batch).None? then None
              else Some(net.posts(|log|, Arrival(net, log, x.batch).value).storedAt)
  {
    hide Arrival;
    assert (log + [x])[..|log|] == log;
  }

  lemma FannedOneMore(net: Net, log: seq<Attempt>, x: Attempt)
    ensures FannedOut(net, log + [x]) ==
            FannedOut(net, log) +
            if ArrivedFirst(net, log, x.batch.id).None? && Arrival(net, log, x.batch).Some? then Records(net, x.batch) else []
  {
    hide Arrival, ArrivedFirst, Records;
    assert (log + [x])[..|log|] == log;
  }

  /** The first arrival was a post of an earlier push of that id. */
  lemma {:induction false} ArrivalIsAPost(net: Net, log: seq<Attempt>, id: string) returns (k: nat, i: nat)
    requires ArrivedFirst(net, log, id).Some?
    ensures k < |log| && log[k].batch.id == id && ArrivedFirst(net, log, id) == Some(net.posts(k, i).storedAt)
  {
    hide Arrival;
    var front := log[..|log| - 1];
    if ArrivedFirst(net, front, id).Some? {
      k, i := ArrivalIsAPost(net, front, id);
    } else {
      k, i := |front|, Arrival(net, front, log[|front|].batch).value;
    }
  }

  /** An id has been fanned out once, and its record written then, if a batch with this id has arrived. */
  ghost predicate OnceFor(net: Net, log: seq<Attempt>, id: string) {
    var record := RecordOn(net, ServerAt(net, log), id);
    match ArrivedFirst(net, log, id)
    case None => record == None && TimesFannedOut(net, log, id) == 0
    case Some(t) => record.Some? && record.value.at == t && TimesFannedOut(net, log, id) == 1
  }

  ghost predicate RowFollows(net: Net, log: seq<Attempt>, row: RowKey) {
    Lookup(ServerAt(net, log).catalog.rows, row) == FoldSkip(Lookup(net.start.catalog.rows, row), FannedOut(net, log),
        row)
  }

  /** The record the next push of this batch meets does not expire on it. */
  lemma NextIsInTime(net: Net, log: seq<Attempt>, x: Attempt)
    requires WithinTtl(net, log + [x]) && OnceFor(net, log, x.batch.id)
    ensures var record := RecordOn(net, ServerAt(net, log), x.batch.id);
            InTime(net, record, |log|) && Replays(net, record, |log|) == ArrivedFirst(net, log, x.batch.id).Some?
  {
    hide ArrivedFirst, TimesFannedOut, ServerAt, RecordOn;
    var record, more := RecordOn(net, ServerAt(net, log), x.batch.id), log + [x];
    if ArrivedFirst(net, log, x.batch.id).Some? {
      var k, i := ArrivalIsAPost(net, log, x.batch.id);
      assert more[k].batch.id == more[|log|].batch.id;
      forall j: nat ensures !IsExpired(net, record.value, |log|, j) {
      }
    }
  }

  lemma PushIsOnce(net: Net, log: seq<Attempt>, x: Attempt, row: RowKey)
    requires KeysAreOurs(net) && StoresWhatItAccepts(net) && WithinTtl(net, log + [x])
    requires FromSupply(net, x.batch.id) && OnceFor(net, log, x.batch.id)
    ensures OnceFor(net, log + [x], x.batch.id)
    ensures RowIsOurs(net, row) && RowFollows(net, log, row) ==> RowFollows(net, log + [x], row)
  {
    var s, b := ServerAt(net, log), x.batch;
    AcceptedIsStorable(net, b);
    NextIsInTime(net, log, x);
    PushIsExact(net, s, |log|, b, row);
    ServerStep(net, log, x);
    TimesOneMore(net, log, x, b.id);
    ArrivedOneMore(net, log, x, b.id);
    FannedOneMore(net, log, x);
    hide ServerAt, AfterPush, KeyOn, TimesProcessed, Trace, InTime, RowIsOurs, KeysAreOurs, StoresWhatItAccepts,
         WithinTtl, AllStorable, FoldSkip, Records, ArrivedFirst, FannedOut, PostsMade, FirstArrival, TraceOf,
         IsExpired;
    FoldConcatenates(Lookup(net.start.catalog.rows, row), FannedOut(net, log), Records(net, b), row);
    assert FannedOut(net, log) + [] == FannedOut(net, log);
  }

  lemma OtherIdsStay(net: Net, log: seq<Attempt>, x: Attempt, id: string)
    requires KeysAreOurs(net) && FromSupply(net, id) && id != x.batch.id && OnceFor(net, log, id)
    ensures OnceFor(net, log + [x], id)
  {
    var s, b, n := ServerAt(net, log), x.batch, PostsMade(net, ServerAt(net, log), |log|, x.batch);
    var m: nat :| id == net.uuid(m);
    ServerStep(net, log, x);
    TimesOneMore(net, log, x, id);
    ArrivedOneMore(net, log, x, id);
    PostsKeepOtherRecord(net, s, |log|, b, n, m);
    var trace := TraceOfPush(net, log, b);
    forall j | 0 <= j < |trace| ensures KeyFor(trace[j]) != KeyOn(net, id) {
      TraceUsesOwnKey(net, |log|, b, n, m, j);
    }
    OthersKeepRecord(net.cfg, s, trace, KeyOn(net, id));
    hide ServerAt, ServerAfter, KeyOn, KeyFor, TimesProcessed, Trace, KeysAreOurs, ArrivedFirst, PostsMade,
         FirstArrival, TraceOf, Run;
  }

  /** Every id of the supply and every row that is this agent's alone. */
  ghost predicate Settled(net: Net, log: seq<Attempt>) {
    && (forall n: nat :: OnceFor(net, log, net.uuid(n)))
    && (forall row :: RowIsOurs(net, row) ==> RowFollows(net, log, row))
  }

  lemma PushSettles(net: Net, log: seq<Attempt>, x: Attempt)
    requires KeysAreOurs(net) && StoresWhatItAccepts(net) && WithinTtl(net, log + [x])
    requires FromSupply(net, x.batch.id) && Settled(net, log)
    ensures Settled(net, log + [x])
  {
    hide KeysAreOurs, StoresWhatItAccepts, WithinTtl, OnceFor, RowIsOurs, RowFollows;
    assert OnceFor(net, log, x.batch.id) by {
      var n: nat :| x.batch.id == net.uuid(n);
    }
    forall n: nat ensures OnceFor(net, log + [x], net.uuid(n)) {
      if net.uuid(n) == x.batch.id {
        PushIsOnce(net, log, x, RowKey(Table, "", ""));
      } else {
        assert FromSupply(net, net.uuid(n));
        OtherIdsStay(net, log, x, net.uuid(n));
      }
    }
    forall row | RowIsOurs(net, row) ensures RowFollows(net, log + [x], row) {
      PushIsOnce(net, log, x, row);
    }
  }

  lemma WithinTtlBefore(net: Net, log: seq<Attempt>, more: seq<Attempt>)
    requires WithinTtl(net, more) && log <= more
    ensures WithinTtl(net, log)
  {
    forall k, m, i: nat, j: nat | 0 <= k < m < |log| && log[k].batch.id == log[m].batch.id
      ensures net.posts(m, j).now - net.posts(k, i).storedAt <= net.cfg.ttl
    {
      assert more[k].batch.id == more[m].batch.id;
    }
  }

  lemma {:induction false} LeadsSettles(net: Net, a: Core, moves: seq<Move>, b: Core)
    requires NetOk(net) && StoresWhatItAccepts(net) && WithinTtl(net, b.log)
    requires Logged(WorldOn(net), a) && Settled(net, a.log) && Leads(WorldOn(net), a, moves, b)
    ensures Settled(net, b.log)
    decreases |moves|
  {
    hide NetOk, KeysAreOurs, StoresWhatItAccepts, WithinTtl, Logged, Settled, AfterMove, Possible, MoveBatch,
         OutcomeOf;
    if moves != [] {
      var w, next := WorldOn(net), AfterMove(WorldOn(net), a, moves[0]);
      FreshOn(net);
      MoveKeepsLogged(w, a, moves[0]);
      MoveIsLogged(w, a, moves[0]);
      MovedBatchIsDrawn(net, a, moves[0]);
      var batch := MoveBatch(w, a, moves[0]);
      DrawnIsFromSupply(net, next.minted, batch.id);
      LeadsKeepsLogged(w, next, moves[1..], b);
      WithinTtlBefore(net, next.log, b.log);
      PushSettles(net, a.log, Attempt(batch, OutcomeOf(w, a.log, batch)));
      LeadsSettles(net, next, moves[1..], b);
    }
  }

  lemma FreshIsSettled(net: Net)
    requires NetOk(net)
    ensures Settled(net, [])
  {
    hide FoldSkip;
    forall n: nat ensures OnceFor(net, [], net.uuid(n)) {
    }
    forall row ensures RowFollows(net, [], row) {
      FoldNone(Lookup(net.start.catalog.rows, row), row);
    }
  }

  lemma FoldNone(x: Option<Row>, row: RowKey)
    ensures FoldSkip(x, [], row) == x
  {
  }

  /** A post of some push of this id has reached the server. */
  ghost predicate HasArrived(net: Net, log: seq<Attempt>, id: string) {
    exists m :: 0 <= m < |log| && log[m].batch.id == id && Arrival(net, log[..m], log[m].batch).Some?
  }

  lemma {:induction false} ArrivedIff(net: Net, log: seq<Attempt>, id: string)
    ensures ArrivedFirst(net, log, id).Some? <==> HasArrived(net, log, id)
  {
    hide Arrival;
    if log != [] {
      var front := log[..|log| - 1];
      ArrivedIff(net, front, id);
      forall m | 0 <= m < |front| ensures front[..m] == log[..m] && front[m] == log[m] {
      }
      if HasArrived(net, front, id) {
        var m :| 0 <= m < |front| && front[m].batch.id == id && Arrival(net, front[..m], front[m].batch).Some?;
        assert Arrival(net, log[..m], log[m].batch).Some?;
      }
      if ArrivedFirst(net, log, id).Some? && ArrivedFirst(net, front, id).None? {
        assert Arrival(net, log[..|front|], log[|front|].batch).Some?;
      }
      if m :| 0 <= m < |log| && log[m].batch.id == id && Arrival(net, log[..m], log[m].batch).Some? {
        if m < |front| {
          assert Arrival(net, front[..m], front[m].batch).Some?;
        }
      }
    }
  }

  lemma CyclesSettle(net: Net, limits: Limits, cs: seq<Cycle>)
    requires NetOk(net) && StoresWhatItAccepts(net)
    requires WithinTtl(net, RunCycles(WorldOn(net), limits, FreshAgent, cs).log)
    ensures Settled(net, RunCycles(WorldOn(net), limits, FreshAgent, cs).log)
  {
    var w := WorldOn(net);
    FreshIsSettled(net);
    FreshIsCoherent(net);
    hide NetOk, StoresWhatItAccepts, WithinTtl, Logged, Settled, RunCycles, Leads;
    CyclesReach(w, limits, FreshAgent, cs);
    var b := CoreOf(RunCycles(w, limits, FreshAgent, cs));
    var moves :| Leads(w, CoreOf(FreshAgent), moves, b);
    LeadsSettles(net, CoreOf(FreshAgent), moves, b);
  }

  /** Main result, for every run of agent, network and server - requests and responses lost, pushes failing and
      raising, dead letters retried in any order and across cycles: a batch is fanned out once if any of its posts
      arrived and never otherwise, and a row no one else writes holds what one fan-out of the accepted entities wrote,
      batch by batch in the order of first arrival. */
  lemma BatchesAreFannedOutOnce(net: Net, limits: Limits, cs: seq<Cycle>, k: nat, row: RowKey)
    requires NetOk(net) && StoresWhatItAccepts(net)
    requires WithinTtl(net, RunCycles(WorldOn(net), limits, FreshAgent, cs).log)
    requires k < |RunCycles(WorldOn(net), limits, FreshAgent, cs).log| && RowIsOurs(net, row)
    ensures var a := RunCycles(WorldOn(net), limits, FreshAgent, cs);
            && TimesFannedOut(net, a.log, a.log[k].batch.id) == (if HasArrived(net, a.log, a.log[k].batch.id) then 1 else 0)
            && Lookup(ServerNow(net, a).catalog.rows, row) ==
               FoldSkip(Lookup(net.start.catalog.rows, row), FannedOut(net, a.log), row)
  {
    CyclesSettle(net, limits, cs);
    CyclesAreCoherent(net, limits, cs);
    hide NetOk, StoresWhatItAccepts, WithinTtl, RunCycles, RowIsOurs, HasArrived, TimesFannedOut, ServerAt, FannedOut,
         FoldSkip, Logged, OnceFor, FullyAnswered, RecordsAreOfBatches;
    var a := RunCycles(WorldOn(net), limits, FreshAgent, cs);
    LoggedIsOnce(net, CoreOf(a), k);
    assert RowFollows(net, a.log, row);
  }

  /** Acknowledged means arrived. */
  lemma AcknowledgedHasArrived(net: Net, c: Core, m: nat)
    requires Logged(WorldOn(net), c) && m < |c.log| && c.log[m].outcome.Pushed? && c.log[m].batch.entities != []
    ensures HasArrived(net, c.log, c.log[m].batch.id)
  {
    var b := c.log[m].batch;
    OutcomeOnNet(net, c.log[..m], b);
    assert c.log[m].outcome == OutcomeOf(WorldOn(net), c.log[..m], b);
    hide OutcomeOf, PushEnds, ServerAt, Logged;
    PushedHasArrived(net, ServerAt(net, c.log[..m]), m, b);
    assert Arrival(net, c.log[..m], b).Some?;
  }

  /** The entity is in a batch that the server has fanned out exactly once. */
  ghost predicate FannedOutOnce(net: Net, log: seq<Attempt>, item: Item) {
    exists m :: 0 <= m < |log| && item in log[m].batch.entities && TimesFannedOut(net, log, log[m].batch.id) == 1
  }

  /** Main result over agent, network and server together, with failing and raising pushes: each valid entity of a
      source run whose cursor was saved has been fanned out exactly once, in one batch, or waits on disk; and no batch
      has been fanned out twice. */
  lemma SavedEntitiesAreFannedOutOnce(net: Net, limits: Limits, cs: seq<Cycle>, k: nat, i: nat)
    requires NetOk(net) && StoresWhatItAccepts(net)
    requires var a := RunCycles(WorldOn(net), limits, FreshAgent, cs);
             WithinTtl(net, a.log) && k < |a.saved| && i < |a.saved[k].emitted| && ValidItem(a.saved[k].emitted[i])
    ensures var a := RunCycles(WorldOn(net), limits, FreshAgent, cs);
            && (FannedOutOnce(net, a.log, a.saved[k].emitted[i]) || Queued(a, a.saved[k].emitted[i]))
            && forall m :: 0 <= m < |a.log| ==> TimesFannedOut(net, a.log, a.log[m].batch.id) <= 1
  {
    var a := RunCycles(WorldOn(net), limits, FreshAgent, cs);
    FreshOn(net);
    SavedEntitiesAreNeverLost(WorldOn(net), limits, cs, k, i);
    CyclesAreCoherent(net, limits, cs);
    CyclesSettle(net, limits, cs);
    hide NetOk, StoresWhatItAccepts, WithinTtl, RunCycles, ValidItem, Queued, TimesFannedOut, Logged,
         RecordsAreOfBatches, FullyAnswered, HasArrived;
    forall m | 0 <= m < |a.log|
      ensures TimesFannedOut(net, a.log, a.log[m].batch.id) == if HasArrived(net, a.log, a.log[m].batch.id) then 1 else 0
    {
      LoggedIsOnce(net, CoreOf(a), m);
    }
    if Acknowledged(a, a.saved[k].emitted[i]) {
      var m :| 0 <= m < |a.log| && a.log[m].outcome.Pushed? && a.saved[k].emitted[i] in a.log[m].batch.entities;
      AcknowledgedHasArrived(net, CoreOf(a), m);
    }
  }

  lemma LoggedIsOnce(net: Net, c: Core, m: nat)
    requires Logged(WorldOn(net), c) && Settled(net, c.log) && m < |c.log|
    ensures TimesFannedOut(net, c.log, c.log[m].batch.id) == if HasArrived(net, c.log, c.log[m].batch.id) then 1 else 0
  {
    hide TimesFannedOut, HasArrived, ArrivedFirst, RowFollows, RowIsOurs, Truthful, OneBatchPerId, RecordOn;
    DrawnIsFromSupply(net, c.minted, c.log[m].batch.id);
    assert OnceFor(net, c.log, c.log[m].batch.id);
    ArrivedIff(net, c.log, c.log[m].batch.id);
  }
}
