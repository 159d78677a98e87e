/** The agent's runs as sequences of pushes: whatever a run does to the directory, the id supply and the history is a
    sequence of first pushes of new batches and of retried dead letters. */
module Moves {
  import opened Types
  import opened Batching
  import opened Agent
  import opened NothingLost

  datatype Core = Core(dead: map<string, Batch>, minted: nat, log: seq<Attempt>)

  function CoreOf(a: State): Core {
    Core(a.dead, a.minted, a.log)
  }

  /** A batch under a new id is pushed, and dead-lettered if that fails; or the batch of a file is pushed again. */
  datatype Move = First(batch: Batch) | Again(path: string)

  predicate Possible(w: World, c: Core, s: Move) {
    match s
    case First(b) => b.id == w.uuid(c.minted)
    case Again(path) => path in c.dead
  }

  function MoveBatch(w: World, c: Core, s: Move): Batch
    requires Possible(w, c, s)
  {
    match s
    case First(b) => b
    case Again(path) => c.dead[path]
  }

  function AfterMove(w: World, c: Core, s: Move): Core
    requires Possible(w, c, s)
  {
    var b := MoveBatch(w, c, s);
    var outcome := OutcomeOf(w, c.log, b);
    var log := c.log + [Attempt(b, outcome)];
    match s
    case First(_) =>
      Core(if outcome.NotPushed? && !w.addRaises(|c.log|) then c.dead[b.id := b] else c.dead, c.minted + 1, log)
    case Again(path) => Core(if outcome.Pushed? then c.dead - {path} else c.dead, c.minted, log)
  }

  ghost predicate Leads(w: World, a: Core, moves: seq<Move>, b: Core)
    decreases |moves|
  {
    if moves == [] then a == b
    else Possible(w, a, moves[0]) && Leads(w, AfterMove(w, a, moves[0]), moves[1..], b)
  }

  ghost predicate Reaches(w: World, a: Core, b: Core) {
    exists moves :: Leads(w, a, moves, b)
  }

  lemma {:induction false} LeadsOn(w: World, a: Core, s1: seq<Move>, b: Core, s2: seq<Move>, c: Core)
    requires Leads(w, a, s1, b) && Leads(w, b, s2, c)
    ensures Leads(w, a, s1 + s2, c)
    decreases |s1|
  {
    hide AfterMove, Possible;
    if s1 == [] {
      assert s1 + s2 == s2;
    } else {
      LeadsOn(w, AfterMove(w, a, s1[0]), s1[1..], b, s2, c);
      assert (s1 + s2)[1..] == s1[1..] + s2;
    }
  }

  lemma ReachesOn(w: World, a: Core, b: Core, c: Core)
    requires Reaches(w, a, b) && Reaches(w, b, c)
    ensures Reaches(w, a, c)
  {
    hide Leads;
    var s1 :| Leads(w, a, s1, b);
    var s2 :| Leads(w, b, s2, c);
    LeadsOn(w, a, s1, b, s2, c);
  }

  lemma ReachesSame(w: World, a: Core)
    ensures Reaches(w, a, a)
  {
    assert Leads(w, a, [], a);
  }

  lemma ReachesByOne(w: World, a: Core, s: Move)
    requires Possible(w, a, s)
    ensures Reaches(w, a, AfterMove(w, a, s))
  {
    hide AfterMove;
    assert Leads(w, AfterMove(w, a, s), [], AfterMove(w, a, s));
    assert [s][1..] == [];
    assert Leads(w, a, [s], AfterMove(w, a, s));
  }

  // ---------------------------------------------------------------- every part of a cycle is such a sequence

  lemma HandleReaches(w: World, a: State, b: Option<Batch>)
    requires b.Some? ==> b.value.id == w.uuid(a.minted)
    ensures Reaches(w, CoreOf(a), CoreOf(HandleFullBatch(w, a, b).state))
  {
    hide Reaches, OutcomeOf;
    if b.Some? {
      ReachesByOne(w, CoreOf(a), First(b.value));
      assert CoreOf(HandleFullBatch(w, a, b).state) == AfterMove(w, CoreOf(a), First(b.value));
    } else {
      ReachesSame(w, CoreOf(a));
    }
  }

  lemma FeedOneReaches(w: World, limits: Limits, a: State, buffer: Buffer, ct: string, item: Item, tick: (real, real))
    ensures Reaches(w, CoreOf(a), CoreOf(ValidateAndBatch(w, limits, a, buffer, ct, item, tick).ctl.state))
  {
    hide Reaches, HandleFullBatch;
    ReachesSame(w, CoreOf(a));
    var step := AddStep(limits, buffer, ct, item, tick.0, w.uuid(a.minted));
    if step.Some? {
      var added := step.value;
      HandleReaches(w, a, added.closed);
      var c := HandleFullBatch(w, a, added.closed);
      if c.Go? {
        var polled := PollStep(limits, added.buffer, tick.1, w.uuid(c.state.minted));
        HandleReaches(w, c.state, polled.closed);
        ReachesOn(w, CoreOf(a), CoreOf(c.state), CoreOf(HandleFullBatch(w, c.state, polled.closed).state));
      }
    }
  }

  lemma {:induction false} FeedAllReaches(w: World, limits: Limits, a: State, buffer: Buffer, ct: string,
      items: seq<Item>, ticks: nat -> (real, real), n: nat)
    requires n <= |items|
    ensures Reaches(w, CoreOf(a), CoreOf(FeedAll(w, limits, a, buffer, ct, items, ticks, n).ctl.state))
    decreases |items| - n
  {
    hide Reaches, ValidateAndBatch;
    ReachesSame(w, CoreOf(a));
    if n < |items| {
      FeedOneReaches(w, limits, Discovered1(a), buffer, ct, items[n], ticks(n));
      assert CoreOf(Discovered1(a)) == CoreOf(a);
      var f := ValidateAndBatch(w, limits, Discovered1(a), buffer, ct, items[n], ticks(n));
      if f.ctl.Go? {
        FeedAllReaches(w, limits, f.ctl.state, f.buffer, ct, items, ticks, n + 1);
        ReachesOn(w, CoreOf(a), CoreOf(f.ctl.state),
            CoreOf(FeedAll(w, limits, f.ctl.state, f.buffer, ct, items, ticks, n + 1).ctl.state));
      }
    }
  }

  lemma RunReaches(w: World, limits: Limits, a: State, r: SourceRun)
    ensures Reaches(w, CoreOf(a), CoreOf(RunSource(w, limits, a, r).state))
  {
    hide Reaches, FeedAll, HandleFullBatch, EmittedBeforeRaise;
    ReachesSame(w, CoreOf(a));
    if !r.connectRaises {
      var items := EmittedBeforeRaise(a, r);
      FeedAllReaches(w, limits, a, EmptyBuffer, r.connectorType, items, r.ticks, 0);
      var f := FeedAll(w, limits, a, EmptyBuffer, r.connectorType, items, r.ticks, 0);
      if f.ctl.Go? {
        var last := FlushStep(f.buffer, w.uuid(f.ctl.state.minted)).closed;
        HandleReaches(w, f.ctl.state, last);
        ReachesOn(w, CoreOf(a), CoreOf(f.ctl.state), CoreOf(HandleFullBatch(w, f.ctl.state, last).state));
      }
    }
  }

  lemma {:induction false} RunsReach(w: World, limits: Limits, a: State, runs: seq<SourceRun>)
    ensures Reaches(w, CoreOf(a), CoreOf(RunSources(w, limits, a, runs)))
    decreases |runs|
  {
    hide Reaches, RunSource;
    ReachesSame(w, CoreOf(a));
    if runs != [] {
      RunReaches(w, limits, Started(a), runs[0]);
      assert CoreOf(Started(a)) == CoreOf(a);
      var c := RunSource(w, limits, Started(a), runs[0]);
      var next := if c.Go? then c.state else SourceFailed(c.state);
      assert CoreOf(next) == CoreOf(c.state);
      RunsReach(w, limits, next, runs[1..]);
      ReachesOn(w, CoreOf(a), CoreOf(next), CoreOf(RunSources(w, limits, next, runs[1..])));
    }
  }

  lemma {:induction false} RetryReaches(w: World, a: State, paths: seq<string>, unreadable: set<string>)
    ensures Reaches(w, CoreOf(a), CoreOf(RetryDeadLetters(w, a, paths, unreadable).state))
    decreases |paths|
  {
    hide Reaches, RetryDeadLetters, OutcomeOf;
    ReachesSame(w, CoreOf(a));
    if paths == [] {
      NothingListed(w, a, unreadable);
    } else {
      RetryStep(w, a, paths, unreadable);
      if paths[0] !in a.dead || paths[0] in unreadable {
        RetryReaches(w, a, paths[1..], unreadable);
      } else {
        var next := AfterRetryOf(w, a, paths[0]);
        ReachesByOne(w, CoreOf(a), Again(paths[0]));
        assert CoreOf(next) == AfterMove(w, CoreOf(a), Again(paths[0]));
        RetryReaches(w, next, paths[1..], unreadable);
        ReachesOn(w, CoreOf(a), CoreOf(next), CoreOf(RetryDeadLetters(w, next, paths[1..], unreadable).state));
      }
    }
  }

  lemma NothingListed(w: World, a: State, unreadable: set<string>)
    ensures RetryDeadLetters(w, a, [], unreadable) == Go(a)
  {
  }

  /** The state after the retry of one readable file. */
  function AfterRetryOf(w: World, a: State, path: string): State
    requires path in a.dead
  {
    var outcome := OutcomeOf(w, a.log, a.dead[path]);
    var logged := a.(log := a.log + [Attempt(a.dead[path], outcome)]);
    match outcome
    case PushRaised => logged
    case Pushed(_, _) => logged.(dead := a.dead - {path}, report := a.report.(retriedOk := a.report.retriedOk + 1))
    case NotPushed => logged.(report := a.report.(stillFailing := a.report.stillFailing + 1))
  }

  lemma CycleReaches(w: World, limits: Limits, a: State, c: Cycle)
    ensures Reaches(w, CoreOf(a), CoreOf(RunCycle(w, limits, a, c)))
  {
    hide Reaches, RetryDeadLetters, RunSources;
    var a0 := a.(report := EmptyReport);
    assert CoreOf(a0) == CoreOf(a);
    RetryReaches(w, a0, c.listing, c.unreadable);
    var r := RetryDeadLetters(w, a0, c.listing, c.unreadable);
    if r.Go? {
      RunsReach(w, limits, r.state, c.runs);
      ReachesOn(w, CoreOf(a), CoreOf(r.state), CoreOf(RunSources(w, limits, r.state, c.runs)));
    }
  }

  lemma {:induction false} CyclesReach(w: World, limits: Limits, a: State, cs: seq<Cycle>)
    ensures Reaches(w, CoreOf(a), CoreOf(RunCycles(w, limits, a, cs)))
    decreases |cs|
  {
    hide Reaches, RunCycle;
    ReachesSame(w, CoreOf(a));
    if cs != [] {
      CycleReaches(w, limits, a, cs[0]);
      var b := RunCycle(w, limits, a, cs[0]);
      CyclesReach(w, limits, b, cs[1..]);
      ReachesOn(w, CoreOf(a), CoreOf(b), CoreOf(RunCycles(w, limits, b, cs[1..])));
    }
  }

  // ---------------------------------------------------------------- what the history of any such sequence is like

  ghost predicate Drawn(w: World, n: nat, id: string) {
    exists i: nat :: i < n && w.uuid(i) == id
  }

  predicate InLog(log: seq<Attempt>, b: Batch) {
    exists k :: 0 <= k < |log| && log[k].batch == b
  }

  ghost predicate OneBatchPerId(log: seq<Attempt>) {
    forall j, k :: 0 <= j < |log| && 0 <= k < |log| && log[j].batch.id == log[k].batch.id ==> log[j].batch == log[k].batch
  }

  /** Every attempt ended as the environment had its push end. */
  ghost predicate Truthful(w: World, log: seq<Attempt>) {
    forall k :: 0 <= k < |log| ==> log[k].outcome == OutcomeOf(w, log[..k], log[k].batch)
  }

  /** Main invariant: an id is drawn before it is used and stands for one batch, in the history and on disk. */
  ghost predicate Logged(w: World, c: Core) {
    && (forall k :: 0 <= k < |c.log| ==> Drawn(w, c.minted, c.log[k].batch.id))
    && OneBatchPerId(c.log) && Truthful(w, c.log)
    && (forall path :: path in c.dead ==> c.dead[path].id == path && InLog(c.log, c.dead[path]))
  }

  lemma MoveIsLogged(w: World, c: Core, s: Move)
    requires Possible(w, c, s)
    ensures AfterMove(w, c, s).log == c.log + [Attempt(MoveBatch(w, c, s), OutcomeOf(w, c.log, MoveBatch(w, c, s)))]
    ensures c.minted <= AfterMove(w, c, s).minted
    ensures s.First? ==> AfterMove(w, c, s).minted == c.minted + 1
    ensures s.Again? ==> AfterMove(w, c, s).minted == c.minted
  {
  }

  lemma TruthGrows(w: World, log: seq<Attempt>, b: Batch)
    requires Truthful(w, log)
    ensures Truthful(w, log + [Attempt(b, OutcomeOf(w, log, b))])
  {
    hide OutcomeOf;
    var more := log + [Attempt(b, OutcomeOf(w, log, b))];
    forall k | 0 <= k < |more| ensures more[k].outcome == OutcomeOf(w, more[..k], more[k].batch) {
      if k < |log| {
        assert more[..k] == log[..k];
      } else {
        assert more[..k] == log;
      }
    }
  }

  lemma OneBatchGrows(w: World, c: Core, s: Move)
    requires IdsAreFresh(w) && Logged(w, c) && Possible(w, c, s)
    ensures OneBatchPerId(AfterMove(w, c, s).log)
  {
    MoveIsLogged(w, c, s);
    hide AfterMove, OutcomeOf, Truthful;
    var b, log := MoveBatch(w, c, s), AfterMove(w, c, s).log;
    forall k | 0 <= k < |c.log| ensures Drawn(w, c.minted, c.log[k].batch.id) && (s.First? ==> c.log[k].batch.id != b.id) {
    }
    assert forall k :: 0 <= k < |log| ==> log[k].batch == if k < |c.log| then c.log[k].batch else b;
  }

  lemma MoveKeepsLogged(w: World, c: Core, s: Move)
    requires IdsAreFresh(w) && Logged(w, c) && Possible(w, c, s)
    ensures Logged(w, AfterMove(w, c, s))
  {
    MoveIsLogged(w, c, s);
    OneBatchGrows(w, c, s);
    TruthGrows(w, c.log, MoveBatch(w, c, s));
    hide OutcomeOf, Truthful, OneBatchPerId, IdsAreFresh;
    var d, b := AfterMove(w, c, s), MoveBatch(w, c, s);
    forall id | Drawn(w, c.minted, id) ensures Drawn(w, d.minted, id) {
    }
    forall x | InLog(c.log, x) || x == b ensures InLog(d.log, x) {
      if x == b {
        assert d.log[|c.log|].batch == b;
      } else {
        var k :| 0 <= k < |c.log| && c.log[k].batch == x;
        assert d.log[k].batch == x;
      }
    }
    hide InLog;
    assert Drawn(w, d.minted, b.id) by {
      if s.Again? {
        assert InLog(c.log, b);
        InLogIsDrawn(w, c, b);
      }
    }
    hide Drawn;
    forall k | 0 <= k < |d.log| ensures Drawn(w, d.minted, d.log[k].batch.id) {
      assert k < |c.log| ==> d.log[k] == c.log[k];
    }
  }

  lemma InLogIsDrawn(w: World, c: Core, b: Batch)
    requires Logged(w, c) && InLog(c.log, b)
    ensures Drawn(w, c.minted, b.id)
  {
    hide Drawn, Truthful, OneBatchPerId;
  }

  lemma {:induction false} LeadsKeepsLogged(w: World, a: Core, moves: seq<Move>, b: Core)
    requires IdsAreFresh(w) && Logged(w, a) && Leads(w, a, moves, b)
    ensures Logged(w, b) && a.log <= b.log && a.minted <= b.minted
    decreases |moves|
  {
    hide IdsAreFresh, Logged, AfterMove, Possible;
    if moves != [] {
      MoveKeepsLogged(w, a, moves[0]);
      MoveIsLogged(w, a, moves[0]);
      LeadsKeepsLogged(w, AfterMove(w, a, moves[0]), moves[1..], b);
    }
  }
}
