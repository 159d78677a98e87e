/** Counting and order over one completed source run: every discovered entity is invalid, accepted, rejected or in
    a dead-lettered batch, and the batches in push order are the valid entities in discovery order. */
module Conservation {
  import opened Types
  import opened Connectors
  import opened Batching
  import opened Validation
  import opened Agent

  function AllEntities(log: seq<Attempt>): seq<Item> {
    if log == [] then [] else AllEntities(log[..|log| - 1]) + log[|log| - 1].batch.entities
  }

  /** How many entities are in batches that failed to push. */
  function DeadEntities(log: seq<Attempt>): nat {
    if log == [] then 0
    else DeadEntities(log[..|log| - 1]) + if log[|log| - 1].outcome.NotPushed? then |log[|log| - 1].batch.entities| else 0
  }

  /** What the successful answers list as accepted, and as rejected. */
  function AcceptedIn(log: seq<Attempt>): nat {
    if log == [] then 0
    else AcceptedIn(log[..|log| - 1]) + if log[|log| - 1].outcome.Pushed? then |log[|log| - 1].outcome.accepted| else 0
  }

  function RejectedIn(log: seq<Attempt>): nat {
    if log == [] then 0
    else RejectedIn(log[..|log| - 1]) + if log[|log| - 1].outcome.Pushed? then |log[|log| - 1].outcome.rejected| else 0
  }

  /** Successful answers list every entity of their batch as accepted or rejected. */
  predicate FullyAnswered(log: seq<Attempt>) {
    forall k :: 0 <= k < |log| && log[k].outcome.Pushed? ==>
      |log[k].outcome.accepted| + |log[k].outcome.rejected| == |log[k].batch.entities|
  }

  function ValidOnly(items: seq<Item>): seq<Item> {
    if items == [] then []
    else ValidOnly(items[..|items| - 1]) + if ValidItem(items[|items| - 1]) then [items[|items| - 1]] else []
  }

  /** The bookkeeping of a run that began in `start` and has taken in `items`. */
  predicate Balanced(start: State, now: State, buffer: Buffer, items: seq<Item>) {
    && start.log <= now.log
    && AllEntities(now.log[|start.log|..]) + buffer.items == ValidOnly(items)
    && now.report.discovered == start.report.discovered + |items|
    && now.report.invalid == start.report.invalid + |items| - |ValidOnly(items)|
    && (FullyAnswered(now.log[|start.log|..]) ==>
          AcceptedIn(now.log[|start.log|..]) + RejectedIn(now.log[|start.log|..]) + DeadEntities(now.log[|start.log|..]) ==
          |AllEntities(now.log[|start.log|..])|)
  }

  lemma EntitiesOneMore(log: seq<Attempt>, attempt: Attempt)
    ensures AllEntities(log + [attempt]) == AllEntities(log) + attempt.batch.entities
  {
    assert (log + [attempt])[..|log|] == log;
  }

  lemma DeadOneMore(log: seq<Attempt>, attempt: Attempt)
    ensures DeadEntities(log + [attempt]) == DeadEntities(log) + if attempt.outcome.NotPushed? then |attempt.batch.entities| else 0
  {
    assert (log + [attempt])[..|log|] == log;
  }

  lemma ListsOneMore(log: seq<Attempt>, attempt: Attempt)
    ensures AcceptedIn(log + [attempt]) ==
            AcceptedIn(log) + if attempt.outcome.Pushed? then |attempt.outcome.accepted| else 0
    ensures RejectedIn(log + [attempt]) ==
            RejectedIn(log) + if attempt.outcome.Pushed? then |attempt.outcome.rejected| else 0
  {
    assert (log + [attempt])[..|log|] == log;
  }

  lemma AnsweredOneMore(log: seq<Attempt>, attempt: Attempt)
    requires FullyAnswered(log + [attempt])
    ensures FullyAnswered(log)
    ensures attempt.outcome.Pushed? ==> |attempt.outcome.accepted| + |attempt.outcome.rejected| == |attempt.batch.entities|
  {
    var more := log + [attempt];
    assert more[|log|] == attempt;
    assert forall k :: 0 <= k < |log| ==> more[k] == log[k];
  }

  lemma LogOneMore(start: seq<Attempt>, log: seq<Attempt>, attempt: Attempt)
    requires start <= log
    ensures start <= log + [attempt] && (log + [attempt])[|start|..] == log[|start|..] + [attempt]
  {
  }

  lemma Regroup(pushed: seq<Item>, batch: seq<Item>, rest: seq<Item>, whole: seq<Item>)
    requires batch + rest == whole
    ensures (pushed + batch) + rest == pushed + whole
  {
  }

  /** Pushing a closed batch moves its entities from the buffer side to the log side. */
  lemma HandleBalances(w: World, start: State, a: State, whole: Buffer, rest: Buffer, b: Option<Batch>,
      items: seq<Item>)
    requires Balanced(start, a, whole, items) && EntitiesOf(b) + rest.items == whole.items
    requires HandleFullBatch(w, a, b).Go?
    ensures Balanced(start, HandleFullBatch(w, a, b).state, rest, items)
  {
    hide AllEntities, DeadEntities, FullyAnswered, ValidOnly, OutcomeOf, AcceptedIn, RejectedIn;
    if b.Some? {
      var attempt := Attempt(b.value, OutcomeOf(w, a.log, b.value));
      var pushed := a.log[|start.log|..];
      LogOneMore(start.log, a.log, attempt);
      EntitiesOneMore(pushed, attempt);
      DeadOneMore(pushed, attempt);
      ListsOneMore(pushed, attempt);
      if FullyAnswered(pushed + [attempt]) {
        AnsweredOneMore(pushed, attempt);
      }
      Regroup(AllEntities(pushed), b.value.entities, rest.items, whole.items);
      assert HandleFullBatch(w, a, b).state.log == a.log + [attempt];
    } else {
      assert rest.items == whole.items;
    }
  }

  lemma ValidOneMore(items: seq<Item>, item: Item)
    ensures ValidOnly(items + [item]) == ValidOnly(items) + if ValidItem(item) then [item] else []
  {
    assert (items + [item])[..|items|] == items;
  }

  lemma FeedOneBalances(w: World, limits: Limits, start: State, a: State, buffer: Buffer, ct: string,
      items: seq<Item>, item: Item, tick: (real, real))
    requires Balanced(start, a, buffer, items)
    requires ValidateAndBatch(w, limits, Discovered1(a), buffer, ct, item, tick).ctl.Go?
    ensures var f := ValidateAndBatch(w, limits, Discovered1(a), buffer, ct, item, tick);
            Balanced(start, f.ctl.state, f.buffer, items + [item])
  {
    var a0 := Discovered1(a);
    ValidOneMore(items, item);
    hide ValidItem, AllEntities, DeadEntities, FullyAnswered, ValidOnly, AcceptedIn, RejectedIn;
    if ValidItem(item) {
      var whole := Buffer(buffer.items + [item], None, None);
      assert AllEntities(a.log[|start.log|..]) + buffer.items + [item] == AllEntities(a.log[|start.log|..]) + whole.items;
      assert Balanced(start, a0, whole, items + [item]);
      var added := AddStep(limits, buffer, ct, item, tick.0, w.uuid(a0.minted)).value;
      assert EntitiesOf(added.closed) + added.buffer.items == whole.items;
      hide Balanced;
      HandleBalances(w, start, a0, whole, added.buffer, added.closed, items + [item]);
      var a1 := HandleFullBatch(w, a0, added.closed).state;
      var polled := PollStep(limits, added.buffer, tick.1, w.uuid(a1.minted));
      assert EntitiesOf(polled.closed) + polled.buffer.items == added.buffer.items;
      HandleBalances(w, start, a1, added.buffer, polled.buffer, polled.closed, items + [item]);
    }
  }

  lemma {:induction false} FeedAllBalances(w: World, limits: Limits, start: State, a: State, buffer: Buffer,
      ct: string, items: seq<Item>, ticks: nat -> (real, real), n: nat)
    requires n <= |items| && Balanced(start, a, buffer, items[..n])
    requires FeedAll(w, limits, a, buffer, ct, items, ticks, n).ctl.Go?
    ensures var f := FeedAll(w, limits, a, buffer, ct, items, ticks, n);
            Balanced(start, f.ctl.state, f.buffer, items)
    decreases |items| - n
  {
    hide Balanced, ValidateAndBatch;
    if n < |items| {
      FeedOneBalances(w, limits, start, a, buffer, ct, items[..n], items[n], ticks(n));
      assert items[..n] + [items[n]] == items[..n + 1];
      var f := ValidateAndBatch(w, limits, Discovered1(a), buffer, ct, items[n], ticks(n));
      FeedAllBalances(w, limits, start, f.ctl.state, f.buffer, ct, items, ticks, n + 1);
    } else {
      assert items[..n] == items;
    }
  }

  /** Main result, for every source run that completes, whatever the clock and the pushes did: it pushes the valid
      entities in discovery order, its report gains what the answers list as accepted and as rejected, figure by
      figure, and so every discovered entity is accounted for once. */
  lemma CompletedRunConserves(w: World, limits: Limits, a: State, r: SourceRun)
    requires RunSource(w, limits, a, r).Go?
    ensures a.log <= RunSource(w, limits, a, r).state.log
    ensures var b := RunSource(w, limits, a, r).state;
            var pushed := b.log[|a.log|..];
            && AllEntities(pushed) == ValidOnly(Emitted(a, r))
            && b.report.discovered - a.report.discovered == |Emitted(a, r)|
            && b.report.invalid - a.report.invalid == |Emitted(a, r)| - |ValidOnly(Emitted(a, r))|
            && b.report.accepted - a.report.accepted == AcceptedIn(pushed)
            && b.report.rejected - a.report.rejected == RejectedIn(pushed)
            && (FullyAnswered(pushed) ==>
                  b.report.discovered - a.report.discovered ==
                  (b.report.invalid - a.report.invalid) + (b.report.accepted - a.report.accepted)
                  + (b.report.rejected - a.report.rejected) + DeadEntities(pushed))
  {
    RunIsBooked(w, limits, a, r);
    hide FeedAll, Emitted, Scraped;
    var items := EmittedBeforeRaise(a, r);
    assert items[..0] == [] && a.log[|a.log|..] == [];
    assert Balanced(a, a, EmptyBuffer, items[..0]);
    FeedAllBalances(w, limits, a, a, EmptyBuffer, r.connectorType, items, r.ticks, 0);
    var f := FeedAll(w, limits, a, EmptyBuffer, r.connectorType, items, r.ticks, 0);
    var flushed := FlushStep(f.buffer, w.uuid(f.ctl.state.minted));
    assert EntitiesOf(flushed.closed) + flushed.buffer.items == f.buffer.items;
    assert flushed.buffer.items == [];
    assert items == Emitted(a, r);
    HandleBalances(w, a, f.ctl.state, f.buffer, flushed.buffer, flushed.closed, items);
    hide HandleFullBatch, FlushStep, AllEntities, DeadEntities, FullyAnswered, ValidOnly, AcceptedIn, RejectedIn,
         BookedSince;
    assert Balanced(a, HandleFullBatch(w, f.ctl.state, flushed.closed).state, flushed.buffer, items);
    IsBooked(a, RunSource(w, limits, a, r).state);
  }

  // ---------------------------------------------------------------- the batches of a run

  /** Every batch pushed from the n-th push on is non-empty, within the size limit and of this connector type. */
  predicate GoodSince(limits: Limits, log: seq<Attempt>, n: nat, ct: string) {
    n <= |log| && forall k :: n <= k < |log| ==> GoodBatch(limits, log[k].batch, ct)
  }

  /** What the batcher holds between two entities of one run. */
  predicate GoodBuffer(limits: Limits, buffer: Buffer, ct: string) {
    Consistent(limits, buffer) && (buffer.connectorType.Some? ==> buffer.connectorType.value == ct)
  }

  lemma HandleStaysGood(w: World, limits: Limits, a: State, n: nat, b: Option<Batch>, ct: string)
    requires GoodSince(limits, a.log, n, ct) && (b.Some? ==> GoodBatch(limits, b.value, ct))
    ensures GoodSince(limits, HandleFullBatch(w, a, b).state.log, n, ct)
  {
    hide OutcomeOf, GoodBatch;
  }

  lemma FlushIsGood(limits: Limits, buffer: Buffer, ct: string, id: string)
    requires GoodBuffer(limits, buffer, ct)
    ensures FlushStep(buffer, id).closed.Some? ==> GoodBatch(limits, FlushStep(buffer, id).closed.value, ct)
  {
  }

  lemma FeedOneStaysGood(w: World, limits: Limits, a: State, n: nat, buffer: Buffer, ct: string, item: Item,
      tick: (real, real))
    requires GoodSince(limits, a.log, n, ct) && GoodBuffer(limits, buffer, ct)
    ensures var f := ValidateAndBatch(w, limits, a, buffer, ct, item, tick);
            GoodSince(limits, f.ctl.state.log, n, ct) && (f.ctl.Go? ==> GoodBuffer(limits, f.buffer, ct))
  {
    hide ValidItem, HandleFullBatch, GoodSince;
    if ValidItem(item) {
      var added := AddStep(limits, buffer, ct, item, tick.0, w.uuid(a.minted)).value;
      HandleStaysGood(w, limits, a, n, added.closed, ct);
      var c := HandleFullBatch(w, a, added.closed);
      AddThenPoll(limits, buffer, ct, item, tick.0, tick.1, w.uuid(a.minted), w.uuid(c.state.minted));
      HandleStaysGood(w, limits, c.state, n, PollStep(limits, added.buffer, tick.1, w.uuid(c.state.minted)).closed, ct);
    }
  }

  lemma {:induction false} FeedAllStaysGood(w: World, limits: Limits, a: State, n: nat, buffer: Buffer, ct: string,
      items: seq<Item>, ticks: nat -> (real, real), i: nat)
    requires i <= |items| && GoodSince(limits, a.log, n, ct) && GoodBuffer(limits, buffer, ct)
    ensures var f := FeedAll(w, limits, a, buffer, ct, items, ticks, i);
            GoodSince(limits, f.ctl.state.log, n, ct) && (f.ctl.Go? ==> GoodBuffer(limits, f.buffer, ct))
    decreases |items| - i
  {
    hide ValidateAndBatch, GoodSince, GoodBuffer;
    if i < |items| {
      FeedOneStaysGood(w, limits, Discovered1(a), n, buffer, ct, items[i], ticks(i));
      var f := ValidateAndBatch(w, limits, Discovered1(a), buffer, ct, items[i], ticks(i));
      if f.ctl.Go? {
        FeedAllStaysGood(w, limits, f.ctl.state, n, f.buffer, ct, items, ticks, i + 1);
      }
    }
  }

  /** Main result, for every source run and every way it ends, whatever the clock: each batch it pushes - closed by
      size, by time, or by the final flush - holds at least one entity and at most the limit, all of its own type. */
  lemma RunPushesGoodBatches(w: World, limits: Limits, a: State, r: SourceRun)
    ensures GoodSince(limits, RunSource(w, limits, a, r).state.log, |a.log|, r.connectorType)
  {
    hide FeedAll, EmittedBeforeRaise, HandleFullBatch, FlushStep, GoodBuffer, RunsThrough;
    assert GoodSince(limits, a.log, |a.log|, r.connectorType);
    hide GoodSince;
    if !r.connectRaises {
      var items := EmittedBeforeRaise(a, r);
      EmptyIsGood(limits, r.connectorType);
      FeedAllStaysGood(w, limits, a, |a.log|, EmptyBuffer, r.connectorType, items, r.ticks, 0);
      var f := FeedAll(w, limits, a, EmptyBuffer, r.connectorType, items, r.ticks, 0);
      if f.ctl.Go? {
        var id := w.uuid(f.ctl.state.minted);
        FlushIsGood(limits, f.buffer, r.connectorType, id);
        HandleStaysGood(w, limits, f.ctl.state, |a.log|, FlushStep(f.buffer, id).closed, r.connectorType);
      }
    }
  }

  /** The batch is full, or was closed when the interval had passed since the reading of its first entity. */
  ghost predicate ClosedInTime(limits: Limits, items: seq<Item>, ticks: nat -> (real, real), b: Batch) {
    || |b.entities| == MaxSize(limits)
    || exists i: nat, j: nat :: i <= j < |items| && AgedOut(limits, items, ticks, b, i, j)
  }

  ghost predicate AgedOut(limits: Limits, items: seq<Item>, ticks: nat -> (real, real), b: Batch, i: nat, j: nat)
    requires i <= j < |items|
  {
    ValidItem(items[i]) && b.entities == ValidOnly(items[i..j + 1]) && ticks(j).1 - ticks(i).0 >= limits.maxInterval
  }

  /** The buffer holds the valid entities from the i-th on, since the reading of that one. */
  ghost predicate HoldsFrom(buffer: Buffer, items: seq<Item>, ticks: nat -> (real, real), i: nat, n: nat)
    requires i <= n <= |items|
  {
    && buffer.items == ValidOnly(items[i..n])
    && (buffer.items != [] ==> i < n && ValidItem(items[i]) && buffer.startedAt == Some(ticks(i).0))
  }

  ghost predicate Holds(buffer: Buffer, items: seq<Item>, ticks: nat -> (real, real), n: nat)
    requires n <= |items|
  {
    exists i: nat :: i <= n && HoldsFrom(buffer, items, ticks, i, n)
  }

  ghost predicate InTimeSince(limits: Limits, items: seq<Item>, ticks: nat -> (real, real), log: seq<Attempt>, m: nat) {
    m <= |log| && forall k :: m <= k < |log| ==> ClosedInTime(limits, items, ticks, log[k].batch)
  }

  lemma HandleInTime(w: World, limits: Limits, a: State, m: nat, items: seq<Item>, ticks: nat -> (real, real),
      b: Option<Batch>)
    requires InTimeSince(limits, items, ticks, a.log, m) && (b.Some? ==> ClosedInTime(limits, items, ticks, b.value))
    ensures InTimeSince(limits, items, ticks, HandleFullBatch(w, a, b).state.log, m)
  {
    hide OutcomeOf, ClosedInTime;
  }

  /** The buffer as it is just before it may be closed. */
  lemma OneMoreHeld(buffer: Buffer, items: seq<Item>, ticks: nat -> (real, real), i: nat, n: nat) returns (j: nat)
    requires i <= n < |items| && HoldsFrom(buffer, items, ticks, i, n)
    ensures j <= n && ValidItem(items[n]) ==> ValidItem(items[j]) && ValidOnly(items[j..n + 1]) == buffer.items + [items[n]]
    ensures j <= n && ValidItem(items[n]) ==> ticks(j).0 == if buffer.items == [] then ticks(n).0 else buffer.startedAt.value
    ensures !ValidItem(items[n]) ==> ValidOnly(items[i..n + 1]) == buffer.items
    ensures j <= n
  {
    hide ValidItem;
    j := if buffer.items == [] then n else i;
    assert items[j..n + 1] == items[j..n] + [items[n]] && items[i..n + 1] == items[i..n] + [items[n]];
    ValidOneMore(items[j..n], items[n]);
    ValidOneMore(items[i..n], items[n]);
    assert items[n..n] == [];
  }

  lemma FeedOneInTime(w: World, limits: Limits, a: State, m: nat, buffer: Buffer, ct: string, items: seq<Item>,
      ticks: nat -> (real, real), n: nat)
    requires n < |items| && InTimeSince(limits, items, ticks, a.log, m)
    requires GoodBuffer(limits, buffer, ct) && Holds(buffer, items, ticks, n)
    ensures var f := ValidateAndBatch(w, limits, a, buffer, ct, items[n], ticks(n));
            InTimeSince(limits, items, ticks, f.ctl.state.log, m) && (f.ctl.Go? ==> Holds(f.buffer, items, ticks, n + 1))
  {
    hide ValidItem, HandleFullBatch, InTimeSince, ValidOnly, AddStep, GoodBatch, ClosedInTime;
    var item, tick := items[n], ticks(n);
    var i: nat :| i <= n && HoldsFrom(buffer, items, ticks, i, n);
    var j := OneMoreHeld(buffer, items, ticks, i, n);
    if ValidItem(item) {
      AddThenPoll(limits, buffer, ct, item, tick.0, tick.1, w.uuid(a.minted), "");
      var added := AddStep(limits, buffer, ct, item, tick.0, w.uuid(a.minted)).value;
      var c := HandleFullBatch(w, a, added.closed);
      AddThenPoll(limits, buffer, ct, item, tick.0, tick.1, w.uuid(a.minted), w.uuid(c.state.minted));
      if added.closed.Some? {
        FullIsInTime(limits, items, ticks, added.closed.value);
      }
      HandleInTime(w, limits, a, m, items, ticks, added.closed);
      var polled := PollStep(limits, added.buffer, tick.1, w.uuid(c.state.minted));
      if polled.closed.Some? {
        AgedIsInTime(limits, items, ticks, polled.closed.value, j, n);
      }
      HandleInTime(w, limits, c.state, m, items, ticks, polled.closed);
      StillHeld(polled.buffer, items, ticks, j, n + 1);
    } else {
      assert HoldsFrom(buffer, items, ticks, i, n + 1);
    }
  }

  lemma AgedIsInTime(limits: Limits, items: seq<Item>, ticks: nat -> (real, real), b: Batch, i: nat, j: nat)
    requires i <= j < |items| && AgedOut(limits, items, ticks, b, i, j)
    ensures ClosedInTime(limits, items, ticks, b)
  {
  }

  lemma FullIsInTime(limits: Limits, items: seq<Item>, ticks: nat -> (real, real), b: Batch)
    requires |b.entities| == MaxSize(limits)
    ensures ClosedInTime(limits, items, ticks, b)
  {
  }

  lemma StillHeld(buffer: Buffer, items: seq<Item>, ticks: nat -> (real, real), j: nat, n: nat)
    requires j <= n <= |items| && (buffer.items == [] || HoldsFrom(buffer, items, ticks, j, n))
    ensures Holds(buffer, items, ticks, n)
  {
    hide ValidItem;
    assert items[n..n] == [];
    assert buffer.items == [] ==> HoldsFrom(buffer, items, ticks, n, n);
  }

  lemma {:induction false} FeedAllInTime(w: World, limits: Limits, a: State, m: nat, buffer: Buffer, ct: string,
      items: seq<Item>, ticks: nat -> (real, real), n: nat)
    requires n <= |items| && InTimeSince(limits, items, ticks, a.log, m)
    requires GoodSince(limits, a.log, m, ct) && GoodBuffer(limits, buffer, ct) && Holds(buffer, items, ticks, n)
    ensures InTimeSince(limits, items, ticks, FeedAll(w, limits, a, buffer, ct, items, ticks, n).ctl.state.log, m)
    decreases |items| - n
  {
    hide ValidateAndBatch, GoodSince, GoodBuffer, InTimeSince, Holds;
    if n < |items| {
      FeedOneStaysGood(w, limits, Discovered1(a), m, buffer, ct, items[n], ticks(n));
      FeedOneInTime(w, limits, Discovered1(a), m, buffer, ct, items, ticks, n);
      var f := ValidateAndBatch(w, limits, Discovered1(a), buffer, ct, items[n], ticks(n));
      if f.ctl.Go? {
        FeedAllInTime(w, limits, f.ctl.state, m, f.buffer, ct, items, ticks, n + 1);
      }
    }
  }

  /** Main result, for every source run, every way it ends and every clock: no batch is pushed early. Each one is full,
      or holds the valid entities between two readings that lie the interval apart, or is the last of a run whose
      scrape came to its end. */
  lemma NoBatchIsPushedEarly(w: World, limits: Limits, a: State, r: SourceRun, k: nat)
    requires |a.log| <= k < |RunSource(w, limits, a, r).state.log|
    ensures var log := RunSource(w, limits, a, r).state.log;
            ClosedInTime(limits, EmittedBeforeRaise(a, r), r.ticks, log[k].batch) || (k == |log| - 1 && RunsThrough(a, r))
  {
    hide FeedAll, EmittedBeforeRaise, FlushStep, GoodBuffer, RunsThrough, ClosedInTime, OutcomeOf;
    var items := EmittedBeforeRaise(a, r);
    assert GoodSince(limits, a.log, |a.log|, r.connectorType) && InTimeSince(limits, items, r.ticks, a.log, |a.log|);
    EmptyIsGood(limits, r.connectorType);
    StillHeld(EmptyBuffer, items, r.ticks, 0, 0);
    FeedAllInTime(w, limits, a, |a.log|, EmptyBuffer, r.connectorType, items, r.ticks, 0);
    var f := FeedAll(w, limits, a, EmptyBuffer, r.connectorType, items, r.ticks, 0);
    assert InTimeSince(limits, items, r.ticks, f.ctl.state.log, |a.log|);
  }

  lemma EmptyIsGood(limits: Limits, ct: string)
    ensures GoodBuffer(limits, EmptyBuffer, ct)
  {
  }

  // ---------------------------------------------------------------- the cycle report

  function CountPushed(log: seq<Attempt>): nat {
    if log == [] then 0 else CountPushed(log[..|log| - 1]) + if log[|log| - 1].outcome.Pushed? then 1 else 0
  }

  function CountFailed(log: seq<Attempt>): nat {
    if log == [] then 0 else CountFailed(log[..|log| - 1]) + if log[|log| - 1].outcome.NotPushed? then 1 else 0
  }

  lemma CountOneMore(log: seq<Attempt>, attempt: Attempt)
    ensures CountPushed(log + [attempt]) == CountPushed(log) + if attempt.outcome.Pushed? then 1 else 0
    ensures CountFailed(log + [attempt]) == CountFailed(log) + if attempt.outcome.NotPushed? then 1 else 0
  {
    assert (log + [attempt])[..|log|] == log;
  }

  /** What source runs report of the pushes they have made since `start`: four figures, one for each way an entity or
      a batch can go. The retry figures stand still. */
  predicate BookedSince(start: State, now: State) {
    && start.log <= now.log
    && now.report.accepted == start.report.accepted + AcceptedIn(now.log[|start.log|..])
    && now.report.rejected == start.report.rejected + RejectedIn(now.log[|start.log|..])
    && now.report.deadLettered == start.report.deadLettered + CountFailed(now.log[|start.log|..])
    && now.report.batchesPushed ==
       start.report.batchesPushed + CountPushed(now.log[|start.log|..]) + CountFailed(now.log[|start.log|..])
    && now.report.retriedOk == start.report.retriedOk && now.report.stillFailing == start.report.stillFailing
  }

  /** And of their own: a run that completes saves its cursor, one that does not is a failed source. */
  ghost predicate SameTurns(a: State, b: State) {
    b.saved == a.saved && b.report.sourcesRun == a.report.sourcesRun && b.report.sourcesFailed == a.report.sourcesFailed
  }

  lemma IsBooked(start: State, now: State)
    requires BookedSince(start, now)
    ensures now.report.accepted == start.report.accepted + AcceptedIn(now.log[|start.log|..])
    ensures now.report.rejected == start.report.rejected + RejectedIn(now.log[|start.log|..])
  {
  }

  lemma NothingBooked(a: State)
    ensures BookedSince(a, a)
  {
    assert a.log[|a.log|..] == [];
  }

  lemma BookedByLogAndReport(start: State, now: State, later: State)
    requires BookedSince(start, now) && later.log == now.log
    requires later.report.accepted == now.report.accepted && later.report.rejected == now.report.rejected
    requires later.report.deadLettered == now.report.deadLettered && later.report.batchesPushed == now.report.batchesPushed
    requires later.report.retriedOk == now.report.retriedOk && later.report.stillFailing == now.report.stillFailing
    ensures BookedSince(start, later)
  {
  }

  lemma HandleIsBooked(w: World, start: State, a: State, b: Option<Batch>)
    requires BookedSince(start, a)
    ensures BookedSince(start, HandleFullBatch(w, a, b).state) && SameTurns(a, HandleFullBatch(w, a, b).state)
  {
    hide AcceptedIn, RejectedIn, CountPushed, CountFailed, OutcomeOf;
    if b.Some? {
      var attempt := Attempt(b.value, OutcomeOf(w, a.log, b.value));
      LogOneMore(start.log, a.log, attempt);
      CountOneMore(a.log[|start.log|..], attempt);
      ListsOneMore(a.log[|start.log|..], attempt);
      assert HandleFullBatch(w, a, b).state.log == a.log + [attempt];
    }
  }

  lemma FeedOneIsBooked(w: World, limits: Limits, start: State, a: State, buffer: Buffer, ct: string, item: Item,
      tick: (real, real))
    requires BookedSince(start, a)
    ensures var b := ValidateAndBatch(w, limits, a, buffer, ct, item, tick).ctl.state;
            BookedSince(start, b) && SameTurns(a, b)
  {
    hide ValidItem, HandleFullBatch, AddStep, PollStep, BookedSince;
    BookedByLogAndReport(start, a, a.(report := a.report.(invalid := a.report.invalid + 1)));
    var added := AddStep(limits, buffer, ct, item, tick.0, w.uuid(a.minted));
    if added.Some? {
      HandleIsBooked(w, start, a, added.value.closed);
      var a' := HandleFullBatch(w, a, added.value.closed).state;
      HandleIsBooked(w, start, a', PollStep(limits, added.value.buffer, tick.1, w.uuid(a'.minted)).closed);
    }
  }

  lemma {:induction false} FeedAllIsBooked(w: World, limits: Limits, start: State, a: State, buffer: Buffer,
      ct: string, items: seq<Item>, ticks: nat -> (real, real), n: nat)
    requires BookedSince(start, a)
    ensures var b := FeedAll(w, limits, a, buffer, ct, items, ticks, n).ctl.state;
            BookedSince(start, b) && SameTurns(a, b)
    decreases |items| - n
  {
    hide ValidateAndBatch, BookedSince;
    if n < |items| {
      BookedByLogAndReport(start, a, Discovered1(a));
      FeedOneIsBooked(w, limits, start, Discovered1(a), buffer, ct, items[n], ticks(n));
      var f := ValidateAndBatch(w, limits, Discovered1(a), buffer, ct, items[n], ticks(n));
      if f.ctl.Go? {
        FeedAllIsBooked(w, limits, start, f.ctl.state, f.buffer, ct, items, ticks, n + 1);
      }
    }
  }

  /** For every source run and every way it ends: the report gains what the answers of its pushes list. */
  lemma RunIsBooked(w: World, limits: Limits, a: State, r: SourceRun)
    ensures BookedSince(a, RunSource(w, limits, a, r).state)
    ensures var c := RunSource(w, limits, a, r);
            && c.state.report.sourcesRun == a.report.sourcesRun && c.state.report.sourcesFailed == a.report.sourcesFailed
            && |c.state.saved| == |a.saved| + if c.Go? then 1 else 0
  {
    NothingBooked(a);
    hide FeedAll, EmittedBeforeRaise, RunsThrough, Scraped, HandleFullBatch, FlushStep, BookedSince;
    FeedAllIsBooked(w, limits, a, a, EmptyBuffer, r.connectorType, EmittedBeforeRaise(a, r), r.ticks, 0);
    var f := FeedAll(w, limits, a, EmptyBuffer, r.connectorType, EmittedBeforeRaise(a, r), r.ticks, 0);
    var flushed := FlushStep(f.buffer, w.uuid(f.ctl.state.minted)).closed;
    HandleIsBooked(w, a, f.ctl.state, flushed);
    var last := HandleFullBatch(w, f.ctl.state, flushed).state;
    BookedByLogAndReport(a, last, SaveCursor(last, r));
  }

  lemma LogTwoMore(a: seq<Attempt>, b: seq<Attempt>, c: seq<Attempt>)
    requires a <= b <= c
    ensures c[|a|..] == b[|a|..] + c[|b|..]
  {
  }

  lemma {:induction false} CountsAdd(x: seq<Attempt>, y: seq<Attempt>)
    ensures AcceptedIn(x + y) == AcceptedIn(x) + AcceptedIn(y)
    ensures RejectedIn(x + y) == RejectedIn(x) + RejectedIn(y)
    ensures CountPushed(x + y) == CountPushed(x) + CountPushed(y)
    ensures CountFailed(x + y) == CountFailed(x) + CountFailed(y)
    decreases |y|
  {
    hide AcceptedIn, RejectedIn, CountPushed, CountFailed;
    if y == [] {
      assert x + y == x;
      NoCounts();
    } else {
      var front, last := y[..|y| - 1], y[|y| - 1];
      assert x + y == (x + front) + [last] && y == front + [last];
      CountsAdd(x, front);
      ListsOneMore(x + front, last);
      ListsOneMore(front, last);
      CountOneMore(x + front, last);
      CountOneMore(front, last);
    }
  }

  lemma NoCounts()
    ensures AcceptedIn([]) == RejectedIn([]) == CountPushed([]) == CountFailed([]) == 0
  {
  }

  lemma BookedOnward(a: State, b: State, c: State)
    requires BookedSince(a, b) && BookedSince(b, c)
    ensures BookedSince(a, c)
  {
    hide AcceptedIn, RejectedIn, CountPushed, CountFailed;
    LogTwoMore(a.log, b.log, c.log);
    CountsAdd(b.log[|a.log|..], c.log[|b.log|..]);
  }

  lemma {:induction false} RunsAreBooked(w: World, limits: Limits, a: State, runs: seq<SourceRun>)
    ensures var b := RunSources(w, limits, a, runs);
            && BookedSince(a, b)
            && b.report.sourcesRun == a.report.sourcesRun + |runs|
            && |b.saved| >= |a.saved|
            && b.report.sourcesFailed + (|b.saved| - |a.saved|) == a.report.sourcesFailed + |runs|
    decreases |runs|
  {
    hide RunSource, BookedSince;
    if runs == [] {
      NothingBooked(a);
    } else {
      var started := Started(a);
      NothingBooked(a);
      BookedByLogAndReport(a, a, started);
      RunIsBooked(w, limits, started, runs[0]);
      var c := RunSource(w, limits, started, runs[0]);
      BookedOnward(a, started, c.state);
      var next := if c.Go? then c.state else SourceFailed(c.state);
      BookedByLogAndReport(a, c.state, next);
      RunsAreBooked(w, limits, next, runs[1..]);
      BookedOnward(a, next, RunSources(w, limits, next, runs[1..]));
    }
  }

  /** What the retry phase reports: its two figures, and nothing else. */
  ghost predicate RetriedSince(start: State, now: State) {
    && start.log <= now.log && now.saved == start.saved
    && now.report == start.report.(
         retriedOk := start.report.retriedOk + CountPushed(now.log[|start.log|..]),
         stillFailing := start.report.stillFailing + CountFailed(now.log[|start.log|..]))
  }

  lemma RetriedOneMore(start: State, a: State, attempt: Attempt, next: State)
    requires RetriedSince(start, a) && next.saved == a.saved && next.log == a.log + [attempt]
    requires next.report ==
             if attempt.outcome.Pushed? then a.report.(retriedOk := a.report.retriedOk + 1)
             else if attempt.outcome.NotPushed? then a.report.(stillFailing := a.report.stillFailing + 1)
             else a.report
    ensures RetriedSince(start, next)
  {
    hide CountPushed, CountFailed;
    LogOneMore(start.log, a.log, attempt);
    CountOneMore(a.log[|start.log|..], attempt);
  }

  lemma {:induction false} RetriesAreBooked(w: World, start: State, a: State, paths: seq<string>,
      unreadable: set<string>)
    requires RetriedSince(start, a)
    ensures RetriedSince(start, RetryDeadLetters(w, a, paths, unreadable).state)
    decreases |paths|
  {
    hide RetriedSince, OutcomeOf;
    if paths != [] {
      if paths[0] !in a.dead || paths[0] in unreadable {
        RetriesAreBooked(w, start, a, paths[1..], unreadable);
      } else {
        var attempt := Attempt(a.dead[paths[0]], OutcomeOf(w, a.log, a.dead[paths[0]]));
        var logged := a.(log := a.log + [attempt]);
        if attempt.outcome.Pushed? {
          var next := logged.(dead := a.dead - {paths[0]},
                              report := a.report.(retriedOk := a.report.retriedOk + 1));
          RetriedOneMore(start, a, attempt, next);
          RetriesAreBooked(w, start, next, paths[1..], unreadable);
        } else if attempt.outcome.NotPushed? {
          var next := logged.(report := a.report.(stillFailing := a.report.stillFailing + 1));
          RetriedOneMore(start, a, attempt, next);
          RetriesAreBooked(w, start, next, paths[1..], unreadable);
        } else {
          RetriedOneMore(start, a, attempt, logged);
        }
      }
    }
  }

  /** The state in which the retry phase of the cycle leaves the agent, or in which it raised. */
  function AfterRetries(w: World, a: State, c: Cycle): Ctl {
    RetryDeadLetters(w, a.(report := EmptyReport), c.listing, c.unreadable)
  }

  /** The report of a cycle that began with this log and had this one when its retries were over. */
  predicate ReportsPushes(before: seq<Attempt>, mid: seq<Attempt>, b: State) {
    && before <= mid <= b.log
    && b.report.retriedOk == CountPushed(mid[|before|..]) && b.report.stillFailing == CountFailed(mid[|before|..])
    && b.report.deadLettered == CountFailed(b.log[|mid|..])
    && b.report.batchesPushed == CountPushed(b.log[|mid|..]) + CountFailed(b.log[|mid|..])
    && b.report.accepted == AcceptedIn(b.log[|mid|..])
    && b.report.rejected == RejectedIn(b.log[|mid|..])
  }

  lemma PushesAreReported(start: State, mid: State, b: State)
    requires start.report == EmptyReport && RetriedSince(start, mid) && BookedSince(mid, b)
    ensures ReportsPushes(start.log, mid.log, b)
  {
    hide CountPushed, CountFailed, AcceptedIn, RejectedIn;
  }

  /** Main result, for every cycle, whatever fails or raises in it: its report states, figure by figure, how the
      retries and the pushes of its source runs ended, what their answers listed, and - unless a retry raised and ended
      the cycle - how many sources were run, failed and had their cursors saved. */
  lemma CycleReportAddsUp(w: World, limits: Limits, a: State, c: Cycle)
    ensures ReportsPushes(a.log, AfterRetries(w, a, c).state.log, RunCycle(w, limits, a, c))
    ensures var b := RunCycle(w, limits, a, c);
            var runs := if AfterRetries(w, a, c).Go? then |c.runs| else 0;
            b.report.sourcesRun == runs && |b.saved| >= |a.saved| && b.report.sourcesFailed + (|b.saved| - |a.saved|) == runs
  {
    hide RetryDeadLetters, RunSources, BookedSince, ReportsPushes, RetriedSince;
    var a0 := a.(report := EmptyReport);
    NothingRetried(a0);
    RetriesAreBooked(w, a0, a0, c.listing, c.unreadable);
    var r := RetryDeadLetters(w, a0, c.listing, c.unreadable);
    NothingBooked(r.state);
    if r.Go? {
      RunsAreBooked(w, limits, r.state, c.runs);
    }
    PushesAreReported(a0, r.state, RunCycle(w, limits, a, c));
    OnlyRetriesReported(a0, r.state);
  }

  lemma NothingRetried(a: State)
    ensures RetriedSince(a, a)
  {
    assert a.log[|a.log|..] == [];
  }

  lemma OnlyRetriesReported(start: State, mid: State)
    requires RetriedSince(start, mid)
    ensures mid.saved == start.saved && mid.report.sourcesRun == start.report.sourcesRun
    ensures mid.report.sourcesFailed == start.report.sourcesFailed
  {
  }
}
