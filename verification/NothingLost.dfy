/** Over every reachable state of the agent: an entity whose source run was saved is acknowledged or on disk. */
module NothingLost {
  import opened Types
  import opened Cursors
  import opened Connectors
  import opened Batching
  import opened Validation
  import opened Agent

  /** Batch ids never repeat. */
  ghost predicate IdsAreFresh(w: World) {
    forall i: nat, j: nat :: w.uuid(i) == w.uuid(j) ==> i == j
  }

  /** The entity is in a batch that was answered 200/202. */
  predicate Acknowledged(a: State, item: Item) {
    exists k :: 0 <= k < |a.log| && a.log[k].outcome.Pushed? && item in a.log[k].batch.entities
  }

  /** The entity is in a batch that waits in the dead-letter directory. */
  predicate Queued(a: State, item: Item) {
    exists path :: path in a.dead && item in a.dead[path].entities
  }

  predicate Safe(a: State, item: Item) {
    Acknowledged(a, item) || Queued(a, item)
  }

  /** Every dead letter sits under its own id, drawn from the supply. */
  ghost predicate DeadLettersAreOwn(w: World, a: State) {
    forall path :: path in a.dead ==> a.dead[path].id == path && exists i: nat :: i < a.minted && w.uuid(i) == path
  }

  ghost predicate StaysSafe(a: State, b: State) {
    forall item :: Safe(a, item) ==> Safe(b, item)
  }

  /** A step keeps the directory in order, keeps safe what was safe, and only adds to the history. */
  ghost predicate Keeps(w: World, a: State, b: State) {
    && (DeadLettersAreOwn(w, a) ==> DeadLettersAreOwn(w, b) && StaysSafe(a, b))
    && a.minted <= b.minted && a.log <= b.log && a.saved == b.saved && a.cursors == b.cursors
  }

  function StateOf(c: Ctl): State {
    c.state
  }

  lemma KeepsTransitive(w: World, a: State, b: State, c: State)
    requires Keeps(w, a, b) && Keeps(w, b, c)
    ensures Keeps(w, a, c)
  {
    hide Safe, DeadLettersAreOwn;
  }

  // ---------------------------------------------------------------- one push

  lemma LogOneMoreAcknowledges(a: State, b: State, attempt: Attempt, item: Item)
    requires b.log == a.log + [attempt]
    ensures Acknowledged(b, item) <==> Acknowledged(a, item) || (attempt.outcome.Pushed? && item in attempt.batch.entities)
  {
    assert b.log[|a.log|] == attempt;
    if k :| 0 <= k < |a.log| && a.log[k].outcome.Pushed? && item in a.log[k].batch.entities {
      assert b.log[k] == a.log[k];
    }
  }

  lemma PushKeeps(w: World, a: State, b: Batch)
    requires IdsAreFresh(w) && b.id == w.uuid(a.minted)
    ensures Keeps(w, a, StateOf(HandleFullBatch(w, a, Some(b))))
    ensures DeadLettersAreOwn(w, a) && HandleFullBatch(w, a, Some(b)).Go? ==>
              forall item :: item in b.entities ==> Safe(HandleFullBatch(w, a, Some(b)).state, item)
  {
    var c := HandleFullBatch(w, a, Some(b));
    var a' := c.state;
    hide OutcomeOf;
    var attempt := Attempt(b, OutcomeOf(w, a.log, b));
    assert a'.log == a.log + [attempt];
    forall item ensures Acknowledged(a', item) <==> Acknowledged(a, item) || (attempt.outcome.Pushed? && item in b.entities) {
      LogOneMoreAcknowledges(a, a', attempt, item);
    }
    if DeadLettersAreOwn(w, a) {
      hide Acknowledged;
      assert b.id !in a.dead;
      forall path | path in a'.dead ensures a'.dead[path].id == path && exists i: nat :: i < a'.minted && w.uuid(i) == path {
        if path in a.dead {
          var i: nat :| i < a.minted && w.uuid(i) == path;
        } else {
          assert w.uuid(a.minted) == path;
        }
      }
      forall item | Queued(a, item) ensures Queued(a', item) {
        var path :| path in a.dead && item in a.dead[path].entities;
        assert path in a'.dead && a'.dead[path] == a.dead[path];
      }
      if c.Go? && attempt.outcome.NotPushed? {
        assert b.id in a'.dead && a'.dead[b.id] == b;
      }
    }
  }

  lemma KeepsReflexive(w: World, a: State)
    ensures Keeps(w, a, a)
  {
  }

  lemma HandleKeeps(w: World, a: State, b: Option<Batch>)
    requires IdsAreFresh(w) && (b.Some? ==> b.value.id == w.uuid(a.minted))
    ensures Keeps(w, a, StateOf(HandleFullBatch(w, a, b)))
    ensures DeadLettersAreOwn(w, a) && HandleFullBatch(w, a, b).Go? ==>
              forall item :: item in EntitiesOf(b) ==> Safe(HandleFullBatch(w, a, b).state, item)
  {
    hide Keeps, Safe, DeadLettersAreOwn, IdsAreFresh;
    match b
    case None => KeepsReflexive(w, a);
    case Some(batch) => PushKeeps(w, a, batch);
  }

  /** Only the report changed. */
  lemma ReportIsNoHistory(w: World, a: State, report: Report)
    ensures Keeps(w, a, a.(report := report)) && Keeps(w, a.(report := report), a)
  {
    var b := a.(report := report);
    forall item ensures Safe(a, item) <==> Safe(b, item) {
    }
  }

  // ---------------------------------------------------------------- one entity

  ghost predicate Carried(a: State, buffer: Buffer, item: Item) {
    Safe(a, item) || item in buffer.items
  }

  lemma {:induction false} FeedOneKeeps(w: World, limits: Limits, a: State, buffer: Buffer, ct: string, item: Item,
      tick: (real, real))
    requires IdsAreFresh(w)
    ensures var f := ValidateAndBatch(w, limits, a, buffer, ct, item, tick);
            && Keeps(w, a, f.ctl.state)
            && (DeadLettersAreOwn(w, a) && f.ctl.Go? ==>
                  (forall it :: Carried(a, buffer, it) ==> Carried(f.ctl.state, f.buffer, it)) &&
                  (ValidItem(item) ==> Carried(f.ctl.state, f.buffer, item)))
  {
    hide Safe, ValidItem, IdsAreFresh;
    if !ValidItem(item) {
      ReportIsNoHistory(w, a, a.report.(invalid := a.report.invalid + 1));
    } else {
      KeepsReflexive(w, a);
      var step := AddStep(limits, buffer, ct, item, tick.0, w.uuid(a.minted));
      if step.Some? {
        var added := step.value;
        AddedOrClosed(limits, buffer, ct, item, tick.0, w.uuid(a.minted));
        HandleKeeps(w, a, added.closed);
        var c := HandleFullBatch(w, a, added.closed);
        if c.Go? {
          var polled := PollStep(limits, added.buffer, tick.1, w.uuid(c.state.minted));
          PolledOrClosed(limits, added.buffer, tick.1, w.uuid(c.state.minted));
          HandleKeeps(w, c.state, polled.closed);
          KeepsTransitive(w, a, c.state, HandleFullBatch(w, c.state, polled.closed).state);
          hide HandleFullBatch, AddStep, PollStep;
        }
      }
    }
  }

  lemma AddedOrClosed(limits: Limits, buffer: Buffer, ct: string, item: Item, now: real, id: string)
    requires AddStep(limits, buffer, ct, item, now, id).Some?
    ensures var s := AddStep(limits, buffer, ct, item, now, id).value;
            && (s.closed.Some? ==> s.closed.value.id == id)
            && EntitiesOf(s.closed) + s.buffer.items == buffer.items + [item]
            && forall it :: it in buffer.items || it == item ==> it in EntitiesOf(s.closed) || it in s.buffer.items
  {
    var s := AddStep(limits, buffer, ct, item, now, id).value;
    assert EntitiesOf(s.closed) + s.buffer.items == buffer.items + [item];
    assert item in buffer.items + [item];
  }

  lemma PolledOrClosed(limits: Limits, buffer: Buffer, now: real, id: string)
    ensures var s := PollStep(limits, buffer, now, id);
            && (s.closed.Some? ==> s.closed.value.id == id)
            && EntitiesOf(s.closed) + s.buffer.items == buffer.items
            && forall it :: it in buffer.items ==> it in EntitiesOf(s.closed) || it in s.buffer.items
  {
  }

  lemma FlushedOrEmpty(buffer: Buffer, id: string)
    ensures var s := FlushStep(buffer, id);
            && (s.closed.Some? ==> s.closed.value.id == id)
            && EntitiesOf(s.closed) == buffer.items && s.buffer.items == []
  {
  }

  // ---------------------------------------------------------------- one source

  lemma {:induction false} FeedAllKeeps(w: World, limits: Limits, a: State, buffer: Buffer, ct: string,
      items: seq<Item>, ticks: nat -> (real, real), n: nat)
    requires IdsAreFresh(w) && n <= |items|
    ensures var f := FeedAll(w, limits, a, buffer, ct, items, ticks, n);
            && Keeps(w, a, f.ctl.state)
            && (DeadLettersAreOwn(w, a) && f.ctl.Go? ==>
                  (forall it :: Carried(a, buffer, it) ==> Carried(f.ctl.state, f.buffer, it)) &&
                  (forall i :: n <= i < |items| && ValidItem(items[i]) ==> Carried(f.ctl.state, f.buffer, items[i])))
    decreases |items| - n
  {
    hide Safe, ValidItem, ValidateAndBatch, IdsAreFresh;
    KeepsReflexive(w, a);
    if n < |items| {
      var a0 := Discovered1(a);
      ReportIsNoHistory(w, a, a0.report);
      var f := ValidateAndBatch(w, limits, a0, buffer, ct, items[n], ticks(n));
      FeedOneKeeps(w, limits, a0, buffer, ct, items[n], ticks(n));
      KeepsTransitive(w, a, a0, f.ctl.state);
      if f.ctl.Go? {
        FeedAllKeeps(w, limits, f.ctl.state, f.buffer, ct, items, ticks, n + 1);
        var rest := FeedAll(w, limits, f.ctl.state, f.buffer, ct, items, ticks, n + 1);
        KeepsTransitive(w, a, f.ctl.state, rest.ctl.state);
      }
    }
  }

  /** A run that reaches the cursor save has made every valid entity it emitted safe. */
  lemma RunUpToSave(w: World, limits: Limits, a: State, r: SourceRun)
    requires IdsAreFresh(w)
    ensures var c := RunSource(w, limits, a, r);
            && (c.Throw? ==> Keeps(w, a, c.state))
            && (c.Go? ==> exists b :: Keeps(w, a, b) && c.state == SaveCursor(b, r) &&
                            (DeadLettersAreOwn(w, a) ==>
                               forall i :: 0 <= i < |Emitted(a, r)| && ValidItem(Emitted(a, r)[i]) ==> Safe(b, Emitted(a, r)[i])))
  {
    hide Safe, ValidItem, FeedAll, Emitted, IdsAreFresh, SaveCursor;
    KeepsReflexive(w, a);
    if !r.connectRaises {
      var items := EmittedBeforeRaise(a, r);
      FeedAllKeeps(w, limits, a, EmptyBuffer, r.connectorType, items, r.ticks, 0);
      var f := FeedAll(w, limits, a, EmptyBuffer, r.connectorType, items, r.ticks, 0);
      if f.ctl.Go? && RunsThrough(a, r) {
        var a1 := f.ctl.state;
        var last := FlushStep(f.buffer, w.uuid(a1.minted)).closed;
        FlushedOrEmpty(f.buffer, w.uuid(a1.minted));
        HandleKeeps(w, a1, last);
        var c := HandleFullBatch(w, a1, last);
        KeepsTransitive(w, a, a1, c.state);
        hide HandleFullBatch, FlushStep;
      }
    }
  }

  // ---------------------------------------------------------------- the invariant

  /** Main invariant: dead letters in order; every saved run's valid entities safe; each source's cursor is what
      its last saved run left, and each saved run started where the one before it ended. */
  ghost predicate Inv(w: World, a: State) {
    && DeadLettersAreOwn(w, a)
    && (forall k, i :: 0 <= k < |a.saved| && 0 <= i < |a.saved[k].emitted| && ValidItem(a.saved[k].emitted[i]) ==>
          Safe(a, a.saved[k].emitted[i]))
    && (forall source :: LoadCursor(a, source) == LastSaved(a.saved, source))
    && Chained(a.saved)
  }

  /** The cursor left by the last saved run of a source. */
  function LastSaved(saved: seq<SavedRun>, source: string): CursorVal {
    if saved == [] then EmptyCursor
    else if saved[|saved| - 1].source == source then saved[|saved| - 1].after
    else LastSaved(saved[..|saved| - 1], source)
  }

  ghost predicate Chained(saved: seq<SavedRun>) {
    forall k :: 0 <= k < |saved| ==> saved[k].before == LastSaved(saved[..k], saved[k].source)
  }

  lemma KeptInv(w: World, a: State, b: State)
    requires Inv(w, a) && Keeps(w, a, b)
    ensures Inv(w, b)
  {
    hide Safe, ValidItem, DeadLettersAreOwn, Chained;
  }

  lemma SaveKeepsInv(w: World, a: State, r: SourceRun)
    requires Inv(w, a)
    requires forall i :: 0 <= i < |Emitted(a, r)| && ValidItem(Emitted(a, r)[i]) ==> Safe(a, Emitted(a, r)[i])
    ensures Inv(w, SaveCursor(a, r))
  {
    hide ValidItem, Scraped;
    var b := SaveCursor(a, r);
    assert b.saved[..|a.saved|] == a.saved;
    forall item ensures Safe(a, item) <==> Safe(b, item) {
    }
    hide Safe;
    assert DeadLettersAreOwn(w, b);
    forall k, i | 0 <= k < |b.saved| && 0 <= i < |b.saved[k].emitted| && ValidItem(b.saved[k].emitted[i])
      ensures Safe(b, b.saved[k].emitted[i])
    {
      if k < |a.saved| {
        assert b.saved[k] == a.saved[k];
      } else {
        assert b.saved[k].emitted == Emitted(a, r);
      }
    }
    forall source ensures LoadCursor(b, source) == LastSaved(b.saved, source) {
      assert LoadCursor(a, source) == LastSaved(a.saved, source);
    }
    forall k | 0 <= k < |b.saved| ensures b.saved[k].before == LastSaved(b.saved[..k], b.saved[k].source) {
      if k < |a.saved| {
        assert b.saved[..k] == a.saved[..k];
      }
    }
  }

  lemma EmittedDependsOnCursor(a: State, b: State, r: SourceRun)
    requires a.cursors == b.cursors
    ensures Emitted(a, r) == Emitted(b, r)
  {
  }

  lemma RunSourceKeepsInv(w: World, limits: Limits, a: State, r: SourceRun)
    requires IdsAreFresh(w) && Inv(w, a)
    ensures Inv(w, RunSource(w, limits, a, r).state)
  {
    RunUpToSave(w, limits, a, r);
    var c := RunSource(w, limits, a, r);
    hide RunSource, Emitted, SaveCursor;
    if c.Throw? {
      KeptInv(w, a, c.state);
    } else {
      assert DeadLettersAreOwn(w, a);
      var b :| Keeps(w, a, b) && c.state == SaveCursor(b, r) &&
               forall i :: 0 <= i < |Emitted(a, r)| && ValidItem(Emitted(a, r)[i]) ==> Safe(b, Emitted(a, r)[i]);
      KeptInv(w, a, b);
      EmittedDependsOnCursor(a, b, r);
      SaveKeepsInv(w, b, r);
    }
  }

  lemma RetryOneKeeps(w: World, a: State, path: string)
    requires path in a.dead
    ensures var b := a.dead[path];
            var logged := a.(log := a.log + [Attempt(b, OutcomeOf(w, a.log, b))]);
            && Keeps(w, a, logged)
            && (OutcomeOf(w, a.log, b).Pushed? ==> Keeps(w, a, logged.(dead := a.dead - {path})))
  {
    hide OutcomeOf;
    var b := a.dead[path];
    var attempt := Attempt(b, OutcomeOf(w, a.log, b));
    var logged := a.(log := a.log + [attempt]);
    var removed := logged.(dead := a.dead - {path});
    forall item ensures Acknowledged(logged, item) <==> Acknowledged(a, item) || (attempt.outcome.Pushed? && item in b.entities) {
      LogOneMoreAcknowledges(a, logged, attempt, item);
    }
    assert forall item :: Acknowledged(removed, item) <==> Acknowledged(logged, item);
    hide Acknowledged;
    forall item | Queued(a, item) && attempt.outcome.Pushed? ensures Safe(removed, item) {
      var p :| p in a.dead && item in a.dead[p].entities;
      if p != path {
        assert p in removed.dead && item in removed.dead[p].entities;
      }
    }
    forall item | Queued(a, item) ensures Queued(logged, item) {
    }
  }

  lemma {:induction false} RetryKeeps(w: World, a: State, paths: seq<string>, unreadable: set<string>)
    ensures Keeps(w, a, RetryDeadLetters(w, a, paths, unreadable).state)
    decreases |paths|
  {
    hide Safe, DeadLettersAreOwn, OutcomeOf;
    KeepsReflexive(w, a);
    if paths != [] {
      if paths[0] !in a.dead || paths[0] in unreadable {
        RetryKeeps(w, a, paths[1..], unreadable);
      } else {
        RetryOneKeeps(w, a, paths[0]);
        var outcome := OutcomeOf(w, a.log, a.dead[paths[0]]);
        var logged := a.(log := a.log + [Attempt(a.dead[paths[0]], outcome)]);
        hide Keeps;
        if outcome.Pushed? {
          var removed := logged.(dead := a.dead - {paths[0]});
          var next := removed.(report := a.report.(retriedOk := a.report.retriedOk + 1));
          ReportIsNoHistory(w, removed, next.report);
          KeepsTransitive(w, a, removed, next);
          RetryKeeps(w, next, paths[1..], unreadable);
          KeepsTransitive(w, a, next, RetryDeadLetters(w, next, paths[1..], unreadable).state);
        } else if outcome.NotPushed? {
          var next := logged.(report := a.report.(stillFailing := a.report.stillFailing + 1));
          ReportIsNoHistory(w, logged, next.report);
          KeepsTransitive(w, a, logged, next);
          RetryKeeps(w, next, paths[1..], unreadable);
          KeepsTransitive(w, a, next, RetryDeadLetters(w, next, paths[1..], unreadable).state);
        }
      }
    }
  }

  lemma {:induction false} RunSourcesKeepInv(w: World, limits: Limits, a: State, runs: seq<SourceRun>)
    requires IdsAreFresh(w) && Inv(w, a)
    ensures Inv(w, RunSources(w, limits, a, runs))
    decreases |runs|
  {
    hide Inv, IdsAreFresh, RunSource;
    if runs != [] {
      var started := Started(a);
      ReportIsNoHistory(w, a, started.report);
      KeptInv(w, a, started);
      RunSourceKeepsInv(w, limits, started, runs[0]);
      var c := RunSource(w, limits, started, runs[0]);
      if c.Go? {
        RunSourcesKeepInv(w, limits, c.state, runs[1..]);
      } else {
        var failed := SourceFailed(c.state);
        ReportIsNoHistory(w, c.state, failed.report);
        KeptInv(w, c.state, failed);
        RunSourcesKeepInv(w, limits, failed, runs[1..]);
      }
    }
  }

  lemma CycleKeepsInv(w: World, limits: Limits, a: State, c: Cycle)
    requires IdsAreFresh(w) && Inv(w, a)
    ensures Inv(w, RunCycle(w, limits, a, c))
  {
    hide Inv, IdsAreFresh, RunSources, RetryDeadLetters;
    var a0 := a.(report := EmptyReport);
    ReportIsNoHistory(w, a, EmptyReport);
    KeptInv(w, a, a0);
    RetryKeeps(w, a0, c.listing, c.unreadable);
    var r := RetryDeadLetters(w, a0, c.listing, c.unreadable);
    KeptInv(w, a0, r.state);
    if r.Go? {
      RunSourcesKeepInv(w, limits, r.state, c.runs);
    }
  }

  lemma {:induction false} CyclesKeepInv(w: World, limits: Limits, a: State, cs: seq<Cycle>)
    requires IdsAreFresh(w) && Inv(w, a)
    ensures Inv(w, RunCycles(w, limits, a, cs))
    decreases |cs|
  {
    hide Inv, IdsAreFresh, RunCycle;
    if cs != [] {
      CycleKeepsInv(w, limits, a, cs[0]);
      CyclesKeepInv(w, limits, RunCycle(w, limits, a, cs[0]), cs[1..]);
    }
  }

  lemma FreshAgentInv(w: World)
    ensures Inv(w, FreshAgent)
  {
  }

  /** Main result: in every state any run of cycles reaches - pushes failing, pushes raising, sources raising at any
      point, dead letters unreadable - each valid entity of a saved source run was answered 200/202 or waits on disk. */
  lemma SavedEntitiesAreNeverLost(w: World, limits: Limits, cs: seq<Cycle>, k: nat, i: nat)
    requires IdsAreFresh(w)
    requires var a := RunCycles(w, limits, FreshAgent, cs);
             k < |a.saved| && i < |a.saved[k].emitted| && ValidItem(a.saved[k].emitted[i])
    ensures var a := RunCycles(w, limits, FreshAgent, cs);
            Acknowledged(a, a.saved[k].emitted[i]) || Queued(a, a.saved[k].emitted[i])
  {
    FreshAgentInv(w);
    CyclesKeepInv(w, limits, FreshAgent, cs);
  }

  // ---------------------------------------------------------------- no urn leaves the cursor unannounced

  /** What a connector guarantees of its scrape: distinct kinds the agent knows, and a proper content hash. */
  ghost predicate GoodScrape(s: Scrape) {
    && KindsDistinct(s)
    && (forall i :: 0 <= i < |s.kinds| ==> AgentKind(s.kinds[i]))
    && WellHashed(Some(s.hash(s.tombstone)))
  }

  ghost predicate GoodCycles(cs: seq<Cycle>) {
    forall i, j :: 0 <= i < |cs| && 0 <= j < |cs[i].runs| ==> GoodScrape(cs[i].runs[j].scrape)
  }

  /** Each saved run is a scrape of the cursor it started from. */
  ghost predicate HistoryIsScraped(a: State) {
    && (forall source :: source in a.cursors ==> WellOrdered(a.cursors[source]))
    && forall k :: 0 <= k < |a.saved| ==>
         var run := a.saved[k];
         GoodScrape(run.scrape) && WellOrdered(run.before) && run.after == Scraped(run.scrape, run.before).cursor &&
         Scraped(run.scrape, run.before).items <= run.emitted
  }

  lemma RunSourceScrapes(w: World, limits: Limits, a: State, r: SourceRun)
    requires IdsAreFresh(w) && HistoryIsScraped(a) && GoodScrape(r.scrape)
    ensures HistoryIsScraped(RunSource(w, limits, a, r).state)
  {
    hide RunSource, HistoryIsScraped, GoodScrape, SaveCursor, IdsAreFresh;
    RunUpToSave(w, limits, a, r);
    var c := RunSource(w, limits, a, r);
    if c.Go? {
      var b :| Keeps(w, a, b) && c.state == SaveCursor(b, r);
      SameHistory(w, a, b);
      SaveScrapes(b, r);
    } else {
      SameHistory(w, a, c.state);
    }
  }

  lemma SameHistory(w: World, a: State, b: State)
    requires HistoryIsScraped(a) && Keeps(w, a, b)
    ensures HistoryIsScraped(b)
  {
    hide Scraped, GoodScrape, DeadLettersAreOwn, StaysSafe;
  }

  lemma SaveScrapes(a: State, r: SourceRun)
    requires HistoryIsScraped(a) && GoodScrape(r.scrape)
    ensures HistoryIsScraped(SaveCursor(a, r))
  {
    hide Scraped, GoodScrape, WellOrdered;
    EmptyIsWellOrdered();
    LeavesWellOrdered(r.scrape, LoadCursor(a, r.source));
  }

  lemma EmptyIsWellOrdered()
    ensures WellOrdered(EmptyCursor)
  {
  }

  lemma LeavesWellOrdered(s: Scrape, c: CursorVal)
    requires GoodScrape(s) && WellOrdered(c)
    ensures WellOrdered(Scraped(s, c).cursor)
  {
    hide Scraped;
    ScrapeLeavesTheFinds(s, c);
  }

  lemma {:induction false} RunSourcesScrape(w: World, limits: Limits, a: State, runs: seq<SourceRun>)
    requires IdsAreFresh(w) && HistoryIsScraped(a) && forall j :: 0 <= j < |runs| ==> GoodScrape(runs[j].scrape)
    ensures HistoryIsScraped(RunSources(w, limits, a, runs))
    decreases |runs|
  {
    hide RunSource, GoodScrape, IdsAreFresh, Scraped;
    if runs != [] {
      var started := Started(a);
      RunSourceScrapes(w, limits, started, runs[0]);
      var c := RunSource(w, limits, started, runs[0]);
      if c.Go? {
        RunSourcesScrape(w, limits, c.state, runs[1..]);
      } else {
        RunSourcesScrape(w, limits, SourceFailed(c.state), runs[1..]);
      }
    }
  }

  lemma {:induction false} CyclesScrape(w: World, limits: Limits, a: State, cs: seq<Cycle>)
    requires IdsAreFresh(w) && HistoryIsScraped(a) && GoodCycles(cs)
    ensures HistoryIsScraped(RunCycles(w, limits, a, cs))
    decreases |cs|
  {
    hide IdsAreFresh, RunSources, RetryDeadLetters, GoodScrape, Scraped, Safe, DeadLettersAreOwn;
    if cs != [] {
      var a0 := a.(report := EmptyReport);
      RetryKeeps(w, a0, cs[0].listing, cs[0].unreadable);
      var r := RetryDeadLetters(w, a0, cs[0].listing, cs[0].unreadable);
      assert HistoryIsScraped(r.state);
      if r.Go? {
        RunSourcesScrape(w, limits, r.state, cs[0].runs);
      }
      CyclesScrape(w, limits, RunCycle(w, limits, a, cs[0]), cs[1..]);
    }
  }

  /** The saved run m emitted a delete of the urn, and that delete is acknowledged or on disk. */
  ghost predicate AnnouncedBy(a: State, m: int, source: string, urn: string) {
    && 0 <= m < |a.saved| && a.saved[m].source == source
    && exists i :: 0 <= i < |a.saved[m].emitted| &&
         a.saved[m].emitted[i].op.Delete? && a.saved[m].emitted[i].urn == urn && Safe(a, a.saved[m].emitted[i])
  }

  lemma DroppingRunAnnounces(w: World, a: State, m: nat, urn: string)
    requires Inv(w, a) && HistoryIsScraped(a) && m < |a.saved| && urn != ""
    requires urn in a.saved[m].before.entries && urn !in a.saved[m].after.entries
    ensures AnnouncedBy(a, m, a.saved[m].source, urn)
  {
    var run := a.saved[m];
    hide Scraped, Safe, DeadLettersAreOwn, Chained;
    ScrapeLeavesTheFinds(run.scrape, run.before);
    var kind := run.before.entries[urn].kind;
    var items := Scraped(run.scrape, run.before).items;
    DeletesOnlyTheDropped(run.scrape, run.before, kind, urn);
    ScrapedItems(run.scrape, run.before);
    assert Dropped(run.scrape, run.before, kind, urn);
    hide FoundBefore, LastFind, SplitsAs;
    var i :| 0 <= i < |items| && items[i].op.Delete? && items[i].kind == kind && items[i].urn == urn;
    DeletesAreValid(run.scrape, run.before, i);
    assert run.emitted[i] == items[i];
  }

  lemma DeletesAreValid(s: Scrape, c: CursorVal, i: nat)
    requires GoodScrape(s) && WellOrdered(c) && i < |Scraped(s, c).items| && Scraped(s, c).items[i].op.Delete?
    requires Scraped(s, c).items[i].urn != ""
    ensures ValidItem(Scraped(s, c).items[i])
  {
    hide Scraped, TombstonesFrom, AfterScan, FoundBefore;
    ScrapedItems(s, c);
    var tombs := TombstonesFrom(s, AfterScan(s, c, |s.scan|), 0);
    assert i >= |s.scan|;
    TombstoneMembers(s, AfterScan(s, c, |s.scan|), 0, tombs[i - |s.scan|]);
  }

  lemma LastSavedStep(saved: seq<SavedRun>, n: nat, source: string)
    requires 0 < n <= |saved|
    ensures LastSaved(saved[..n], source) ==
            if saved[n - 1].source == source then saved[n - 1].after else LastSaved(saved[..n - 1], source)
  {
    assert saved[..n][..n - 1] == saved[..n - 1];
  }

  /** Along a chained history, a urn that got lost after run k was lost in one later run of the same source. */
  lemma {:induction false} FindDroppingRun(saved: seq<SavedRun>, k: nat, n: nat, urn: string) returns (m: nat)
    requires Chained(saved) && k < n <= |saved|
    requires urn in saved[k].after.entries && urn !in LastSaved(saved[..n], saved[k].source).entries
    ensures k < m < n && saved[m].source == saved[k].source
    ensures urn in saved[m].before.entries && urn !in saved[m].after.entries
    decreases n
  {
    var source := saved[k].source;
    LastSavedStep(saved, n, source);
    hide LastSaved;
    if saved[n - 1].source == source && urn in saved[n - 1].before.entries {
      m := n - 1;
    } else {
      assert saved[n - 1].before == LastSaved(saved[..n - 1], saved[n - 1].source);
      m := FindDroppingRun(saved, k, n - 1, urn);
    }
  }

  /** Main result: a urn that some saved cursor of a source held and the current one does not was deleted by a
      later saved run, and that delete is acknowledged or waits on disk. */
  lemma NoUrnLeavesUnannounced(w: World, limits: Limits, cs: seq<Cycle>, k: nat, urn: string)
    requires IdsAreFresh(w) && GoodCycles(cs) && urn != ""
    requires var a := RunCycles(w, limits, FreshAgent, cs);
             k < |a.saved| && urn in a.saved[k].after.entries && urn !in LoadCursor(a, a.saved[k].source).entries
    ensures var a := RunCycles(w, limits, FreshAgent, cs);
            exists m :: k < m < |a.saved| && AnnouncedBy(a, m, a.saved[k].source, urn)
  {
    hide GoodScrape, AnnouncedBy, Safe;
    FreshAgentInv(w);
    CyclesKeepInv(w, limits, FreshAgent, cs);
    CyclesScrape(w, limits, FreshAgent, cs);
    var a := RunCycles(w, limits, FreshAgent, cs);
    assert a.saved[..|a.saved|] == a.saved;
    hide HistoryIsScraped, RunCycles, DeadLettersAreOwn, Chained;
    assert LoadCursor(a, a.saved[k].source) == LastSaved(a.saved, a.saved[k].source);
    var m := FindDroppingRun(a.saved, k, |a.saved|, urn);
    DroppingRunAnnounces(w, a, m, urn);
  }
}
