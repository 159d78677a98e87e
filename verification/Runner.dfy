/** The agent runner as it runs - connector, batcher, push client, dead letters and cursors as objects - proved
    against the agent's state functions. */
module Runner {
  import opened Types
  import opened Cursors
  import opened Connectors
  import opened Batching
  import opened Validation
  import Pushing
  import opened Agent
  import Spec = Agent
  import opened NothingLost
  import opened Conservation
  import opened Disk

  /** The push client over a transport: `w` answers its posts, `random` feeds its jitter, and the log is the history
      of its pushes. */
  class PushClient {
    const w: World
    const random: (nat, nat) -> real
    var log: seq<Attempt>

    constructor (w: World, random: (nat, nat) -> real)
      ensures this.w == w && this.random == random && log == []
    {
      this.w, this.random, log := w, random, [];
    }

    /** `push`: the retry loop, unless an exception of another kind ends it. */
    method Push(b: Batch) returns (outcome: PushOutcome)
      modifies this
      ensures outcome == OutcomeOf(w, old(log), b) && log == old(log) + [Attempt(b, outcome)]
    {
      var earlier := log;
      if b.entities != [] && w.raisesAfter(|earlier|).Some? {
        outcome := PushRaised;
      } else {
        var result, sleeps := Pushing.Push(w.policy, b.entities, (i: nat) => w.answers(earlier, b, i),
            (i: nat) => random(|earlier|, i));
        outcome := FromResult(result);
      }
      log := log + [Attempt(b, outcome)];
    }
  }

  // ---------------------------------------------------------------- one step of the state functions

  lemma FeedAllStep(w: World, limits: Limits, a: State, buffer: Buffer, ct: string, items: seq<Item>,
      ticks: nat -> (real, real), n: nat)
    requires n < |items|
    ensures var f := ValidateAndBatch(w, limits, Discovered1(a), buffer, ct, items[n], ticks(n));
            FeedAll(w, limits, a, buffer, ct, items, ticks, n) ==
            if f.ctl.Throw? then f else FeedAll(w, limits, f.ctl.state, f.buffer, ct, items, ticks, n + 1)
  {
    hide ValidateAndBatch;
  }

  /** Where the run stands after n entities: the n-th is next, or the source raises, or all are through. */
  lemma CutAt(a: State, r: SourceRun, n: nat)
    requires n <= |Emitted(a, r)| && (r.raisesAt.Some? ==> n <= r.raisesAt.value)
    ensures n <= |EmittedBeforeRaise(a, r)|
    ensures r.raisesAt == Some(n) ==> n == |EmittedBeforeRaise(a, r)| && (!r.connectRaises ==> !RunsThrough(a, r))
    ensures r.raisesAt != Some(n) && n < |Emitted(a, r)| ==>
              n < |EmittedBeforeRaise(a, r)| && EmittedBeforeRaise(a, r)[n] == Emitted(a, r)[n]
    ensures r.raisesAt != Some(n) && n == |Emitted(a, r)| ==>
              EmittedBeforeRaise(a, r) == Emitted(a, r) && (!r.connectRaises ==> RunsThrough(a, r))
  {
    hide Emitted;
  }

  /** How a run ends, given how feeding its entities ended. */
  lemma RunEnds(w: World, limits: Limits, a: State, r: SourceRun, fed: Feed)
    requires !r.connectRaises
    requires FeedAll(w, limits, a, EmptyBuffer, r.connectorType, EmittedBeforeRaise(a, r), r.ticks, 0) == fed
    ensures RunSource(w, limits, a, r) ==
            if fed.ctl.Throw? || !RunsThrough(a, r) then Throw(fed.ctl.state)
            else
              var c := HandleFullBatch(w, fed.ctl.state, FlushStep(fed.buffer, w.uuid(fed.ctl.state.minted)).closed);
              if c.Throw? || r.saveRaises then Throw(c.state) else Go(SaveCursor(c.state, r))
  {
    hide FeedAll, EmittedBeforeRaise, RunsThrough, HandleFullBatch, FlushStep, SaveCursor;
  }

  lemma FedAll(w: World, limits: Limits, a: State, buffer: Buffer, ct: string, items: seq<Item>,
      ticks: nat -> (real, real))
    ensures FeedAll(w, limits, a, buffer, ct, items, ticks, |items|) == Feed(Go(a), buffer)
  {
  }

  lemma InterleavedStep(s: Scrape, c: CursorVal, phase: Phase, n: nat)
    ensures var (raw, phase') := Next(s, c, phase);
            match raw
            case None => Interleaved(s, c, phase, n) == Emission([], c)
            case Some(x) =>
              var rest := Interleaved(s, ExtractCursor(s, c, x, n), phase', n + 1);
              Interleaved(s, c, phase, n) == Emission([ExtractItem(s, x, n)] + rest.items, rest.cursor)
  {
    hide Next;
  }

  lemma ExtractKeepsOrder(s: Scrape, c: CursorVal, raw: Raw, n: nat)
    requires WellOrdered(c)
    ensures WellOrdered(ExtractCursor(s, c, raw, n))
  {
    hide WellOrdered;
    match raw
    case Discovered(f) => RecordKeepsOrder(c, f.urn, Entry(f.kind, s.hash(f.payload), s.clock(n)));
    case Tombstone(_, urn) => ForgetKeepsOrder(c, urn);
  }

  /** What is still to come of a scrape that is under way. */
  ghost predicate Remaining(items: seq<Item>, n: nat, rest: seq<Item>) {
    n <= |items| && items[n..] == rest
  }

  lemma NextItem(items: seq<Item>, n: nat, item: Item, rest: seq<Item>)
    requires Remaining(items, n, [item] + rest)
    ensures n < |items| && items[n] == item && Remaining(items, n + 1, rest)
  {
    assert items[n] == items[n..][0];
    assert items[n + 1..] == items[n..][1..];
  }

  class AgentRunner {
    const w: World
    const limits: Limits
    const pushClient: PushClient
    const deadLetter: DeadLetterQueue
    const cursorStore: CursorStore
    var minted: nat
    var report: Report
    ghost var saved: seq<SavedRun>

    constructor (w: World, limits: Limits, pushClient: PushClient, deadLetter: DeadLetterQueue,
        cursorStore: CursorStore)
      requires pushClient.w == w
      ensures Valid() && this.w == w && this.limits == limits
      ensures this.pushClient == pushClient && this.deadLetter == deadLetter && this.cursorStore == cursorStore
      ensures Value() == State(deadLetter.Pending(), cursorStore.Cursors(), 0, pushClient.log, [], EmptyReport)
    {
      this.w, this.limits := w, limits;
      this.pushClient, this.deadLetter, this.cursorStore := pushClient, deadLetter, cursorStore;
      minted, report, saved := 0, EmptyReport, [];
    }

    ghost predicate Valid() {
      pushClient.w == w
    }

    ghost function Value(): State
      reads this, pushClient, deadLetter, cursorStore
    {
      State(deadLetter.Pending(), cursorStore.Cursors(), minted, pushClient.log, saved, report)
    }

    /** `_push_or_dead_letter` */
    method PushOrDeadLetter(b: Batch) returns (raised: bool)
      requires Valid() && AllProper(b.entities)
      modifies this`report, pushClient, deadLetter
      ensures (if raised then Throw(Value()) else Go(Value())) == Spec.PushOrDeadLetter(w, old(Value()), b)
      ensures pushClient.log == old(pushClient.log) + [Attempt(b, OutcomeOf(w, old(pushClient.log), b))]
      ensures report.accepted == old(report.accepted) + AcceptedIn(pushClient.log[|old(pushClient.log)|..])
      ensures report.rejected == old(report.rejected) + RejectedIn(pushClient.log[|old(pushClient.log)|..])
      ensures report.deadLettered - old(report.deadLettered) == CountFailed(pushClient.log[|old(pushClient.log)|..])
    {
      hide OutcomeOf, AcceptedIn, RejectedIn, CountFailed;
      CountsOfOne(Attempt(b, OutcomeOf(w, pushClient.log, b)));
      var n := |pushClient.log|;
      var outcome := pushClient.Push(b);
      match outcome {
        case PushRaised => raised := true;
        case Pushed(accepted, rejected) =>
          report := report.(batchesPushed := report.batchesPushed + 1, accepted := report.accepted + |accepted|,
                            rejected := report.rejected + |rejected|);
          raised := false;
        case NotPushed =>
          report := report.(batchesPushed := report.batchesPushed + 1, deadLettered := report.deadLettered + 1);
          raised := w.addRaises(n);
          if !raised {
            deadLetter.Add(b);
          }
      }
    }

    lemma CountsOfOne(x: Attempt)
      ensures AcceptedIn([x]) == if x.outcome.Pushed? then |x.outcome.accepted| else 0
      ensures RejectedIn([x]) == if x.outcome.Pushed? then |x.outcome.rejected| else 0
      ensures CountFailed([x]) == if x.outcome.NotPushed? then 1 else 0
    {
      NoCounts();
      ListsOneMore([], x);
      CountOneMore([], x);
      assert [] + [x] == [x];
    }

    /** `handle_full_batch`: the batch id was drawn when the batch was closed. */
    method HandleFullBatch(b: Option<Batch>) returns (raised: bool)
      requires Valid() && (b.Some? ==> AllProper(b.value.entities))
      modifies this`report, this`minted, pushClient, deadLetter
      ensures (if raised then Throw(Value()) else Go(Value())) == Spec.HandleFullBatch(w, old(Value()), b)
    {
      hide Spec.PushOrDeadLetter;
      raised := false;
      if b.Some? {
        minted := minted + 1;
        raised := PushOrDeadLetter(b.value);
      }
    }

    /** `_validate_and_batch` */
    method ValidateAndBatch(connectorType: string, item: Item, batcher: Batcher, tick: (real, real))
      returns (raised: bool)
      requires Valid() && batcher.limits == limits && AllProper(batcher.buffer)
      modifies this`report, this`minted, pushClient, deadLetter, batcher
      ensures Feed(if raised then Throw(Value()) else Go(Value()), batcher.Value()) ==
              Spec.ValidateAndBatch(w, limits, old(Value()), old(batcher.Value()), connectorType, item, tick)
      ensures AllProper(batcher.buffer)
    {
      hide Spec.HandleFullBatch, ValidItem, Proper;
      var errors := ValidateEntity(item);
      if errors != [] {
        report := report.(invalid := report.invalid + 1);
        return false;
      }
      ValidIsProper(item);
      var full;
      raised, full := batcher.Add(connectorType, item, tick.0, w.uuid(minted));
      if raised {
        return;
      }
      raised := HandleFullBatch(full);
      if raised {
        return;
      }
      full := batcher.MaybeFlushOnInterval(tick.1, w.uuid(minted));
      raised := HandleFullBatch(full);
    }

    /** One discovered entity: counted, then validated and batched. */
    method FeedOne(connectorType: string, item: Item, batcher: Batcher, tick: (real, real)) returns (raised: bool)
      requires Valid() && batcher.limits == limits && AllProper(batcher.buffer)
      modifies this`report, this`minted, pushClient, deadLetter, batcher
      ensures Feed(if raised then Throw(Value()) else Go(Value()), batcher.Value()) ==
              Spec.ValidateAndBatch(w, limits, Discovered1(old(Value())), old(batcher.Value()), connectorType, item, tick)
      ensures AllProper(batcher.buffer)
    {
      hide Spec.ValidateAndBatch;
      report := report.(discovered := report.discovered + 1);
      raised := ValidateAndBatch(connectorType, item, batcher, tick);
    }

    /** The state of a run under way: n entities fed, `items` in all. */
    ghost predicate Underway(a: State, r: SourceRun, n: nat, batcher: Batcher)
      reads this, pushClient, deadLetter, cursorStore, batcher
    {
      var cut := EmittedBeforeRaise(a, r);
      && n <= |cut| && (r.raisesAt.Some? ==> n <= r.raisesAt.value)
      && batcher.limits == limits && AllProper(batcher.buffer)
      && cursorStore.Cursors() == a.cursors && saved == a.saved
      && FeedAll(w, limits, Value(), batcher.Value(), r.connectorType, cut, r.ticks, n) ==
         FeedAll(w, limits, a, EmptyBuffer, r.connectorType, cut, r.ticks, 0)
    }

    lemma StartsUnderway(r: SourceRun, batcher: Batcher)
      requires batcher.limits == limits && batcher.Value() == EmptyBuffer
      ensures Underway(Value(), r, 0, batcher)
    {
      CutAt(Value(), r, 0);
      hide EmittedBeforeRaise, FeedAll;
    }

    /** The source raises after n entities. */
    lemma RaisesHere(a: State, r: SourceRun, n: nat, batcher: Batcher)
      requires Underway(a, r, n, batcher) && r.raisesAt == Some(n) && !r.connectRaises && n <= |Emitted(a, r)|
      ensures Spec.RunSource(w, limits, a, r) == Throw(Value())
    {
      CutAt(a, r, n);
      FedAll(w, limits, Value(), batcher.Value(), r.connectorType, EmittedBeforeRaise(a, r), r.ticks);
      RunEnds(w, limits, a, r, Feed(Go(Value()), batcher.Value()));
    }

    /** Feed the entity numbered n, or stop where the source or the batcher raises. */
    method FeedNext(ghost a: State, r: SourceRun, n: nat, item: Item, batcher: Batcher) returns (raised: bool)
      requires Valid() && Underway(a, r, n, batcher) && r.raisesAt != Some(n)
      requires n < |Emitted(a, r)| && Emitted(a, r)[n] == item && !r.connectRaises
      modifies this`report, this`minted, pushClient, deadLetter, batcher
      ensures raised ==> Spec.RunSource(w, limits, a, r) == Throw(Value())
      ensures !raised ==> Underway(a, r, n + 1, batcher)
    {
      CutAt(a, r, n);
      CutAt(a, r, n + 1);
      FeedAllStep(w, limits, Value(), batcher.Value(), r.connectorType, EmittedBeforeRaise(a, r), r.ticks, n);
      hide EmittedBeforeRaise, Emitted, FeedAll, Proper, Spec.ValidateAndBatch, Discovered1;
      raised := FeedOne(r.connectorType, item, batcher, r.ticks(n));
      if raised {
        RunEnds(w, limits, a, r, Feed(Throw(Value()), batcher.Value()));
      }
    }

    /** `_run_source` */
    method RunSource(r: SourceRun, now: int) returns (raised: bool)
      requires Valid() && IsSafe(r.source)
      modifies this, pushClient, deadLetter, cursorStore
      ensures (if raised then Throw(Value()) else Go(Value())) == Spec.RunSource(w, limits, old(Value()), r)
    {
      ghost var a := Value();
      if r.connectRaises {
        return true;
      }
      hide EmittedBeforeRaise, Emitted, FeedAll, Proper, Spec.HandleFullBatch, Spec.RunSource, WellOrdered,
           RunsThrough, Scraped, IsSafe, Underway;
      SafeIsItself(r.source);
      var cursor := cursorStore.Load(r.source);
      var batcher;
      raised, batcher := Gather(r, cursor);
      if !raised {
        raised := FinishRun(a, r, cursor, batcher, now);
      }
    }

    /** The two loops: everything discovered, then every lineage edge, goes through validation and batcher. */
    method Gather(r: SourceRun, cursor: Cursor) returns (raised: bool, batcher: Batcher)
      requires Valid() && !r.connectRaises && cursor.Value() == LoadCursor(Value(), r.source)
      requires WellOrdered(cursor.Value())
      modifies this`report, this`minted, pushClient, deadLetter, cursor
      ensures fresh(batcher)
      ensures raised ==> Spec.RunSource(w, limits, old(Value()), r) == Throw(Value())
      ensures !raised ==> Underway(old(Value()), r, |Emitted(old(Value()), r)|, batcher)
      ensures !raised ==> r.raisesAt != Some(|Emitted(old(Value()), r)|) && WellOrdered(cursor.Value())
      ensures !raised ==> cursor.Value() == Scraped(r.scrape, LoadCursor(old(Value()), r.source)).cursor
    {
      hide EmittedBeforeRaise, Emitted, FeedAll, Proper, Spec.RunSource, WellOrdered, Scraped, Underway;
      ghost var a := Value();
      var connector := new Connector(r.scrape, cursor);
      batcher := new Batcher(limits);
      StartsUnderway(r, batcher);
      raised := DriveScrape(a, r, connector, batcher);
      if !raised {
        raised := FeedEdges(a, r, connector.extracted, batcher);
      }
    }

    /** The last flush, and only after it the cursor. */
    method FinishRun(ghost a: State, r: SourceRun, cursor: Cursor, batcher: Batcher, now: int) returns (raised: bool)
      requires Valid() && IsSafe(r.source) && !r.connectRaises
      requires Underway(a, r, |Emitted(a, r)|, batcher) && r.raisesAt != Some(|Emitted(a, r)|)
      requires WellOrdered(cursor.Value()) && cursor.Value() == Scraped(r.scrape, LoadCursor(a, r.source)).cursor
      modifies this, pushClient, deadLetter, cursorStore, batcher
      ensures (if raised then Throw(Value()) else Go(Value())) == Spec.RunSource(w, limits, a, r)
    {
      hide EmittedBeforeRaise, Emitted, FeedAll, Proper, Spec.HandleFullBatch, Spec.RunSource, WellOrdered, Scraped,
           IsSafe;
      SafeIsItself(r.source);
      WholeRun(a, r, batcher);
      assert Value().cursors == a.cursors;
      hide Underway;
      var last := batcher.Flush(w.uuid(minted));
      raised := HandleFullBatch(last);
      if raised {
        return;
      }
      if r.saveRaises {
        return true;
      }
      EmittedDependsOnCursor(a, Value(), r);
      saved := saved + [SavedRun(r.source, r.scrape, LoadCursor(a, r.source), cursor.Value(), Emitted(a, r))];
      cursorStore.Save(r.source, cursor, now);
    }

    /** All entities are fed and the source has not raised: what is left is the flush and the cursor. */
    lemma WholeRun(a: State, r: SourceRun, batcher: Batcher)
      requires Underway(a, r, |Emitted(a, r)|, batcher) && r.raisesAt != Some(|Emitted(a, r)|) && !r.connectRaises
      ensures var c := Spec.HandleFullBatch(w, Value(), FlushStep(batcher.Value(), w.uuid(minted)).closed);
              Spec.RunSource(w, limits, a, r) ==
              if c.Throw? || r.saveRaises then Throw(c.state) else Go(Spec.SaveCursor(c.state, r))
    {
      CutAt(a, r, |Emitted(a, r)|);
      FedAll(w, limits, Value(), batcher.Value(), r.connectorType, Emitted(a, r), r.ticks);
      RunEnds(w, limits, a, r, Feed(Go(Value()), batcher.Value()));
    }

    /** The loop over `discover()`. */
    method DriveScrape(ghost a: State, r: SourceRun, connector: Connector, batcher: Batcher) returns (raised: bool)
      requires Valid() && Underway(a, r, 0, batcher) && !r.connectRaises
      requires connector.scrape == r.scrape && connector.phase == Scanning(0) && connector.extracted == 0
      requires connector.cursor.Value() == LoadCursor(a, r.source) && WellOrdered(connector.cursor.Value())
      modifies this`report, this`minted, pushClient, deadLetter, batcher, connector`phase, connector`extracted, connector.cursor
      ensures raised ==> Spec.RunSource(w, limits, a, r) == Throw(Value())
      ensures !raised ==> Underway(a, r, connector.extracted, batcher)
      ensures !raised ==> Remaining(Emitted(a, r), connector.extracted, r.edges)
      ensures !raised ==> connector.cursor.Value() == Scraped(r.scrape, LoadCursor(a, r.source)).cursor
      ensures !raised ==> WellOrdered(connector.cursor.Value())
    {
      hide EmittedBeforeRaise, FeedAll, Proper, Next, Interleaved, WellOrdered, ExtractItem, ExtractCursor,
           Spec.RunSource, Underway;
      ghost var items := Emitted(a, r);
      WholeScrape(a, r);
      raised := false;
      var raw: Option<Raw>;
      while true
        invariant !raised && Underway(a, r, connector.extracted, batcher) && WellOrdered(connector.cursor.Value())
        invariant Remaining(items, connector.extracted,
                  Interleaved(r.scrape, connector.cursor.Value(), connector.phase, connector.extracted).items + r.edges)
        invariant Interleaved(r.scrape, connector.cursor.Value(), connector.phase,
                  connector.extracted).cursor == Scraped(r.scrape, LoadCursor(a, r.source)).cursor
        decreases Major(r.scrape, connector.phase), Minor(r.scrape, connector.phase)
      {
        var n := connector.extracted;
        if r.raisesAt == Some(n) {
          RaisesHere(a, r, n, batcher);
          return true;
        }
        InterleavedStep(r.scrape, connector.cursor.Value(), connector.phase, n);
        raw := connector.Discover();
        if raw.None? {
          assert [] + r.edges == r.edges;
          return;
        }
        ghost var rest := Interleaved(r.scrape, ExtractCursor(r.scrape, connector.cursor.Value(), raw.value, n),
            connector.phase, n + 1);
        ghost var item0 := ExtractItem(r.scrape, raw.value, n);
        assert ([item0] + rest.items) + r.edges == [item0] + (rest.items + r.edges);
        NextItem(items, n, item0, rest.items + r.edges);
        ExtractKeepsOrder(r.scrape, connector.cursor.Value(), raw.value, n);
        var item := connector.Extract(raw.value);
        raised := FeedNext(a, r, n, item, batcher);
        if raised {
          return;
        }
      }
    }

    lemma WholeScrape(a: State, r: SourceRun)
      ensures Emitted(a, r)[0..] == Interleaved(r.scrape, LoadCursor(a, r.source), Scanning(0), 0).items + r.edges
      ensures Interleaved(r.scrape, LoadCursor(a, r.source), Scanning(0), 0).cursor == Scraped(r.scrape,
                LoadCursor(a, r.source)).cursor
    {
      hide Interleaved;
    }

    /** The loop over `extract_lineage()`. */
    method FeedEdges(ghost a: State, r: SourceRun, from: nat, batcher: Batcher) returns (raised: bool)
      requires Valid() && Underway(a, r, from, batcher) && !r.connectRaises && Remaining(Emitted(a, r), from, r.edges)
      modifies this`report, this`minted, pushClient, deadLetter, batcher
      ensures raised ==> Spec.RunSource(w, limits, a, r) == Throw(Value())
      ensures !raised ==> Underway(a, r, |Emitted(a, r)|, batcher) && r.raisesAt != Some(|Emitted(a, r)|)
    {
      hide EmittedBeforeRaise, FeedAll, Proper, Emitted, Spec.RunSource, Underway;
      raised := false;
      for i := 0 to |r.edges|
        invariant !raised && Underway(a, r, from + i, batcher)
        invariant Remaining(Emitted(a, r), from + i, r.edges[i..])
      {
        if r.raisesAt == Some(from + i) {
          RaisesHere(a, r, from + i, batcher);
          return true;
        }
        assert r.edges[i..] == [r.edges[i]] + r.edges[i + 1..];
        NextItem(Emitted(a, r), from + i, r.edges[i], r.edges[i + 1..]);
        raised := FeedNext(a, r, from + i, r.edges[i], batcher);
        if raised {
          return;
        }
      }
      if r.raisesAt == Some(from + |r.edges|) {
        RaisesHere(a, r, from + |r.edges|, batcher);
        raised := true;
      }
    }

    /** `_retry_dead_letters`, over the directory as listed. */
    method RetryDeadLetters(paths: seq<string>, unreadable: set<string>) returns (raised: bool)
      requires Valid()
      modifies this`report, pushClient, deadLetter
      ensures (if raised then Throw(Value()) else Go(Value())) == Spec.RetryDeadLetters(w, old(Value()), paths, unreadable)
    {
      hide Spec.RetryDeadLetters;
      raised := false;
      assert paths[0..] == paths;
      for i := 0 to |paths|
        invariant !raised
        invariant Spec.RetryDeadLetters(w, Value(), paths[i..], unreadable) == Spec.RetryDeadLetters(w, old(Value()),
                  paths, unreadable)
      {
        assert paths[i..][1..] == paths[i + 1..];
        raised := RetryOne(paths[i..], unreadable);
        if raised {
          return;
        }
      }
      assert paths[|paths|..] == [];
      NothingLeft(w, limits, Value(), unreadable);
    }

    /** The first listed file: read, pushed, and removed only after the push has succeeded. */
    method RetryOne(paths: seq<string>, unreadable: set<string>) returns (raised: bool)
      requires Valid() && paths != []
      modifies this`report, pushClient, deadLetter
      ensures Spec.RetryDeadLetters(w, old(Value()), paths, unreadable) ==
              if raised then Throw(Value()) else Spec.RetryDeadLetters(w, Value(), paths[1..], unreadable)
    {
      hide Spec.RetryDeadLetters, OutcomeOf;
      RetryStep(w, Value(), paths, unreadable);
      raised := false;
      if paths[0] in unreadable {
        return;
      }
      var batch := deadLetter.Load(paths[0]);
      if batch.None? {
        return;
      }
      var outcome := pushClient.Push(batch.value);
      match outcome {
        case PushRaised => raised := true;
        case Pushed(_, _) =>
          deadLetter.Remove(paths[0]);
          report := report.(retriedOk := report.retriedOk + 1);
        case NotPushed =>
          report := report.(stillFailing := report.stillFailing + 1);
      }
    }

    /** `run_cycle`: dead letters first, then every source; a source that raises is counted and passed over. */
    method RunCycle(runs: seq<SourceRun>, unreadable: set<string>, now: int) returns (ghost listing: seq<string>)
      requires Valid() && forall i :: 0 <= i < |runs| ==> IsSafe(runs[i].source)
      modifies this, pushClient, deadLetter, cursorStore
      ensures Value() == Spec.RunCycle(w, limits, old(Value()), Cycle(listing, unreadable, runs))
      ensures forall p :: p in old(deadLetter.files) <==> p in listing
      ensures NoDuplicates(listing) && Sorted(listing)
      ensures IdsAreFresh(w) && Inv(w, old(Value())) ==> Inv(w, Value())
    {
      hide Spec.RunSource, Spec.RetryDeadLetters, Inv, IdsAreFresh;
      ghost var a := Value();
      report := EmptyReport;
      var paths := deadLetter.ListPending();
      listing := paths;
      var raised := RetryDeadLetters(paths, unreadable);
      if !raised {
        RunSources(runs, now);
      }
      if IdsAreFresh(w) && Inv(w, a) {
        CycleKeepsInv(w, limits, a, Cycle(listing, unreadable, runs));
      }
    }

    method RunSources(runs: seq<SourceRun>, now: int)
      requires Valid() && forall i :: 0 <= i < |runs| ==> IsSafe(runs[i].source)
      modifies this, pushClient, deadLetter, cursorStore
      ensures Value() == Spec.RunSources(w, limits, old(Value()), runs)
    {
      hide Spec.RunSource, Spec.RunSources, IsSafe;
      assert runs[0..] == runs;
      for i := 0 to |runs|
        invariant Spec.RunSources(w, limits, Value(), runs[i..]) == Spec.RunSources(w, limits, old(Value()), runs)
      {
        RunSourcesStep(w, limits, Value(), runs[i..]);
        assert runs[i..][1..] == runs[i + 1..];
        report := report.(sourcesRun := report.sourcesRun + 1);
        var raised := RunSource(runs[i], now);
        if raised {
          report := report.(sourcesFailed := report.sourcesFailed + 1);
        }
      }
      assert runs[|runs|..] == [];
      NothingLeft(w, limits, Value(), {});
    }
  }

  lemma NothingLeft(w: World, limits: Limits, a: State, unreadable: set<string>)
    ensures RunSources(w, limits, a, []) == a && RetryDeadLetters(w, a, [], unreadable) == Go(a)
  {
  }

  lemma RunSourcesStep(w: World, limits: Limits, a: State, runs: seq<SourceRun>)
    requires runs != []
    ensures var c := RunSource(w, limits, Started(a), runs[0]);
            RunSources(w, limits, a, runs) ==
            RunSources(w, limits, if c.Go? then c.state else SourceFailed(c.state), runs[1..])
  {
    hide RunSource;
  }
}
