/** One agent as a state: what is on its disk, what it has pushed, and the scrape cycles that change it. */
module Agent {
  import opened Types
  import opened Cursors
  import opened Connectors
  import opened Batching
  import opened Validation
  import opened Pushing

  /** How one push of a batch ends: answered 200/202, failed after its retries, or an exception of another kind. */
  datatype PushOutcome = Pushed(accepted: seq<string>, rejected: seq<string>) | NotPushed | PushRaised

  datatype Attempt = Attempt(batch: Batch, outcome: PushOutcome)

  /** A source run whose cursor was saved: its scrape, the cursor it started from, the one it saved, what it emitted. */
  datatype SavedRun = SavedRun(source: string, scrape: Scrape, before: CursorVal, after: CursorVal, emitted: seq<Item>)

  datatype Report = Report(
    sourcesRun: nat, sourcesFailed: nat, discovered: nat, invalid: nat, accepted: nat, rejected: nat,
    batchesPushed: nat, deadLettered: nat, retriedOk: nat, stillFailing: nat)

  const EmptyReport := Report(0, 0, 0, 0, 0, 0, 0, 0, 0, 0)

  /** `dead` and `cursors` are on disk; `minted` counts the batch ids drawn; `log` and `saved` are history. */
  datatype State = State(
    dead: map<string, Batch>, cursors: map<string, CursorVal>, minted: nat,
    log: seq<Attempt>, saved: seq<SavedRun>, report: Report)

  const FreshAgent := State(map[], map[], 0, [], [], EmptyReport)

  /** The environment. Post i made for a batch after these earlier pushes is answered `answers(log, batch, i)`;
      `raisesAfter(n)` is the number of posts after which the n-th push raises, if it does; `addRaises(n)` tells
      whether dead-lettering its batch raises; `uuid` is the supply of batch ids. */
  datatype World = World(
    policy: RetryPolicy, answers: (seq<Attempt>, Batch, nat) -> Response, raisesAfter: nat -> Option<nat>,
    addRaises: nat -> bool, uuid: nat -> string)

  function FromResult(r: PushResult): PushOutcome {
    if r.success then Pushed(r.accepted, r.rejected) else NotPushed
  }

  /** How the push of a batch ends that is made after these earlier ones. */
  function OutcomeOf(w: World, log: seq<Attempt>, b: Batch): PushOutcome {
    if b.entities == [] then Pushed([], [])
    else if w.raisesAfter(|log|).Some? then PushRaised
    else FromResult(ResultOf(w.policy, (i: nat) => w.answers(log, b, i)))
  }

  /** One run of one source. It raises after `raisesAt` emitted entities, if that is set. */
  datatype SourceRun = SourceRun(
    source: string, connectorType: string, connectRaises: bool, scrape: Scrape, edges: seq<Item>,
    raisesAt: Option<nat>, ticks: nat -> (real, real), saveRaises: bool)

  /** The call returned, or raised, in this state. */
  datatype Ctl = Go(state: State) | Throw(state: State)

  // ---------------------------------------------------------------- pushing one batch

  function PushOrDeadLetter(w: World, a: State, b: Batch): Ctl {
    var n, outcome := |a.log|, OutcomeOf(w, a.log, b);
    var logged := a.(log := a.log + [Attempt(b, outcome)]);
    match outcome
    case PushRaised => Throw(logged)
    case Pushed(accepted, rejected) =>
      Go(logged.(report := a.report.(batchesPushed := a.report.batchesPushed + 1,
                                     accepted := a.report.accepted + |accepted|,
                                     rejected := a.report.rejected + |rejected|)))
    case NotPushed =>
      var counted := logged.(report := a.report.(batchesPushed := a.report.batchesPushed + 1,
                                                 deadLettered := a.report.deadLettered + 1));
      if w.addRaises(n) then Throw(counted) else Go(counted.(dead := a.dead[b.id := b]))
  }

  function HandleFullBatch(w: World, a: State, b: Option<Batch>): Ctl {
    match b
    case None => Go(a)
    case Some(batch) => PushOrDeadLetter(w, a.(minted := a.minted + 1), batch)
  }

  // ---------------------------------------------------------------- one entity, one source

  datatype Feed = Feed(ctl: Ctl, buffer: Buffer)

  function ValidateAndBatch(w: World, limits: Limits, a: State, buffer: Buffer, connectorType: string, item: Item,
      tick: (real, real)): Feed
  {
    if !ValidItem(item) then Feed(Go(a.(report := a.report.(invalid := a.report.invalid + 1))), buffer)
    else
      match AddStep(limits, buffer, connectorType, item, tick.0, w.uuid(a.minted))
      case None => Feed(Throw(a), buffer)
      case Some(added) =>
        match HandleFullBatch(w, a, added.closed)
        case Throw(a') => Feed(Throw(a'), added.buffer)
        case Go(a') =>
          var polled := PollStep(limits, added.buffer, tick.1, w.uuid(a'.minted));
          Feed(HandleFullBatch(w, a', polled.closed), polled.buffer)
  }

  function Discovered1(a: State): State {
    a.(report := a.report.(discovered := a.report.discovered + 1))
  }

  /** The entities items[n..] through validation and batcher, in order, until one raises. */
  function FeedAll(w: World, limits: Limits, a: State, buffer: Buffer, connectorType: string, items: seq<Item>,
      ticks: nat -> (real, real), n: nat): Feed
    decreases |items| - n
  {
    if n >= |items| then Feed(Go(a), buffer)
    else
      var fed := ValidateAndBatch(w, limits, Discovered1(a), buffer, connectorType, items[n], ticks(n));
      match fed.ctl
      case Throw(_) => fed
      case Go(a') => FeedAll(w, limits, a', fed.buffer, connectorType, items, ticks, n + 1)
  }

  function LoadCursor(a: State, source: string): CursorVal {
    if source in a.cursors then a.cursors[source] else EmptyCursor
  }

  /** Everything the run would emit: the scrape driven on the loaded cursor, then the lineage edges. */
  function Emitted(a: State, r: SourceRun): seq<Item> {
    Scraped(r.scrape, LoadCursor(a, r.source)).items + r.edges
  }

  /** What it does emit before it raises. */
  function EmittedBeforeRaise(a: State, r: SourceRun): seq<Item> {
    var items := Emitted(a, r);
    match r.raisesAt
    case None => items
    case Some(n) => if n < |items| then items[..n] else items
  }

  predicate RunsThrough(a: State, r: SourceRun) {
    !r.connectRaises && (r.raisesAt.Some? ==> r.raisesAt.value > |Emitted(a, r)|)
  }

  function SaveCursor(a: State, r: SourceRun): State {
    var before := LoadCursor(a, r.source);
    var after := Scraped(r.scrape, before).cursor;
    a.(cursors := a.cursors[r.source := after], saved := a.saved + [SavedRun(r.source, r.scrape, before, after,
        Emitted(a, r))])
  }

  /** Everything is pushed or dead-lettered before the cursor is saved. */
  function RunSource(w: World, limits: Limits, a: State, r: SourceRun): Ctl {
    if r.connectRaises then Throw(a)
    else
      var fed := FeedAll(w, limits, a, EmptyBuffer, r.connectorType, EmittedBeforeRaise(a, r), r.ticks, 0);
      match fed.ctl
      case Throw(a') => Throw(a')
      case Go(a') =>
        if !RunsThrough(a, r) then Throw(a')
        else
          match HandleFullBatch(w, a', FlushStep(fed.buffer, w.uuid(a'.minted)).closed)
          case Throw(a'') => Throw(a'')
          case Go(a'') => if r.saveRaises then Throw(a'') else Go(SaveCursor(a'', r))
  }

  // ---------------------------------------------------------------- one cycle

  /** Dead letters in listing order; unreadable files stay; a raising push ends the whole cycle. */
  function RetryDeadLetters(w: World, a: State, paths: seq<string>, unreadable: set<string>): Ctl
    decreases |paths|
  {
    if paths == [] then Go(a)
    else if paths[0] !in a.dead || paths[0] in unreadable then RetryDeadLetters(w, a, paths[1..], unreadable)
    else
      var b := a.dead[paths[0]];
      var outcome := OutcomeOf(w, a.log, b);
      var logged := a.(log := a.log + [Attempt(b, outcome)]);
      match outcome
      case PushRaised => Throw(logged)
      case Pushed(_, _) =>
        RetryDeadLetters(w, logged.(dead := a.dead - {paths[0]},
                                    report := a.report.(retriedOk := a.report.retriedOk + 1)), paths[1..], unreadable)
      case NotPushed =>
        RetryDeadLetters(w, logged.(report := a.report.(stillFailing := a.report.stillFailing + 1)), paths[1..],
            unreadable)
  }

  /** What the first listed file comes to. */
  lemma RetryStep(w: World, a: State, paths: seq<string>, unreadable: set<string>)
    requires paths != []
    ensures RetryDeadLetters(w, a, paths, unreadable) ==
            if paths[0] !in a.dead || paths[0] in unreadable then RetryDeadLetters(w, a, paths[1..], unreadable)
            else
              var outcome := OutcomeOf(w, a.log, a.dead[paths[0]]);
              var logged := a.(log := a.log + [Attempt(a.dead[paths[0]], outcome)]);
              match outcome
              case PushRaised => Throw(logged)
              case Pushed(_, _) =>
                RetryDeadLetters(w, logged.(dead := a.dead - {paths[0]},
                    report := a.report.(retriedOk := a.report.retriedOk + 1)), paths[1..], unreadable)
              case NotPushed =>
                RetryDeadLetters(w, logged.(report := a.report.(stillFailing := a.report.stillFailing + 1)),
                    paths[1..], unreadable)
  {
  }

  function Started(a: State): State {
    a.(report := a.report.(sourcesRun := a.report.sourcesRun + 1))
  }

  function SourceFailed(a: State): State {
    a.(report := a.report.(sourcesFailed := a.report.sourcesFailed + 1))
  }

  /** One source failing does not sink the cycle. */
  function RunSources(w: World, limits: Limits, a: State, runs: seq<SourceRun>): State
    decreases |runs|
  {
    if runs == [] then a
    else
      match RunSource(w, limits, Started(a), runs[0])
      case Go(a') => RunSources(w, limits, a', runs[1..])
      case Throw(a') => RunSources(w, limits, SourceFailed(a'), runs[1..])
  }

  /** `listing` is the sorted dead-letter directory at the start of the cycle. */
  datatype Cycle = Cycle(listing: seq<string>, unreadable: set<string>, runs: seq<SourceRun>)

  function RunCycle(w: World, limits: Limits, a: State, c: Cycle): State {
    match RetryDeadLetters(w, a.(report := EmptyReport), c.listing, c.unreadable)
    case Throw(a') => a'
    case Go(a') => RunSources(w, limits, a', c.runs)
  }

  function RunCycles(w: World, limits: Limits, a: State, cs: seq<Cycle>): State
    decreases |cs|
  {
    if cs == [] then a else RunCycles(w, limits, RunCycle(w, limits, a, cs[0]), cs[1..])
  }
}
