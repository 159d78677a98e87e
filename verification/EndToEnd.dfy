/** Whole runs of the agent against the ingest API: cycle after cycle, the catalog follows the sources. */
module EndToEnd {
  import opened Types
  import opened Cursors
  import opened Connectors
  import opened Sources
  import opened Catalog
  import opened Ingest
  import opened Pushing
  import opened Delivery
  import opened Convergence
  import opened Batching
  import opened Validation
  import opened Agent
  import opened NothingLost
  import opened Conservation
  import opened Moves
  import opened Wire
  import opened Together

  /** Fixed for a deployment: the entity type of every urn, the source it comes from, and the kinds a source diffs. */
  datatype Book = Book(kindOf: string -> Kind, owner: string -> string, kinds: string -> seq<Kind>)

  /** The finds are lawful: each urn belongs to this source and keeps its kind, one the relational store holds. */
  ghost predicate LawfulScan(r: SourceRun, book: Book) {
    && FindsItsKinds(r.scrape, book.kindOf, book.kinds(r.source))
    && (forall i :: 0 <= i < |r.scrape.scan| ==> book.owner(r.scrape.scan[i].urn) == r.source)
  }

  ghost predicate LawfulCursor(c: CursorVal, source: string, book: Book) {
    HoldsItsKinds(c, book.kindOf, book.kinds(source)) && forall u :: u in c.entries ==> book.owner(u) == source
  }

  ghost predicate LawfulCursors(a: State, book: Book) {
    forall source :: LawfulCursor(LoadCursor(a, source), source, book)
  }

  ghost predicate LawfulRuns(runs: seq<SourceRun>, book: Book) {
    forall j :: 0 <= j < |runs| ==> LawfulScan(runs[j], book)
  }

  /** Nothing more is asked of a history: its pushes may fail or raise, and so may its sources, anywhere. */
  ghost predicate LawfulHistory(cs: seq<Cycle>, book: Book) {
    forall i :: 0 <= i < |cs| ==> LawfulRuns(cs[i].runs, book)
  }

  /** One row as seen from its source: the row and the cursor of the source. */
  function HeldBy(net: Net, a: State, book: Book, kind: Kind, urn: string): Held {
    Held(Lookup(ServerNow(net, a).catalog.rows, RowKey(kind, net.auth.tenant, urn)), LoadCursor(a, book.owner(urn)))
  }

  // ---------------------------------------------------------------- cursors over any history

  lemma LawfulAfterScrape(r: SourceRun, c: CursorVal, book: Book)
    requires LawfulScan(r, book) && LawfulCursor(c, r.source, book)
    ensures LawfulCursor(Scraped(r.scrape, c).cursor, r.source, book)
  {
    hide Scraped, FoundBefore, WellOrdered, KindsDistinct;
    ScrapeKeepsKinds(r.scrape, c, book.kindOf, book.kinds(r.source));
    ScrapeLeavesTheFinds(r.scrape, c);
    var after := Scraped(r.scrape, c).cursor;
    forall u | u in after.entries ensures book.owner(u) == r.source {
      if FoundBefore(r.scrape.scan, |r.scrape.scan|, u) {
        var i := LastFindExists(r.scrape.scan, |r.scrape.scan|, u);
      }
    }
  }

  lemma CursorAfterRun(a: State, b: State, r: SourceRun, c: CursorVal, source: string)
    requires b.cursors == a.cursors[r.source := c]
    ensures LoadCursor(b, source) == if source == r.source then c else LoadCursor(a, source)
  {
  }

  lemma SameCursors(a: State, b: State, book: Book)
    requires LawfulCursors(a, book) && a.cursors == b.cursors
    ensures LawfulCursors(b, book)
  {
    hide LawfulCursor;
    assert forall source :: LoadCursor(b, source) == LoadCursor(a, source);
  }

  lemma LawfulAfterSave(a: State, b: State, r: SourceRun, book: Book)
    requires LawfulCursors(a, book) && LawfulScan(r, book)
    requires b.cursors == a.cursors[r.source := Scraped(r.scrape, LoadCursor(a, r.source)).cursor]
    ensures LawfulCursors(b, book)
  {
    hide Scraped, LawfulCursor, LawfulScan;
    forall source ensures LawfulCursor(LoadCursor(b, source), source, book) {
      CursorAfterRun(a, b, r, Scraped(r.scrape, LoadCursor(a, r.source)).cursor, source);
      if source == r.source {
        assert LawfulCursor(LoadCursor(a, source), source, book);
        LawfulAfterScrape(r, LoadCursor(a, source), book);
      } else {
        assert LawfulCursor(LoadCursor(a, source), source, book);
      }
    }
  }

  lemma RunStaysLawful(w: World, limits: Limits, a: State, r: SourceRun, book: Book)
    requires IdsAreFresh(w) && LawfulCursors(a, book) && LawfulScan(r, book)
    ensures LawfulCursors(RunSource(w, limits, a, r).state, book)
  {
    hide RunSource, LawfulCursors, LawfulScan, Scraped, Safe, DeadLettersAreOwn, IdsAreFresh, Emitted, ValidItem;
    RunUpToSave(w, limits, a, r);
    var c := RunSource(w, limits, a, r);
    if c.Throw? {
      SameCursors(a, c.state, book);
    } else {
      var b :| Keeps(w, a, b) && c.state == SaveCursor(b, r);
      SameCursors(a, b, book);
      LawfulAfterSave(b, c.state, r, book);
    }
  }

  lemma {:induction false} RunsStayLawful(w: World, limits: Limits, a: State, runs: seq<SourceRun>, book: Book)
    requires IdsAreFresh(w) && LawfulCursors(a, book) && LawfulRuns(runs, book)
    ensures LawfulCursors(RunSources(w, limits, a, runs), book)
    decreases |runs|
  {
    hide RunSource, LawfulCursors, LawfulScan, IdsAreFresh;
    if runs != [] {
      SameCursors(a, Started(a), book);
      RunStaysLawful(w, limits, Started(a), runs[0], book);
      var c := RunSource(w, limits, Started(a), runs[0]);
      SameCursors(c.state, SourceFailed(c.state), book);
      RunsStayLawful(w, limits, if c.Go? then c.state else SourceFailed(c.state), runs[1..], book);
    }
  }

  lemma RetryStaysLawful(w: World, a: State, paths: seq<string>, unreadable: set<string>, book: Book)
    requires LawfulCursors(a, book)
    ensures LawfulCursors(RetryDeadLetters(w, a, paths, unreadable).state, book)
  {
    hide RetryDeadLetters, LawfulCursors, StaysSafe, DeadLettersAreOwn;
    RetryKeeps(w, a, paths, unreadable);
    SameCursors(a, RetryDeadLetters(w, a, paths, unreadable).state, book);
  }

  lemma {:induction false} CyclesStayLawful(w: World, limits: Limits, a: State, cs: seq<Cycle>, book: Book)
    requires IdsAreFresh(w) && LawfulCursors(a, book) && LawfulHistory(cs, book)
    ensures LawfulCursors(RunCycles(w, limits, a, cs), book)
    decreases |cs|
  {
    hide RunSources, RetryDeadLetters, LawfulCursors, LawfulRuns, IdsAreFresh;
    if cs != [] {
      var a0, c := a.(report := EmptyReport), cs[0];
      SameCursors(a, a0, book);
      RetryStaysLawful(w, a0, c.listing, c.unreadable, book);
      var r := RetryDeadLetters(w, a0, c.listing, c.unreadable);
      if r.Go? {
        RunsStayLawful(w, limits, r.state, c.runs, book);
      }
      CyclesStayLawful(w, limits, RunCycle(w, limits, a, c), cs[1..], book);
    }
  }

  // ---------------------------------------------------------------- ready for a complete cycle

  /** No dead letter is left, the cursors are lawful, and no id to come has a record. */
  ghost predicate Ready(net: Net, a: State, book: Book) {
    a.dead == map[] && LawfulCursors(a, book) && NoneAhead(net, ServerNow(net, a), a.minted)
  }

  /** The state in which the source runs of the cycle begin. */
  function Opening(net: Net, a: State, c: Cycle): State {
    RetryDeadLetters(WorldOn(net), a.(report := EmptyReport), c.listing, c.unreadable).state
  }

  /** After any history an empty directory is all it takes; the retry phase of the next cycle may be what empties it. */
  lemma HistoryIsReady(net: Net, limits: Limits, history: seq<Cycle>, c: Cycle, book: Book)
    requires NetOk(net) && LawfulHistory(history, book)
    requires Opening(net, RunCycles(WorldOn(net), limits, FreshAgent, history), c).dead == map[]
    ensures Ready(net, Opening(net, RunCycles(WorldOn(net), limits, FreshAgent, history), c), book)
  {
    hide NetOk, RunCycles, RetryDeadLetters, LawfulCursors, LawfulHistory, Coherent, Reaches, ServerAt;
    var w, a := WorldOn(net), RunCycles(WorldOn(net), limits, FreshAgent, history);
    var a0, b := a.(report := EmptyReport), Opening(net, a, c);
    FreshOn(net);
    FreshIsLawful(book);
    CyclesStayLawful(w, limits, FreshAgent, history, book);
    SameCursors(a, a0, book);
    RetryStaysLawful(w, a0, c.listing, c.unreadable, book);
    CyclesAreCoherent(net, limits, history);
    RetryReaches(w, a0, c.listing, c.unreadable);
    ReachesCoherent(net, CoreOf(a0), CoreOf(b));
    CoherentIsNoneAhead(net, b);
  }

  lemma FreshIsLawful(book: Book)
    ensures LawfulCursors(FreshAgent, book)
  {
  }

  lemma CoherentIsNoneAhead(net: Net, a: State)
    requires Coherent(net, CoreOf(a))
    ensures NoneAhead(net, ServerNow(net, a), a.minted)
  {
    hide Logged, FullyAnswered, ServerAt, NoneAhead;
  }

  // ---------------------------------------------------------------- pushes that get through

  /** The server rejects the entity, or can store it. */
  predicate Bearable(net: Net, item: Item) {
    net.cfg.check(item).None? ==> Storable(BuildRecord(item, net.auth))
  }

  predicate AllBearable(net: Net, items: seq<Item>) {
    forall i :: 0 <= i < |items| ==> Bearable(net, items[i])
  }

  /** The server accepts the entity, as one of the kinds that a scrape finds. */
  predicate Welcome(net: Net, item: Item) {
    net.cfg.check(item).None? && (item.kind.Table? || item.kind.Column? || item.kind.Dataset?)
  }

  predicate AllWelcome(net: Net, items: seq<Item>) {
    forall i :: 0 <= i < |items| ==> Welcome(net, items[i])
  }

  function AcceptedOf(net: Net, items: seq<Item>): seq<Item> {
    AcceptedItems(items, net.cfg.check)
  }

  /** From here on the network loses what it likes but lets every push through in the end, within the TTL. */
  ghost predicate Through(net: Net, from: nat) {
    && (forall k: nat :: k >= from ==> GetsThrough(net, k))
    && (forall k: nat, i: nat, j: nat :: k >= from && i < j ==> net.posts(k, j).now - net.posts(k, i).storedAt <= net.cfg.ttl)
  }

  lemma BearableBatch(net: Net, b: Batch)
    requires AllBearable(net, b.entities)
    ensures Records(net, b) == BuildRecords(AcceptedOf(net, b.entities), net.auth) && AllStorable(Records(net, b))
  {
    SplitConserves(b.entities, net.cfg.check);
    hide Storable, BuildRecord;
    var kept := AcceptedOf(net, b.entities);
    forall i | 0 <= i < |kept| ensures Storable(BuildRecord(kept[i], net.auth)) {
      assert kept[i] in b.entities;
      var j :| 0 <= j < |b.entities| && b.entities[j] == kept[i];
      assert Bearable(net, b.entities[j]);
    }
  }

  lemma {:induction false} AcceptedConcatenates(net: Net, a: seq<Item>, b: seq<Item>)
    ensures AcceptedOf(net, a + b) == AcceptedOf(net, a) + AcceptedOf(net, b)
    decreases |b|
  {
    if b == [] {
      assert a + b == a;
    } else {
      var front, last := b[..|b| - 1], b[|b| - 1];
      assert (a + b)[..|a + b| - 1] == a + front;
      AcceptedConcatenates(net, a, front);
    }
  }

  /** Such a batch is pushed, whatever the server holds. */
  lemma BearableIsPushed(net: Net, log: seq<Attempt>, b: Batch)
    requires AllBearable(net, b.entities) && GetsThrough(net, |log|)
    ensures OutcomeOf(WorldOn(net), log, b).Pushed?
  {
    BearableBatch(net, b);
    OutcomeOnNet(net, log, b);
    hide AllBearable, GetsThrough, AllStorable, Records, ServerAt, OutcomeOf;
    if b.entities != [] {
      PushedIffThrough(net, ServerAt(net, log), |log|, b);
    }
  }

  /** What has been pushed since `log`, on one row. */
  ghost predicate WrittenSince(net: Net, log: seq<Attempt>, a: State, key: RowKey) {
    && log <= a.log
    && (forall k :: |log| <= k < |a.log| ==> a.log[k].outcome.Pushed?)
    && Lookup(ServerNow(net, a).catalog.rows, key) ==
       FoldSkip(Lookup(ServerAt(net, log).catalog.rows, key), FannedSince(net, log, a), key)
  }

  function FannedSince(net: Net, log: seq<Attempt>, a: State): seq<Record>
    requires |log| <= |a.log|
  {
    BuildRecords(AcceptedOf(net, AllEntities(a.log[|log|..])), net.auth)
  }

  /** The state while a complete run is under way. */
  ghost predicate Smooth(net: Net, log: seq<Attempt>, a: State, key: RowKey) {
    a.dead == map[] && NoneAhead(net, ServerNow(net, a), a.minted) && WrittenSince(net, log, a, key)
  }

  /** The server after the push of a new batch. */
  lemma NewBatchOnServer(net: Net, a: State, b: Batch, key: RowKey)
    requires NetOk(net) && Through(net, |a.log|) && RowIsOurs(net, key)
    requires AllBearable(net, b.entities) && b.id == net.uuid(a.minted) && NoneAhead(net, ServerNow(net, a), a.minted)
    ensures var after := AfterPush(net, ServerNow(net, a), |a.log|, b);
            && NoneAhead(net, after, a.minted + 1)
            && Lookup(after.catalog.rows, key) ==
               FoldSkip(Lookup(ServerNow(net, a).catalog.rows, key),
                   BuildRecords(AcceptedOf(net, b.entities), net.auth), key)
  {
    var s, k := ServerNow(net, a), |a.log|;
    BearableBatch(net, b);
    BearableIsPushed(net, a.log, b);
    OutcomeOnNet(net, a.log, b);
    FreshOn(net);
    NewIdsAhead(net, s, k, b, a.minted);
    assert RecordOn(net, s, b.id) == None;
    hide OutcomeOf, AcceptedOf, PushEnds, ServerAt, AfterPush, FoldSkip, BuildRecords, AcceptedRecords, RowIsOurs,
         KeysAreOurs, PostsMade, FirstArrival, IsExpired, AllBearable, NoneAhead, AllStorable, KeyOn, NetOk,
         TimesProcessed;
    PushIsExact(net, s, k, b, key);
    if b.entities == [] {
      NoRecords(net, Lookup(s.catalog.rows, key), key);
    } else {
      PushedHasArrived(net, s, k, b);
    }
  }

  lemma NoRecords(net: Net, x: Option<Row>, key: RowKey)
    ensures FoldSkip(x, BuildRecords(AcceptedOf(net, []), net.auth), key) == x
  {
  }

  lemma NewIdsAhead(net: Net, s: Server, k: nat, b: Batch, minted: nat)
    requires NetOk(net) && b.id == net.uuid(minted) && NoneAhead(net, s, minted)
    ensures NoneAhead(net, AfterPush(net, s, k, b), minted + 1)
  {
    FreshOn(net);
    assert FromSupply(net, b.id);
    assert RecordOn(net, s, b.id) == None;
    NoRecordIsOf(net, b);
    hide NetOk, AfterPush, RecordIsOf, RecordOn, KeysAreOurs;
    PushKeepsRecords(net, s, k, b);
    forall n: nat | n >= minted + 1 ensures RecordOn(net, AfterPush(net, s, k, b), net.uuid(n)) == None {
      assert WorldOn(net).uuid(n) == net.uuid(n) && WorldOn(net).uuid(minted) == net.uuid(minted);
      assert FromSupply(net, net.uuid(n)) && net.uuid(n) != b.id;
    }
  }

  lemma BuildRecordsConcatenates(a: seq<Item>, b: seq<Item>, auth: Auth)
    ensures BuildRecords(a + b, auth) == BuildRecords(a, auth) + BuildRecords(b, auth)
  {
  }

  lemma HandleIsSmooth(net: Net, log: seq<Attempt>, a: State, b: Option<Batch>, key: RowKey)
    requires NetOk(net) && Through(net, |log|) && RowIsOurs(net, key) && Smooth(net, log, a, key)
    requires b.Some? ==> AllBearable(net, b.value.entities) && b.value.id == net.uuid(a.minted)
    ensures HandleFullBatch(WorldOn(net), a, b).Go? && Smooth(net, log, HandleFullBatch(WorldOn(net), a, b).state, key)
  {
    hide NetOk, RowIsOurs, AllBearable, AcceptedOf, FoldSkip, BuildRecords, AllEntities, ServerAt, OutcomeOf,
         NoneAhead, GetsThrough, AfterPush;
    if b.Some? {
      var w, x := WorldOn(net), Attempt(b.value, OutcomeOf(WorldOn(net), a.log, b.value));
      BearableIsPushed(net, a.log, b.value);
      NewBatchOnServer(net, a, b.value, key);
      ServerStep(net, a.log, x);
      LogOneMore(log, a.log, x);
      EntitiesOneMore(a.log[|log|..], x);
      AcceptedConcatenates(net, AllEntities(a.log[|log|..]), b.value.entities);
      BuildRecordsConcatenates(AcceptedOf(net, AllEntities(a.log[|log|..])), AcceptedOf(net, b.value.entities), net.auth);
      FoldConcatenates(Lookup(ServerAt(net, log).catalog.rows, key), FannedSince(net, log, a),
                       BuildRecords(AcceptedOf(net, b.value.entities), net.auth), key);
    }
  }

  predicate Typed(buffer: Buffer, ct: string) {
    buffer.connectorType.Some? ==> buffer.connectorType.value == ct
  }

  lemma AddIsBearable(net: Net, limits: Limits, buffer: Buffer, ct: string, item: Item, tick: (real, real), id: string)
    requires AllBearable(net, buffer.items) && Bearable(net, item) && Typed(buffer, ct)
    ensures AddStep(limits, buffer, ct, item, tick.0, id).Some?
    ensures var s := AddStep(limits, buffer, ct, item, tick.0, id).value;
            && AllBearable(net, EntitiesOf(s.closed)) && AllBearable(net, s.buffer.items) && Typed(s.buffer, ct)
            && (s.closed.Some? ==> s.closed.value.id == id)
  {
    hide Bearable;
  }

  lemma PollIsBearable(net: Net, limits: Limits, buffer: Buffer, ct: string, now: real, id: string)
    requires AllBearable(net, buffer.items) && Typed(buffer, ct)
    ensures var s := PollStep(limits, buffer, now, id);
            && AllBearable(net, EntitiesOf(s.closed)) && AllBearable(net, s.buffer.items) && Typed(s.buffer, ct)
            && (s.closed.Some? ==> s.closed.value.id == id)
  {
    hide Bearable;
  }

  lemma FeedOneIsSmooth(net: Net, limits: Limits, log: seq<Attempt>, a: State, buffer: Buffer, ct: string, item: Item,
      tick: (real, real), key: RowKey)
    requires NetOk(net) && Through(net, |log|) && RowIsOurs(net, key) && Smooth(net, log, a, key)
    requires AllBearable(net, buffer.items) && Bearable(net, item) && Typed(buffer, ct)
    ensures var f := ValidateAndBatch(WorldOn(net), limits, Discovered1(a), buffer, ct, item, tick);
            f.ctl.Go? && Smooth(net, log, f.ctl.state, key) && AllBearable(net, f.buffer.items) && Typed(f.buffer, ct)
  {
    var w, a0 := WorldOn(net), Discovered1(a);
    ReportIsNoPush(net, log, a, a0.report, key);
    ReportIsNoPush(net, log, a, a.report.(discovered := a.report.discovered + 1, invalid := a.report.invalid + 1), key);
    hide NetOk, Through, RowIsOurs, AllBearable, Smooth, ValidItem, HandleFullBatch, AddStep, PollStep, Bearable,
         Typed;
    if ValidItem(item) {
      AddIsBearable(net, limits, buffer, ct, item, tick, w.uuid(a0.minted));
      var added := AddStep(limits, buffer, ct, item, tick.0, w.uuid(a0.minted)).value;
      HandleIsSmooth(net, log, a0, added.closed, key);
      var a1 := HandleFullBatch(w, a0, added.closed).state;
      PollIsBearable(net, limits, added.buffer, ct, tick.1, w.uuid(a1.minted));
      HandleIsSmooth(net, log, a1, PollStep(limits, added.buffer, tick.1, w.uuid(a1.minted)).closed, key);
    }
  }

  lemma ReportIsNoPush(net: Net, log: seq<Attempt>, a: State, report: Report, key: RowKey)
    requires Smooth(net, log, a, key)
    ensures Smooth(net, log, a.(report := report), key)
  {
    hide NoneAhead, ServerAt, FoldSkip, BuildRecords, AllEntities;
  }

  lemma {:induction false} FeedAllIsSmooth(net: Net, limits: Limits, log: seq<Attempt>, a: State, buffer: Buffer,
      ct: string, items: seq<Item>, ticks: nat -> (real, real), n: nat, key: RowKey)
    requires NetOk(net) && Through(net, |log|) && RowIsOurs(net, key) && Smooth(net, log, a, key)
    requires n <= |items| && AllBearable(net, buffer.items) && AllBearable(net, items) && Typed(buffer, ct)
    ensures var f := FeedAll(WorldOn(net), limits, a, buffer, ct, items, ticks, n);
            f.ctl.Go? && Smooth(net, log, f.ctl.state, key) && AllBearable(net, f.buffer.items)
    decreases |items| - n
  {
    hide NetOk, Through, RowIsOurs, Smooth, ValidateAndBatch, Typed, Bearable;
    if n < |items| {
      FeedOneIsSmooth(net, limits, log, a, buffer, ct, items[n], ticks(n), key);
      var f := ValidateAndBatch(WorldOn(net), limits, Discovered1(a), buffer, ct, items[n], ticks(n));
      FeedAllIsSmooth(net, limits, log, f.ctl.state, f.buffer, ct, items, ticks, n + 1, key);
    }
  }

  // ---------------------------------------------------------------- one complete run

  function ScrapeOf(a: State, r: SourceRun): Emission {
    Scraped(r.scrape, LoadCursor(a, r.source))
  }

  /** The run does not raise; what the scrape emits is valid and accepted, and its lineage edges are valid and are
      rejected or can be stored. */
  ghost predicate CompleteRun(net: Net, a: State, r: SourceRun, book: Book) {
    && !r.connectRaises && r.raisesAt == None && !r.saveRaises
    && (forall i :: 0 <= i < |Emitted(a, r)| ==> ValidItem(Emitted(a, r)[i]))
    && AllWelcome(net, ScrapeOf(a, r).items) && OnlyEdges(r.edges) && AllBearable(net, r.edges)
    && LawfulScan(r, book)
  }

  predicate OnlyEdges(items: seq<Item>) {
    forall i :: 0 <= i < |items| ==> items[i].kind.LineageEdge?
  }

  lemma EmittedIsBearable(net: Net, a: State, r: SourceRun)
    requires AllWelcome(net, ScrapeOf(a, r).items) && AllBearable(net, r.edges)
    ensures AllBearable(net, Emitted(a, r))
  {
    hide Scraped;
    var items := ScrapeOf(a, r).items;
    forall i | 0 <= i < |items + r.edges| ensures Bearable(net, (items + r.edges)[i]) {
      if i < |items| {
        assert Welcome(net, items[i]);
      } else {
        assert Bearable(net, r.edges[i - |items|]);
      }
    }
  }

  /** On a row of an entity the edges leave nothing. */
  lemma EdgesLeaveRow(net: Net, items: seq<Item>, edges: seq<Item>, x: Option<Row>, key: RowKey)
    requires AllWelcome(net, items) && OnlyEdges(edges) && !key.kind.LineageEdge?
    ensures FoldSkip(x, BuildRecords(AcceptedOf(net, items + edges), net.auth), key) ==
            FoldSkip(x, BuildRecords(items, net.auth), key)
  {
    AcceptedConcatenates(net, items, edges);
    AllAcceptedIsEverything(items, net.cfg.check);
    SplitConserves(edges, net.cfg.check);
    var kept := AcceptedOf(net, edges);
    hide FoldSkip, AcceptedOf;
    BuildRecordsConcatenates(items, kept, net.auth);
    FoldConcatenates(x, BuildRecords(items, net.auth), BuildRecords(kept, net.auth), key);
    forall i | 0 <= i < |kept| ensures kept[i].kind.LineageEdge? {
      assert kept[i] in edges;
    }
    UntouchedRow(FoldSkip(x, BuildRecords(items, net.auth), key), BuildRecords(kept, net.auth), key);
  }

  lemma {:induction false} AllValid(items: seq<Item>)
    requires forall i :: 0 <= i < |items| ==> ValidItem(items[i])
    ensures ValidOnly(items) == items
  {
    hide ValidItem;
    if items != [] {
      AllValid(items[..|items| - 1]);
      assert items == items[..|items| - 1] + [items[|items| - 1]];
    }
  }

  lemma ReadyIsSmooth(net: Net, a: State, book: Book, key: RowKey)
    requires Ready(net, a, book)
    ensures Smooth(net, a.log, a, key)
  {
    hide NoneAhead, ServerAt, LawfulCursors;
    assert a.log[|a.log|..] == [];
    assert AllEntities([]) == [];
    NoRecords(net, Lookup(ServerNow(net, a).catalog.rows, key), key);
  }

  lemma RunIsSmooth(net: Net, limits: Limits, a: State, r: SourceRun, book: Book, key: RowKey)
    requires NetOk(net) && Through(net, |a.log|) && RowIsOurs(net, key)
    requires Ready(net, a, book) && CompleteRun(net, a, r, book)
    ensures RunSource(WorldOn(net), limits, a, r).Go?
    ensures Smooth(net, a.log, RunSource(WorldOn(net), limits, a, r).state, key)
  {
    ReadyIsSmooth(net, a, book, key);
    EmittedIsBearable(net, a, r);
    hide NetOk, Through, RowIsOurs, FeedAll, Emitted, HandleFullBatch, Smooth, LawfulScan, ValidItem, Ready, Bearable,
         AllWelcome, OnlyEdges;
    var w := WorldOn(net);
    FeedAllIsSmooth(net, limits, a.log, a, EmptyBuffer, r.connectorType, EmittedBeforeRaise(a, r), r.ticks, 0, key);
    var f := FeedAll(w, limits, a, EmptyBuffer, r.connectorType, EmittedBeforeRaise(a, r), r.ticks, 0);
    var closed := FlushStep(f.buffer, w.uuid(f.ctl.state.minted)).closed;
    HandleIsSmooth(net, a.log, f.ctl.state, closed, key);
    SaveIsNoPush(net, a.log, HandleFullBatch(w, f.ctl.state, closed).state, r, key);
  }

  lemma SaveIsNoPush(net: Net, log: seq<Attempt>, a: State, r: SourceRun, key: RowKey)
    requires Smooth(net, log, a, key)
    ensures Smooth(net, log, SaveCursor(a, r), key)
  {
    hide NoneAhead, ServerAt, FoldSkip, BuildRecords, AllEntities, Scraped;
  }

  /** Main step: what a complete run does - it pushes exactly what the scrape emits and then the edges, which fans out
      onto the row of an entity in that order, and saves the cursor the scrape left. */
  lemma CompleteRunShape(net: Net, limits: Limits, a: State, r: SourceRun, book: Book, key: RowKey)
    requires NetOk(net) && Through(net, |a.log|) && RowIsOurs(net, key) && !key.kind.LineageEdge?
    requires Ready(net, a, book) && CompleteRun(net, a, r, book)
    ensures RunSource(WorldOn(net), limits, a, r).Go?
    ensures var b := RunSource(WorldOn(net), limits, a, r).state;
            var e := Scraped(r.scrape, LoadCursor(a, r.source));
            && Ready(net, b, book) && a.log <= b.log
            && (forall k :: |a.log| <= k < |b.log| ==> b.log[k].outcome.Pushed?)
            && AllEntities(b.log[|a.log|..]) == e.items + r.edges
            && b.cursors == a.cursors[r.source := e.cursor]
            && Lookup(ServerNow(net, b).catalog.rows, key) ==
               FoldSkip(Lookup(ServerNow(net, a).catalog.rows, key), BuildRecords(e.items, net.auth), key)
  {
    var w := WorldOn(net);
    RunIsSmooth(net, limits, a, r, book, key);
    FreshOn(net);
    RunUpToSave(w, limits, a, r);
    CompletedRunConserves(w, limits, a, r);
    AllValid(Emitted(a, r));
    hide NetOk, Through, RowIsOurs, RunSource, Scraped, AllEntities, Safe, DeadLettersAreOwn, ValidItem, AllWelcome,
         ValidOnly, FullyAnswered, DeadEntities, LawfulCursors, LawfulScan, NoneAhead, FoldSkip, BuildRecords,
         ServerAt, IdsAreFresh, AllBearable, OnlyEdges, AcceptedOf;
    var b0 :| Keeps(w, a, b0) && RunSource(w, limits, a, r).state == SaveCursor(b0, r);
    var b := SaveCursor(b0, r);
    EdgesLeaveRow(net, ScrapeOf(a, r).items, r.edges, Lookup(ServerNow(net, a).catalog.rows, key), key);
    LawfulAfterSave(a, b, r, book);
  }

  // ---------------------------------------------------------------- one row through complete runs

  /** A scrape of one source touches rows of that source only. */
  lemma OtherSourcesUntouched(r: SourceRun, c: CursorVal, book: Book, auth: Auth, x: Option<Row>, kind: Kind,
      urn: string)
    requires LawfulScan(r, book) && LawfulCursor(c, r.source, book) && book.owner(urn) != r.source
    ensures FoldSkip(x, BuildRecords(Scraped(r.scrape, c).items, auth), RowKey(kind, auth.tenant, urn)) == x
  {
    hide Scraped, WellOrdered, FoldSkip, BuildRecord, BuildRecords, FoundBefore, HashLeftBy, KindsDistinct;
    var k, s := RowKey(kind, auth.tenant, urn), r.scrape;
    var items := Scraped(s, c).items;
    var rs := BuildRecords(items, auth);
    RecordsKeys(items, auth);
    ScrapeEmitsExactlyTheDrift(s, c);
    forall j | 0 <= j < |rs| ensures KeyOf(rs[j]) != k {
      if j < |s.scan| {
        assert items[j] == ExtractItem(s, Discovered(s.scan[j]), j);
      } else {
        DeleteIsOfDropped(s, c, j);
      }
    }
    UntouchedRow(x, rs, k);
  }

  /** A complete run moves the row and its cursor through the scrape, if it is the source's own, and else leaves both. */
  lemma RunHolds(net: Net, limits: Limits, a: State, r: SourceRun, book: Book, kind: Kind, urn: string)
    requires NetOk(net) && Through(net, |a.log|) && RowIsOurs(net, RowKey(kind, net.auth.tenant, urn))
    requires !kind.LineageEdge?
    requires Ready(net, a, book) && CompleteRun(net, a, r, book)
    ensures RunSource(WorldOn(net), limits, a, r).Go?
    ensures var b := RunSource(WorldOn(net), limits, a, r).state;
            && Ready(net, b, book) && a.log <= b.log
            && (forall k :: |a.log| <= k < |b.log| ==> b.log[k].outcome.Pushed?)
            && HeldBy(net, b, book, kind, urn) ==
               if r.source == book.owner(urn)
               then AfterScrape(r.scrape, HeldBy(net, a, book, kind, urn), net.auth, RowKey(kind, net.auth.tenant, urn))
               else HeldBy(net, a, book, kind, urn)
  {
    var key := RowKey(kind, net.auth.tenant, urn);
    CompleteRunShape(net, limits, a, r, book, key);
    LawfulOfReady(net, a, r, book);
    hide NetOk, Through, RowIsOurs, RunSource, Scraped, AllEntities, Ready, FoldSkip, BuildRecords, ServerAt,
         LawfulScan, LawfulCursor, AllWelcome, Emitted;
    var b := RunSource(WorldOn(net), limits, a, r).state;
    CursorAfterRun(a, b, r, Scraped(r.scrape, LoadCursor(a, r.source)).cursor, book.owner(urn));
    if r.source != book.owner(urn) {
      OtherSourcesUntouched(r, LoadCursor(a, r.source), book, net.auth, Lookup(ServerNow(net, a).catalog.rows, key),
          kind, urn);
    }
  }

  lemma LawfulOfReady(net: Net, a: State, r: SourceRun, book: Book)
    requires Ready(net, a, book)
    ensures LawfulCursor(LoadCursor(a, r.source), r.source, book)
  {
    hide LawfulCursor, NoneAhead, ServerAt;
  }

  /** The scrapes these runs make of one source, in order. */
  function ScrapesOf(runs: seq<SourceRun>, source: string): seq<Scrape>
    decreases |runs|
  {
    if runs == [] then [] else (if runs[0].source == source then [runs[0].scrape] else []) + ScrapesOf(runs[1..], source)
  }

  /** Every run of the cycle is complete when its turn comes. */
  ghost predicate CompleteRuns(net: Net, limits: Limits, a: State, runs: seq<SourceRun>, book: Book)
    decreases |runs|
  {
    runs == [] ||
    (CompleteRun(net, a, runs[0], book) &&
     CompleteRuns(net, limits, RunSource(WorldOn(net), limits, Started(a), runs[0]).state, runs[1..], book))
  }

  /** What a stretch of complete runs leaves of one row. */
  ghost predicate Followed(net: Net, a: State, b: State, ss: seq<Scrape>, book: Book, kind: Kind, urn: string) {
    && Ready(net, b, book) && a.log <= b.log
    && (forall k :: |a.log| <= k < |b.log| ==> b.log[k].outcome.Pushed?)
    && HeldBy(net, b, book, kind, urn) ==
       AfterScrapes(ss, HeldBy(net, a, book, kind, urn), net.auth, RowKey(kind, net.auth.tenant, urn))
  }

  lemma FollowedOn(net: Net, a: State, b: State, c: State, s1: seq<Scrape>, s2: seq<Scrape>, book: Book, kind: Kind,
      urn: string)
    requires Followed(net, a, b, s1, book, kind, urn) && Followed(net, b, c, s2, book, kind, urn)
    ensures Followed(net, a, c, s1 + s2, book, kind, urn)
  {
    hide Ready, HeldBy, AfterScrapes;
    AfterMoreScrapes(s1, s2, HeldBy(net, a, book, kind, urn), net.auth, RowKey(kind, net.auth.tenant, urn));
    assert forall k :: |a.log| <= k < |b.log| ==> c.log[k] == b.log[k];
  }

  lemma OneScrape(s: Scrape, h: Held, auth: Auth, key: RowKey)
    ensures AfterScrapes([], h, auth, key) == h && AfterScrapes([s], h, auth, key) == AfterScrape(s, h, auth, key)
  {
    hide AfterScrape;
    assert [s][1..] == [];
  }

  lemma RunIsFollowed(net: Net, limits: Limits, a: State, r: SourceRun, book: Book, kind: Kind, urn: string)
    requires NetOk(net) && Through(net, |a.log|) && RowIsOurs(net, RowKey(kind, net.auth.tenant, urn))
    requires !kind.LineageEdge?
    requires Ready(net, a, book) && CompleteRun(net, a, r, book)
    ensures RunSource(WorldOn(net), limits, a, r).Go?
    ensures Followed(net, a, RunSource(WorldOn(net), limits, a, r).state, if r.source == book.owner(urn) then [r.scrape] else [], book, kind, urn)
  {
    hide NetOk, Through, RowIsOurs, Ready, CompleteRun, RunSource, HeldBy, AfterScrape, AfterScrapes;
    RunHolds(net, limits, a, r, book, kind, urn);
    OneScrape(r.scrape, HeldBy(net, a, book, kind, urn), net.auth, RowKey(kind, net.auth.tenant, urn));
  }

  lemma ReportIsNoChange(net: Net, a: State, report: Report, book: Book, kind: Kind, urn: string)
    requires Ready(net, a, book)
    ensures Followed(net, a, a.(report := report), [], book, kind, urn)
  {
    hide NoneAhead, ServerAt;
    SameCursors(a, a.(report := report), book);
    hide LawfulCursors;
  }

  lemma CompleteRunIgnoresReport(net: Net, a: State, r: SourceRun, book: Book)
    requires CompleteRun(net, a, r, book)
    ensures CompleteRun(net, Started(a), r, book)
  {
    hide Scraped, ValidItem, AllWelcome, LawfulScan;
    assert Emitted(a, r) == Emitted(Started(a), r);
  }

  lemma ThroughLater(net: Net, from: nat, later: nat)
    requires Through(net, from) && from <= later
    ensures Through(net, later)
  {
    hide GetsThrough;
  }

  lemma {:induction false} RunsAreFollowed(net: Net, limits: Limits, a: State, runs: seq<SourceRun>, book: Book,
      kind: Kind, urn: string)
    requires NetOk(net) && Through(net, |a.log|) && RowIsOurs(net, RowKey(kind, net.auth.tenant, urn))
    requires !kind.LineageEdge?
    requires Ready(net, a, book) && CompleteRuns(net, limits, a, runs, book)
    ensures Followed(net, a, RunSources(WorldOn(net), limits, a, runs), ScrapesOf(runs, book.owner(urn)), book, kind, urn)
    decreases |runs|
  {
    hide NetOk, Through, RowIsOurs, Ready, CompleteRun, RunSource, HeldBy, AfterScrapes;
    ReportIsNoChange(net, a, a.report, book, kind, urn);
    if runs != [] {
      var w, r, a1 := WorldOn(net), runs[0], Started(a);
      ReportIsNoChange(net, a, a1.report, book, kind, urn);
      CompleteRunIgnoresReport(net, a, r, book);
      RunIsFollowed(net, limits, a1, r, book, kind, urn);
      var b := RunSource(w, limits, a1, r).state;
      ThroughLater(net, |a.log|, |b.log|);
      RunsAreFollowed(net, limits, b, runs[1..], book, kind, urn);
      hide Followed;
      var own := if r.source == book.owner(urn) then [r.scrape] else [];
      FollowedOn(net, a, a1, b, [], own, book, kind, urn);
      FollowedOn(net, a, b, RunSources(w, limits, b, runs[1..]), [] + own, ScrapesOf(runs[1..], book.owner(urn)),
          book, kind, urn);
      assert [] + own == own;
    }
  }

  // ---------------------------------------------------------------- cycles

  /** The retry phase leaves no dead letter, and every source run completes. */
  ghost predicate CompleteCycle(net: Net, limits: Limits, a: State, c: Cycle, book: Book) {
    && RetryDeadLetters(WorldOn(net), a.(report := EmptyReport), c.listing, c.unreadable).Go?
    && Opening(net, a, c).dead == map[] && CompleteRuns(net, limits, Opening(net, a, c), c.runs, book)
  }

  ghost predicate CompleteCycles(net: Net, limits: Limits, a: State, cs: seq<Cycle>, book: Book)
    decreases |cs|
  {
    cs == [] ||
    (CompleteCycle(net, limits, a, cs[0], book) && CompleteCycles(net, limits,
        RunCycle(WorldOn(net), limits, a, cs[0]), cs[1..], book))
  }

  function ScrapesIn(cs: seq<Cycle>, source: string): seq<Scrape>
    decreases |cs|
  {
    if cs == [] then [] else ScrapesOf(cs[0].runs, source) + ScrapesIn(cs[1..], source)
  }

  lemma {:induction false} NothingToRetry(w: World, a: State, paths: seq<string>, unreadable: set<string>)
    requires a.dead == map[]
    ensures RetryDeadLetters(w, a, paths, unreadable) == Go(a)
    decreases |paths|
  {
    if paths != [] {
      NothingToRetry(w, a, paths[1..], unreadable);
    }
  }

  lemma CycleIsFollowed(net: Net, limits: Limits, a: State, c: Cycle, book: Book, kind: Kind, urn: string)
    requires NetOk(net) && Through(net, |Opening(net, a, c).log|)
    requires RowIsOurs(net, RowKey(kind, net.auth.tenant, urn)) && !kind.LineageEdge?
    requires Ready(net, Opening(net, a, c), book) && CompleteCycle(net, limits, a, c, book)
    ensures Followed(net, Opening(net, a, c), RunCycle(WorldOn(net), limits, a, c),
              ScrapesOf(c.runs, book.owner(urn)), book, kind, urn)
  {
    hide NetOk, Through, RowIsOurs, Ready, CompleteRuns, RunSources, RetryDeadLetters, Followed;
    RunsAreFollowed(net, limits, Opening(net, a, c), c.runs, book, kind, urn);
  }

  /** With nothing on disk the cycle opens where the last one ended. */
  lemma OpeningIsFollowed(net: Net, a: State, c: Cycle, book: Book, kind: Kind, urn: string)
    requires Ready(net, a, book)
    ensures Opening(net, a, c) == a.(report := EmptyReport)
    ensures Ready(net, Opening(net, a, c), book) && Followed(net, a, Opening(net, a, c), [], book, kind, urn)
  {
    ReportIsNoChange(net, a, EmptyReport, book, kind, urn);
    hide HeldBy, LawfulCursors, NoneAhead, ServerAt;
    NothingToRetry(WorldOn(net), a.(report := EmptyReport), c.listing, c.unreadable);
  }

  /** Over complete cycles, from the opening of the first one. */
  lemma {:induction false} CyclesAreFollowed(net: Net, limits: Limits, a: State, cs: seq<Cycle>, book: Book, kind: Kind,
      urn: string)
    requires cs != [] && Ready(net, Opening(net, a, cs[0]), book) && CompleteCycles(net, limits, a, cs, book)
    requires NetOk(net) && Through(net, |Opening(net, a, cs[0]).log|)
    requires RowIsOurs(net, RowKey(kind, net.auth.tenant, urn)) && !kind.LineageEdge?
    ensures Followed(net, Opening(net, a, cs[0]), RunCycles(WorldOn(net), limits, a, cs),
              ScrapesIn(cs, book.owner(urn)), book, kind, urn)
    decreases |cs|
  {
    hide NetOk, Through, RowIsOurs, Ready, CompleteCycle, RunCycle, Opening, HeldBy, AfterScrapes;
    var w, o, b := WorldOn(net), Opening(net, a, cs[0]), RunCycle(WorldOn(net), limits, a, cs[0]);
    var s1 := ScrapesOf(cs[0].runs, book.owner(urn));
    CycleIsFollowed(net, limits, a, cs[0], book, kind, urn);
    if |cs| == 1 {
      assert cs[1..] == [] && s1 + [] == s1;
    } else {
      OpeningIsFollowed(net, b, cs[1], book, kind, urn);
      assert cs[1..][0] == cs[1];
      ThroughLater(net, |o.log|, |Opening(net, b, cs[1]).log|);
      CyclesAreFollowed(net, limits, b, cs[1..], book, kind, urn);
      hide Followed;
      FollowedOn(net, o, b, Opening(net, b, cs[1]), s1, [], book, kind, urn);
      assert s1 + [] == s1;
      FollowedOn(net, o, Opening(net, b, cs[1]), RunCycles(w, limits, b, cs[1..]), s1,
          ScrapesIn(cs[1..], book.owner(urn)), book, kind, urn);
    }
  }

  // ---------------------------------------------------------------- what the last scrape of a source leaves

  /** The cursor holds exactly the finds of the scrape, each as last found. */
  ghost predicate CursorIsScan(c: CursorVal, s: Scrape) {
    && (forall u :: u in c.entries <==> FoundBefore(s.scan, |s.scan|, u))
    && (forall u, i: nat :: LastFind(s.scan, |s.scan|, i, u) ==>
          u in c.entries && c.entries[u] == Entry(s.scan[i].kind, s.hash(s.scan[i].payload), s.clock(i)))
  }

  /** The row is what this scrape found: live under the hash of the payload last found, or not live. */
  ghost predicate RowMirrors(row: Option<Row>, s: Scrape, kindOf: string -> Kind, kind: Kind, urn: string) {
    if Finds(s, kindOf, kind, urn)
    then forall i: nat :: LastFind(s.scan, |s.scan|, i, urn) ==> LiveHash(row) == Some(Some(s.hash(s.scan[i].payload)))
    else LiveHash(row) == None
  }

  lemma AgreesIffMirrors(row: Option<Row>, c: CursorVal, s: Scrape, kindOf: string -> Kind, kinds: seq<Kind>,
      kind: Kind, urn: string)
    requires CursorIsScan(c, s) && FindsItsKinds(s, kindOf, kinds)
    ensures Agrees(row, c, kind, urn) <==> RowMirrors(row, s, kindOf, kind, urn)
  {
    hide LiveHash, LastFind, FoundBefore, KindsDistinct;
    if FoundBefore(s.scan, |s.scan|, urn) {
      var i := LastFindExists(s.scan, |s.scan|, urn);
      FindIsOfUrn(s.scan, i, urn);
    }
  }

  lemma FindIsOfUrn(scan: seq<Found>, i: nat, urn: string)
    requires LastFind(scan, |scan|, i, urn)
    ensures i < |scan| && scan[i].urn == urn && forall j: nat :: LastFind(scan, |scan|, j, urn) ==> j == i
  {
  }

  lemma ScrapeLeavesScan(s: Scrape, c: CursorVal, kindOf: string -> Kind, kinds: seq<Kind>)
    requires FindsItsKinds(s, kindOf, kinds) && HoldsItsKinds(c, kindOf, kinds)
    ensures CursorIsScan(Scraped(s, c).cursor, s)
  {
    hide Scraped, WellOrdered, FoundBefore, LastFind;
    ScrapeLeavesTheFinds(s, c);
  }

  predicate AllFindTheirKinds(ss: seq<Scrape>, kindOf: string -> Kind, kinds: seq<Kind>) {
    forall i :: 0 <= i < |ss| ==> FindsItsKinds(ss[i], kindOf, kinds)
  }

  lemma {:induction false} LastScrapeLeavesScan(ss: seq<Scrape>, h: Held, kindOf: string -> Kind, kinds: seq<Kind>,
      auth: Auth, key: RowKey)
    requires ss != [] && AllFindTheirKinds(ss, kindOf, kinds) && HoldsItsKinds(h.cursor, kindOf, kinds)
    ensures CursorIsScan(AfterScrapes(ss, h, auth, key).cursor, ss[|ss| - 1])
    decreases |ss|
  {
    hide HoldsItsKinds, FindsItsKinds, CursorIsScan, Scraped, FoldSkip, BuildRecords;
    var next := AfterScrape(ss[0], h, auth, key);
    ScrapeKeepsKinds(ss[0], h.cursor, kindOf, kinds);
    if |ss| == 1 {
      OneScrape(ss[0], h, auth, key);
      assert ss == [ss[0]];
      ScrapeLeavesScan(ss[0], h.cursor, kindOf, kinds);
    } else {
      LastScrapeLeavesScan(ss[1..], next, kindOf, kinds, auth, key);
    }
  }

  /** Run j is the last one of its source. */
  predicate LastRunOf(runs: seq<SourceRun>, j: int) {
    0 <= j < |runs| && forall i :: j < i < |runs| ==> runs[i].source != runs[j].source
  }

  lemma {:induction false} NoScrapeOf(runs: seq<SourceRun>, source: string)
    requires forall i :: 0 <= i < |runs| ==> runs[i].source != source
    ensures ScrapesOf(runs, source) == []
    decreases |runs|
  {
    if runs != [] {
      NoScrapeOf(runs[1..], source);
    }
  }

  lemma {:induction false} LastScrapeOf(runs: seq<SourceRun>, j: nat)
    requires LastRunOf(runs, j)
    ensures var ss := ScrapesOf(runs, runs[j].source);
            ss != [] && ss[|ss| - 1] == runs[j].scrape
    decreases |runs|
  {
    assert forall i :: 0 <= i < |runs[1..]| ==> runs[1..][i] == runs[i + 1];
    if j == 0 {
      NoScrapeOf(runs[1..], runs[0].source);
    } else {
      LastScrapeOf(runs[1..], j - 1);
    }
  }

  lemma LastOfBoth<T>(a: seq<T>, b: seq<T>)
    ensures b != [] ==> a + b != [] && (a + b)[|a + b| - 1] == b[|b| - 1]
  {
  }

  lemma {:induction false} LastScrapeIn(cs: seq<Cycle>, j: nat)
    requires cs != [] && LastRunOf(cs[|cs| - 1].runs, j)
    ensures var r := cs[|cs| - 1].runs[j];
            var ss := ScrapesIn(cs, r.source);
            ss != [] && ss[|ss| - 1] == r.scrape
    decreases |cs|
  {
    hide ScrapesOf, LastRunOf;
    var last := cs[|cs| - 1];
    JIsARun(last.runs, j);
    var r := last.runs[j];
    if |cs| == 1 {
      LastScrapeOf(last.runs, j);
      assert cs[1..] == [] && ScrapesIn(cs, r.source) == ScrapesOf(last.runs, r.source) + [];
    } else {
      assert cs[1..][|cs[1..]| - 1] == last;
      LastScrapeIn(cs[1..], j);
      LastOfBoth(ScrapesOf(cs[0].runs, r.source), ScrapesIn(cs[1..], r.source));
      assert ScrapesIn(cs, r.source) == ScrapesOf(cs[0].runs, r.source) + ScrapesIn(cs[1..], r.source);
    }
  }

  lemma JIsARun(runs: seq<SourceRun>, j: nat)
    requires LastRunOf(runs, j)
    ensures j < |runs|
  {
  }

  lemma {:induction false} RunsFindTheirKinds(net: Net, limits: Limits, a: State, runs: seq<SourceRun>, book: Book,
      source: string)
    requires CompleteRuns(net, limits, a, runs, book)
    ensures AllFindTheirKinds(ScrapesOf(runs, source), book.kindOf, book.kinds(source))
    decreases |runs|
  {
    hide RunSource, FindsItsKinds, Started, Emitted, AllWelcome, ValidItem;
    if runs != [] {
      RunsFindTheirKinds(net, limits, RunSource(WorldOn(net), limits, Started(a), runs[0]).state, runs[1..], book,
          source);
    }
  }

  lemma {:induction false} CyclesFindTheirKinds(net: Net, limits: Limits, a: State, cs: seq<Cycle>, book: Book,
      source: string)
    requires CompleteCycles(net, limits, a, cs, book)
    ensures AllFindTheirKinds(ScrapesIn(cs, source), book.kindOf, book.kinds(source))
    decreases |cs|
  {
    hide RunCycle, FindsItsKinds, CompleteRuns, Opening, RetryDeadLetters, ScrapesOf;
    if cs != [] {
      RunsFindTheirKinds(net, limits, Opening(net, a, cs[0]), cs[0].runs, book, source);
      CyclesFindTheirKinds(net, limits, RunCycle(WorldOn(net), limits, a, cs[0]), cs[1..], book, source);
    }
  }

  // ---------------------------------------------------------------- the theorem

  /** The exact outcome of complete cycles that open in state o, for one row of the source whose last run was r. */
  ghost predicate FollowsExactly(net: Net, o: State, b: State, cs: seq<Cycle>, r: SourceRun, book: Book, kind: Kind,
      urn: string)
  {
    && b.dead == map[] && o.log <= b.log && (forall k :: |o.log| <= k < |b.log| ==> b.log[k].outcome.Pushed?)
    && CursorIsScan(LoadCursor(b, r.source), r.scrape)
    && (RowMirrors(HeldBy(net, b, book, kind, urn).row, r.scrape, book.kindOf, kind, urn) <==>
          FoundIn(ScrapesIn(cs, r.source), book.kindOf, kind, urn) ||
          Tracked(HeldBy(net, o, book, kind, urn).row, LoadCursor(o, r.source), kind, urn))
  }

  lemma FollowedExactly(net: Net, limits: Limits, a: State, cs: seq<Cycle>, book: Book, j: nat, kind: Kind, urn: string)
    requires cs != [] && Ready(net, Opening(net, a, cs[0]), book) && CompleteCycles(net, limits, a, cs, book)
    requires LastRunOf(cs[|cs| - 1].runs, j) && book.owner(urn) == cs[|cs| - 1].runs[j].source
    requires RoutesToRelational(kind)
    requires Followed(net, Opening(net, a, cs[0]), RunCycles(WorldOn(net), limits, a, cs),
              ScrapesIn(cs, book.owner(urn)), book, kind, urn)
    ensures FollowsExactly(net, Opening(net, a, cs[0]), RunCycles(WorldOn(net), limits, a, cs), cs,
              cs[|cs| - 1].runs[j], book, kind, urn)
  {
    var o, b, r := Opening(net, a, cs[0]), RunCycles(WorldOn(net), limits, a, cs), cs[|cs| - 1].runs[j];
    var ss, h, key := ScrapesIn(cs, r.source), HeldBy(net, o, book, kind, urn), RowKey(kind, net.auth.tenant, urn);
    CyclesFindTheirKinds(net, limits, a, cs, book, r.source);
    LastScrapeIn(cs, j);
    LawfulOfReady(net, o, r, book);
    DeadOfReady(net, b, book);
    hide Opening, RunCycles, ServerAt, ScrapesIn, FindsItsKinds, HoldsItsKinds, AfterScrapes, CursorIsScan,
         RowMirrors, Agrees, Tracked, FoundIn, Ready, CompleteCycles;
    LastScrapeLeavesScan(ss, h, book.kindOf, book.kinds(r.source), net.auth, key);
    ScrapesConverge(ss, h, book.kindOf, book.kinds(r.source), net.auth, kind, urn);
    var after := HeldBy(net, b, book, kind, urn);
    AgreesIffMirrors(after.row, after.cursor, r.scrape, book.kindOf, book.kinds(r.source), kind, urn);
  }

  lemma DeadOfReady(net: Net, a: State, book: Book)
    requires Ready(net, a, book)
    ensures a.dead == map[]
  {
  }

  /** Main theorem, with the exact condition. A new agent runs any history of cycles over a network that loses and
      repeats messages and carries requests of others, its own tenant included: pushes fail and raise, sources raise anywhere,
      dead letters pile up. If the retry phase of some later cycle leaves no dead letter and from there on source runs
      complete and pushes get through in the end, then every push succeeds, each source's saved cursor is exactly its
      last scrape, and a row mirrors that scrape - live under the hash of the payload last found, or not live - if and
      only if one of the complete runs found its urn, or the saved cursor knew it at the start, or the row was not live.
      What a run that raised had pushed stays live until its urn is found again, and no longer. */
  lemma CatalogFollowsSources(net: Net, limits: Limits, history: seq<Cycle>, cs: seq<Cycle>, book: Book, j: nat,
      kind: Kind, urn: string)
    requires NetOk(net) && LawfulHistory(history, book) && RowIsOurs(net, RowKey(kind, net.auth.tenant, urn))
    requires !kind.LineageEdge?
    requires cs != [] && LastRunOf(cs[|cs| - 1].runs, j) && book.owner(urn) == cs[|cs| - 1].runs[j].source
    requires RoutesToRelational(kind)
    requires var a := RunCycles(WorldOn(net), limits, FreshAgent, history);
             CompleteCycles(net, limits, a, cs, book) && Through(net, |Opening(net, a, cs[0]).log|)
    ensures var a := RunCycles(WorldOn(net), limits, FreshAgent, history);
            FollowsExactly(net, Opening(net, a, cs[0]), RunCycles(WorldOn(net), limits, a, cs), cs,
                cs[|cs| - 1].runs[j], book, kind, urn)
  {
    hide *;
    var a := RunCycles(WorldOn(net), limits, FreshAgent, history);
    FirstCycleIsComplete(net, limits, a, cs, book);
    HistoryIsReady(net, limits, history, cs[0], book);
    CyclesAreFollowed(net, limits, a, cs, book, kind, urn);
    FollowedExactly(net, limits, a, cs, book, j, kind, urn);
  }

  lemma FirstCycleIsComplete(net: Net, limits: Limits, a: State, cs: seq<Cycle>, book: Book)
    requires cs != [] && CompleteCycles(net, limits, a, cs, book)
    ensures Opening(net, a, cs[0]).dead == map[]
  {
    hide Opening, RunCycle, CompleteRuns, RetryDeadLetters;
  }

  /** In particular the catalog of a new tenant mirrors its sources when every cycle has been complete. */
  lemma NewCatalogMirrorsSources(net: Net, limits: Limits, cs: seq<Cycle>, book: Book, j: nat, kind: Kind, urn: string)
    requires NetOk(net) && Through(net, 0) && RowIsOurs(net, RowKey(kind, net.auth.tenant, urn)) && !kind.LineageEdge?
    requires Lookup(net.start.catalog.rows, RowKey(kind, net.auth.tenant, urn)) == None
    requires CompleteCycles(net, limits, FreshAgent, cs, book)
    requires cs != [] && LastRunOf(cs[|cs| - 1].runs, j) && book.owner(urn) == cs[|cs| - 1].runs[j].source
    requires RoutesToRelational(kind)
    ensures var b, r := RunCycles(WorldOn(net), limits, FreshAgent, cs), cs[|cs| - 1].runs[j];
            && b.dead == map[] && CursorIsScan(LoadCursor(b, r.source), r.scrape)
            && RowMirrors(HeldBy(net, b, book, kind, urn).row, r.scrape, book.kindOf, kind, urn)
  {
    NoHistory(net, limits, book);
    OpensFresh(net, cs[0]);
    NotLiveIsTracked(net, book, kind, urn);
    hide NetOk, Through, RowIsOurs, CompleteCycles, RunCycles, LawfulHistory, CursorIsScan, RowMirrors, ServerAt,
         Opening, Tracked, FoundIn, ScrapesIn;
    CatalogFollowsSources(net, limits, [], cs, book, j, kind, urn);
  }

  lemma NoHistory(net: Net, limits: Limits, book: Book)
    ensures RunCycles(WorldOn(net), limits, FreshAgent, []) == FreshAgent && LawfulHistory([], book)
  {
  }

  lemma OpensFresh(net: Net, c: Cycle)
    ensures Opening(net, FreshAgent, c) == FreshAgent
  {
    NothingToRetry(WorldOn(net), FreshAgent, c.listing, c.unreadable);
  }

  lemma NotLiveIsTracked(net: Net, book: Book, kind: Kind, urn: string)
    requires Lookup(net.start.catalog.rows, RowKey(kind, net.auth.tenant, urn)) == None
    ensures Tracked(HeldBy(net, FreshAgent, book, kind, urn).row, LoadCursor(FreshAgent, book.owner(urn)), kind, urn)
  {
  }

  // ---------------------------------------------------------------- the two connectors

  /** What the theorem asks of a walk, the connectors give: a bucket always, a database when no name holds a dot. */
  lemma ConnectorsAreLawful(r: SourceRun, prefix: string, infos: seq<TableInfo>, prefixes: seq<PrefixScan>)
    ensures ScansPostgres(r.scrape, AllWithUrns(prefix, infos)) && (forall i :: 0 <= i < |infos| ==> DotFree(infos[i])) ==>
              LawfulScan(r, Book(u => KindOfUrn(prefix, u), u => r.source, s => PostgresKinds))
    ensures ScansS3(r.scrape, prefixes) ==> LawfulScan(r, Book(u => Dataset, u => r.source, s => S3Kinds))
  {
    if ScansPostgres(r.scrape, AllWithUrns(prefix, infos)) && forall i :: 0 <= i < |infos| ==> DotFree(infos[i]) {
      WalksFindTheirKinds(r.scrape, AllWithUrns(prefix, infos), []);
      DotFreeNamesAreHarmless(r.scrape, prefix, infos, EmptyCursor);
      hide AllWithUrns, KindOfUrn, DotFree, Scraped, ScrapedCollectedFirst;
    }
    if ScansS3(r.scrape, prefixes) {
      WalksFindTheirKinds(r.scrape, [], prefixes);
      forall i | 0 <= i < |r.scrape.scan| ensures r.scrape.scan[i].kind == Dataset {
        S3ScanFinds(prefixes, r.scrape.scan[i]);
      }
    }
  }

  // ---------------------------------------------------------------- an instance

  function Ids(n: nat): string {
    seq(n, i => 'x')
  }

  function OneTable(found: Found, hash: Payload -> string): Scrape {
    Scrape(PostgresKinds, [found], map[], hash, (n: nat) => n)
  }

  function OneRun(found: Found, hash: Payload -> string): SourceRun {
    SourceRun("s", "postgres", false, OneTable(found, hash), [], None, (n: nat) => (0.0, 0.0), false)
  }

  function QuietNet(auth: Auth): Net {
    Net(Config(item => None, 0, "1"), auth, Server(map[], EmptyCatalog), RetryPolicy(1, 0.0, 0.0),
        (k: nat, i: nat) => Post([], Delivered, 0, 0), (k: nat) => None, (k: nat) => false, (n: nat) => Ids(n))
  }

  function OneBook(): Book {
    Book(u => Table, u => "s", u => PostgresKinds)
  }

  lemma OneTableIsEmitted(found: Found, hash: Payload -> string)
    requires found.kind.Table?
    ensures Scraped(OneTable(found, hash), EmptyCursor).items == [ExtractItem(OneTable(found, hash),
              Discovered(found), 0)]
  {
    hide Scraped, ExtractItem;
    var s := OneTable(found, hash);
    assert KindsDistinct(s) by {
      assert s.scan[0].kind == PostgresKinds[0];
    }
    ScrapeEmitsExactlyTheDrift(s, EmptyCursor);
    var items := Scraped(s, EmptyCursor).items;
    if |items| > 1 {
      DeleteIsOfDropped(s, EmptyCursor, 1);
      assert false;
    }
  }

  lemma QuietIsOk(auth: Auth, row: RowKey)
    ensures NetOk(QuietNet(auth)) && Through(QuietNet(auth), 0) && RowIsOurs(QuietNet(auth), row)
  {
    forall k: nat ensures GetsThrough(QuietNet(auth), k) {
      assert QuietNet(auth).posts(k, 0).fate.Delivered?;
    }
    forall i: nat, j: nat | Ids(i) == Ids(j) ensures i == j {
      assert |Ids(i)| == i && |Ids(j)| == j;
    }
  }

  lemma OneRunIsComplete(auth: Auth, found: Found, hash: Payload -> string, a: State)
    requires found.kind.Table? && a.cursors == map[]
    requires ValidItem(ExtractItem(OneTable(found, hash), Discovered(found), 0))
    ensures CompleteRun(QuietNet(auth), a, OneRun(found, hash), OneBook())
  {
    hide Scraped, ValidItem;
    OneTableIsEmitted(found, hash);
    var r := OneRun(found, hash);
    assert Emitted(a, r) == [ExtractItem(r.scrape, Discovered(found), 0)];
    assert r.scrape.scan[0].kind == PostgresKinds[0];
  }

  lemma OneCycleIsComplete(auth: Auth, found: Found, hash: Payload -> string, limits: Limits)
    requires found.kind.Table? && ValidItem(ExtractItem(OneTable(found, hash), Discovered(found), 0))
    ensures CompleteCycles(QuietNet(auth), limits, FreshAgent, [Cycle([], {}, [OneRun(found, hash)])], OneBook())
  {
    var net, r := QuietNet(auth), OneRun(found, hash);
    var cs := [Cycle([], {}, [r])];
    OneRunIsComplete(auth, found, hash, FreshAgent);
    OpensFresh(net, cs[0]);
    NothingToRetry(WorldOn(net), FreshAgent, [], {});
    hide RunSource, RunCycle, CompleteRun;
    assert FreshAgent.(report := EmptyReport) == FreshAgent && cs[0].runs[1..] == [] && cs[1..] == [];
    assert CompleteRuns(net, limits, FreshAgent, [r], OneBook());
  }

  /** The hypotheses of the main theorem can be met: one table, found once and pushed over a quiet network, is live in
      the catalog under the hash of its payload. */
  lemma OneTableArrives(found: Found, hash: Payload -> string, auth: Auth, limits: Limits)
    requires found.kind.Table? && ValidItem(ExtractItem(OneTable(found, hash), Discovered(found), 0))
    ensures var b := RunCycles(WorldOn(QuietNet(auth)), limits, FreshAgent, [Cycle([], {}, [OneRun(found, hash)])]);
            LiveHash(Lookup(ServerNow(QuietNet(auth), b).catalog.rows,
                RowKey(Table, auth.tenant, found.urn))) == Some(Some(hash(found.payload)))
  {
    var net, r := QuietNet(auth), OneRun(found, hash);
    var cs := [Cycle([], {}, [r])];
    QuietIsOk(auth, RowKey(Table, auth.tenant, found.urn));
    OneCycleIsComplete(auth, found, hash, limits);
    assert LastRunOf(cs[0].runs, 0);
    hide NetOk, Through, RowIsOurs, CompleteCycles, RunCycles, CursorIsScan, LiveHash, ServerAt;
    NewCatalogMirrorsSources(net, limits, cs, OneBook(), 0, Table, found.urn);
    assert LastFind(r.scrape.scan, 1, 0, found.urn);
    assert FoundBefore(r.scrape.scan, 1, found.urn);
  }
}
