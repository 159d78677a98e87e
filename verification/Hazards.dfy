/** What the hypotheses of convergence are for: dead letters retried in file-name order, source runs that raise, and
    urns that two sources share. */
module Hazards {
  import opened Types
  import opened Cursors
  import opened Connectors
  import opened Catalog
  import opened Ingest
  import opened Delivery
  import opened Convergence
  import opened Batching
  import opened Validation
  import opened Agent
  import opened NothingLost
  import opened Conservation
  import opened Moves
  import opened Wire
  import opened Together
  import opened EndToEnd

  // ---------------------------------------------------------------- retries in file-name order

  /** The accepted records of the listed batches that the server does not answer from a record, in listing order.
      The first retry is the k-th push. */
  function Retried(net: Net, s: Server, dead: map<string, Batch>, paths: seq<string>, k: nat): seq<Record>
    decreases |paths|
  {
    if paths == [] then []
    else
      (if paths[0] !in dead || Replays(net, RecordOn(net, s, paths[0]), k) then [] else Records(net, dead[paths[0]]))
      + Retried(net, s, dead, paths[1..], k + 1)
  }

  /** The directory as listed: each readable file once, under the id of its batch. */
  ghost predicate Listed(net: Net, dead: map<string, Batch>, paths: seq<string>) {
    && NoDuplicates(paths) && (forall p :: p in paths <==> p in dead)
    && (forall p :: p in dead ==> dead[p].id == p && FromSupply(net, p))
  }

  /** After any cycles the directory is such a one, in whatever order it is listed. */
  lemma DirectoriesAreListed(net: Net, limits: Limits, cs: seq<Cycle>, paths: seq<string>)
    requires NetOk(net) && NoDuplicates(paths)
    requires forall p :: p in paths <==> p in RunCycles(WorldOn(net), limits, FreshAgent, cs).dead
    ensures Listed(net, RunCycles(WorldOn(net), limits, FreshAgent, cs).dead, paths)
  {
    CyclesAreCoherent(net, limits, cs);
    var a := RunCycles(WorldOn(net), limits, FreshAgent, cs);
    hide NetOk, RunCycles, Truthful, OneBatchPerId, FullyAnswered, RecordsAreOfBatches, Drawn, FromSupply,
         NoDuplicates;
    forall p | p in a.dead ensures a.dead[p].id == p && FromSupply(net, p) {
      InLogIsDrawn(WorldOn(net), CoreOf(a), a.dead[p]);
      DrawnIsFromSupply(net, a.minted, a.dead[p].id);
    }
  }

  /** Each of the retries gets through, while no record it meets expires. */
  ghost predicate RetriesGetThrough(net: Net, s: Server, paths: seq<string>, k: nat) {
    forall i :: 0 <= i < |paths| ==> RetryGetsThrough(net, s, paths[i], k + i)
  }

  ghost predicate RetryGetsThrough(net: Net, s: Server, path: string, k: nat) {
    GetsThrough(net, k) && InTime(net, RecordOn(net, s, path), k)
  }

  lemma {:induction false} RetriedDepends(net: Net, s: Server, t: Server, d: map<string, Batch>, e: map<string, Batch>,
      paths: seq<string>, k: nat)
    requires forall p :: p in paths ==> RecordOn(net, s, p) == RecordOn(net, t, p) && p in d && p in e && d[p] == e[p]
    ensures Retried(net, s, d, paths, k) == Retried(net, t, e, paths, k)
    decreases |paths|
  {
    hide RecordOn, Replays, Records;
    if paths != [] {
      RetriedDepends(net, s, t, d, e, paths[1..], k + 1);
    }
  }

  lemma RestOfListing(net: Net, dead: map<string, Batch>, paths: seq<string>)
    requires paths != [] && Listed(net, dead, paths)
    ensures paths[0] in dead && paths[0] !in paths[1..]
    ensures Listed(net, dead - {paths[0]}, paths[1..])
  {
    assert paths == [paths[0]] + paths[1..];
  }

  lemma NoneListed(net: Net, dead: map<string, Batch>)
    requires Listed(net, dead, [])
    ensures dead == map[]
  {
    assert forall p :: p !in dead;
  }

  /** One retry on the server. */
  lemma OneRetry(net: Net, a: State, p: string, row: RowKey)
    requires KeysAreOurs(net) && StoresWhatItAccepts(net) && RowIsOurs(net, row)
    requires p in a.dead && a.dead[p].id == p && FromSupply(net, p)
    requires GetsThrough(net, |a.log|) && InTime(net, RecordOn(net, ServerNow(net, a), p), |a.log|)
    ensures OutcomeOf(WorldOn(net), a.log, a.dead[p]).Pushed?
    ensures var after := AfterPush(net, ServerNow(net, a), |a.log|, a.dead[p]);
            && (forall id :: FromSupply(net, id) && id != p ==> RecordOn(net, after, id) == RecordOn(net, ServerNow(net, a), id))
            && Lookup(after.catalog.rows, row) ==
               FoldSkip(Lookup(ServerNow(net, a).catalog.rows, row),
                        if Replays(net, RecordOn(net, ServerNow(net, a), p), |a.log|) then [] else Records(net, a.dead[p]), row)
  {
    var s, k, b := ServerNow(net, a), |a.log|, a.dead[p];
    AcceptedIsStorable(net, b);
    OutcomeOnNet(net, a.log, b);
    FoldNone(Lookup(s.catalog.rows, row), row);
    PushKeepsOtherRecords(net, s, k, b);
    hide OutcomeOf, ServerAt, AfterPush, FoldSkip, AcceptedRecords, RowIsOurs, KeysAreOurs, PostsMade, FirstArrival,
         AllStorable, KeyOn, StoresWhatItAccepts, TimesProcessed, InTime, GetsThrough, Replays, RecordAfter;
    PushIsExact(net, s, k, b, row);
    hide PushEnds;
    if b.entities == [] {
      EmptyIsPushed(net, s, k, b);
    } else {
      PushedIffThrough(net, s, k, b);
      PushedHasArrived(net, s, k, b);
    }
  }

  lemma EmptyIsPushed(net: Net, s: Server, k: nat, b: Batch)
    requires b.entities == []
    ensures PushEnds(net, s, k, b).Pushed? && Records(net, b) == []
  {
  }

  lemma PushKeepsOtherRecords(net: Net, s: Server, k: nat, b: Batch)
    requires KeysAreOurs(net) && FromSupply(net, b.id)
    ensures forall id :: FromSupply(net, id) && id != b.id ==>
              RecordOn(net, AfterPush(net, s, k, b), id) == RecordOn(net, s, id)
  {
    hide KeysAreOurs, ServerAfter, KeyOn;
    forall id | FromSupply(net, id) && id != b.id ensures RecordOn(net, AfterPush(net, s, k, b), id) == RecordOn(net,
        s, id) {
      var n: nat :| id == net.uuid(n);
      PostsKeepOtherRecord(net, s, k, b, PostsMade(net, s, k, b), n);
    }
  }

  lemma FirstGetsThrough(net: Net, s: Server, paths: seq<string>, k: nat)
    requires RetriesGetThrough(net, s, paths, k) && paths != []
    ensures GetsThrough(net, k) && InTime(net, RecordOn(net, s, paths[0]), k)
  {
    hide GetsThrough, InTime, RecordOn;
    assert RetryGetsThrough(net, s, paths[0], k + 0);
  }

  lemma RestGetsThrough(net: Net, s: Server, t: Server, paths: seq<string>, k: nat)
    requires RetriesGetThrough(net, s, paths, k) && paths != []
    requires forall p :: p in paths[1..] ==> RecordOn(net, t, p) == RecordOn(net, s, p)
    ensures RetriesGetThrough(net, t, paths[1..], k + 1)
  {
    hide GetsThrough, InTime, RecordOn;
    forall i | 0 <= i < |paths[1..]| ensures RetryGetsThrough(net, t, paths[1..][i], (k + 1) + i) {
      assert paths[1..][i] == paths[i + 1] && paths[1..][i] in paths[1..];
      assert RetryGetsThrough(net, s, paths[i + 1], k + (i + 1));
    }
  }

  lemma OthersOfListing(net: Net, dead: map<string, Batch>, paths: seq<string>)
    requires paths != [] && Listed(net, dead, paths)
    ensures forall p :: p in paths[1..] ==> FromSupply(net, p) && p != paths[0] && p in dead
    ensures FromSupply(net, paths[0]) && paths[0] in dead && dead[paths[0]].id == paths[0]
  {
    hide FromSupply;
    RestOfListing(net, dead, paths);
  }

  /** The retries that get through, on one row: the listed batches without a record are fanned out in listing order,
      and the directory is empty afterwards. */
  lemma {:induction false} RetriesFollowListing(net: Net, a: State, paths: seq<string>, row: RowKey)
    requires KeysAreOurs(net) && StoresWhatItAccepts(net) && RowIsOurs(net, row)
    requires Listed(net, a.dead, paths) && RetriesGetThrough(net, ServerNow(net, a), paths, |a.log|)
    ensures var c := RetryDeadLetters(WorldOn(net), a, paths, {});
            && c.Go? && c.state.dead == map[] && c.state.cursors == a.cursors
            && Lookup(ServerNow(net, c.state).catalog.rows, row) ==
               FoldSkip(Lookup(ServerNow(net, a).catalog.rows, row),
                   Retried(net, ServerNow(net, a), a.dead, paths, |a.log|), row)
    decreases |paths|
  {
    hide KeysAreOurs, StoresWhatItAccepts, RowIsOurs, RetryDeadLetters, OutcomeOf, FoldSkip, Records, ServerAt,
         RecordOn, GetsThrough, InTime, Replays, FromSupply, Listed, RetriesGetThrough, AfterPush;
    var w, s := WorldOn(net), ServerNow(net, a);
    if paths == [] {
      NothingListed(w, a, {});
      NoneListed(net, a.dead);
      FoldNone(Lookup(s.catalog.rows, row), row);
    } else {
      var p := paths[0];
      RestOfListing(net, a.dead, paths);
      OthersOfListing(net, a.dead, paths);
      FirstGetsThrough(net, s, paths, |a.log|);
      OneRetry(net, a, p, row);
      RetryStep(w, a, paths, {});
      var next := AfterRetryOf(w, a, p);
      ServerStep(net, a.log, Attempt(a.dead[p], OutcomeOf(w, a.log, a.dead[p])));
      RestGetsThrough(net, s, ServerNow(net, next), paths, |a.log|);
      RetriesFollowListing(net, next, paths[1..], row);
      RetriedDepends(net, s, ServerNow(net, next), a.dead, next.dead, paths[1..], |a.log| + 1);
      var first := if Replays(net, RecordOn(net, s, p), |a.log|) then [] else Records(net, a.dead[p]);
      FoldConcatenates(Lookup(s.catalog.rows, row), first, Retried(net, s, a.dead, paths[1..], |a.log| + 1), row);
    }
  }

  /** Main result, with the exact condition. In any state of the agent and the server, once the retries of a listed
      directory have got through, the row is live if and only if the last entity on it - in listing order, among the
      accepted entities of the listed batches whose id has no unexpired record at its retry - is an upsert; if there is
      none, the row is as it was. The order in which the batches were made and the extraction times play no part. */
  lemma ListingOrderDecides(net: Net, a: State, paths: seq<string>, row: RowKey)
    requires KeysAreOurs(net) && StoresWhatItAccepts(net) && RowIsOurs(net, row) && RoutesToRelational(row.kind)
    requires Listed(net, a.dead, paths) && RetriesGetThrough(net, ServerNow(net, a), paths, |a.log|)
    ensures var c := RetryDeadLetters(WorldOn(net), a, paths, {});
            var fanned := Retried(net, ServerNow(net, a), a.dead, paths, |a.log|);
            var after := Lookup(ServerNow(net, c.state).catalog.rows, row);
            && c.Go? && c.state.dead == map[] && c.state.cursors == a.cursors
            && (forall i: nat :: LastOn(fanned, i, row) ==> (LiveHash(after).Some? <==> fanned[i].op.Upsert?))
            && (!Touches(fanned, row) ==> after == Lookup(ServerNow(net, a).catalog.rows, row))
  {
    hide KeysAreOurs, StoresWhatItAccepts, RowIsOurs, RetryDeadLetters, FoldSkip, ServerAt, Listed, RetriesGetThrough,
         Retried, LastOn, Touches, LiveHash;
    RetriesFollowListing(net, a, paths, row);
    var before, fanned := Lookup(ServerNow(net, a).catalog.rows, row), Retried(net, ServerNow(net, a), a.dead, paths,
        |a.log|);
    forall i: nat | LastOn(fanned, i, row)
      ensures i < |fanned| && (LiveHash(FoldSkip(before, fanned, row)).Some? <==> fanned[i].op.Upsert?)
    {
      LastIsInside(fanned, i, row);
      LastRecordDecides(before, fanned, i, row);
    }
    if !Touches(fanned, row) {
      UntouchedRow(before, fanned, row);
    }
  }

  lemma LastIsInside(rs: seq<Record>, i: nat, row: RowKey)
    requires LastOn(rs, i, row)
    ensures i < |rs|
  {
  }

  /** Two files in listing order. */
  lemma RetriedPair(net: Net, s: Server, p: string, pb: Batch, q: string, qb: Batch, k: nat)
    requires p != q
    ensures Retried(net, s, map[p := pb, q := qb], [p, q], k) ==
            (if Replays(net, RecordOn(net, s, p), k) then [] else Records(net, pb)) +
            (if Replays(net, RecordOn(net, s, q), k + 1) then [] else Records(net, qb))
  {
    hide RecordOn, Replays, Records;
    var dead := map[p := pb, q := qb];
    assert [p, q][1..] == [q] && [q][1..] == [];
    assert Retried(net, s, dead, [], k + 2) == [];
    assert Retried(net, s, dead, [q], k + 1) == if Replays(net, RecordOn(net, s, q), k + 1) then [] else Records(net, qb);
  }

  lemma OneRecord(net: Net, b: Batch, item: Item)
    requires b.entities == [item] && net.cfg.check(item).None?
    ensures Records(net, b) == [BuildRecord(item, net.auth)]
  {
    AllAcceptedIsEverything(b.entities, net.cfg.check);
  }

  /** Two records of a row in order, each of which may be left out. */
  lemma OneAndTwo(x: Option<Row>, one: Record, two: Record, row: RowKey, no1: bool, no2: bool)
    requires KeyOf(one) == row && KeyOf(two) == row && RoutesToRelational(row.kind)
    ensures LiveHash(FoldSkip(x, (if no1 then [] else [one]) + (if no2 then [] else [two]), row)) ==
            if !no2 then HashLeftBy(two) else if !no1 then HashLeftBy(one) else LiveHash(x)
  {
    hide FoldSkip, LiveHash, HashLeftBy;
    var rs := (if no1 then [] else [one]) + (if no2 then [] else [two]);
    if rs == [] {
      FoldNone(x, row);
    } else {
      assert LastOn(rs, |rs| - 1, row);
      LastRecordDecides(x, rs, |rs| - 1, row);
    }
  }

  lemma PairIsListed(net: Net, p: string, pb: Batch, q: string, qb: Batch)
    requires p != q && pb.id == p && qb.id == q && FromSupply(net, p) && FromSupply(net, q)
    ensures Listed(net, map[p := pb, q := qb], [p, q])
  {
    hide FromSupply;
  }

  lemma RetriedRecords(net: Net, s: Server, p: string, q: string, ct: string, up: Item, del: Item, k: nat)
    requires p != q && net.cfg.check(up).None? && net.cfg.check(del).None?
    ensures Retried(net, s, map[p := Batch(p, ct, [del]), q := Batch(q, ct, [up])], [p, q], k) ==
            (if Replays(net, RecordOn(net, s, p), k) then [] else [BuildRecord(del, net.auth)]) +
            (if Replays(net, RecordOn(net, s, q), k + 1) then [] else [BuildRecord(up, net.auth)])
  {
    hide Retried, Replays, RecordOn, Records, BuildRecord;
    RetriedPair(net, s, p, Batch(p, ct, [del]), q, Batch(q, ct, [up]), k);
    OneRecord(net, Batch(p, ct, [del]), del);
    OneRecord(net, Batch(q, ct, [up]), up);
  }

  lemma PairOnRow(net: Net, x: Option<Row>, up: Item, del: Item, no1: bool, no2: bool)
    requires up.op.Upsert? && del.op.Delete? && up.urn == del.urn && up.kind == del.kind && RoutesToRelational(up.kind)
    ensures LiveHash(FoldSkip(x, (if no1 then [] else [BuildRecord(del, net.auth)]) + (if no2 then [] else [BuildRecord(up, net.auth)]),
                              RowKey(up.kind, net.auth.tenant, up.urn))) ==
            if !no2 then Some(up.hash) else if !no1 then None else LiveHash(x)
  {
    hide FoldSkip, LiveHash;
    OneAndTwo(x, BuildRecord(del, net.auth), BuildRecord(up, net.auth), RowKey(up.kind, net.auth.tenant, up.urn), no1,
        no2);
  }

  /** For every pair: an upsert and the later delete of its urn have both been dead-lettered, and the name of the file
      of the delete comes first. After the retries the urn is live - although no cursor knows it - exactly when the
      upsert had not been processed before with its response lost, or the row was live and both had. */
  lemma RetryRevivesDeletedUrn(net: Net, a: State, p: string, q: string, ct: string, up: Item, del: Item)
    requires KeysAreOurs(net) && StoresWhatItAccepts(net) && RoutesToRelational(up.kind)
    requires RowIsOurs(net, RowKey(up.kind, net.auth.tenant, up.urn))
    requires up.op.Upsert? && del.op.Delete? && up.urn == del.urn && up.kind == del.kind
    requires up.extractedAt < del.extractedAt
    requires net.cfg.check(up).None? && net.cfg.check(del).None?
    requires p != q && a.dead == map[p := Batch(p, ct, [del]), q := Batch(q, ct, [up])]
    requires FromSupply(net, p) && FromSupply(net, q) && RetriesGetThrough(net, ServerNow(net, a), [p, q], |a.log|)
    ensures Listed(net, a.dead, [p, q])
    ensures var row := RowKey(up.kind, net.auth.tenant, up.urn);
            var s, after := ServerNow(net, a), RetryDeadLetters(WorldOn(net), a, [p, q], {}).state;
            && after.dead == map[] && after.cursors == a.cursors
            && LiveHash(Lookup(ServerNow(net, after).catalog.rows, row)) ==
               (if !Replays(net, RecordOn(net, s, q), |a.log| + 1) then Some(up.hash)
                else if !Replays(net, RecordOn(net, s, p), |a.log|) then None
                else LiveHash(Lookup(s.catalog.rows, row)))
  {
    hide *;
    var row, s := RowKey(up.kind, net.auth.tenant, up.urn), ServerNow(net, a);
    PairIsListed(net, p, a.dead[p], q, a.dead[q]);
    RetriesFollowListing(net, a, [p, q], row);
    RetriedRecords(net, s, p, q, ct, up, del, |a.log|);
    var answered1, answered2 := Replays(net, RecordOn(net, s, p), |a.log|), Replays(net, RecordOn(net, s, q),
        |a.log| + 1);
    PairOnRow(net, Lookup(s.catalog.rows, row), up, del, answered1, answered2);
  }

  // ---------------------------------------------------------------- source runs that raise halfway

  /** A run that raises after n entities, all of them valid and none that the server accepts but cannot store. */
  ghost predicate RaisesAfter(net: Net, a: State, r: SourceRun, n: nat) {
    && !r.connectRaises && r.raisesAt == Some(n) && n <= |Emitted(a, r)|
    && (forall i :: 0 <= i < n ==> ValidItem(Emitted(a, r)[i])) && AllBearable(net, Emitted(a, r)[..n])
  }

  /** It saves nothing, and what it has pushed by then - all it has emitted but what the batcher still held - is in
      the catalog. */
  lemma RaisingRunShape(net: Net, limits: Limits, a: State, r: SourceRun, n: nat, book: Book, row: RowKey)
    requires NetOk(net) && Through(net, |a.log|) && RowIsOurs(net, row) && Ready(net, a, book)
    requires RaisesAfter(net, a, r, n)
    ensures var c := RunSource(WorldOn(net), limits, a, r);
            && c.Throw? && c.state.cursors == a.cursors && a.log <= c.state.log
            && AllEntities(c.state.log[|a.log|..]) <= Emitted(a, r)[..n]
            && Lookup(ServerNow(net, c.state).catalog.rows, row) ==
               FoldSkip(Lookup(ServerNow(net, a).catalog.rows, row), FannedSince(net, a.log, c.state), row)
  {
    var w, items := WorldOn(net), EmittedBeforeRaise(a, r);
    assert items == Emitted(a, r)[..n];
    ReadyIsSmooth(net, a, book, row);
    AllValid(items);
    assert items[..0] == [] && a.log[|a.log|..] == [];
    assert Balanced(a, a, EmptyBuffer, items[..0]);
    var f := FeedAll(w, limits, a, EmptyBuffer, r.connectorType, items, r.ticks, 0);
    FreshOn(net);
    RunUpToSave(w, limits, a, r);
    hide NetOk, Through, RowIsOurs, FeedAll, Emitted, Ready, ValidItem, Bearable, FoldSkip, BuildRecords, AllEntities,
         ServerAt, ValidOnly, NoneAhead, AcceptedOf, FullyAnswered, DeadEntities, Safe, DeadLettersAreOwn,
         IdsAreFresh;
    FeedAllIsSmooth(net, limits, a.log, a, EmptyBuffer, r.connectorType, items, r.ticks, 0, row);
    FeedAllBalances(w, limits, a, a, EmptyBuffer, r.connectorType, items, r.ticks, 0);
    assert RunSource(w, limits, a, r) == Throw(f.ctl.state);
    assert AllEntities(f.ctl.state.log[|a.log|..]) + f.buffer.items == items;
  }

  /** Main result, exactly when such a run leaves a row behind its cursor's back: if the last of what it pushed on the
      row is an upsert and the saved cursor does not know the urn; if it pushed nothing on it, nothing changes. */
  lemma RaisingRunLeaks(net: Net, limits: Limits, a: State, r: SourceRun, n: nat, book: Book, kind: Kind, urn: string)
    requires NetOk(net) && Through(net, |a.log|) && RowIsOurs(net, RowKey(kind, net.auth.tenant, urn))
    requires RoutesToRelational(kind)
    requires Ready(net, a, book) && RaisesAfter(net, a, r, n)
    ensures a.log <= RunSource(WorldOn(net), limits, a, r).state.log
    ensures var b := RunSource(WorldOn(net), limits, a, r).state;
            var pushed, row := FannedSince(net, a.log, b), RowKey(kind, net.auth.tenant, urn);
            var before, after := HeldBy(net, a, book, kind, urn), HeldBy(net, b, book, kind, urn);
            && after.cursor == before.cursor
            && (forall i: nat :: LastOn(pushed, i, row) ==>
                  (Tracked(after.row, after.cursor, kind, urn) <==> KnownTo(before.cursor, kind, urn) || pushed[i].op.Delete?))
            && (!Touches(pushed, row) ==> after == before)
  {
    var row := RowKey(kind, net.auth.tenant, urn);
    RaisingRunShape(net, limits, a, r, n, book, row);
    hide NetOk, Through, RowIsOurs, Ready, RaisesAfter, RunSource, FoldSkip, FannedSince, ServerAt, LiveHash, KnownTo,
         Touches, LastOn;
    var b := RunSource(WorldOn(net), limits, a, r).state;
    var pushed, x := FannedSince(net, a.log, b), Lookup(ServerNow(net, a).catalog.rows, row);
    forall i: nat | LastOn(pushed, i, row) ensures i < |pushed| && LiveHash(FoldSkip(x, pushed,
        row)) == HashLeftBy(pushed[i]) {
      LastIsInside(pushed, i, row);
      LastRecordDecides(x, pushed, i, row);
    }
    if !Touches(pushed, row) {
      UntouchedRow(x, pushed, row);
    }
  }

  /** Such a row heals exactly when a later complete scrape finds its urn; until then it stays live. */
  lemma LeakedUrnHealsIffFound(ss: seq<Scrape>, h: Held, kindOf: string -> Kind, kinds: seq<Kind>, auth: Auth, kind: Kind,
      urn: string)
    requires HoldsItsKinds(h.cursor, kindOf, kinds) && RoutesToRelational(kind) && AllFindTheirKinds(ss, kindOf, kinds)
    requires ss != [] && !Tracked(h.row, h.cursor, kind, urn)
    ensures var after := AfterScrapes(ss, h, auth, RowKey(kind, auth.tenant, urn));
            && (Agrees(after.row, after.cursor, kind, urn) <==> FoundIn(ss, kindOf, kind, urn))
            && (!FoundIn(ss, kindOf, kind, urn) ==> LiveHash(after.row).Some? && !KnownTo(after.cursor, kind, urn))
  {
    hide AfterScrapes, HoldsItsKinds, FoundIn, Agrees, LiveHash, KnownTo, FindsItsKinds;
    ScrapesConverge(ss, h, kindOf, kinds, auth, kind, urn);
  }

  /** A run that raises leaves every saved cursor as it was. */
  lemma RaisingRunSavesNothing(w: World, limits: Limits, a: State, r: SourceRun)
    requires IdsAreFresh(w) && RunSource(w, limits, a, r).Throw?
    ensures RunSource(w, limits, a, r).state.cursors == a.cursors
  {
    hide RunSource, Safe, DeadLettersAreOwn;
    RunUpToSave(w, limits, a, r);
  }

  // ---------------------------------------------------------------- a urn that two sources hold

  /** One source's cursor and the row agree on a urn; another source scrapes and does not find it. They still agree if
      and only if the other source's cursor did not hold the urn: each urn has to belong to one source. */
  lemma SharedUrnIsDeleted(s: Scrape, mine: CursorVal, other: CursorVal, kindOf: string -> Kind, auth: Auth,
      x: Option<Row>, kind: Kind, urn: string)
    requires KindsDistinct(s) && WellOrdered(other) && OneKindEach(s, other, kindOf) && RoutesToRelational(kind)
    requires !FoundBefore(s.scan, |s.scan|, urn) && KnownTo(mine, kind, urn) && Agrees(x, mine, kind, urn)
    ensures Agrees(FoldSkip(x, BuildRecords(Scraped(s, other).items, auth), RowKey(kind, auth.tenant, urn)), mine, kind, urn) <==>
            !KnownTo(other, kind, urn)
  {
    hide Scraped, FoldSkip, BuildRecords, LiveHash, OneKindEach, WellOrdered, KindsDistinct, FoundBefore;
    UnfoundRow(s, other, kindOf, auth, x, kind, urn);
  }

  // ---------------------------------------------------------------- finds that the server rejects

  predicate Rejects(check: Item -> Option<Rejection>, s: Scrape, i: nat)
    requires i < |s.scan|
  {
    check(ExtractItem(s, Discovered(s.scan[i]), i)).Some?
  }

  /** What the accepted part of a scrape holds on a urn whose finds are all rejected: nothing. */
  lemma RejectedFindsTouchNothing(s: Scrape, c: CursorVal, check: Item -> Option<Rejection>, auth: Auth, kind: Kind,
      urn: string)
    requires KindsDistinct(s) && WellOrdered(c) && FoundBefore(s.scan, |s.scan|, urn)
    requires forall i :: 0 <= i < |s.scan| && s.scan[i].urn == urn ==> Rejects(check, s, i)
    ensures !Touches(BuildRecords(AcceptedItems(Scraped(s, c).items, check), auth), RowKey(kind, auth.tenant, urn))
  {
    hide Scraped, WellOrdered, FoundBefore, KindsDistinct, BuildRecord, BuildRecords, AcceptedItems;
    var items := Scraped(s, c).items;
    var kept := AcceptedItems(items, check);
    SplitConserves(items, check);
    RecordsKeys(kept, auth);
    ScrapeEmitsExactlyTheDrift(s, c);
    forall j | 0 <= j < |kept| ensures kept[j].urn != urn {
      assert kept[j] in kept;
      var m :| 0 <= m < |items| && items[m] == kept[j];
      if m < |s.scan| {
        assert items[m] == ExtractItem(s, Discovered(s.scan[m]), m);
      } else {
        DeleteIsOfDropped(s, c, m);
      }
    }
  }

  /** The cursor records a find before the server has judged it. When all finds of a urn are rejected the row stays as it
      was, so it agrees with the cursor if and only if it held the payload last found already. */
  lemma RejectedFindIsMissing(s: Scrape, c: CursorVal, check: Item -> Option<Rejection>, kindOf: string -> Kind,
      auth: Auth, x: Option<Row>, urn: string, last: nat)
    requires KindsDistinct(s) && WellOrdered(c) && OneKindEach(s, c, kindOf) && LastFind(s.scan, |s.scan|, last, urn)
    requires forall i :: 0 <= i < |s.scan| && s.scan[i].urn == urn ==> Rejects(check, s, i)
    ensures var row := FoldSkip(x, BuildRecords(AcceptedItems(Scraped(s, c).items, check), auth),
              RowKey(kindOf(urn), auth.tenant, urn));
            && row == x
            && (Agrees(row, Scraped(s, c).cursor, kindOf(urn), urn) <==> LiveHash(x) == Some(Some(s.hash(s.scan[last].payload))))
  {
    hide Scraped, WellOrdered, KindsDistinct, FoldSkip, BuildRecords, AcceptedItems, Touches, LiveHash, Rejects;
    assert FoundBefore(s.scan, |s.scan|, urn);
    RejectedFindsTouchNothing(s, c, check, auth, kindOf(urn), urn);
    UntouchedRow(x, BuildRecords(AcceptedItems(Scraped(s, c).items, check), auth), RowKey(kindOf(urn), auth.tenant, urn));
    ScrapeLeavesTheFinds(s, c);
  }
}
