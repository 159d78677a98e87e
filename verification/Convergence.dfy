/** From scrape to catalog: after every completed cycle the live rows of a tenant are what its sources hold. */
module Convergence {
  import opened Types
  import opened Cursors
  import opened Connectors
  import opened Catalog
  import opened Projections
  import opened Ingest
  import opened Tenancy
  import opened Pushing
  import opened Delivery

  // ---------------------------------------------------------------- one row through a batch

  function FoldSkip(x: Option<Row>, rs: seq<Record>, k: RowKey): Option<Row>
    decreases |rs|
  {
    if rs == [] then x else FoldSkip(if KeyOf(rs[0]) == k && RoutesToRelational(k.kind) then RowStep(x, rs[0]) else x, rs[1..], k)
  }

  lemma StorableIsDone(ct: string, c: Catalog, r: Record)
    requires Storable(r)
    ensures ProcessOne(ct, c, r).Done?
  {
    hide LinksOf, BareNodesOf, WriteNode, WriteEdge, IndexEntity, RowStep, RowResult, EndpointsOf;
  }

  lemma StorableStep(ct: string, c: Catalog, r: Record, k: RowKey)
    requires Storable(r)
    ensures ProcessOne(ct, c, r).Done?
    ensures Lookup(ProcessOne(ct, c, r).catalog.rows, k) ==
            if KeyOf(r) == k && RoutesToRelational(k.kind) then RowStep(Lookup(c.rows, k), r) else Lookup(c.rows, k)
  {
    StorableIsDone(ct, c, r);
    DoneShape(ct, c, r, NoFault);
    hide ProcessOne, RowStep;
  }

  lemma {:induction false} BatchFoldsRows(ct: string, c: Catalog, rs: seq<Record>, k: RowKey)
    requires AllStorable(rs)
    ensures ProcessAll(ct, c, rs).Done?
    ensures Lookup(ProcessAll(ct, c, rs).catalog.rows, k) == FoldSkip(Lookup(c.rows, k), rs, k)
    decreases |rs|
  {
    hide ProcessOne, RowStep;
    if rs != [] {
      StorableStep(ct, c, rs[0], k);
      BatchFoldsRows(ct, ProcessOne(ct, c, rs[0]).catalog, rs[1..], k);
    }
  }

  lemma {:induction false} FoldConcatenates(x: Option<Row>, a: seq<Record>, b: seq<Record>, k: RowKey)
    ensures FoldSkip(x, a + b, k) == FoldSkip(FoldSkip(x, a, k), b, k)
    decreases |a|
  {
    hide RowStep;
    if a == [] {
      assert a + b == b;
    } else {
      assert (a + b)[1..] == a[1..] + b;
      FoldConcatenates(if KeyOf(a[0]) == k && RoutesToRelational(k.kind) then RowStep(x, a[0]) else x, a[1..], b, k);
    }
  }

  /** None when the row is absent or tombstoned, else its content hash. */
  function LiveHash(x: Option<Row>): Option<Option<string>> {
    if x.Some? && !x.value.isDeleted then Some(x.value.hash) else None
  }

  /** The last record of the batch on this row decides whether it is live and with which hash. */
  predicate LastOn(rs: seq<Record>, i: int, k: RowKey) {
    0 <= i < |rs| && KeyOf(rs[i]) == k && forall j :: i < j < |rs| ==> KeyOf(rs[j]) != k
  }

  predicate Touches(rs: seq<Record>, k: RowKey) {
    exists i :: 0 <= i < |rs| && KeyOf(rs[i]) == k
  }

  function HashLeftBy(r: Record): Option<Option<string>> {
    if r.op.Upsert? then Some(r.hash) else None
  }

  lemma StepLeavesHash(x: Option<Row>, r: Record)
    ensures LiveHash(RowStep(x, r)) == HashLeftBy(r)
    ensures r.op.Upsert? ==> RowStep(x, r).Some? && RowStep(x, r).value.hash == r.hash
    ensures RowStep(x, r).Some? ==> RowStep(x, r).value.isDeleted == r.op.Delete? && RowStep(x, r).value.lastScraped == r.at
  {
  }

  lemma {:induction false} UntouchedRow(x: Option<Row>, rs: seq<Record>, k: RowKey)
    requires !Touches(rs, k)
    ensures FoldSkip(x, rs, k) == x
    decreases |rs|
  {
    hide RowStep;
    if rs != [] {
      assert forall i :: 0 <= i < |rs[1..]| ==> rs[1..][i] == rs[i + 1];
      UntouchedRow(x, rs[1..], k);
    }
  }

  lemma {:induction false} LastRecordDecides(x: Option<Row>, rs: seq<Record>, i: nat, k: RowKey)
    requires RoutesToRelational(k.kind) && LastOn(rs, i, k)
    ensures LiveHash(FoldSkip(x, rs, k)) == HashLeftBy(rs[i])
    ensures rs[i].op.Upsert? ==> FoldSkip(x, rs, k).Some? && FoldSkip(x, rs, k).value.hash == rs[i].hash
    ensures FoldSkip(x, rs, k).Some? ==>
              FoldSkip(x, rs, k).value.isDeleted == rs[i].op.Delete? && FoldSkip(x, rs, k).value.lastScraped == rs[i].at
    decreases |rs|
  {
    hide RowStep;
    var x1 := if KeyOf(rs[0]) == k && RoutesToRelational(k.kind) then RowStep(x, rs[0]) else x;
    assert forall j :: 0 <= j < |rs[1..]| ==> rs[1..][j] == rs[j + 1];
    if i == 0 {
      StepLeavesHash(x, rs[0]);
      UntouchedRow(x1, rs[1..], k);
    } else {
      LastRecordDecides(x1, rs[1..], i - 1, k);
    }
  }

  lemma {:induction false} SomeRecordIsLast(rs: seq<Record>, k: RowKey) returns (i: nat)
    requires Touches(rs, k)
    ensures LastOn(rs, i, k)
  {
    var last := |rs| - 1;
    if KeyOf(rs[last]) == k {
      i := last;
    } else {
      var j :| 0 <= j < |rs| && KeyOf(rs[j]) == k;
      assert rs[..last][j] == rs[j];
      i := SomeRecordIsLast(rs[..last], k);
      assert rs[..last][i] == rs[i];
      forall h | i < h < |rs| ensures KeyOf(rs[h]) != k {
        if h < last {
          assert rs[..last][h] == rs[h];
        }
      }
    }
  }

  // ---------------------------------------------------------------- one scrape on the rows

  /** Every find carries the entity type its urn always has, one the relational store holds. */
  ghost predicate OneKindEach(s: Scrape, c: CursorVal, kindOf: string -> Kind) {
    && (forall i :: 0 <= i < |s.scan| ==> s.scan[i].kind == kindOf(s.scan[i].urn))
    && (forall u :: u in c.entries ==> c.entries[u].kind == kindOf(u) && kindOf(u) in s.kinds)
    && (forall i :: 0 <= i < |s.kinds| ==> s.kinds[i].Table? || s.kinds[i].Column? || s.kinds[i].Dataset?)
  }

  predicate KnownTo(c: CursorVal, kind: Kind, urn: string) {
    urn in c.entries && c.entries[urn].kind == kind
  }

  /** The row of this kind and urn is live exactly when the cursor knows it, and holds the cursor's hash. */
  predicate Agrees(row: Option<Row>, c: CursorVal, kind: Kind, urn: string) {
    LiveHash(row) == if KnownTo(c, kind, urn) then Some(Some(c.entries[urn].hash)) else None
  }

  /** The row is not live behind the cursor's back. */
  predicate Tracked(row: Option<Row>, c: CursorVal, kind: Kind, urn: string) {
    KnownTo(c, kind, urn) || LiveHash(row) == None
  }

  predicate Finds(s: Scrape, kindOf: string -> Kind, kind: Kind, urn: string) {
    FoundBefore(s.scan, |s.scan|, urn) && kind == kindOf(urn)
  }

  lemma {:induction false} RecordsKeys(items: seq<Item>, auth: Auth)
    ensures |BuildRecords(items, auth)| == |items|
    ensures forall i :: 0 <= i < |items| ==> KeyOf(BuildRecords(items, auth)[i]) == RowKey(items[i].kind, auth.tenant, items[i].urn)
    ensures forall i :: 0 <= i < |items| ==> HashLeftBy(BuildRecords(items, auth)[i]) == if items[i].op.Upsert? then Some(items[i].hash) else None
  {
  }

  /** A found urn: its last find is the last record on its row. */
  lemma FoundRowConverges(s: Scrape, c: CursorVal, kindOf: string -> Kind, auth: Auth, x: Option<Row>, urn: string)
    requires KindsDistinct(s) && WellOrdered(c) && OneKindEach(s, c, kindOf) && FoundBefore(s.scan, |s.scan|, urn)
    ensures Agrees(FoldSkip(x, BuildRecords(Scraped(s, c).items, auth), RowKey(kindOf(urn), auth.tenant, urn)),
                   Scraped(s, c).cursor, kindOf(urn), urn)
  {
    hide Scraped, WellOrdered, FoldSkip, BuildRecord, BuildRecords, FoundBefore, Dropped, Deletes, HashLeftBy;
    var k := RowKey(kindOf(urn), auth.tenant, urn);
    var items := Scraped(s, c).items;
    var rs := BuildRecords(items, auth);
    RecordsKeys(items, auth);
    ScrapeEmitsExactlyTheDrift(s, c);
    ScrapeLeavesTheFinds(s, c);
    var i := LastFindExists(s.scan, |s.scan|, urn);
    assert s.scan[i].kind in s.kinds;
    assert items[i] == ExtractItem(s, Discovered(s.scan[i]), i);
    forall j | i < j < |rs| ensures KeyOf(rs[j]) != k {
      if j < |s.scan| {
        assert items[j] == ExtractItem(s, Discovered(s.scan[j]), j);
      } else {
        DeleteIsOfDropped(s, c, j);
      }
    }
    assert LastOn(rs, i, k);
    LastRecordDecides(x, rs, i, k);
  }

  lemma DeleteIsOfDropped(s: Scrape, c: CursorVal, j: nat)
    requires KindsDistinct(s) && WellOrdered(c) && |s.scan| <= j < |Scraped(s, c).items|
    ensures var item := Scraped(s, c).items[j];
            item.op.Delete? && Dropped(s, c, item.kind, item.urn) && !FoundBefore(s.scan, |s.scan|, item.urn)
  {
    hide Scraped, WellOrdered, FoundBefore;
    ScrapeEmitsExactlyTheDrift(s, c);
    var item := Scraped(s, c).items[j];
    assert Deletes(Scraped(s, c).items, item.kind, item.urn);
  }

  /** A urn not found: its row is tombstoned if the cursor knew it, and untouched otherwise. */
  lemma UnfoundRow(s: Scrape, c: CursorVal, kindOf: string -> Kind, auth: Auth, x: Option<Row>, kind: Kind, urn: string)
    requires KindsDistinct(s) && WellOrdered(c) && OneKindEach(s, c, kindOf) && !FoundBefore(s.scan, |s.scan|, urn)
    requires RoutesToRelational(kind)
    ensures urn !in Scraped(s, c).cursor.entries
    ensures LiveHash(FoldSkip(x, BuildRecords(Scraped(s, c).items, auth), RowKey(kind, auth.tenant, urn))) ==
            if KnownTo(c, kind, urn) then None else LiveHash(x)
  {
    hide Scraped, WellOrdered, FoldSkip, BuildRecord, BuildRecords, HashLeftBy, LiveHash;
    var k := RowKey(kind, auth.tenant, urn);
    var items := Scraped(s, c).items;
    var rs := BuildRecords(items, auth);
    RecordsKeys(items, auth);
    ScrapeEmitsExactlyTheDrift(s, c);
    ScrapeLeavesTheFinds(s, c);
    forall j | 0 <= j < |s.scan| ensures KeyOf(rs[j]) != k {
      assert items[j] == ExtractItem(s, Discovered(s.scan[j]), j);
    }
    if KnownTo(c, kind, urn) {
      DeletesOnlyTheDropped(s, c, kind, urn);
      var i :| 0 <= i < |items| && items[i].op.Delete? && items[i].kind == kind && items[i].urn == urn;
      assert KeyOf(rs[i]) == k;
    }
    if Touches(rs, k) {
      var i := SomeRecordIsLast(rs, k);
      DeleteIsOfDropped(s, c, i);
      LastRecordDecides(x, rs, i, k);
    } else {
      UntouchedRow(x, rs, k);
    }
  }

  /** A find is never recorded under a kind that is not its own. */
  lemma WrongKindRow(s: Scrape, c: CursorVal, kindOf: string -> Kind, auth: Auth, x: Option<Row>, kind: Kind,
      urn: string)
    requires KindsDistinct(s) && WellOrdered(c) && OneKindEach(s, c, kindOf) && FoundBefore(s.scan, |s.scan|, urn)
    requires kind != kindOf(urn)
    ensures !KnownTo(c, kind, urn) && !KnownTo(Scraped(s, c).cursor, kind, urn)
    ensures FoldSkip(x, BuildRecords(Scraped(s, c).items, auth), RowKey(kind, auth.tenant, urn)) == x
  {
    hide Scraped, WellOrdered, FoldSkip, BuildRecord, BuildRecords, HashLeftBy, LiveHash, FoundBefore;
    var k := RowKey(kind, auth.tenant, urn);
    var items := Scraped(s, c).items;
    var rs := BuildRecords(items, auth);
    RecordsKeys(items, auth);
    ScrapeEmitsExactlyTheDrift(s, c);
    ScrapeLeavesTheFinds(s, c);
    forall j | 0 <= j < |rs| ensures KeyOf(rs[j]) != k {
      if j < |s.scan| {
        assert items[j] == ExtractItem(s, Discovered(s.scan[j]), j);
      } else {
        DeleteIsOfDropped(s, c, j);
      }
    }
    UntouchedRow(x, rs, k);
    var i := LastFindExists(s.scan, |s.scan|, urn);
  }

  /** Main result, with the exact condition: after a complete scrape a row agrees with the cursor if and only if the
      scrape found the urn under its kind, or the cursor it started from knew it, or the row was not live. A row left
      live that the cursor does not know stays so until its urn is found again. */
  lemma ScrapeConverges(s: Scrape, c: CursorVal, kindOf: string -> Kind, auth: Auth, x: Option<Row>, kind: Kind,
      urn: string)
    requires KindsDistinct(s) && WellOrdered(c) && OneKindEach(s, c, kindOf) && RoutesToRelational(kind)
    ensures var row := FoldSkip(x, BuildRecords(Scraped(s, c).items, auth), RowKey(kind, auth.tenant, urn));
            var after := Scraped(s, c).cursor;
            && (Agrees(row, after, kind, urn) <==> Finds(s, kindOf, kind, urn) || Tracked(x, c, kind, urn))
            && (Tracked(row, after, kind, urn) <==> Agrees(row, after, kind, urn))
  {
    hide Scraped, WellOrdered, FoldSkip, BuildRecords, LiveHash, KindsDistinct, OneKindEach, FoundBefore;
    if !FoundBefore(s.scan, |s.scan|, urn) {
      UnfoundRow(s, c, kindOf, auth, x, kind, urn);
    } else if kind == kindOf(urn) {
      FoundRowConverges(s, c, kindOf, auth, x, urn);
    } else {
      WrongKindRow(s, c, kindOf, auth, x, kind, urn);
    }
  }

  // ---------------------------------------------------------------- many scrapes of one source on one row

  /** A row and the cursor of the source its urn belongs to. */
  datatype Held = Held(row: Option<Row>, cursor: CursorVal)

  function AfterScrape(s: Scrape, h: Held, auth: Auth, key: RowKey): Held {
    var e := Scraped(s, h.cursor);
    Held(FoldSkip(h.row, BuildRecords(e.items, auth), key), e.cursor)
  }

  function AfterScrapes(ss: seq<Scrape>, h: Held, auth: Auth, key: RowKey): Held
    decreases |ss|
  {
    if ss == [] then h else AfterScrapes(ss[1..], AfterScrape(ss[0], h, auth, key), auth, key)
  }

  lemma {:induction false} AfterMoreScrapes(a: seq<Scrape>, b: seq<Scrape>, h: Held, auth: Auth, key: RowKey)
    ensures AfterScrapes(a + b, h, auth, key) == AfterScrapes(b, AfterScrapes(a, h, auth, key), auth, key)
    decreases |a|
  {
    hide AfterScrape;
    if a == [] {
      assert a + b == b;
    } else {
      assert (a + b)[1..] == a[1..] + b;
      AfterMoreScrapes(a[1..], b, AfterScrape(a[0], h, auth, key), auth, key);
    }
  }

  predicate RowKinds(kinds: seq<Kind>) {
    forall i :: 0 <= i < |kinds| ==> kinds[i].Table? || kinds[i].Column? || kinds[i].Dataset?
  }

  /** A scrape that diffs these kinds and finds each urn under its own. */
  predicate FindsItsKinds(s: Scrape, kindOf: string -> Kind, kinds: seq<Kind>) {
    && s.kinds == kinds && RowKinds(kinds) && KindsDistinct(s)
    && forall i :: 0 <= i < |s.scan| ==> s.scan[i].kind == kindOf(s.scan[i].urn)
  }

  /** A cursor such scrapes leave. */
  ghost predicate HoldsItsKinds(c: CursorVal, kindOf: string -> Kind, kinds: seq<Kind>) {
    WellOrdered(c) && forall u :: u in c.entries ==> c.entries[u].kind == kindOf(u) && kindOf(u) in kinds
  }

  lemma ScrapeKeepsKinds(s: Scrape, c: CursorVal, kindOf: string -> Kind, kinds: seq<Kind>)
    requires FindsItsKinds(s, kindOf, kinds) && HoldsItsKinds(c, kindOf, kinds)
    ensures HoldsItsKinds(Scraped(s, c).cursor, kindOf, kinds) && OneKindEach(s, c, kindOf)
  {
    hide Scraped, FoundBefore, WellOrdered;
    ScrapeLeavesTheFinds(s, c);
    var after := Scraped(s, c).cursor;
    forall u | u in after.entries ensures after.entries[u].kind == kindOf(u) && kindOf(u) in kinds {
      if FoundBefore(s.scan, |s.scan|, u) {
        var i := LastFindExists(s.scan, |s.scan|, u);
        assert s.scan[i].kind in s.kinds;
      }
    }
  }

  /** Some of the scrapes found the urn under this kind. */
  predicate FoundIn(ss: seq<Scrape>, kindOf: string -> Kind, kind: Kind, urn: string) {
    exists i :: 0 <= i < |ss| && Finds(ss[i], kindOf, kind, urn)
  }

  lemma FoundInFirst(ss: seq<Scrape>, kindOf: string -> Kind, kind: Kind, urn: string)
    requires ss != []
    ensures FoundIn(ss, kindOf, kind, urn) <==> Finds(ss[0], kindOf, kind, urn) || FoundIn(ss[1..], kindOf, kind, urn)
  {
    hide Finds;
    forall i | 0 <= i < |ss[1..]| ensures ss[1..][i] == ss[i + 1] {
    }
    if i :| 0 <= i < |ss[1..]| && Finds(ss[1..][i], kindOf, kind, urn) {
      assert Finds(ss[i + 1], kindOf, kind, urn);
    }
    if i :| 0 <= i < |ss| && Finds(ss[i], kindOf, kind, urn) {
      assert i > 0 ==> Finds(ss[1..][i - 1], kindOf, kind, urn);
    }
  }

  /** Main result over any number of complete scrapes, from whatever state earlier runs left: the row agrees with the
      cursor if and only if some scrape found its urn, or cursor or tombstone accounted for the row at the start. */
  lemma {:induction false} ScrapesConverge(ss: seq<Scrape>, h: Held, kindOf: string -> Kind, kinds: seq<Kind>, auth: Auth,
      kind: Kind, urn: string)
    requires HoldsItsKinds(h.cursor, kindOf, kinds) && RoutesToRelational(kind)
    requires forall i :: 0 <= i < |ss| ==> FindsItsKinds(ss[i], kindOf, kinds)
    ensures var after := AfterScrapes(ss, h, auth, RowKey(kind, auth.tenant, urn));
            && (Tracked(after.row, after.cursor, kind, urn) <==> FoundIn(ss, kindOf, kind, urn) || Tracked(h.row, h.cursor, kind, urn))
            && (ss != [] ==> (Agrees(after.row, after.cursor, kind, urn) <==> Tracked(after.row, after.cursor, kind, urn)))
    decreases |ss|
  {
    hide HoldsItsKinds, Tracked, Agrees, Finds, Scraped, FoldSkip, BuildRecords, KindsDistinct, OneKindEach;
    if ss != [] {
      var next := AfterScrape(ss[0], h, auth, RowKey(kind, auth.tenant, urn));
      ScrapeKeepsKinds(ss[0], h.cursor, kindOf, kinds);
      HeldInOrder(h.cursor, kindOf, kinds);
      ScrapeConverges(ss[0], h.cursor, kindOf, auth, h.row, kind, urn);
      FoundInFirst(ss, kindOf, kind, urn);
      hide FoundIn, FindsItsKinds;
      ScrapesConverge(ss[1..], next, kindOf, kinds, auth, kind, urn);
      if |ss| == 1 {
        assert ss[1..] == [];
      }
    }
  }

  lemma HeldInOrder(c: CursorVal, kindOf: string -> Kind, kinds: seq<Kind>)
    requires HoldsItsKinds(c, kindOf, kinds)
    ensures WellOrdered(c)
  {
  }

  // ---------------------------------------------------------------- one push on the tenant's view

  /** The posts of a campaign that arrive, in order. */
  function OwnPosts(c: Campaign, n: nat): seq<Request> {
    if n == 0 then []
    else OwnPosts(c, n - 1) + if c.posts(n - 1).fate.RequestLost? then [] else [RequestAt(c, n - 1)]
  }

  /** Everyone else on the wire is another tenant. */
  ghost predicate OthersAreForeign(c: Campaign) {
    forall i: nat, j :: 0 <= j < |c.posts(i).others| ==>
      ColonFree(c.posts(i).others[j].auth.tenant) && c.posts(i).others[j].auth.tenant != c.request.auth.tenant
  }

  /** Every post is served within the TTL of the record any earlier one may have left. */
  ghost predicate Timely(cfg: Config, c: Campaign) {
    forall i: nat, j: nat :: i < j ==> c.posts(j).now - c.posts(i).storedAt <= cfg.ttl
  }

  lemma OwnStep(qs: seq<Request>, t: string)
    ensures Own(qs, t) == if qs == [] then [] else (if qs[0].auth.tenant == t then [qs[0]] else []) + Own(qs[1..], t)
  {
  }

  lemma {:induction false} OwnConcatenates(a: seq<Request>, b: seq<Request>, t: string)
    ensures Own(a + b, t) == Own(a, t) + Own(b, t)
    decreases |a|
  {
    hide *;
    OwnStep(a, t);
    if a == [] {
      assert a + b == b;
    } else {
      OwnStep(a + b, t);
      OwnConcatenates(a[1..], b, t);
      assert (a + b)[1..] == a[1..] + b;
    }
  }

  lemma {:induction false} OwnOfForeign(qs: seq<Request>, t: string)
    requires forall i :: 0 <= i < |qs| ==> qs[i].auth.tenant != t
    ensures Own(qs, t) == []
    decreases |qs|
  {
    if qs != [] {
      OwnOfForeign(qs[1..], t);
    }
  }

  lemma {:induction false} OwnOfTrace(c: Campaign, n: nat)
    requires OthersAreForeign(c)
    ensures Own(Trace(c, n), c.request.auth.tenant) == OwnPosts(c, n)
  {
    hide Own, OthersAreForeign, RequestAt;
    var t := c.request.auth.tenant;
    OwnOfOne(c.request);
    if n > 0 {
      OwnOfTrace(c, n - 1);
      var others, q := c.posts(n - 1).others, RequestAt(c, n - 1);
      OwnConcatenates(Trace(c, n - 1), others, t);
      OwnConcatenates(Trace(c, n - 1) + others, if c.posts(n - 1).fate.RequestLost? then [] else [q], t);
      OthersOfPostAreForeign(c, n - 1);
      OwnOfForeign(others, t);
      RequestKeepsTenant(c, n - 1);
      OwnOfOne(q);
    }
  }

  lemma OthersOfPostAreForeign(c: Campaign, i: nat)
    requires OthersAreForeign(c)
    ensures forall j :: 0 <= j < |c.posts(i).others| ==> c.posts(i).others[j].auth.tenant != c.request.auth.tenant
  {
  }

  lemma RequestKeepsTenant(c: Campaign, i: nat)
    ensures RequestAt(c, i).auth.tenant == c.request.auth.tenant
  {
  }

  lemma OwnOfOne(q: Request)
    ensures Own([q], q.auth.tenant) == [q] && Own([], q.auth.tenant) == []
  {
    assert [q][1..] == [];
  }

  lemma {:induction false} TraceIsColonFree(c: Campaign, n: nat, j: nat)
    requires OthersAreForeign(c) && ColonFree(c.request.auth.tenant) && j < |Trace(c, n)|
    ensures ColonFree(Trace(c, n)[j].auth.tenant)
  {
    var before, others := Trace(c, n - 1), c.posts(n - 1).others;
    if j < |before| {
      TraceIsColonFree(c, n - 1, j);
    } else if j < |before| + |others| {
      assert Trace(c, n)[j] == others[j - |before|];
    }
  }

  /** All requests are the campaign's, and later ones are timely for the record the first one leaves. */
  ghost predicate TimelyCopies(cfg: Config, c: Campaign, qs: seq<Request>) {
    && (forall j :: 0 <= j < |qs| ==> qs[j] == c.request.(now := qs[j].now, storedAt := qs[j].storedAt))
    && (forall j :: 0 < j < |qs| ==> qs[j].now - qs[0].storedAt <= cfg.ttl)
  }

  lemma {:induction false} OwnPostsAreTimely(cfg: Config, c: Campaign, n: nat)
    requires Timely(cfg, c)
    ensures TimelyCopies(cfg, c, OwnPosts(c, n))
    ensures OwnPosts(c, n) != [] ==> exists i: nat :: i < n && OwnPosts(c, n)[0] == RequestAt(c, i)
  {
    if n > 0 {
      OwnPostsAreTimely(cfg, c, n - 1);
      var before := OwnPosts(c, n - 1);
      if before != [] {
        var i: nat :| i < n - 1 && before[0] == RequestAt(c, i);
        assert OwnPosts(c, n)[0] == RequestAt(c, i);
      } else if !c.posts(n - 1).fate.RequestLost? {
        assert OwnPosts(c, n) == [RequestAt(c, n - 1)];
      }
    }
  }

  lemma {:induction false} ReplaysKeepServer(cfg: Config, s: Server, qs: seq<Request>, q: Request)
    requires WellFormed(cfg, q) && KeyFor(q) in s.records
    requires forall j :: 0 <= j < |qs| ==>
               qs[j] == q.(now := qs[j].now, storedAt := qs[j].storedAt) && qs[j].now - s.records[KeyFor(q)].at <= cfg.ttl
    ensures Run(cfg, s, qs) == s
    decreases |qs|
  {
    hide FanOut, BodyFor, ScopedKey;
    if qs != [] {
      assert WellFormed(cfg, qs[0]) && KeyFor(qs[0]) == KeyFor(q);
      assert Serve(cfg, s, qs[0]) == s;
      ReplaysKeepServer(cfg, s, qs[1..], q);
    }
  }

  lemma CopiesProcessOnce(cfg: Config, s: Server, c: Campaign, qs: seq<Request>)
    requires WellFormed(cfg, c.request) && KeyFor(c.request) !in s.records && qs != [] && TimelyCopies(cfg, c, qs)
    requires FanOut(cfg, s, c.request).Done?
    ensures Run(cfg, s, qs) ==
            Server(s.records[KeyFor(c.request) := Stored(BodyFor(cfg, c.request), qs[0].storedAt)],
                FanOut(cfg, s, c.request).catalog)
  {
    hide BodyFor, ScopedKey;
    var q := qs[0];
    assert FanOut(cfg, s, q) == FanOut(cfg, s, c.request) && WellFormed(cfg, q) && KeyFor(q) == KeyFor(c.request);
    assert BodyFor(cfg, q) == BodyFor(cfg, c.request) by {
      SameBody(cfg, q, c.request);
    }
    var s1 := Serve(cfg, s, q);
    hide FanOut;
    forall j | 0 <= j < |qs[1..]|
      ensures qs[1..][j] == c.request.(now := qs[1..][j].now, storedAt := qs[1..][j].storedAt)
      ensures qs[1..][j].now - s1.records[KeyFor(c.request)].at <= cfg.ttl
    {
      assert qs[1..][j] == qs[j + 1];
    }
    ReplaysKeepServer(cfg, s1, qs[1..], c.request);
  }

  lemma SameBody(cfg: Config, a: Request, b: Request)
    requires a.envelope == b.envelope
    ensures BodyFor(cfg, a) == BodyFor(cfg, b)
  {
  }

  /** Main step: a successful push over a lossy, shared network has on the tenant's stores the effect of fanning the
      batch out once, and leaves the tenant's other idempotency records alone. */
  lemma PushEffect(p: RetryPolicy, cfg: Config, s: Server, c: Campaign)
    requires ColonFree(c.request.auth.tenant) && WellFormed(cfg, c.request) && OthersAreForeign(c) && Timely(cfg, c)
    requires KeyFor(c.request) !in s.records && AllStorable(AcceptedRecords(cfg, c.request))
    requires PushFrom(p, cfg, s, c, 0).success
    ensures var t := c.request.auth.tenant;
            var s' := ServerAfter(cfg, s, c, PushFrom(p, cfg, s, c, 0).attempts);
            && SameView(s'.catalog, FanOut(cfg, s, c.request).catalog, t)
            && forall id :: id != c.request.envelope.batchId ==>
                 Lookup(s'.records, ScopedKey(t, id)) == Lookup(s.records, ScopedKey(t, id))
  {
    hide *;
    var t := c.request.auth.tenant;
    var n := PushFrom(p, cfg, s, c, 0).attempts;
    var last := SuccessIsDelivered(p, cfg, s, c, 0);
    var own := OwnPosts(c, n);
    ServerRunsTrace(cfg, s, c, n);
    ViewOfTrace(cfg, s, c, n);
    OwnPostsAreTimely(cfg, c, n);
    LastPostIsOwn(c, n);
    BatchIsDone(cfg, s, c.request);
    CopiesProcessOnce(cfg, s, c, own);
    OtherRecordsStay(cfg, s, c, Run(cfg, s, Trace(c, n)), Run(cfg, s, own), own[0].storedAt);
  }

  lemma ViewOfTrace(cfg: Config, s: Server, c: Campaign, n: nat)
    requires ColonFree(c.request.auth.tenant) && OthersAreForeign(c)
    ensures SameServerView(Run(cfg, s, Trace(c, n)), Run(cfg, s, OwnPosts(c, n)), c.request.auth.tenant)
  {
    hide SameView, SameKeyedView, Trace, OwnPosts, Own, Run, ColonFree, OthersAreForeign;
    var t := c.request.auth.tenant;
    forall j | 0 <= j < |Trace(c, n)| ensures ColonFree(Trace(c, n)[j].auth.tenant) {
      TraceIsColonFree(c, n, j);
    }
    ViewReflexive(s.catalog, t);
    KeyedReflexive(s.records, t);
    NonInterference(cfg, s, s, Trace(c, n), t);
    OwnOfTrace(c, n);
  }

  lemma LastPostIsOwn(c: Campaign, n: nat)
    requires n > 0 && c.posts(n - 1).fate.Delivered?
    ensures OwnPosts(c, n) != []
  {
    hide RequestAt;
  }

  lemma OtherRecordsStay(cfg: Config, s: Server, c: Campaign, seen: Server, own: Server, at: int)
    requires ColonFree(c.request.auth.tenant) && SameServerView(seen, own, c.request.auth.tenant)
    requires own == Server(s.records[KeyFor(c.request) := Stored(BodyFor(cfg, c.request), at)],
              FanOut(cfg, s, c.request).catalog)
    ensures SameView(seen.catalog, FanOut(cfg, s, c.request).catalog, c.request.auth.tenant)
    ensures forall id :: id != c.request.envelope.batchId ==>
              Lookup(seen.records, ScopedKey(c.request.auth.tenant, id)) == Lookup(s.records,
                  ScopedKey(c.request.auth.tenant, id))
  {
    hide SameView, SameKeyedView, FanOut, BodyFor, ScopedKey, ColonFree;
    var t := c.request.auth.tenant;
    forall id | id != c.request.envelope.batchId
      ensures Lookup(seen.records, ScopedKey(t, id)) == Lookup(s.records, ScopedKey(t, id))
    {
      DifferentBatchDifferentKey(t, id, c.request.envelope.batchId);
      LookupView(seen.records, own.records, t, id);
    }
  }

  /** Exactly when a push succeeds: a batch the server can store is answered 202 whenever a post comes through, so the
      push succeeds if and only if some post within the attempt limit comes through both ways. */
  lemma PushSucceedsIffDelivered(p: RetryPolicy, cfg: Config, s: Server, c: Campaign)
    requires WellFormed(cfg, c.request) && AllStorable(AcceptedRecords(cfg, c.request))
    ensures PushFrom(p, cfg, s, c, 0).success <==> exists i: nat :: i < p.maxAttempts && c.posts(i).fate.Delivered?
  {
    var answers := (i: nat) => AnswerAt(cfg, s, c, 0 + i);
    forall i: nat
      ensures Final(answers(i)) ==> Success(answers(i))
      ensures Success(answers(i)) <==> c.posts(i).fate.Delivered?
    {
      DeliveredIsAnswered(cfg, s, c, i);
    }
    hide Final, Success, AnswerAt, ResultOf, WellFormed, AllStorable, AcceptedRecords;
    SucceedsIff(p, answers);
    if i: nat :| i < p.maxAttempts && Success(answers(i)) {
      assert c.posts(i).fate.Delivered?;
    }
    if i: nat :| i < p.maxAttempts && c.posts(i).fate.Delivered? {
      assert Success(answers(i));
    }
  }

  lemma DeliveredIsAnswered(cfg: Config, s: Server, c: Campaign, i: nat)
    requires WellFormed(cfg, c.request) && AllStorable(AcceptedRecords(cfg, c.request))
    ensures Success(AnswerAt(cfg, s, c, i)) <==> c.posts(i).fate.Delivered?
    ensures Final(AnswerAt(cfg, s, c, i)) ==> Success(AnswerAt(cfg, s, c, i))
  {
    hide BeforePost, AllStorable, AcceptedRecords, BodyFor, FanOut, ScopedKey;
    var q, there := RequestAt(c, i), BeforePost(cfg, s, c, i);
    assert AcceptedRecords(cfg, q) == AcceptedRecords(cfg, c.request) by {
      SameRecords(cfg, q, c.request);
    }
    BatchIsDone(cfg, there, q);
    assert ReplyTo(cfg, there, q).Accepted?;
  }

  lemma SameRecords(cfg: Config, a: Request, b: Request)
    requires a.envelope == b.envelope && a.auth == b.auth
    ensures AcceptedRecords(cfg, a) == AcceptedRecords(cfg, b)
  {
  }

  lemma DifferentBatchDifferentKey(t: string, a: string, b: string)
    requires ColonFree(t) && a != b
    ensures ScopedKey(t, a) != ScopedKey(t, b)
  {
    if ScopedKey(t, a) == ScopedKey(t, b) {
      ScopedKeyInjective(t, a, t, b);
    }
  }

  lemma BatchIsDone(cfg: Config, s: Server, q: Request)
    requires AllStorable(AcceptedRecords(cfg, q))
    ensures FanOut(cfg, s, q).Done?
  {
    BatchFoldsRows(q.envelope.connectorType, s.catalog, AcceptedRecords(cfg, q), RowKey(Table, "", ""));
  }
}
