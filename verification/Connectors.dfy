/** `discover()` walks the source and then diffs the cursor, while `extract_metadata()`, called between two of
    its steps, changes that same cursor. */
module Connectors {
  import opened Types
  import opened Cursors

  /** Something the walk finds at the source: a table, a column, or a non-empty prefix. */
  datatype Found = Found(kind: Kind, urn: string, payload: Payload)

  datatype Raw = Discovered(found: Found) | Tombstone(kind: Kind, urn: string)

  /** One scrape of one source. `kinds` are the kinds diffed, in order; `clock` times the n-th extraction;
      `hash` is the content hash; `tombstone` the minimal payload of a delete. */
  datatype Scrape = Scrape(
    kinds: seq<Kind>, scan: seq<Found>, tombstone: Payload, hash: Payload -> string, clock: nat -> int)

  // ---------------------------------------------------------------- the two connectors

  datatype TableScan = TableScan(urn: string, payload: Payload, columns: seq<(string, Payload)>)

  function ColumnsFound(columns: seq<(string, Payload)>): seq<Found> {
    seq(|columns|, i requires 0 <= i < |columns| => Found(Column, columns[i].0, columns[i].1))
  }

  /** Postgres: each table followed by its columns; tables and columns are diffed independently. */
  function PostgresScan(tables: seq<TableScan>): seq<Found> {
    if tables == [] then []
    else [Found(Table, tables[0].urn, tables[0].payload)] + ColumnsFound(tables[0].columns) + PostgresScan(tables[1..])
  }

  const PostgresKinds := [Table, Column]

  datatype PrefixScan = PrefixScan(urn: string, objectCount: nat, payload: Payload)

  /** S3: one dataset per configured prefix, prefixes without objects skipped. */
  function S3Scan(prefixes: seq<PrefixScan>): seq<Found> {
    if prefixes == [] then []
    else (if prefixes[0].objectCount == 0 then [] else [Found(Dataset, prefixes[0].urn, prefixes[0].payload)])
         + S3Scan(prefixes[1..])
  }

  const S3Kinds := [Dataset]

  // ---------------------------------------------------------------- one extraction

  function ExtractItem(s: Scrape, raw: Raw, n: nat): Item {
    match raw
    case Discovered(f) => Item(f.urn, f.kind, Upsert, f.payload, s.clock(n), Some(s.hash(f.payload)))
    case Tombstone(kind, urn) => Item(urn, kind, Delete, s.tombstone, s.clock(n), Some(s.hash(s.tombstone)))
  }

  function ExtractCursor(s: Scrape, c: CursorVal, raw: Raw, n: nat): CursorVal {
    match raw
    case Discovered(f) => WithEntry(c, f.urn, Entry(f.kind, s.hash(f.payload), s.clock(n)))
    case Tombstone(_, urn) => WithoutEntry(c, urn)
  }

  // ---------------------------------------------------------------- the generator

  /** Where `discover()` is suspended: before scan[pos], or inside the tombstones of kinds[index]. */
  datatype Phase = Scanning(pos: nat) | Diffing(index: nat, pending: seq<string>)

  /** The urns of one kind that the walk appended to its seen list. */
  function Seen(scan: seq<Found>, kind: Kind): seq<string> {
    if scan == [] then []
    else Seen(scan[..|scan| - 1], kind) + (if scan[|scan| - 1].kind == kind then [scan[|scan| - 1].urn] else [])
  }

  function StartDiff(s: Scrape, c: CursorVal, index: nat): Phase {
    Diffing(index, if index < |s.kinds| then DiffDeleted(c, s.kinds[index], Seen(s.scan, s.kinds[index])) else [])
  }

  function Major(s: Scrape, phase: Phase): nat {
    match phase
    case Scanning(_) => |s.kinds| + 2
    case Diffing(i, _) => if i <= |s.kinds| then |s.kinds| + 1 - i else 0
  }

  function Minor(s: Scrape, phase: Phase): nat {
    match phase
    case Scanning(pos) => if pos <= |s.scan| then |s.scan| - pos else 0
    case Diffing(_, pending) => |pending|
  }

  /** Resume the generator with the cursor as it is now: the next raw entity, if any, and where it suspends. */
  function Next(s: Scrape, c: CursorVal, phase: Phase): (r: (Option<Raw>, Phase))
    ensures r.0.Some? ==> Major(s, r.1) < Major(s, phase) || (Major(s, r.1) == Major(s, phase) && Minor(s, r.1) < Minor(s, phase))
    decreases Major(s, phase)
  {
    match phase
    case Scanning(pos) =>
      if pos < |s.scan| then (Some(Discovered(s.scan[pos])), Scanning(pos + 1)) else Next(s, c, StartDiff(s, c, 0))
    case Diffing(i, pending) =>
      if i >= |s.kinds| then (None, phase)
      else if pending != [] then (Some(Tombstone(s.kinds[i], pending[0])), Diffing(i, pending[1..]))
      else Next(s, c, StartDiff(s, c, i + 1))
  }

  datatype Emission = Emission(items: seq<Item>, cursor: CursorVal)

  /** What the runner drives: resume, extract at once (changing the cursor), resume again. */
  function Interleaved(s: Scrape, c: CursorVal, phase: Phase, n: nat): Emission
    decreases Major(s, phase), Minor(s, phase)
  {
    match Next(s, c, phase)
    case (None, _) => Emission([], c)
    case (Some(raw), phase') =>
      var rest := Interleaved(s, ExtractCursor(s, c, raw, n), phase', n + 1);
      Emission([ExtractItem(s, raw, n)] + rest.items, rest.cursor)
  }

  /** The reference: exhaust `discover()` on an untouched cursor first. */
  function CollectRaws(s: Scrape, c: CursorVal, phase: Phase): seq<Raw>
    decreases Major(s, phase), Minor(s, phase)
  {
    match Next(s, c, phase)
    case (None, _) => []
    case (Some(raw), phase') => [raw] + CollectRaws(s, c, phase')
  }

  function ExtractAll(s: Scrape, c: CursorVal, raws: seq<Raw>, n: nat): Emission
    decreases |raws|
  {
    if raws == [] then Emission([], c)
    else
      var rest := ExtractAll(s, ExtractCursor(s, c, raws[0], n), raws[1..], n + 1);
      Emission([ExtractItem(s, raws[0], n)] + rest.items, rest.cursor)
  }

  function Scraped(s: Scrape, c: CursorVal): Emission {
    Interleaved(s, c, Scanning(0), 0)
  }

  function ScrapedCollectedFirst(s: Scrape, c: CursorVal): Emission {
    ExtractAll(s, c, CollectRaws(s, c, Scanning(0)), 0)
  }

  // ---------------------------------------------------------------- closed forms

  function ScanRaws(scan: seq<Found>): seq<Raw> {
    seq(|scan|, i requires 0 <= i < |scan| => Discovered(scan[i]))
  }

  function Tombstones(kind: Kind, urns: seq<string>): seq<Raw> {
    seq(|urns|, i requires 0 <= i < |urns| => Tombstone(kind, urns[i]))
  }

  /** The tombstones of kinds[index..] when every diff is taken on the cursor c. */
  function TombstonesFrom(s: Scrape, c: CursorVal, index: nat): seq<Raw>
    decreases |s.kinds| - index
  {
    if index >= |s.kinds| then []
    else Tombstones(s.kinds[index], DiffDeleted(c, s.kinds[index], Seen(s.scan, s.kinds[index]))) + TombstonesFrom(s, c, index + 1)
  }

  /** The cursor once the first n found things have been extracted. */
  function AfterScan(s: Scrape, c: CursorVal, n: nat): CursorVal
    requires n <= |s.scan|
  {
    if n == 0 then c
    else ExtractCursor(s, AfterScan(s, c, n - 1), Discovered(s.scan[n - 1]), n - 1)
  }

  predicate KindsDistinct(s: Scrape) {
    NoDuplicates(s.kinds) && forall i :: 0 <= i < |s.scan| ==> s.scan[i].kind in s.kinds
  }

  /** The urn is among the first n finds, under whatever kind. */
  predicate FoundBefore(scan: seq<Found>, n: nat, urn: string) {
    exists i :: 0 <= i < n && i < |scan| && scan[i].urn == urn
  }

  lemma {:induction false} SeenIsSeen(scan: seq<Found>, kind: Kind)
    ensures forall u :: u in Seen(scan, kind) <==> exists i :: 0 <= i < |scan| && scan[i].kind == kind && scan[i].urn == u
  {
    if scan != [] {
      var front, last := scan[..|scan| - 1], scan[|scan| - 1];
      SeenIsSeen(front, kind);
      forall u ensures u in Seen(scan, kind) <==> exists i :: 0 <= i < |scan| && scan[i].kind == kind && scan[i].urn == u {
        if u in Seen(scan, kind) {
          if u in Seen(front, kind) {
            var i :| 0 <= i < |front| && front[i].kind == kind && front[i].urn == u;
            assert scan[i].kind == kind && scan[i].urn == u;
          } else {
            assert scan[|scan| - 1].kind == kind && scan[|scan| - 1].urn == u;
          }
        }
        if i :| 0 <= i < |scan| && scan[i].kind == kind && scan[i].urn == u {
          if i < |front| {
            assert front[i].kind == kind && front[i].urn == u;
          }
        }
      }
    }
  }

  // ---------------------------------------------------------------- the interleaving, phase by phase

  lemma {:induction false} LaterDiffsIgnoreForgotten(s: Scrape, c: CursorVal, urn: string, index: nat)
    requires forall j :: index <= j < |s.kinds| ==> !(urn in c.entries && c.entries[urn].kind == s.kinds[j])
    ensures TombstonesFrom(s, WithoutEntry(c, urn), index) == TombstonesFrom(s, c, index)
    decreases |s.kinds| - index
  {
    if index < |s.kinds| {
      ForgetKeepsDiff(c, urn, s.kinds[index], Seen(s.scan, s.kinds[index]));
      LaterDiffsIgnoreForgotten(s, c, urn, index + 1);
    }
  }

  lemma TombstonesHead(kind: Kind, pending: seq<string>, rest: seq<Raw>)
    requires pending != []
    ensures var raws := Tombstones(kind, pending) + rest;
            raws != [] && raws[0] == Tombstone(kind, pending[0]) && raws[1..] == Tombstones(kind, pending[1..]) + rest
  {
  }

  lemma ScanHead(scan: seq<Found>, pos: nat, rest: seq<Raw>)
    requires pos < |scan|
    ensures var raws := ScanRaws(scan[pos..]) + rest;
            raws != [] && raws[0] == Discovered(scan[pos]) && raws[1..] == ScanRaws(scan[pos + 1..]) + rest
  {
  }

  lemma SplitHead(raws: seq<Raw>, x: Raw, rest: seq<Raw>)
    requires raws != [] && raws[0] == x && raws[1..] == rest
    ensures raws == [x] + rest
  {
  }

  lemma ResumeOnce(s: Scrape, c: CursorVal, phase: Phase, n: nat, raw: Raw, phase': Phase)
    requires Next(s, c, phase) == (Some(raw), phase')
    ensures var rest := Interleaved(s, ExtractCursor(s, c, raw, n), phase', n + 1);
            Interleaved(s, c, phase, n) == Emission([ExtractItem(s, raw, n)] + rest.items, rest.cursor)
    ensures CollectRaws(s, c, phase) == [raw] + CollectRaws(s, c, phase')
  {
    hide ExtractCursor, ExtractItem;
  }

  lemma ExtractHead(s: Scrape, c: CursorVal, raws: seq<Raw>, n: nat)
    requires raws != []
    ensures var rest := ExtractAll(s, ExtractCursor(s, c, raws[0], n), raws[1..], n + 1);
            ExtractAll(s, c, raws, n) == Emission([ExtractItem(s, raws[0], n)] + rest.items, rest.cursor)
  {
    hide ExtractCursor, ExtractItem;
  }

  lemma SameResumption(s: Scrape, c: CursorVal, a: Phase, b: Phase, n: nat)
    requires Next(s, c, a) == Next(s, c, b)
    ensures Interleaved(s, c, a, n) == Interleaved(s, c, b, n)
    ensures CollectRaws(s, c, a) == CollectRaws(s, c, b)
  {
    hide Next;
  }

  /** Inside the tombstones of one kind: what is pending, then the later kinds diffed on the cursor as it is. */
  lemma {:induction false} DiffingPhase(s: Scrape, c: CursorVal, index: nat, pending: seq<string>, n: nat)
    requires NoDuplicates(s.kinds) && index < |s.kinds|
    requires forall u :: u in pending && u in c.entries ==> c.entries[u].kind == s.kinds[index]
    ensures Interleaved(s, c, Diffing(index, pending), n) ==
            ExtractAll(s, c, Tombstones(s.kinds[index], pending) + TombstonesFrom(s, c, index + 1), n)
    decreases |s.kinds| - index, |pending|
  {
    hide *;
    if pending != [] {
      PendingKeepKind(s, c, index, pending);
      DiffingPhase(s, WithoutEntry(c, pending[0]), index, pending[1..], n + 1);
      DiffingOne(s, c, index, pending, n);
    } else {
      DiffingNone(s, c, index, n);
      DiffStarts(s, c, index + 1, n);
    }
  }

  lemma PendingKeepKind(s: Scrape, c: CursorVal, index: nat, pending: seq<string>)
    requires index < |s.kinds| && pending != []
    requires forall u :: u in pending && u in c.entries ==> c.entries[u].kind == s.kinds[index]
    ensures forall u :: u in pending[1..] && u in WithoutEntry(c, pending[0]).entries ==>
                        WithoutEntry(c, pending[0]).entries[u].kind == s.kinds[index]
  {
    hide Without;
  }

  lemma DiffingOne(s: Scrape, c: CursorVal, index: nat, pending: seq<string>, n: nat)
    requires NoDuplicates(s.kinds) && index < |s.kinds| && pending != []
    requires pending[0] in c.entries ==> c.entries[pending[0]].kind == s.kinds[index]
    requires Interleaved(s, WithoutEntry(c, pending[0]), Diffing(index, pending[1..]), n + 1) ==
             ExtractAll(s, WithoutEntry(c, pending[0]),
                        Tombstones(s.kinds[index], pending[1..]) + TombstonesFrom(s, WithoutEntry(c, pending[0]),
                            index + 1), n + 1)
    ensures Interleaved(s, c, Diffing(index, pending), n) ==
            ExtractAll(s, c, Tombstones(s.kinds[index], pending) + TombstonesFrom(s, c, index + 1), n)
  {
    hide Interleaved, ExtractAll, ExtractItem, TombstonesFrom, Tombstones, WithoutEntry;
    var u := pending[0];
    LaterDiffsIgnoreForgotten(s, c, u, index + 1);
    ResumeOnce(s, c, Diffing(index, pending), n, Tombstone(s.kinds[index], u), Diffing(index, pending[1..]));
    TombstonesHead(s.kinds[index], pending, TombstonesFrom(s, c, index + 1));
    ExtractHead(s, c, Tombstones(s.kinds[index], pending) + TombstonesFrom(s, c, index + 1), n);
  }

  lemma DiffingNone(s: Scrape, c: CursorVal, index: nat, n: nat)
    requires index < |s.kinds|
    ensures Interleaved(s, c, Diffing(index, []), n) == Interleaved(s, c, StartDiff(s, c, index + 1), n)
    ensures Tombstones(s.kinds[index], []) + TombstonesFrom(s, c, index + 1) == TombstonesFrom(s, c, index + 1)
  {
    hide Interleaved, TombstonesFrom;
    SameResumption(s, c, Diffing(index, []), StartDiff(s, c, index + 1), n);
  }

  lemma {:induction false} DiffStarts(s: Scrape, c: CursorVal, index: nat, n: nat)
    requires NoDuplicates(s.kinds) && index <= |s.kinds|
    ensures Interleaved(s, c, StartDiff(s, c, index), n) == ExtractAll(s, c, TombstonesFrom(s, c, index), n)
    decreases |s.kinds| - index, |c.order| + 1
  {
    if index < |s.kinds| {
      var kind := s.kinds[index];
      var pending := DiffDeleted(c, kind, Seen(s.scan, kind));
      DiffIsExact(c.order, c.entries, kind, Seen(s.scan, kind));
      DiffLength(c.order, c.entries, kind, Seen(s.scan, kind));
      DiffingPhase(s, c, index, pending, n);
    }
  }

  lemma {:induction false} DiffLength(order: seq<string>, entries: map<string, Entry>, kind: Kind, seen: seq<string>)
    ensures |DiffOver(order, entries, kind, seen)| <= |order|
  {
    if order != [] {
      DiffLength(order[..|order| - 1], entries, kind, seen);
    }
  }

  lemma ScanningOne(s: Scrape, c: CursorVal, pos: nat, tombs: seq<Raw>)
    requires pos < |s.scan|
    requires Interleaved(s, AfterScan(s, c, pos + 1), Scanning(pos + 1), pos + 1) ==
             ExtractAll(s, AfterScan(s, c, pos + 1), ScanRaws(s.scan[pos + 1..]) + tombs, pos + 1)
    ensures Interleaved(s, AfterScan(s, c, pos), Scanning(pos), pos) ==
            ExtractAll(s, AfterScan(s, c, pos), ScanRaws(s.scan[pos..]) + tombs, pos)
  {
    hide Interleaved, ExtractAll, ExtractItem, ScanRaws;
    var here := AfterScan(s, c, pos);
    ResumeOnce(s, here, Scanning(pos), pos, Discovered(s.scan[pos]), Scanning(pos + 1));
    ScanHead(s.scan, pos, tombs);
    ExtractHead(s, here, ScanRaws(s.scan[pos..]) + tombs, pos);
  }

  lemma ScanningNone(s: Scrape, c: CursorVal, tombs: seq<Raw>)
    ensures Interleaved(s, c, Scanning(|s.scan|), |s.scan|) == Interleaved(s, c, StartDiff(s, c, 0), |s.scan|)
    ensures ScanRaws(s.scan[|s.scan|..]) + tombs == tombs
  {
    hide Interleaved;
    SameResumption(s, c, Scanning(|s.scan|), StartDiff(s, c, 0), |s.scan|);
  }

  /** From scan position pos on, the interleaving extracts the rest of the scan and then the tombstones of the
      cursor as the whole scan leaves it. */
  lemma {:induction false} ScanningPhase(s: Scrape, c: CursorVal, pos: nat)
    requires NoDuplicates(s.kinds) && pos <= |s.scan|
    ensures Interleaved(s, AfterScan(s, c, pos), Scanning(pos), pos) ==
            ExtractAll(s, AfterScan(s, c, pos), ScanRaws(s.scan[pos..]) + TombstonesFrom(s, AfterScan(s, c, |s.scan|),
                0), pos)
    decreases |s.scan| - pos
  {
    hide *;
    var tombs := TombstonesFrom(s, AfterScan(s, c, |s.scan|), 0);
    if pos < |s.scan| {
      ScanningPhase(s, c, pos + 1);
      ScanningOne(s, c, pos, tombs);
    } else {
      ScanningNone(s, AfterScan(s, c, pos), tombs);
      DiffStarts(s, AfterScan(s, c, pos), 0, pos);
    }
  }

  lemma {:induction false} CollectDiffing(s: Scrape, c: CursorVal, index: nat, pending: seq<string>)
    requires index < |s.kinds|
    ensures CollectRaws(s, c, Diffing(index, pending)) == Tombstones(s.kinds[index], pending) + TombstonesFrom(s, c,
              index + 1)
    decreases |s.kinds| - index, |pending|
  {
    if pending != [] {
      hide CollectRaws, Interleaved, TombstonesFrom, Tombstones;
      var later := TombstonesFrom(s, c, index + 1);
      ResumeOnce(s, c, Diffing(index, pending), 0, Tombstone(s.kinds[index], pending[0]), Diffing(index, pending[1..]));
      CollectDiffing(s, c, index, pending[1..]);
      TombstonesHead(s.kinds[index], pending, later);
      SplitHead(Tombstones(s.kinds[index], pending) + later, Tombstone(s.kinds[index], pending[0]),
                Tombstones(s.kinds[index], pending[1..]) + later);
    } else {
      hide CollectRaws, Interleaved;
      SameResumption(s, c, Diffing(index, pending), StartDiff(s, c, index + 1), 0);
      if index + 1 < |s.kinds| {
        CollectDiffing(s, c, index + 1, StartDiff(s, c, index + 1).pending);
      } else {
        CollectEnds(s, c);
      }
      assert Tombstones(s.kinds[index], pending) + TombstonesFrom(s, c, index + 1) == TombstonesFrom(s, c, index + 1);
    }
  }

  lemma CollectEnds(s: Scrape, c: CursorVal)
    ensures CollectRaws(s, c, StartDiff(s, c, |s.kinds|)) == []
  {
  }

  lemma {:induction false} CollectScanning(s: Scrape, c: CursorVal, pos: nat)
    requires pos <= |s.scan|
    ensures CollectRaws(s, c, Scanning(pos)) == ScanRaws(s.scan[pos..]) + TombstonesFrom(s, c, 0)
    decreases |s.scan| - pos
  {
    if pos < |s.scan| {
      hide CollectRaws, Interleaved, TombstonesFrom, ScanRaws;
      var tombs := TombstonesFrom(s, c, 0);
      ResumeOnce(s, c, Scanning(pos), 0, Discovered(s.scan[pos]), Scanning(pos + 1));
      CollectScanning(s, c, pos + 1);
      ScanHead(s.scan, pos, tombs);
      SplitHead(ScanRaws(s.scan[pos..]) + tombs, Discovered(s.scan[pos]), ScanRaws(s.scan[pos + 1..]) + tombs);
    } else {
      hide CollectRaws, Interleaved;
      SameResumption(s, c, Scanning(pos), StartDiff(s, c, 0), 0);
      if 0 < |s.kinds| {
        CollectDiffing(s, c, 0, StartDiff(s, c, 0).pending);
      } else {
        CollectEnds(s, c);
      }
      assert ScanRaws(s.scan[pos..]) + TombstonesFrom(s, c, 0) == TombstonesFrom(s, c, 0);
    }
  }

  // ---------------------------------------------------------------- the cursor during the scan

  /** The last find of a urn before scan position n. */
  predicate LastFind(scan: seq<Found>, n: nat, i: nat, urn: string) {
    i < n <= |scan| && scan[i].urn == urn && forall j :: i < j < n ==> scan[j].urn != urn
  }

  lemma {:induction false} AfterScanEntries(s: Scrape, c: CursorVal, n: nat)
    requires n <= |s.scan|
    ensures var c' := AfterScan(s, c, n);
            && (WellOrdered(c) ==> WellOrdered(c'))
            && (forall u :: u in c'.entries <==> u in c.entries || FoundBefore(s.scan, n, u))
            && (forall u :: u in c.entries && !FoundBefore(s.scan, n, u) ==> c'.entries[u] == c.entries[u])
            && (forall u, i: nat :: LastFind(s.scan, n, i, u) ==>
                  u in c'.entries && c'.entries[u] == Entry(s.scan[i].kind, s.hash(s.scan[i].payload), s.clock(i)))
  {
    if n > 0 {
      AfterScanEntries(s, c, n - 1);
      var before, f := AfterScan(s, c, n - 1), s.scan[n - 1];
      var e := Entry(f.kind, s.hash(f.payload), s.clock(n - 1));
      assert AfterScan(s, c, n) == WithEntry(before, f.urn, e);
      if WellOrdered(c) {
        RecordKeepsOrder(before, f.urn, e);
      }
      SeenOneMore(s.scan, n);
      forall u, i: nat | LastFind(s.scan, n, i, u)
        ensures u in AfterScan(s, c, n).entries &&
                AfterScan(s, c, n).entries[u] == Entry(s.scan[i].kind, s.hash(s.scan[i].payload), s.clock(i))
      {
        if i < n - 1 {
          assert s.scan[n - 1].urn != u;
          assert LastFind(s.scan, n - 1, i, u);
        }
      }
    }
  }

  lemma SeenOneMore(scan: seq<Found>, n: nat)
    requires 0 < n <= |scan|
    ensures forall u :: FoundBefore(scan, n, u) <==> FoundBefore(scan, n - 1, u) || scan[n - 1].urn == u
  {
  }

  lemma {:induction false} LastFindExists(scan: seq<Found>, n: nat, urn: string) returns (i: nat)
    requires n <= |scan| && FoundBefore(scan, n, urn)
    ensures LastFind(scan, n, i, urn)
  {
    if scan[n - 1].urn == urn {
      i := n - 1;
    } else {
      SeenOneMore(scan, n);
      i := LastFindExists(scan, n - 1, urn);
    }
  }

  // ---------------------------------------------------------------- when the moving cursor makes a difference

  /** An old entry that would be reported under its kind, whose urn this cycle found under another kind. */
  predicate Reclassified(s: Scrape, c: CursorVal, urn: string) {
    urn in c.entries && c.entries[urn].kind in s.kinds && urn !in Seen(s.scan,
        c.entries[urn].kind) && FoundBefore(s.scan, |s.scan|, urn)
  }

  ghost predicate NothingReclassified(s: Scrape, c: CursorVal) {
    forall u :: u in c.entries ==> !Reclassified(s, c, u)
  }

  /** An entry that would be reported while the scan is under way is an old one that the scan has not found. */
  lemma StillVanished(s: Scrape, c: CursorVal, n: nat, kind: Kind, urn: string)
    requires n <= |s.scan| && kind in s.kinds
    requires Vanished(AfterScan(s, c, n).entries, urn, kind, Seen(s.scan, kind)) && FoundBefore(s.scan, |s.scan|, urn)
    ensures Reclassified(s, c, urn)
  {
    SeenIsSeen(s.scan, kind);
    AfterScanEntries(s, c, n);
    if FoundBefore(s.scan, n, urn) {
      var i := LastFindExists(s.scan, n, urn);
      FindIsSeen(s.scan, i);
      assert false;
    }
  }

  lemma FindIsFound(scan: seq<Found>, i: nat)
    requires i < |scan|
    ensures FoundBefore(scan, |scan|, scan[i].urn)
  {
  }

  lemma FindIsSeen(scan: seq<Found>, i: nat)
    requires i < |scan|
    ensures scan[i].urn in Seen(scan, scan[i].kind)
  {
    SeenIsSeen(scan, scan[i].kind);
  }

  lemma {:induction false} ScanKeepsDiff(s: Scrape, c: CursorVal, n: nat, kind: Kind)
    requires n <= |s.scan| && kind in s.kinds && NothingReclassified(s, c)
    ensures DiffDeleted(AfterScan(s, c, n), kind, Seen(s.scan, kind)) == DiffDeleted(c, kind, Seen(s.scan, kind))
  {
    if n > 0 {
      hide Seen, DiffDeleted, Vanished, FoundBefore;
      ScanKeepsDiff(s, c, n - 1, kind);
      var before, f := AfterScan(s, c, n - 1), s.scan[n - 1];
      FindIsSeen(s.scan, n - 1);
      FindIsFound(s.scan, n - 1);
      if Vanished(before.entries, f.urn, kind, Seen(s.scan, kind)) {
        StillVanished(s, c, n - 1, kind, f.urn);
      }
      RecordKeepsDiff(before, f.urn, Entry(f.kind, s.hash(f.payload), s.clock(n - 1)), kind, Seen(s.scan, kind));
    }
  }

  lemma {:induction false} SameTombstones(s: Scrape, a: CursorVal, b: CursorVal, index: nat)
    requires forall i :: index <= i < |s.kinds| ==>
               DiffDeleted(a, s.kinds[i], Seen(s.scan, s.kinds[i])) == DiffDeleted(b, s.kinds[i],
                   Seen(s.scan, s.kinds[i]))
    ensures TombstonesFrom(s, a, index) == TombstonesFrom(s, b, index)
    decreases |s.kinds| - index
  {
    if index < |s.kinds| {
      SameTombstones(s, a, b, index + 1);
    }
  }

  lemma {:induction false} TombstoneMembers(s: Scrape, c: CursorVal, index: nat, raw: Raw)
    ensures raw in TombstonesFrom(s, c, index) <==>
            raw.Tombstone? && raw.urn in c.order && raw.urn in c.entries && c.entries[raw.urn].kind == raw.kind &&
            raw.urn !in Seen(s.scan, raw.kind) && exists i :: index <= i < |s.kinds| && s.kinds[i] == raw.kind
    decreases |s.kinds| - index
  {
    if index < |s.kinds| {
      var kind := s.kinds[index];
      var gone := DiffDeleted(c, kind, Seen(s.scan, kind));
      DiffIsExact(c.order, c.entries, kind, Seen(s.scan, kind));
      TombstoneMembers(s, c, index + 1, raw);
      TombstonesAre(kind, gone, raw);
      assert raw in TombstonesFrom(s, c, index) <==> raw in Tombstones(kind, gone) || raw in TombstonesFrom(s, c, index + 1);
    }
  }

  lemma TombstonesAre(kind: Kind, urns: seq<string>, raw: Raw)
    ensures raw in Tombstones(kind, urns) <==> raw.Tombstone? && raw.kind == kind && raw.urn in urns
  {
    if raw.Tombstone? && raw.kind == kind && raw.urn in urns {
      var i :| 0 <= i < |urns| && urns[i] == raw.urn;
      assert Tombstones(kind, urns)[i] == raw;
    }
  }

  /** The raw entities of a scrape: the scan, then the tombstones of the cursor as the scan leaves it. */
  lemma ScrapedIs(s: Scrape, c: CursorVal)
    requires NoDuplicates(s.kinds)
    ensures Scraped(s, c) == ExtractAll(s, c, ScanRaws(s.scan) + TombstonesFrom(s, AfterScan(s, c, |s.scan|), 0), 0)
    ensures ScrapedCollectedFirst(s, c) == ExtractAll(s, c, ScanRaws(s.scan) + TombstonesFrom(s, c, 0), 0)
  {
    assert s.scan[0..] == s.scan;
    hide Interleaved, CollectRaws, ExtractAll, TombstonesFrom, ScanRaws;
    ScanningPhase(s, c, 0);
    CollectScanning(s, c, 0);
  }

  lemma {:induction false} ExtractedItems(s: Scrape, c: CursorVal, raws: seq<Raw>, n: nat)
    ensures |ExtractAll(s, c, raws, n).items| == |raws|
    ensures forall i :: 0 <= i < |raws| ==> ExtractAll(s, c, raws, n).items[i] == ExtractItem(s, raws[i], n + i)
    decreases |raws|
  {
    if raws != [] {
      hide ExtractItem, ExtractCursor;
      ExtractedItems(s, ExtractCursor(s, c, raws[0], n), raws[1..], n + 1);
    }
  }

  /** Main result: diffing the cursor that `extract_metadata` keeps changing gives what collecting everything
      first would give - items, order and final cursor - exactly when no vanished entry of one kind was found
      again under another kind. */
  lemma InterleavingIsHarmlessIff(s: Scrape, c: CursorVal)
    requires KindsDistinct(s) && WellOrdered(c)
    ensures Scraped(s, c) == ScrapedCollectedFirst(s, c) <==> NothingReclassified(s, c)
  {
    var after := AfterScan(s, c, |s.scan|);
    ScrapedIs(s, c);
    if NothingReclassified(s, c) {
      hide ExtractAll, TombstonesFrom, ScanRaws, AfterScan;
      forall i | 0 <= i < |s.kinds|
        ensures DiffDeleted(after, s.kinds[i], Seen(s.scan, s.kinds[i])) == DiffDeleted(c, s.kinds[i],
                  Seen(s.scan, s.kinds[i]))
      {
        ScanKeepsDiff(s, c, |s.scan|, s.kinds[i]);
      }
      SameTombstones(s, after, c, 0);
    } else {
      var u :| u in c.entries && Reclassified(s, c, u);
      hide ExtractAll, TombstonesFrom, Scraped, ScrapedCollectedFirst, Seen;
      ReclassifiedIsLost(s, c, u);
    }
  }

  lemma ReclassifiedTombstone(s: Scrape, c: CursorVal, u: string)
    requires KindsDistinct(s) && WellOrdered(c) && Reclassified(s, c, u)
    ensures var raw := Tombstone(c.entries[u].kind, u);
            raw in TombstonesFrom(s, c, 0) && raw !in TombstonesFrom(s, AfterScan(s, c, |s.scan|), 0)
  {
    var after := AfterScan(s, c, |s.scan|);
    var kind := c.entries[u].kind;
    TombstoneMembers(s, after, 0, Tombstone(kind, u));
    TombstoneMembers(s, c, 0, Tombstone(kind, u));
    AfterScanEntries(s, c, |s.scan|);
    var i := LastFindExists(s.scan, |s.scan|, u);
    SeenIsSeen(s.scan, kind);
    assert after.entries[u].kind == s.scan[i].kind != kind;
    var j :| 0 <= j < |s.kinds| && s.kinds[j] == kind;
  }

  lemma DifferentRawsDifferentItems(s: Scrape, c: CursorVal, a: seq<Raw>, b: seq<Raw>, raw: Raw)
    requires raw.Tombstone? && raw in b && raw !in a
    ensures ExtractAll(s, c, a, 0).items != ExtractAll(s, c, b, 0).items
  {
    hide ExtractAll;
    ExtractedItems(s, c, a, 0);
    ExtractedItems(s, c, b, 0);
    var m :| 0 <= m < |b| && b[m] == raw;
    if m < |a| {
      assert a[m] != raw;
      assert ExtractItem(s, a[m], m) != ExtractItem(s, raw, m);
    }
  }

  /** Such an entry's delete is emitted by the collecting variant and not by the interleaving. */
  lemma ReclassifiedIsLost(s: Scrape, c: CursorVal, u: string)
    requires KindsDistinct(s) && WellOrdered(c) && Reclassified(s, c, u)
    ensures Scraped(s, c).items != ScrapedCollectedFirst(s, c).items
  {
    hide Interleaved, ExtractAll, TombstonesFrom, AfterScan, Scraped, ScrapedCollectedFirst, Seen;
    var raw := Tombstone(c.entries[u].kind, u);
    ScrapedIs(s, c);
    ReclassifiedTombstone(s, c, u);
    var moving := ScanRaws(s.scan) + TombstonesFrom(s, AfterScan(s, c, |s.scan|), 0);
    var fixed := ScanRaws(s.scan) + TombstonesFrom(s, c, 0);
    assert raw in fixed && raw !in moving;
    DifferentRawsDifferentItems(s, c, moving, fixed, raw);
  }

  // ---------------------------------------------------------------- what a scrape emits and leaves behind

  lemma {:induction false} ScanMovesCursor(s: Scrape, c: CursorVal, pos: nat, tombs: seq<Raw>)
    requires pos <= |s.scan|
    ensures ExtractAll(s, AfterScan(s, c, pos), ScanRaws(s.scan[pos..]) + tombs, pos).cursor ==
            ExtractAll(s, AfterScan(s, c, |s.scan|), tombs, |s.scan|).cursor
    decreases |s.scan| - pos
  {
    if pos < |s.scan| {
      hide ExtractAll, ExtractItem, ScanRaws;
      ScanHead(s.scan, pos, tombs);
      ExtractHead(s, AfterScan(s, c, pos), ScanRaws(s.scan[pos..]) + tombs, pos);
      ScanMovesCursor(s, c, pos + 1, tombs);
    } else {
      assert ScanRaws(s.scan[pos..]) + tombs == tombs;
    }
  }

  predicate OnlyTombstones(raws: seq<Raw>) {
    forall i :: 0 <= i < |raws| ==> raws[i].Tombstone?
  }

  predicate Buries(raws: seq<Raw>, urn: string) {
    exists i :: 0 <= i < |raws| && raws[i].Tombstone? && raws[i].urn == urn
  }

  lemma {:induction false} TombstonesMoveCursor(s: Scrape, c: CursorVal, raws: seq<Raw>, n: nat)
    requires OnlyTombstones(raws)
    ensures var c' := ExtractAll(s, c, raws, n).cursor;
            && (WellOrdered(c) ==> WellOrdered(c'))
            && forall u :: EntryOf(c', u) == if Buries(raws, u) then None else EntryOf(c, u)
    decreases |raws|
  {
    if raws != [] {
      hide ExtractItem, WellOrdered;
      var c1 := WithoutEntry(c, raws[0].urn);
      if WellOrdered(c) {
        ForgetKeepsOrder(c, raws[0].urn);
      }
      TombstonesMoveCursor(s, c1, raws[1..], n + 1);
      forall u ensures Buries(raws, u) <==> raws[0].urn == u || Buries(raws[1..], u) {
        if i :| 0 <= i < |raws| && raws[i].Tombstone? && raws[i].urn == u {
          assert i == 0 || raws[1..][i - 1] == raws[i];
        }
        if i :| 0 <= i < |raws[1..]| && raws[1..][i].Tombstone? && raws[1..][i].urn == u {
          assert raws[i + 1].urn == u;
        }
      }
    }
  }

  function EntryOf(c: CursorVal, urn: string): Option<Entry> {
    if urn in c.entries then Some(c.entries[urn]) else None
  }

  lemma {:induction false} TombstonesFromAreTombstones(s: Scrape, c: CursorVal, index: nat)
    ensures OnlyTombstones(TombstonesFrom(s, c, index))
    decreases |s.kinds| - index
  {
    if index < |s.kinds| {
      TombstonesFromAreTombstones(s, c, index + 1);
    }
  }

  /** A urn this source once reported and that the scan found under no kind. */
  predicate Dropped(s: Scrape, c: CursorVal, kind: Kind, urn: string) {
    urn in c.entries && c.entries[urn].kind == kind && kind in s.kinds && !FoundBefore(s.scan, |s.scan|, urn)
  }

  lemma BuriedIffDropped(s: Scrape, c: CursorVal, kind: Kind, urn: string)
    requires KindsDistinct(s) && WellOrdered(c)
    ensures Tombstone(kind, urn) in TombstonesFrom(s, AfterScan(s, c, |s.scan|), 0) <==> Dropped(s, c, kind, urn)
  {
    var after := AfterScan(s, c, |s.scan|);
    AfterScanEntries(s, c, |s.scan|);
    TombstoneMembers(s, after, 0, Tombstone(kind, urn));
    SeenIsSeen(s.scan, kind);
    hide TombstonesFrom, AfterScan, Seen;
    if FoundBefore(s.scan, |s.scan|, urn) {
      var i := LastFindExists(s.scan, |s.scan|, urn);
    }
  }

  predicate Deletes(items: seq<Item>, kind: Kind, urn: string) {
    exists i :: 0 <= i < |items| && items[i].op.Delete? && items[i].kind == kind && items[i].urn == urn
  }

  lemma ScrapedItems(s: Scrape, c: CursorVal)
    requires KindsDistinct(s) && WellOrdered(c)
    ensures var items, tombs := Scraped(s, c).items, TombstonesFrom(s, AfterScan(s, c, |s.scan|), 0);
            && |items| == |s.scan| + |tombs| && OnlyTombstones(tombs)
            && (forall i :: 0 <= i < |s.scan| ==> items[i] == ExtractItem(s, Discovered(s.scan[i]), i))
            && (forall i :: |s.scan| <= i < |items| ==> items[i] == ExtractItem(s, tombs[i - |s.scan|], i))
  {
    hide *;
    var raws := RawsOf(s, c);
    ItemsOfRaws(s, c, raws, TombstonesFrom(s, AfterScan(s, c, |s.scan|), 0));
  }

  /** The raw entities are the finds in order, then the tombstones in order. */
  predicate SplitsAs(raws: seq<Raw>, scan: seq<Found>, tombs: seq<Raw>) {
    && |raws| == |scan| + |tombs|
    && (forall i :: 0 <= i < |scan| ==> raws[i] == Discovered(scan[i]))
    && (forall i :: |scan| <= i < |raws| ==> raws[i] == tombs[i - |scan|])
  }

  lemma KindsUnique(s: Scrape)
    requires KindsDistinct(s)
    ensures NoDuplicates(s.kinds)
  {
  }

  lemma RawsOf(s: Scrape, c: CursorVal) returns (raws: seq<Raw>)
    requires KindsDistinct(s)
    ensures var tombs := TombstonesFrom(s, AfterScan(s, c, |s.scan|), 0);
            && OnlyTombstones(tombs)
            && Scraped(s, c) == ExtractAll(s, c, raws, 0)
            && SplitsAs(raws, s.scan, tombs)
  {
    KindsUnique(s);
    hide *;
    ScrapedIs(s, c);
    TombstonesFromAreTombstones(s, AfterScan(s, c, |s.scan|), 0);
    raws := Appended(s.scan, TombstonesFrom(s, AfterScan(s, c, |s.scan|), 0));
  }

  lemma Appended(scan: seq<Found>, tombs: seq<Raw>) returns (raws: seq<Raw>)
    ensures raws == ScanRaws(scan) + tombs
    ensures SplitsAs(raws, scan, tombs)
  {
    raws := ScanRaws(scan) + tombs;
  }

  lemma ItemsOfRaws(s: Scrape, c: CursorVal, raws: seq<Raw>, tombs: seq<Raw>)
    requires SplitsAs(raws, s.scan, tombs)
    ensures var items := ExtractAll(s, c, raws, 0).items;
            && |items| == |s.scan| + |tombs|
            && (forall i :: 0 <= i < |s.scan| ==> items[i] == ExtractItem(s, Discovered(s.scan[i]), i))
            && (forall i :: |s.scan| <= i < |items| ==> items[i] == ExtractItem(s, tombs[i - |s.scan|], i))
  {
    hide ExtractAll, ExtractItem;
    ExtractedItems(s, c, raws, 0);
  }

  lemma DeletesOnlyTheDropped(s: Scrape, c: CursorVal, kind: Kind, urn: string)
    requires KindsDistinct(s) && WellOrdered(c)
    ensures Deletes(Scraped(s, c).items, kind, urn) <==> Dropped(s, c, kind, urn)
  {
    var items, tombs := Scraped(s, c).items, TombstonesFrom(s, AfterScan(s, c, |s.scan|), 0);
    ScrapedItems(s, c);
    BuriedIffDropped(s, c, kind, urn);
    hide AfterScan, TombstonesFrom, Scraped, Dropped, WellOrdered, KindsDistinct;
    if Tombstone(kind, urn) in tombs {
      var i :| 0 <= i < |tombs| && tombs[i] == Tombstone(kind, urn);
      assert items[|s.scan| + i] == ExtractItem(s, tombs[i], |s.scan| + i);
    }
    if i :| 0 <= i < |items| && items[i].op.Delete? && items[i].kind == kind && items[i].urn == urn {
      assert i >= |s.scan|;
      assert tombs[i - |s.scan|] == Tombstone(kind, urn);
    }
  }

  /** The entity a find becomes when it is extracted at this time. */
  predicate IsUpsertOf(item: Item, f: Found, at: int, hash: string) {
    && item.op.Upsert? && item.kind == f.kind && item.urn == f.urn && item.payload == f.payload
    && item.extractedAt == at && item.hash == Some(hash)
  }

  /** Main result: whatever the cursor held, a scrape emits one upsert per find in scan order and after them
      a delete for every dropped urn and for nothing else; each is timed by its own extraction and hashed over its own
      payload. */
  lemma ScrapeEmitsExactlyTheDrift(s: Scrape, c: CursorVal)
    requires KindsDistinct(s) && WellOrdered(c)
    ensures var items := Scraped(s, c).items;
            && |s.scan| <= |items|
            && (forall i :: 0 <= i < |s.scan| ==> items[i] == ExtractItem(s, Discovered(s.scan[i]), i))
            && (forall i :: 0 <= i < |s.scan| ==> IsUpsertOf(items[i], s.scan[i], s.clock(i), s.hash(s.scan[i].payload)))
            && (forall i :: |s.scan| <= i < |items| ==> items[i].op.Delete?)
            && (forall i :: |s.scan| <= i < |items| ==>
                  && items[i].payload == s.tombstone && items[i].hash == Some(s.hash(s.tombstone))
                  && items[i].extractedAt == s.clock(i))
            && (forall kind, urn :: Deletes(items, kind, urn) <==> Dropped(s, c, kind, urn))
  {
    ScrapedItems(s, c);
    forall kind, urn ensures Deletes(Scraped(s, c).items, kind, urn) <==> Dropped(s, c, kind, urn) {
      DeletesOnlyTheDropped(s, c, kind, urn);
    }
    hide Scraped, TombstonesFrom, AfterScan, Dropped, Deletes, WellOrdered, KindsDistinct;
  }

  /** The tombstones are of the known entries of its kinds that were not found. */
  lemma BuriedAreDropped(s: Scrape, c: CursorVal)
    requires KindsDistinct(s) && WellOrdered(c)
    ensures forall u :: Buries(TombstonesFrom(s, AfterScan(s, c, |s.scan|), 0), u) <==>
                        u in c.entries && c.entries[u].kind in s.kinds && !FoundBefore(s.scan, |s.scan|, u)
  {
    var tombs := TombstonesFrom(s, AfterScan(s, c, |s.scan|), 0);
    TombstonesFromAreTombstones(s, AfterScan(s, c, |s.scan|), 0);
    hide AfterScan, TombstonesFrom, WellOrdered, FoundBefore, KindsDistinct;
    forall u ensures Buries(tombs, u) <==> u in c.entries && c.entries[u].kind in s.kinds && !FoundBefore(s.scan, |s.scan|, u) {
      if i :| 0 <= i < |tombs| && tombs[i].Tombstone? && tombs[i].urn == u {
        BuriedIffDropped(s, c, tombs[i].kind, u);
        assert tombs[i] == Tombstone(tombs[i].kind, u);
      }
      if u in c.entries && c.entries[u].kind in s.kinds && !FoundBefore(s.scan, |s.scan|, u) {
        BuriedIffDropped(s, c, c.entries[u].kind, u);
        var i :| 0 <= i < |tombs| && tombs[i] == Tombstone(c.entries[u].kind, u);
        assert tombs[i].urn == u;
      }
    }
  }

  /** Main result: the cursor it leaves knows exactly the finds of this cycle, each as last extracted, besides
      entries of kinds this connector does not diff. */
  lemma ScrapeLeavesTheFinds(s: Scrape, c: CursorVal)
    requires KindsDistinct(s) && WellOrdered(c)
    ensures var c' := Scraped(s, c).cursor;
            && WellOrdered(c')
            && (forall u :: u in c'.entries <==>
                  FoundBefore(s.scan, |s.scan|, u) || (u in c.entries && c.entries[u].kind !in s.kinds))
            && (forall u :: u in c'.entries && !FoundBefore(s.scan, |s.scan|, u) ==> c'.entries[u] == c.entries[u])
            && (forall u, i: nat :: LastFind(s.scan, |s.scan|, i, u) ==>
                  u in c'.entries && c'.entries[u] == Entry(s.scan[i].kind, s.hash(s.scan[i].payload), s.clock(i)))
  {
    var after := AfterScan(s, c, |s.scan|);
    var tombs := TombstonesFrom(s, after, 0);
    var c' := Scraped(s, c).cursor;
    CursorOf(s, c);
    TombstonesFromAreTombstones(s, after, 0);
    TombstonesMoveCursor(s, after, tombs, |s.scan|);
    AfterScanEntries(s, c, |s.scan|);
    hide Interleaved, ExtractAll, AfterScan, TombstonesFrom, Scraped, WellOrdered, FoundBefore, LastFind;
    BuriedAreDropped(s, c);
    forall u ensures EntryOf(c', u) == if Buries(tombs, u) then None else EntryOf(after, u) {
    }
    forall u, i: nat | LastFind(s.scan, |s.scan|, i, u)
      ensures u in c'.entries && c'.entries[u] == Entry(s.scan[i].kind, s.hash(s.scan[i].payload), s.clock(i))
    {
      LastFindIsFound(s.scan, i, u);
      assert EntryOf(c', u) == EntryOf(after, u);
    }
    forall u ensures u in c'.entries <==>
                  FoundBefore(s.scan, |s.scan|, u) || (u in c.entries && c.entries[u].kind !in s.kinds) {
      assert u in c'.entries <==> EntryOf(c', u).Some?;
      assert u in after.entries <==> EntryOf(after, u).Some?;
    }
    forall u | u in c'.entries && !FoundBefore(s.scan, |s.scan|, u) ensures c'.entries[u] == c.entries[u] {
      assert EntryOf(c', u) == EntryOf(after, u);
    }
  }

  lemma LastFindIsFound(scan: seq<Found>, i: nat, u: string)
    requires LastFind(scan, |scan|, i, u)
    ensures FoundBefore(scan, |scan|, u)
  {
  }

  lemma CursorOf(s: Scrape, c: CursorVal)
    requires NoDuplicates(s.kinds)
    ensures Scraped(s, c).cursor ==
            ExtractAll(s, AfterScan(s, c, |s.scan|), TombstonesFrom(s, AfterScan(s, c, |s.scan|), 0), |s.scan|).cursor
  {
    ScrapedIs(s, c);
    assert s.scan[0..] == s.scan;
    hide Interleaved, ExtractAll, TombstonesFrom, Scraped, ScanRaws;
    ScanMovesCursor(s, c, 0, TombstonesFrom(s, AfterScan(s, c, |s.scan|), 0));
  }

  /** One turn of the generator. */
  lemma NextTurn(s: Scrape, c: CursorVal, phase: Phase)
    ensures Next(s, c, phase) ==
            match phase
            case Scanning(pos) =>
              if pos < |s.scan| then (Some(Discovered(s.scan[pos])), Scanning(pos + 1)) else Next(s, c, StartDiff(s, c, 0))
            case Diffing(i, pending) =>
              if i >= |s.kinds| then (None, phase)
              else if pending != [] then (Some(Tombstone(s.kinds[i], pending[0])), Diffing(i, pending[1..]))
              else Next(s, c, StartDiff(s, c, i + 1))
  {
  }

  // ---------------------------------------------------------------- the object

  /** A connector during one scrape. `discover()` keeps a reference to the very cursor that extraction updates. */
  class Connector {
    const scrape: Scrape
    var cursor: Cursor
    var phase: Phase
    var extracted: nat

    constructor (scrape: Scrape, cursor: Cursor)
      ensures this.scrape == scrape && this.cursor == cursor && phase == Scanning(0) && extracted == 0
    {
      this.scrape, this.cursor, phase, extracted := scrape, cursor, Scanning(0), 0;
    }

    /** Resume `discover()`. */
    method Discover() returns (raw: Option<Raw>)
      modifies this`phase
      ensures (raw, phase) == Next(scrape, cursor.Value(), old(phase))
    {
      hide Next, Seen, DiffDeleted;
      NextTurn(scrape, cursor.Value(), phase);
      if phase.Scanning? {
        if phase.pos < |scrape.scan| {
          raw := Some(Discovered(scrape.scan[phase.pos]));
          phase := Scanning(phase.pos + 1);
          return;
        }
        var deleted := DiffKind(0);
        phase := Diffing(0, deleted);
      }
      while phase.index < |scrape.kinds| && phase.pending == []
        invariant phase.Diffing?
        invariant Next(scrape, cursor.Value(), phase) == Next(scrape, cursor.Value(), old(phase))
        decreases |scrape.kinds| - phase.index
      {
        NextTurn(scrape, cursor.Value(), phase);
        var deleted := DiffKind(phase.index + 1);
        phase := Diffing(phase.index + 1, deleted);
      }
      NextTurn(scrape, cursor.Value(), phase);
      if phase.index < |scrape.kinds| {
        raw := Some(Tombstone(scrape.kinds[phase.index], phase.pending[0]));
        phase := Diffing(phase.index, phase.pending[1..]);
      } else {
        raw := None;
      }
    }

    /** The diff of one kind against what the walk saw of it. */
    method DiffKind(index: nat) returns (deleted: seq<string>)
      ensures Diffing(index, deleted) == StartDiff(scrape, cursor.Value(), index)
    {
      deleted := [];
      if index < |scrape.kinds| {
        var kind := scrape.kinds[index];
        var seen := [];
        for i := 0 to |scrape.scan|
          invariant seen == Seen(scrape.scan[..i], kind)
        {
          assert scrape.scan[..i + 1][..i] == scrape.scan[..i];
          if scrape.scan[i].kind == kind {
            seen := seen + [scrape.scan[i].urn];
          }
        }
        assert scrape.scan[..|scrape.scan|] == scrape.scan;
        deleted := cursor.Diff(kind, seen);
      }
    }

    /** `extract_metadata`: normalise and record in the shared cursor. */
    method Extract(raw: Raw) returns (item: Item)
      modifies this`extracted, cursor
      ensures item == ExtractItem(scrape, raw, old(extracted)) && extracted == old(extracted) + 1
      ensures cursor.Value() == ExtractCursor(scrape, old(cursor.Value()), raw, old(extracted))
    {
      item := ExtractItem(scrape, raw, extracted);
      match raw {
        case Discovered(f) => cursor.Record(f.urn, Entry(f.kind, scrape.hash(f.payload), scrape.clock(extracted)));
        case Tombstone(_, urn) => cursor.Forget(urn);
      }
      extracted := extracted + 1;
    }
  }
}
