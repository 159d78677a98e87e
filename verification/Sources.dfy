/** The two connectors' walks: what they find, how urns are made, and the drift they report. */
module Sources {
  import opened Types
  import opened Cursors
  import opened Connectors

  // ---------------------------------------------------------------- what the walks find

  /** The walk finds every table and every column of it, each under its own kind, and nothing else. */
  lemma {:induction false} PostgresScanFinds(tables: seq<TableScan>, f: Found)
    ensures f in PostgresScan(tables) <==> exists i :: 0 <= i < |tables| && FindOfTable(tables[i], f)
  {
    if tables != [] {
      var head := [Found(Table, tables[0].urn, tables[0].payload)] + ColumnsFound(tables[0].columns);
      assert PostgresScan(tables) == head + PostgresScan(tables[1..]);
      PostgresScanFinds(tables[1..], f);
      HeadFinds(tables[0], f);
      hide PostgresScan, ColumnsFound, FindOfTable;
      if i :| 0 <= i < |tables[1..]| && FindOfTable(tables[1..][i], f) {
        assert FindOfTable(tables[i + 1], f);
      }
      if i :| 0 <= i < |tables| && FindOfTable(tables[i], f) {
        assert i > 0 ==> FindOfTable(tables[1..][i - 1], f);
      }
    }
  }

  /** And in this order: a table stands right before its columns, which keep their own order, and the tables keep
      theirs. `start` is where the i-th table stands. */
  lemma {:induction false} TablesLeadTheirColumns(tables: seq<TableScan>, i: nat) returns (start: nat)
    requires i < |tables|
    ensures start + |tables[i].columns| < |PostgresScan(tables)|
    ensures PostgresScan(tables)[start] == Found(Table, tables[i].urn, tables[i].payload)
    ensures forall j :: 0 <= j < |tables[i].columns| ==>
              PostgresScan(tables)[start + 1 + j] == Found(Column, tables[i].columns[j].0, tables[i].columns[j].1)
    ensures start == |PostgresScan(tables[..i])|
    decreases |tables|
  {
    hide PostgresScan;
    var head := TableAndColumns(tables[0]);
    ScanStep(tables);
    if i == 0 {
      start := 0;
      ScanOfNone();
      HeadAt(tables[0], PostgresScan(tables[1..]));
    } else {
      var rest := TablesLeadTheirColumns(tables[1..], i - 1);
      start := |head| + rest;
      assert tables[..i][1..] == tables[1..][..i - 1];
      ScanStep(tables[..i]);
      hide TableAndColumns;
      forall j | 0 <= j < |tables[i].columns|
        ensures PostgresScan(tables)[start + 1 + j] == Found(Column, tables[i].columns[j].0, tables[i].columns[j].1)
      {
        assert PostgresScan(tables)[|head| + (rest + 1 + j)] == PostgresScan(tables[1..])[rest + 1 + j];
      }
    }
  }

  function TableAndColumns(t: TableScan): seq<Found> {
    [Found(Table, t.urn, t.payload)] + ColumnsFound(t.columns)
  }

  lemma ScanStep(tables: seq<TableScan>)
    requires tables != []
    ensures PostgresScan(tables) == TableAndColumns(tables[0]) + PostgresScan(tables[1..])
  {
  }

  lemma ScanOfNone()
    ensures PostgresScan([]) == []
  {
  }

  lemma HeadAt(t: TableScan, rest: seq<Found>)
    ensures (TableAndColumns(t) + rest)[0] == Found(Table, t.urn, t.payload)
    ensures |TableAndColumns(t)| == 1 + |t.columns|
    ensures forall j :: 0 <= j < |t.columns| ==>
              (TableAndColumns(t) + rest)[1 + j] == Found(Column, t.columns[j].0, t.columns[j].1)
  {
  }

  predicate FindOfTable(t: TableScan, f: Found) {
    f == Found(Table, t.urn, t.payload) || exists j :: 0 <= j < |t.columns| && f == Found(Column, t.columns[j].0, t.columns[j].1)
  }

  lemma HeadFinds(t: TableScan, f: Found)
    ensures f in [Found(Table, t.urn, t.payload)] + ColumnsFound(t.columns) <==> FindOfTable(t, f)
  {
    if j :| 0 <= j < |t.columns| && f == Found(Column, t.columns[j].0, t.columns[j].1) {
      assert ColumnsFound(t.columns)[j] == f;
    }
  }

  /** The walk finds exactly the prefixes that hold an object. */
  lemma {:induction false} S3ScanFinds(prefixes: seq<PrefixScan>, f: Found)
    ensures f in S3Scan(prefixes) <==>
            exists i :: 0 <= i < |prefixes| && prefixes[i].objectCount > 0 && f == Found(Dataset, prefixes[i].urn, prefixes[i].payload)
  {
    if prefixes != [] {
      S3ScanFinds(prefixes[1..], f);
      hide S3Scan;
      S3Head(prefixes);
      if i :| 0 <= i < |prefixes[1..]| && prefixes[1..][i].objectCount > 0 && f == Found(Dataset, prefixes[1..][i].urn, prefixes[1..][i].payload) {
        assert prefixes[i + 1].objectCount > 0 && f == Found(Dataset, prefixes[i + 1].urn, prefixes[i + 1].payload);
      }
      if i :| 0 <= i < |prefixes| && prefixes[i].objectCount > 0 && f == Found(Dataset, prefixes[i].urn, prefixes[i].payload) {
        assert i > 0 ==> prefixes[1..][i - 1].objectCount > 0 && f == Found(Dataset, prefixes[1..][i - 1].urn, prefixes[1..][i - 1].payload);
      }
    }
  }

  lemma S3Head(prefixes: seq<PrefixScan>)
    requires prefixes != []
    ensures S3Scan(prefixes) ==
            (if prefixes[0].objectCount == 0 then [] else [Found(Dataset, prefixes[0].urn, prefixes[0].payload)]) + S3Scan(prefixes[1..])
  {
  }

  /** A scrape of a database, and one of a bucket. */
  predicate ScansPostgres(s: Scrape, tables: seq<TableScan>) {
    s.kinds == PostgresKinds && s.scan == PostgresScan(tables)
  }

  predicate ScansS3(s: Scrape, prefixes: seq<PrefixScan>) {
    s.kinds == S3Kinds && s.scan == S3Scan(prefixes)
  }

  lemma WalksFindTheirKinds(s: Scrape, tables: seq<TableScan>, prefixes: seq<PrefixScan>)
    requires ScansPostgres(s, tables) || ScansS3(s, prefixes)
    ensures KindsDistinct(s)
  {
    forall i | 0 <= i < |s.scan| ensures s.scan[i].kind in s.kinds {
      if ScansPostgres(s, tables) {
        PostgresScanFinds(tables, s.scan[i]);
        assert PostgresKinds[0] == Table && PostgresKinds[1] == Column;
      } else {
        S3ScanFinds(prefixes, s.scan[i]);
        assert S3Kinds[0] == Dataset;
      }
    }
  }

  // ---------------------------------------------------------------- drift

  /** The urn names a table or a column of the walk. */
  predicate InDatabase(tables: seq<TableScan>, urn: string) {
    exists i :: 0 <= i < |tables| && (tables[i].urn == urn || exists j :: 0 <= j < |tables[i].columns| && tables[i].columns[j].0 == urn)
  }

  lemma FoundIffInDatabase(tables: seq<TableScan>, urn: string)
    ensures FoundBefore(PostgresScan(tables), |PostgresScan(tables)|, urn) <==> InDatabase(tables, urn)
  {
    hide PostgresScan;
    var scan := PostgresScan(tables);
    if k :| 0 <= k < |scan| && scan[k].urn == urn {
      PostgresScanFinds(tables, scan[k]);
      var i :| 0 <= i < |tables| && FindOfTable(tables[i], scan[k]);
    }
    if i :| 0 <= i < |tables| && (tables[i].urn == urn || exists j :: 0 <= j < |tables[i].columns| && tables[i].columns[j].0 == urn) {
      var f := InTable(tables[i], urn);
      PostgresScanFinds(tables, f);
      var k :| 0 <= k < |scan| && scan[k] == f;
    }
  }

  lemma InTable(t: TableScan, urn: string) returns (f: Found)
    requires t.urn == urn || exists j :: 0 <= j < |t.columns| && t.columns[j].0 == urn
    ensures FindOfTable(t, f) && f.urn == urn
  {
    if t.urn == urn {
      f := Found(Table, t.urn, t.payload);
    } else {
      var j :| 0 <= j < |t.columns| && t.columns[j].0 == urn;
      f := Found(Column, t.columns[j].0, t.columns[j].1);
    }
  }

  /** Main result: a database scrape deletes exactly the tables and columns that the cursor knows and the walk did not
      meet. In particular a column dropped from a table that is still there is deleted alone. */
  lemma PostgresDrift(s: Scrape, tables: seq<TableScan>, c: CursorVal, kind: Kind, urn: string)
    requires ScansPostgres(s, tables) && WellOrdered(c)
    ensures Deletes(Scraped(s, c).items, kind, urn) <==>
            urn in c.entries && c.entries[urn].kind == kind && (kind.Table? || kind.Column?) && !InDatabase(tables, urn)
  {
    WalksFindTheirKinds(s, tables, []);
    DeletesOnlyTheDropped(s, c, kind, urn);
    FoundIffInDatabase(tables, urn);
    hide Scraped, InDatabase, PostgresScan, FoundBefore;
    assert kind in PostgresKinds <==> kind == Table || kind == Column;
  }

  /** Main result: a bucket scrape deletes exactly the known datasets whose prefix is no longer configured or holds no
      object any more. */
  lemma S3Drift(s: Scrape, prefixes: seq<PrefixScan>, c: CursorVal, urn: string)
    requires ScansS3(s, prefixes) && WellOrdered(c)
    ensures Deletes(Scraped(s, c).items, Dataset, urn) <==>
            urn in c.entries && c.entries[urn].kind == Dataset &&
            forall i :: 0 <= i < |prefixes| && prefixes[i].urn == urn ==> prefixes[i].objectCount == 0
  {
    WalksFindTheirKinds(s, [], prefixes);
    DeletesOnlyTheDropped(s, c, Dataset, urn);
    hide Scraped, S3Scan, WellOrdered, KindsDistinct;
    assert Dataset in S3Kinds;
    if i :| 0 <= i < |prefixes| && prefixes[i].urn == urn && prefixes[i].objectCount > 0 {
      var f := Found(Dataset, urn, prefixes[i].payload);
      S3ScanFinds(prefixes, f);
      var k :| 0 <= k < |s.scan| && s.scan[k] == f;
    }
    if k :| 0 <= k < |s.scan| && s.scan[k].urn == urn {
      S3ScanFinds(prefixes, s.scan[k]);
    }
  }

  // ---------------------------------------------------------------- urns

  /** `_table_urn`; the prefix is fixed for one connector. */
  function TableUrnOf(prefix: string, schema: string, table: string): string {
    prefix + schema + "." + table
  }

  function ColumnUrnOf(prefix: string, schema: string, table: string, column: string): string {
    TableUrnOf(prefix, schema, table) + "." + column
  }

  function Dots(s: string): nat {
    if s == "" then 0 else Dots(s[..|s| - 1]) + if s[|s| - 1] == '.' then 1 else 0
  }

  lemma {:induction false} DotsAdd(a: string, b: string)
    ensures Dots(a + b) == Dots(a) + Dots(b)
  {
    if b == "" {
      assert a + b == a;
    } else {
      assert (a + b)[..|a + b| - 1] == a + b[..|b| - 1];
      DotsAdd(a, b[..|b| - 1]);
    }
  }

  lemma UrnDots(prefix: string, schema: string, table: string, column: string)
    ensures Dots(TableUrnOf(prefix, schema, table)) == Dots(prefix) + Dots(schema) + 1 + Dots(table)
    ensures Dots(ColumnUrnOf(prefix, schema, table,
              column)) == Dots(prefix) + Dots(schema) + 2 + Dots(table) + Dots(column)
  {
    assert Dots(".") == 1 by {
      assert "."[..0] == "";
    }
    DotsAdd(prefix, schema);
    DotsAdd(prefix + schema, ".");
    DotsAdd(prefix + schema + ".", table);
    DotsAdd(TableUrnOf(prefix, schema, table), ".");
    DotsAdd(TableUrnOf(prefix, schema, table) + ".", column);
    hide Dots;
  }

  /** Names without dots make table and column urns disjoint: the number of dots tells the kind. */
  function KindOfUrn(prefix: string, urn: string): Kind {
    if Dots(urn) == Dots(prefix) + 1 then Table else Column
  }

  lemma UrnTellsTheKind(prefix: string, schema: string, table: string, column: string)
    requires Dots(schema) == 0 && Dots(table) == 0 && Dots(column) == 0
    ensures KindOfUrn(prefix, TableUrnOf(prefix, schema, table)) == Table
    ensures KindOfUrn(prefix, ColumnUrnOf(prefix, schema, table, column)) == Column
  {
    UrnDots(prefix, schema, table, column);
    hide Dots, TableUrnOf, ColumnUrnOf;
  }

  /** With a dot in a table name they collide: table "a.b" and column "b" of table "a". */
  lemma UrnsCollideWithDots(prefix: string, schema: string, a: string, b: string)
    ensures TableUrnOf(prefix, schema, a + "." + b) == ColumnUrnOf(prefix, schema, a, b)
  {
  }

  datatype TableInfo = TableInfo(schema: string, name: string, payload: Payload, columns: seq<(string, Payload)>)

  predicate DotFree(t: TableInfo) {
    Dots(t.schema) == 0 && Dots(t.name) == 0 && forall j :: 0 <= j < |t.columns| ==> Dots(t.columns[j].0) == 0
  }

  function WithUrns(prefix: string, t: TableInfo): TableScan {
    TableScan(TableUrnOf(prefix, t.schema, t.name), t.payload,
              seq(|t.columns|, j requires 0 <= j < |t.columns| => (ColumnUrnOf(prefix, t.schema, t.name,
                  t.columns[j].0), t.columns[j].1)))
  }

  function AllWithUrns(prefix: string, infos: seq<TableInfo>): seq<TableScan> {
    seq(|infos|, i requires 0 <= i < |infos| => WithUrns(prefix, infos[i]))
  }

  /** Main result: when no name holds a dot, the walk files every urn under the kind its spelling tells; so a cursor
      written by such walks never sees a urn change kind, and diffing it while it changes is harmless. */
  lemma DotFreeNamesAreHarmless(s: Scrape, prefix: string, infos: seq<TableInfo>, c: CursorVal)
    requires ScansPostgres(s, AllWithUrns(prefix, infos)) && WellOrdered(c)
    requires forall i :: 0 <= i < |infos| ==> DotFree(infos[i])
    requires forall u :: u in c.entries ==> c.entries[u].kind == KindOfUrn(prefix, u)
    ensures forall i :: 0 <= i < |s.scan| ==> s.scan[i].kind == KindOfUrn(prefix, s.scan[i].urn)
    ensures Scraped(s, c) == ScrapedCollectedFirst(s, c)
    ensures forall u :: u in Scraped(s, c).cursor.entries ==> Scraped(s, c).cursor.entries[u].kind == KindOfUrn(prefix, u)
  {
    var tables := AllWithUrns(prefix, infos);
    WalksFindTheirKinds(s, tables, []);
    InterleavingIsHarmlessIff(s, c);
    ScrapeLeavesTheFinds(s, c);
    hide Scraped, ScrapedCollectedFirst, PostgresScan, KindOfUrn, WellOrdered, DotFree, KindsDistinct;
    forall i | 0 <= i < |s.scan| ensures s.scan[i].kind == KindOfUrn(prefix, s.scan[i].urn) {
      PostgresScanFinds(tables, s.scan[i]);
      var k :| 0 <= k < |tables| && FindOfTable(tables[k], s.scan[i]);
      FindTellsTheKind(prefix, infos[k], s.scan[i]);
    }
    forall u | u in c.entries ensures !Reclassified(s, c, u) {
      NotReclassified(s, c, u, prefix);
    }
    forall u | u in Scraped(s, c).cursor.entries ensures Scraped(s, c).cursor.entries[u].kind == KindOfUrn(prefix, u) {
      if FoundBefore(s.scan, |s.scan|, u) {
        var i := LastFindExists(s.scan, |s.scan|, u);
      }
    }
  }

  lemma NotReclassified(s: Scrape, c: CursorVal, u: string, prefix: string)
    requires u in c.entries && c.entries[u].kind == KindOfUrn(prefix, u)
    requires forall i :: 0 <= i < |s.scan| ==> s.scan[i].kind == KindOfUrn(prefix, s.scan[i].urn)
    ensures !Reclassified(s, c, u)
  {
    hide KindOfUrn;
    SeenIsSeen(s.scan, c.entries[u].kind);
  }

  lemma FindTellsTheKind(prefix: string, t: TableInfo, f: Found)
    requires DotFree(t) && FindOfTable(WithUrns(prefix, t), f)
    ensures f.kind == KindOfUrn(prefix, f.urn)
  {
    hide Dots, TableUrnOf, ColumnUrnOf, KindOfUrn;
    assert Dots("") == 0 by {
      EmptyHasNoDots();
    }
    if f == Found(Table, WithUrns(prefix, t).urn, t.payload) {
      UrnTellsTheKind(prefix, t.schema, t.name, "");
    } else {
      var columns := WithUrns(prefix, t).columns;
      var j :| 0 <= j < |columns| && f == Found(Column, columns[j].0, columns[j].1);
      UrnTellsTheKind(prefix, t.schema, t.name, t.columns[j].0);
    }
  }

  lemma EmptyHasNoDots()
    ensures Dots("") == 0
  {
  }
}
