/** What the agent keeps on disk: dead-lettered batches and source cursors, each written as a JSON document and
    read back. An ISO timestamp is represented by the instant it denotes. */
module Disk {
  import opened Types
  import opened Cursors
  import opened Catalog
  import opened Validation

  // ---------------------------------------------------------------- entity documents

  datatype Value = Text(s: string) | Instant(t: int) | Dict(payload: Payload)

  type EntityDoc = map<string, Value>

  /** `to_envelope_dict` */
  function ToDoc(item: Item): EntityDoc {
    map["urn" := Text(item.urn), "entity_type" := Text(KindName(item.kind)),
        "operation" := Text(if item.op.Upsert? then "upsert" else "delete"),
        "content_hash" := Text(if item.hash.Some? then item.hash.value else ""),
        "extracted_at" := Instant(item.extractedAt), "payload" := Dict(item.payload)]
  }

  function TextAt(d: EntityDoc, key: string): Option<string> {
    if key in d && d[key].Text? then Some(d[key].s) else None
  }

  /** What reading a document depends on besides the document: the content hash and the clock. */
  datatype Reader = Reader(hash: Payload -> string, now: int)

  /** `from_envelope_dict`: None models the exception on a missing or ill-typed key. A missing hash is computed
      anew, a missing timestamp is now, a missing payload is empty. */
  function FromDoc(rd: Reader, d: EntityDoc): Option<Item> {
    match (TextAt(d, "urn"), TextAt(d, "entity_type"), TextAt(d, "operation"))
    case (Some(urn), Some(kind), Some(op)) =>
      if op != "upsert" && op != "delete" then None
      else
        var payload := if "payload" in d && d["payload"].Dict? then d["payload"].payload else map[];
        var at := if "extracted_at" in d && d["extracted_at"].Instant? then d["extracted_at"].t else rd.now;
        var hash := match TextAt(d, "content_hash") case Some(h) => h case None => "";
        Some(Item(urn, KindFrom(kind), if op == "upsert" then Upsert else Delete, payload, at,
                  Some(if hash == "" then rd.hash(payload) else hash)))
    case _ => None
  }

  /** An entity type is a string: one outside the known names is `Unknown`. And every entity carries a hash. */
  predicate Proper(item: Item) {
    KindFrom(KindName(item.kind)) == item.kind && item.hash.Some? && item.hash.value != ""
  }

  lemma ValidIsProper(item: Item)
    requires ValidItem(item)
    ensures Proper(item)
  {
  }

  /** A document reads back as the entity it was written for, hash and timestamp included, exactly when that
      entity is proper. */
  lemma DocRoundTripIff(rd: Reader, item: Item)
    requires rd.hash(item.payload) != ""
    ensures FromDoc(rd, ToDoc(item)) == Some(item) <==> Proper(item)
  {
    ProperRoundTripParts(rd, item);
  }

  /** What is read back: every part as written, a missing hash apart. */
  lemma ProperRoundTripParts(rd: Reader, item: Item)
    ensures FromDoc(rd, ToDoc(item)) ==
            Some(item.(kind := KindFrom(KindName(item.kind)),
                       hash := Some(if item.hash.Some? && item.hash.value != "" then item.hash.value else rd.hash(item.payload))))
  {
    var d := ToDoc(item);
    assert d["urn"] == Text(item.urn) && d["entity_type"] == Text(KindName(item.kind));
    assert d["payload"] == Dict(item.payload) && d["extracted_at"] == Instant(item.extractedAt);
    hide KindFrom, KindName;
  }

  // ---------------------------------------------------------------- dead letters

  datatype BatchDoc = BatchDoc(batchId: string, connectorType: string, entities: seq<EntityDoc>)

  /** A dead-letter file: a document, or something that does not parse as one. */
  datatype File = Parsed(doc: BatchDoc) | Garbage

  function ToDocs(items: seq<Item>): seq<EntityDoc> {
    seq(|items|, i requires 0 <= i < |items| => ToDoc(items[i]))
  }

  function FromDocs(rd: Reader, docs: seq<EntityDoc>): Option<seq<Item>> {
    if docs == [] then Some([])
    else
      match (FromDocs(rd, docs[..|docs| - 1]), FromDoc(rd, docs[|docs| - 1]))
      case (Some(front), Some(last)) => Some(front + [last])
      case _ => None
  }

  function Written(b: Batch): File {
    Parsed(BatchDoc(b.id, b.connectorType, ToDocs(b.entities)))
  }

  function Read(rd: Reader, f: File): Option<Batch> {
    match f
    case Garbage => None
    case Parsed(doc) =>
      match FromDocs(rd, doc.entities)
      case None => None
      case Some(items) => Some(Batch(doc.batchId, doc.connectorType, items))
  }

  ghost predicate AllProper(items: seq<Item>) {
    forall i :: 0 <= i < |items| ==> Proper(items[i])
  }

  lemma {:induction false} DocsRoundTrip(rd: Reader, items: seq<Item>)
    requires AllProper(items)
    ensures FromDocs(rd, ToDocs(items)) == Some(items)
  {
    hide ToDoc, FromDoc, Proper;
    if items != [] {
      var front, last := items[..|items| - 1], items[|items| - 1];
      assert ToDocs(items)[..|items| - 1] == ToDocs(front);
      DocsRoundTrip(rd, front);
      ProperRoundTrip(rd, last);
      assert items == front + [last];
    }
  }

  lemma ProperRoundTrip(rd: Reader, item: Item)
    requires Proper(item)
    ensures FromDoc(rd, ToDoc(item)) == Some(item)
  {
    ProperRoundTripParts(rd, item);
    hide ToDoc, FromDoc, KindFrom, KindName;
  }

  /** Main result: `load` after `add` gives back the same batch - id, connector type, and every entity with its
      hash and timestamp - at whatever later time and with whatever hash function it is read. */
  lemma BatchRoundTrip(rd: Reader, b: Batch)
    requires AllProper(b.entities)
    ensures Read(rd, Written(b)) == Some(b)
  {
    DocsRoundTrip(rd, b.entities);
  }

  /** `build_envelope`: what travels for a batch. */
  datatype WireEnvelope = WireEnvelope(
    batchId: string, dataPlane: string, connectorType: string, schemaVersion: string, sentAt: int, entities: seq<EntityDoc>)

  function BuildEnvelope(dataPlane: string, schemaVersion: string, b: Batch, now: int): WireEnvelope {
    WireEnvelope(b.id, dataPlane, b.connectorType, schemaVersion, now, ToDocs(b.entities))
  }

  /** So a retry from disk sends what the first attempt sent, `sent_at` apart. */
  lemma RetrySendsTheSame(rd: Reader, b: Batch, dataPlane: string, schemaVersion: string, first: int, later: int)
    requires AllProper(b.entities)
    ensures Read(rd, Written(b)).Some?
    ensures BuildEnvelope(dataPlane, schemaVersion, Read(rd, Written(b)).value, later) ==
            BuildEnvelope(dataPlane, schemaVersion, b, first).(sentAt := later)
  {
    BatchRoundTrip(rd, b);
  }

  /** File names sort as strings do in Python: by the first differing character, a proper prefix first. */
  predicate Before(a: string, b: string) {
    if b == "" then false
    else if a == "" then true
    else a[0] < b[0] || (a[0] == b[0] && Before(a[1..], b[1..]))
  }

  /** The order of strings, by the first place where they differ; a proper prefix comes first. */
  lemma {:induction false} BeforeIsLexicographic(a: string, b: string)
    ensures Before(a, b) <==>
            exists i :: 0 <= i <= |a| && i < |b| && a[..i] == b[..i] && (i == |a| || a[i] < b[i])
  {
    if a == "" {
      assert b != "" ==> a[..0] == b[..0];
    } else if b != "" {
      BeforeIsLexicographic(a[1..], b[1..]);
      if a[0] < b[0] {
        assert a[..0] == b[..0];
      }
      if i :| 0 <= i <= |a[1..]| && i < |b[1..]| && a[1..][..i] == b[1..][..i] && (i == |a[1..]| || a[1..][i] < b[1..][i]) {
        if a[0] == b[0] {
          assert a[..i + 1] == [a[0]] + a[1..][..i] && b[..i + 1] == [b[0]] + b[1..][..i];
        }
      }
      if i :| 0 <= i <= |a| && i < |b| && a[..i] == b[..i] && (i == |a| || a[i] < b[i]) {
        if i > 0 {
          assert a[..i][0] == a[0] && b[..i][0] == b[0];
          assert a[..i][1..] == a[1..][..i - 1] && b[..i][1..] == b[1..][..i - 1];
          assert a[1..][..i - 1] == b[1..][..i - 1];
        }
      }
    }
  }

  lemma {:induction false} BeforeIsTotal(a: string, b: string)
    ensures Before(a, b) || Before(b, a) || a == b
    ensures !(Before(a, b) && Before(b, a)) && (Before(a, b) ==> a != b)
    decreases |a|
  {
    if a != "" && b != "" && a[0] == b[0] {
      BeforeIsTotal(a[1..], b[1..]);
      assert a == [a[0]] + a[1..] && b == [b[0]] + b[1..];
    }
  }

  lemma {:induction false} BeforeIsTransitive(a: string, b: string, c: string)
    requires Before(a, b) && Before(b, c)
    ensures Before(a, c)
    decreases |a|
  {
    if a != "" && b != "" && c != "" && a[0] == b[0] == c[0] {
      BeforeIsTransitive(a[1..], b[1..], c[1..]);
    }
  }

  const Suffix := ".json"

  ghost predicate Sorted(paths: seq<string>) {
    forall i, j :: 0 <= i < j < |paths| ==> Before(paths[i] + Suffix, paths[j] + Suffix)
  }

  /** The directory of dead letters, one file `<batch id>.json` each; a file is keyed here by its batch id. */
  class DeadLetterQueue {
    const reader: Reader
    var files: map<string, File>

    constructor (reader: Reader)
      ensures this.reader == reader && files == map[] && Pending() == map[]
    {
      this.reader, files := reader, map[];
    }

    /** The batches that can be read. */
    function Pending(): map<string, Batch>
      reads this
    {
      map path | path in files && Read(reader, files[path]).Some? :: Read(reader, files[path]).value
    }

    /** `add`: written to a temporary file first, then moved into place. */
    method Add(b: Batch)
      requires AllProper(b.entities)
      modifies this
      ensures files == old(files)[b.id := Written(b)]
      ensures Pending() == old(Pending())[b.id := b]
    {
      BatchRoundTrip(reader, b);
      files := files[b.id := Written(b)];
    }

    /** `load`: None when the file is missing or unreadable. */
    method Load(path: string) returns (b: Option<Batch>)
      ensures b == Lookup(Pending(), path)
    {
      if path !in files {
        return None;
      }
      b := Read(reader, files[path]);
    }

    /** `remove` */
    method Remove(path: string)
      modifies this
      ensures Pending() == old(Pending()) - {path}
    {
      files := files - {path};
    }

    /** `list_pending`: every file once, sorted by file name. */
    method ListPending() returns (paths: seq<string>)
      ensures forall p :: p in paths <==> p in files
      ensures NoDuplicates(paths) && Sorted(paths)
    {
      paths := [];
      var rest := files.Keys;
      while rest != {}
        invariant rest <= files.Keys
        invariant forall p :: p in paths <==> p in files && p !in rest
        invariant NoDuplicates(paths) && Sorted(paths)
        decreases |rest|
      {
        var p :| p in rest;
        rest := rest - {p};
        paths := Insert(paths, p);
      }
    }

    static method Insert(paths: seq<string>, p: string) returns (r: seq<string>)
      requires p !in paths && NoDuplicates(paths) && Sorted(paths)
      ensures forall q :: q in r <==> q in paths || q == p
      ensures NoDuplicates(r) && Sorted(r)
    {
      var i := 0;
      while i < |paths| && Before(paths[i] + Suffix, p + Suffix)
        invariant i <= |paths|
        invariant forall k :: 0 <= k < i ==> Before(paths[k] + Suffix, p + Suffix)
      {
        i := i + 1;
      }
      r := paths[..i] + [p] + paths[i..];
      forall k | i <= k < |paths| ensures Before(p + Suffix, paths[k] + Suffix) {
        AfterInsertion(paths, p, i, k);
      }
      Members(paths, p, i);
    }

    static lemma Members(paths: seq<string>, p: string, i: nat)
      requires i <= |paths|
      ensures forall q :: q in paths[..i] + [p] + paths[i..] <==> q in paths || q == p
    {
      assert paths == paths[..i] + paths[i..];
    }

    static lemma SuffixKeepsNames(a: string, b: string)
      ensures a + Suffix == b + Suffix ==> a == b
    {
      if a + Suffix == b + Suffix {
        assert a == (a + Suffix)[..|a|] && b == (b + Suffix)[..|b|];
      }
    }

    static lemma AfterInsertion(paths: seq<string>, p: string, i: nat, k: nat)
      requires p !in paths && Sorted(paths) && i <= k < |paths| && !Before(paths[i] + Suffix, p + Suffix)
      ensures Before(p + Suffix, paths[k] + Suffix)
    {
      BeforeIsTotal(paths[i] + Suffix, p + Suffix);
      SuffixKeepsNames(paths[i], p);
      if i < k {
        BeforeIsTransitive(p + Suffix, paths[i] + Suffix, paths[k] + Suffix);
      }
    }
  }

  // ---------------------------------------------------------------- cursors

  predicate SafeChar(ch: char) {
    'A' <= ch <= 'Z' || 'a' <= ch <= 'z' || '0' <= ch <= '9' || ch == '_' || ch == '.' || ch == '-'
  }

  function SafeName(source: string): string {
    seq(|source|, i requires 0 <= i < |source| => if SafeChar(source[i]) then source[i] else '_')
  }

  predicate BecomesUnderscore(ch: char) {
    ch == '_' || !SafeChar(ch)
  }

  predicate IsSafe(source: string) {
    forall i :: 0 <= i < |source| ==> SafeChar(source[i])
  }

  /** Two sources share a cursor file exactly when they differ only where both turn into an underscore. */
  lemma SharedFileIff(a: string, b: string)
    ensures SafeName(a) == SafeName(b) <==>
            |a| == |b| && forall i :: 0 <= i < |a| ==> a[i] == b[i] || (BecomesUnderscore(a[i]) && BecomesUnderscore(b[i]))
  {
    if |a| == |b| && forall i :: 0 <= i < |a| ==> a[i] == b[i] || (BecomesUnderscore(a[i]) && BecomesUnderscore(b[i])) {
      forall i | 0 <= i < |a| ensures SafeName(a)[i] == SafeName(b)[i] {
      }
    }
    if SafeName(a) == SafeName(b) {
      assert |SafeName(a)| == |a| && |SafeName(b)| == |b|;
      forall i | 0 <= i < |a| ensures a[i] == b[i] || (BecomesUnderscore(a[i]) && BecomesUnderscore(b[i])) {
        assert SafeName(a)[i] == SafeName(b)[i];
      }
    }
  }

  lemma SafeIsItself(source: string)
    requires IsSafe(source)
    ensures SafeName(source) == source
  {
  }

  /** A cursor document: the entries as the JSON object lists them. */
  datatype CursorDoc = CursorDoc(source: string, updatedAt: int, entries: seq<(string, Entry)>)

  function EntriesInOrder(c: CursorVal, n: nat): seq<(string, Entry)>
    requires WellOrdered(c) && n <= |c.order|
  {
    seq(n, i requires 0 <= i < n => (c.order[i], c.entries[c.order[i]]))
  }

  function EntriesRead(entries: seq<(string, Entry)>): CursorVal {
    if entries == [] then EmptyCursor
    else WithEntry(EntriesRead(entries[..|entries| - 1]), entries[|entries| - 1].0, entries[|entries| - 1].1)
  }

  lemma {:induction false} EntriesRoundTrip(c: CursorVal, n: nat)
    requires WellOrdered(c) && n <= |c.order|
    ensures var r := EntriesRead(EntriesInOrder(c, n));
            && r.order == c.order[..n]
            && (forall u :: u in r.entries <==> u in c.order[..n])
            && (forall u :: u in r.entries ==> r.entries[u] == c.entries[u])
  {
    if n > 0 {
      NextEntryIsNew(c, n);
      hide WellOrdered;
      EntriesRoundTrip(c, n - 1);
      assert EntriesInOrder(c, n)[..n - 1] == EntriesInOrder(c, n - 1);
      assert c.order[..n] == c.order[..n - 1] + [c.order[n - 1]];
    }
  }

  lemma NextEntryIsNew(c: CursorVal, n: nat)
    requires WellOrdered(c) && 0 < n <= |c.order|
    ensures c.order[n - 1] in c.entries && c.order[n - 1] !in c.order[..n - 1]
  {
  }

  /** Main result: `load` after `save` gives back the same entries in the same order. */
  lemma CursorRoundTrip(c: CursorVal)
    requires WellOrdered(c)
    ensures EntriesRead(EntriesInOrder(c, |c.order|)) == c
  {
    EntriesRoundTrip(c, |c.order|);
    assert c.order[..|c.order|] == c.order;
    var r := EntriesRead(EntriesInOrder(c, |c.order|));
    assert r.entries == c.entries;
  }

  lemma {:induction false} EntriesReadAreOrdered(entries: seq<(string, Entry)>)
    ensures WellOrdered(EntriesRead(entries))
  {
    if entries != [] {
      EntriesReadAreOrdered(entries[..|entries| - 1]);
      RecordKeepsOrder(EntriesRead(entries[..|entries| - 1]), entries[|entries| - 1].0, entries[|entries| - 1].1);
    }
  }

  /** The directory of saved cursors. */
  class CursorStore {
    var files: map<string, CursorDoc>

    constructor ()
      ensures files == map[] && Cursors() == map[]
    {
      files := map[];
    }

    /** What each file holds, by file name. */
    function Cursors(): map<string, CursorVal>
      reads this
    {
      map name | name in files :: EntriesRead(files[name].entries)
    }

    /** `load`: a new cursor object. */
    method Load(source: string) returns (cursor: Cursor)
      ensures fresh(cursor)
      ensures cursor.Value() == if SafeName(source) in files then Cursors()[SafeName(source)] else EmptyCursor
      ensures WellOrdered(cursor.Value())
    {
      var name := SafeName(source);
      if name in files {
        EntriesReadAreOrdered(files[name].entries);
        cursor := new Cursor(EntriesRead(files[name].entries));
      } else {
        cursor := new Cursor(EmptyCursor);
      }
    }

    /** `save`: stamped, written to a temporary file, then moved into place. */
    method Save(source: string, cursor: Cursor, now: int)
      requires WellOrdered(cursor.Value())
      modifies this
      ensures Cursors() == old(Cursors())[SafeName(source) := cursor.Value()]
    {
      var entries := [];
      for i := 0 to |cursor.order|
        invariant entries == EntriesInOrder(cursor.Value(), i)
      {
        entries := entries + [(cursor.order[i], cursor.entries[cursor.order[i]])];
      }
      CursorRoundTrip(cursor.Value());
      files := files[SafeName(source) := CursorDoc(source, now, entries)];
    }
  }
}
