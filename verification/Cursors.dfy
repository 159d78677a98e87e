/** The incremental-scrape cursor: an insertion-ordered dictionary from urn to entry, and the drift diff over it. */
module Cursors {
  import opened Types

  datatype Entry = Entry(kind: Kind, hash: string, lastScraped: int)

  /** A Python dict keeps insertion order, and the diff walks it, so the order is part of the value. */
  datatype CursorVal = CursorVal(order: seq<string>, entries: map<string, Entry>)

  const EmptyCursor := CursorVal([], map[])

  predicate NoDuplicates<T(==)>(s: seq<T>) {
    forall i, j :: 0 <= i < j < |s| ==> s[i] != s[j]
  }

  ghost predicate WellOrdered(c: CursorVal) {
    NoDuplicates(c.order) && (forall u :: u in c.order <==> u in c.entries)
  }

  /** Overwriting a key keeps its position; a new key goes last. */
  function WithEntry(c: CursorVal, urn: string, e: Entry): CursorVal {
    CursorVal(if urn in c.entries then c.order else c.order + [urn], c.entries[urn := e])
  }

  function Without(order: seq<string>, urn: string): seq<string> {
    if order == [] then []
    else Without(order[..|order| - 1], urn) + (if order[|order| - 1] == urn then [] else [order[|order| - 1]])
  }

  function WithoutEntry(c: CursorVal, urn: string): CursorVal {
    CursorVal(Without(c.order, urn), c.entries - {urn})
  }

  /** The entries of one kind whose urn was not seen, in cursor order. */
  predicate Vanished(entries: map<string, Entry>, urn: string, kind: Kind, seen: seq<string>) {
    urn in entries && entries[urn].kind == kind && urn !in seen
  }

  function DiffOver(order: seq<string>, entries: map<string, Entry>, kind: Kind, seen: seq<string>): seq<string> {
    if order == [] then []
    else
      DiffOver(order[..|order| - 1], entries, kind, seen) +
      (if Vanished(entries, order[|order| - 1], kind, seen) then [order[|order| - 1]] else [])
  }

  /** `diff_deleted_urns` */
  function DiffDeleted(c: CursorVal, kind: Kind, seen: seq<string>): seq<string> {
    DiffOver(c.order, c.entries, kind, seen)
  }

  // ---------------------------------------------------------------- the dictionary laws

  lemma {:induction false} WithoutMembers(order: seq<string>, urn: string)
    ensures forall u :: u in Without(order, urn) <==> u in order && u != urn
    ensures NoDuplicates(order) ==> NoDuplicates(Without(order, urn))
  {
    if order != [] {
      var front, last := order[..|order| - 1], order[|order| - 1];
      assert order == front + [last];
      WithoutMembers(front, urn);
      assert NoDuplicates(order) ==> NoDuplicates(front) && last !in front;
    }
  }

  lemma RecordKeepsOrder(c: CursorVal, urn: string, e: Entry)
    requires WellOrdered(c)
    ensures WellOrdered(WithEntry(c, urn, e))
  {
  }

  lemma ForgetKeepsOrder(c: CursorVal, urn: string)
    requires WellOrdered(c)
    ensures WellOrdered(WithoutEntry(c, urn))
  {
    WithoutMembers(c.order, urn);
  }

  /** The diff finds exactly the vanished urns, each once. */
  lemma {:induction false} DiffIsExact(order: seq<string>, entries: map<string, Entry>, kind: Kind, seen: seq<string>)
    ensures forall u :: u in DiffOver(order, entries, kind, seen) <==> u in order && Vanished(entries, u, kind, seen)
    ensures NoDuplicates(order) ==> NoDuplicates(DiffOver(order, entries, kind, seen))
  {
    if order != [] {
      var front, last := order[..|order| - 1], order[|order| - 1];
      assert order == front + [last];
      DiffIsExact(front, entries, kind, seen);
      assert NoDuplicates(order) ==> NoDuplicates(front) && last !in front;
    }
  }

  /** And it keeps the cursor's order: of two urns it reports, the one reported first stands first in the cursor. */
  lemma {:induction false} DiffKeepsOrder(order: seq<string>, entries: map<string, Entry>, kind: Kind, seen: seq<string>)
    ensures OrderedAs(order, DiffOver(order, entries, kind, seen))
  {
    if order != [] {
      var front, last := order[..|order| - 1], order[|order| - 1];
      assert order == front + [last];
      DiffKeepsOrder(front, entries, kind, seen);
      DiffIsExact(front, entries, kind, seen);
      var early, found := DiffOver(front, entries, kind, seen), DiffOver(order, entries, kind, seen);
      assert found == early || found == early + [last];
      forall x, y | 0 <= x < y < |found| ensures StandBefore(order, found[x], found[y]) {
        if y < |early| {
          assert found[x] == early[x] && found[y] == early[y] && StandBefore(front, early[x], early[y]);
          var a, b :| 0 <= a < b < |front| && front[a] == found[x] && front[b] == found[y];
          assert order[a] == found[x] && order[b] == found[y];
        } else {
          assert found[x] == early[x] && early[x] in early;
          var a :| 0 <= a < |front| && front[a] == found[x];
          assert order[a] == found[x] && order[|front|] == found[y];
        }
      }
    }
  }

  predicate StandBefore(order: seq<string>, u: string, v: string) {
    exists a, b :: 0 <= a < b < |order| && order[a] == u && order[b] == v
  }

  predicate OrderedAs(order: seq<string>, found: seq<string>) {
    forall x, y :: 0 <= x < y < |found| ==> StandBefore(order, found[x], found[y])
  }

  /** Taking a urn out closes the gap and leaves the rest in place. */
  lemma {:induction false} WithoutCloses(order: seq<string>, urn: string, i: nat)
    requires NoDuplicates(order) && i < |order| && order[i] == urn
    ensures Without(order, urn) == order[..i] + order[i + 1..]
  {
    var front, last := order[..|order| - 1], order[|order| - 1];
    if i == |front| {
      WithoutStranger(front, urn);
    } else {
      WithoutCloses(front, urn, i);
      assert order[i + 1..] == front[i + 1..] + [last];
    }
  }

  lemma {:induction false} WithoutStranger(order: seq<string>, urn: string)
    requires urn !in order
    ensures Without(order, urn) == order
  {
    if order != [] {
      assert order == order[..|order| - 1] + [order[|order| - 1]];
      WithoutStranger(order[..|order| - 1], urn);
    }
  }

  lemma {:induction false} DiffDependsOnVanished(order: seq<string>, e1: map<string, Entry>, e2: map<string, Entry>,
      kind: Kind, seen: seq<string>)
    requires forall u :: u in order ==> (Vanished(e1, u, kind, seen) <==> Vanished(e2, u, kind, seen))
    ensures DiffOver(order, e1, kind, seen) == DiffOver(order, e2, kind, seen)
  {
    if order != [] {
      DiffDependsOnVanished(order[..|order| - 1], e1, e2, kind, seen);
    }
  }

  /** Recording an entry that was seen under its kind does not disturb the diff of any kind, unless it changes
      the kind of an entry that would have been reported. */
  lemma RecordKeepsDiff(c: CursorVal, urn: string, e: Entry, kind: Kind, seen: seq<string>)
    requires e.kind == kind ==> urn in seen
    requires !Vanished(c.entries, urn, kind, seen)
    ensures DiffDeleted(WithEntry(c, urn, e), kind, seen) == DiffDeleted(c, kind, seen)
  {
    var c' := WithEntry(c, urn, e);
    DiffDependsOnVanished(c.order, c.entries, c'.entries, kind, seen);
    if urn !in c.entries {
      assert c'.order[..|c'.order| - 1] == c.order;
    }
  }

  lemma {:induction false} DiffSkips(order: seq<string>, entries: map<string, Entry>, urn: string, kind: Kind,
      seen: seq<string>)
    requires !Vanished(entries, urn, kind, seen)
    ensures DiffOver(Without(order, urn), entries, kind, seen) == DiffOver(order, entries, kind, seen)
  {
    if order != [] {
      var front, last := order[..|order| - 1], order[|order| - 1];
      DiffSkips(front, entries, urn, kind, seen);
      if last != urn {
        var rest := Without(front, urn);
        assert Without(order, urn) == rest + [last];
        assert (rest + [last])[..|rest|] == rest;
      } else {
        assert Without(order, urn) == Without(front, urn);
      }
    }
  }

  /** Forgetting an entry that the diff would not report does not disturb it. */
  lemma ForgetKeepsDiff(c: CursorVal, urn: string, kind: Kind, seen: seq<string>)
    requires !Vanished(c.entries, urn, kind, seen)
    ensures DiffDeleted(WithoutEntry(c, urn), kind, seen) == DiffDeleted(c, kind, seen)
  {
    var c' := WithoutEntry(c, urn);
    WithoutMembers(c.order, urn);
    DiffDependsOnVanished(c'.order, c.entries, c'.entries, kind, seen);
    DiffSkips(c.order, c.entries, urn, kind, seen);
  }

  // ---------------------------------------------------------------- the object

  /** One cursor object, shared by the running `discover()` and by `extract_metadata()`. */
  class Cursor {
    var order: seq<string>
    var entries: map<string, Entry>

    function Value(): CursorVal
      reads this
    {
      CursorVal(order, entries)
    }

    constructor (c: CursorVal)
      ensures Value() == c
    {
      order, entries := c.order, c.entries;
    }

    /** `record` */
    method Record(urn: string, e: Entry)
      modifies this
      ensures Value() == WithEntry(old(Value()), urn, e)
      ensures entries == old(entries)[urn := e] && order == if urn in old(entries) then old(order) else old(order) + [urn]
      ensures WellOrdered(old(Value())) ==> WellOrdered(Value())
    {
      if urn !in entries {
        order := order + [urn];
      }
      entries := entries[urn := e];
      if WellOrdered(old(Value())) {
        RecordKeepsOrder(old(Value()), urn, e);
      }
    }

    /** `forget` */
    method Forget(urn: string)
      modifies this
      ensures Value() == WithoutEntry(old(Value()), urn)
      ensures entries == old(entries) - {urn} && (urn !in old(order) ==> order == old(order))
      ensures forall i :: 0 <= i < |old(order)| && old(order)[i] == urn && NoDuplicates(old(order)) ==>
                order == old(order)[..i] + old(order)[i + 1..]
      ensures WellOrdered(old(Value())) ==> WellOrdered(Value())
    {
      ghost var before := order;
      var kept := [];
      for i := 0 to |order|
        invariant kept == Without(order[..i], urn)
      {
        assert order[..i + 1][..i] == order[..i];
        if order[i] != urn {
          kept := kept + [order[i]];
        }
      }
      assert order[..|order|] == order;
      order, entries := kept, entries - {urn};
      if urn !in before {
        WithoutStranger(before, urn);
      }
      forall i | 0 <= i < |before| && before[i] == urn && NoDuplicates(before)
        ensures order == before[..i] + before[i + 1..]
      {
        WithoutCloses(before, urn, i);
      }
      if WellOrdered(old(Value())) {
        ForgetKeepsOrder(old(Value()), urn);
      }
    }

    /** `diff_deleted_urns`: exactly the urns of this kind that the cursor knows and the cycle did not see. */
    method Diff(kind: Kind, seen: seq<string>) returns (deleted: seq<string>)
      ensures deleted == DiffDeleted(Value(), kind, seen)
      ensures WellOrdered(Value()) ==>
                NoDuplicates(deleted) && forall u :: u in deleted <==> u in entries && entries[u].kind == kind && u !in seen
      ensures OrderedAs(order, deleted)
    {
      deleted := [];
      for i := 0 to |order|
        invariant deleted == DiffOver(order[..i], entries, kind, seen)
      {
        assert order[..i + 1][..i] == order[..i];
        if Vanished(entries, order[i], kind, seen) {
          deleted := deleted + [order[i]];
        }
      }
      assert order[..|order|] == order;
      DiffIsExact(order, entries, kind, seen);
      DiffKeepsOrder(order, entries, kind, seen);
    }
  }
}
