/**
 * What `generate_chords` in src/musicinpython/generators/chordgenerator.py returns, as a
 * value: every chord read for every root, filed under the key "<name> (<ordered
 * intervals>)" with its notes as the entry, a later chord overwriting an earlier one that
 * has the same key.
 */
module ChordDump {
  import opened StringOps
  import opened Notes
  import opened Chords
  import opened ChordStages

  /** The key `generate_chords` files a chord under: its name, then its ordered intervals. */
  function Key(c: ChordValue): string
    requires KnownIntervals(c.intervals)
  {
    c.name + " (" + Join(OrderIntervals(c.intervals), " ") + ")"
  }

  /** Every chord of `cs` holds only labels `order_intervals` can place. */
  predicate AllKnown(cs: seq<ChordValue>)
  {
    forall i :: 0 <= i < |cs| ==> KnownIntervals(cs[i].intervals)
  }

  /** The key and the notes `generate_chords` files for each chord, in order. */
  function Entries(cs: seq<ChordValue>): (r: seq<(string, string)>)
    requires AllKnown(cs)
    ensures |r| == |cs|
  {
    seq(|cs|, i requires 0 <= i < |cs| => (Key(cs[i]), cs[i].notes))
  }

  /** `dump[key] = value` for each entry in turn. */
  function Record<K, V>(dump: map<K, V>, entries: seq<(K, V)>): map<K, V>
  {
    if |entries| == 0 then dump
    else Record(dump, entries[..|entries| - 1])[entries[|entries| - 1].0 := entries[|entries| - 1].1]
  }

  /** Every root of `roots` is one of the catalog note names. */
  predicate AllRoots(roots: seq<string>)
  {
    forall i :: 0 <= i < |roots| ==> roots[i] in AllNoteNames
  }

  /** The blocks laid end to end. */
  function Flatten<T>(blocks: seq<seq<T>>): seq<T>
  {
    if |blocks| == 0 then [] else Flatten(blocks[..|blocks| - 1]) + blocks[|blocks| - 1]
  }

  /** The catalog of each root, in the order of `roots`. */
  function Catalogs(stage: Stage, roots: seq<string>): (r: seq<seq<ChordValue>>)
    requires AllRoots(roots)
    ensures |r| == |roots|
  {
    seq(|roots|, i requires 0 <= i < |roots| => Catalog(stage, roots[i]))
  }

  /** The chords `generate_chords` reads, root after root: each root's catalog in turn. */
  function Filed(stage: Stage, roots: seq<string>): seq<ChordValue>
    requires AllRoots(roots)
  {
    Flatten(Catalogs(stage, roots))
  }

  /** The dictionary `generate_chords` returns for a generator of `stage` walking `roots`. */
  function Dump(stage: Stage, roots: seq<string>): map<string, string>
    requires AllRoots(roots)
  {
    FiledKnown(stage, roots);
    Record(map[], Entries(Filed(stage, roots)))
  }

  /**
   * The position of the last entry with key `k`, or -1 when there is none: an independent
   * description of which chord an entry of the dump comes from.
   */
  function LastWith<K(==), V>(entries: seq<(K, V)>, k: K): (r: int)
    ensures -1 <= r < |entries|
    ensures r >= 0 ==> entries[r].0 == k && forall j :: r < j < |entries| ==> entries[j].0 != k
    ensures r < 0 ==> forall j :: 0 <= j < |entries| ==> entries[j].0 != k
  {
    if |entries| == 0 then -1
    else if entries[|entries| - 1].0 == k then |entries| - 1
    else LastWith(entries[..|entries| - 1], k)
  }

  /**
   * Filing a sequence of entries: a key is present exactly when it was already present or
   * some entry has it, and its value is the one of the last entry that has it.
   */
  lemma {:induction false} RecordLookup<K, V>(dump: map<K, V>, entries: seq<(K, V)>, k: K)
    ensures k in Record(dump, entries) <==> k in dump || LastWith(entries, k) >= 0
    ensures LastWith(entries, k) >= 0 ==> Record(dump, entries)[k] == entries[LastWith(entries, k)].1
    ensures LastWith(entries, k) < 0 && k in dump ==> Record(dump, entries)[k] == dump[k]
    decreases |entries|
  {
    if |entries| > 0 {
      var n := |entries| - 1;
      RecordLookup(dump, entries[..n], k);
      if entries[n].0 != k {
        assert LastWith(entries, k) == LastWith(entries[..n], k);
      }
    }
  }

  /** Filing two sequences one after the other is filing their concatenation. */
  lemma {:induction false} RecordConcat<K, V>(dump: map<K, V>, a: seq<(K, V)>, b: seq<(K, V)>)
    ensures Record(dump, a + b) == Record(Record(dump, a), b)
    decreases |b|
  {
    if |b| == 0 {
      assert a + b == a;
    } else {
      var n := |b| - 1;
      RecordConcat(dump, a, b[..n]);
      assert (a + b)[..|a + b| - 1] == a + b[..n];
    }
  }

  /** The entries of two sequences of chords are the entries of each, in turn. */
  lemma EntriesConcat(a: seq<ChordValue>, b: seq<ChordValue>)
    requires AllKnown(a) && AllKnown(b)
    ensures AllKnown(a + b) && Entries(a + b) == Entries(a) + Entries(b)
  {
  }

  /** A value lies in the flattened blocks exactly when it lies in one of them. */
  lemma {:induction false} FlattenMembers<T>(blocks: seq<seq<T>>, x: T)
    ensures x in Flatten(blocks) <==> exists i :: 0 <= i < |blocks| && x in blocks[i]
    decreases |blocks|
  {
    if |blocks| > 0 {
      var n := |blocks| - 1;
      FlattenMembers(blocks[..n], x);
      if x in blocks[n] {
        assert 0 <= n < |blocks| && x in blocks[n];
      }
      if exists i :: 0 <= i < |blocks| && x in blocks[i] {
        var i :| 0 <= i < |blocks| && x in blocks[i];
        if i < n {
          assert blocks[..n][i] == blocks[i];
        }
      }
    }
  }

  /** The chords read for a root are its catalog: `Filed` grows by one catalog per root. */
  lemma FiledSnoc(stage: Stage, roots: seq<string>, r: nat)
    requires AllRoots(roots) && r < |roots|
    ensures AllRoots(roots[..r]) && AllRoots(roots[..r + 1])
    ensures Filed(stage, roots[..r + 1]) == Filed(stage, roots[..r]) + Catalog(stage, roots[r])
  {
    var blocks := Catalogs(stage, roots[..r + 1]);
    assert blocks[..r] == Catalogs(stage, roots[..r]);
  }

  /** Every catalog read is resolved for its own root. */
  lemma CatalogsResolved(stage: Stage, roots: seq<string>)
    requires AllRoots(roots)
    ensures forall i :: 0 <= i < |roots| ==> AllResolved(Catalogs(stage, roots)[i], roots[i])
  {
    forall i | 0 <= i < |roots|
      ensures AllResolved(Catalogs(stage, roots)[i], roots[i])
    {
      CatalogResolved(stage, roots[i]);
    }
  }

  /** Every chord of a root's catalog holds only labels `order_intervals` can place. */
  lemma CatalogKnown(stage: Stage, root: string)
    requires root in AllNoteNames
    ensures AllKnown(Catalog(stage, root))
  {
    CatalogResolved(stage, root);
    var cs := Catalog(stage, root);
    forall i | 0 <= i < |cs|
      ensures KnownIntervals(cs[i].intervals)
    {
      assert Resolved(cs[i], root);
    }
  }

  /** Blocks each resolved for their own root flatten to chords each resolved for some root. */
  lemma FlattenResolved(blocks: seq<seq<ChordValue>>, roots: seq<string>)
    requires |blocks| == |roots| && forall i :: 0 <= i < |roots| ==> AllResolved(blocks[i], roots[i])
    ensures forall c :: c in Flatten(blocks) ==> exists i :: 0 <= i < |roots| && Resolved(c, roots[i])
    ensures AllKnown(Flatten(blocks))
  {
    forall c | c in Flatten(blocks)
      ensures exists i :: 0 <= i < |roots| && Resolved(c, roots[i])
    {
      FlattenMembers(blocks, c);
      var i :| 0 <= i < |blocks| && c in blocks[i];
      var m :| 0 <= m < |blocks[i]| && blocks[i][m] == c;
      assert Resolved(blocks[i][m], roots[i]);
    }
    forall j | 0 <= j < |Flatten(blocks)|
      ensures KnownIntervals(Flatten(blocks)[j].intervals)
    {
      var c := Flatten(blocks)[j];
      assert c in Flatten(blocks);
      FlattenMembers(blocks, c);
      var i :| 0 <= i < |blocks| && c in blocks[i];
      var m :| 0 <= m < |blocks[i]| && blocks[i][m] == c;
      assert Resolved(blocks[i][m], roots[i]);
      assert SoundAt(c, roots[i]);
    }
  }

  /** Every chord read is resolved for the root it was generated from. */
  lemma FiledResolved(stage: Stage, roots: seq<string>)
    requires AllRoots(roots)
    ensures forall c :: c in Filed(stage, roots) ==> exists i :: 0 <= i < |roots| && Resolved(c, roots[i])
    ensures AllKnown(Filed(stage, roots))
  {
    CatalogsResolved(stage, roots);
    FlattenResolved(Catalogs(stage, roots), roots);
  }

  /** Every chord read holds only labels `order_intervals` can place, so every key exists. */
  lemma FiledKnown(stage: Stage, roots: seq<string>)
    requires AllRoots(roots)
    ensures AllKnown(Filed(stage, roots))
  {
    FiledResolved(stage, roots);
  }

  /** After filing every entry, every entry's key is present. */
  lemma {:induction false} RecordHasAll<K, V>(dump: map<K, V>, entries: seq<(K, V)>)
    ensures forall j :: 0 <= j < |entries| ==> entries[j].0 in Record(dump, entries)
    decreases |entries|
  {
    if |entries| > 0 {
      RecordHasAll(dump, entries[..|entries| - 1]);
    }
  }

  /** The entry filed for the chord at position `j` carries that chord's key. */
  lemma EntryKey(cs: seq<ChordValue>, j: nat, c: ChordValue)
    requires AllKnown(cs) && j < |cs| && cs[j] == c
    ensures KnownIntervals(c.intervals) && Entries(cs)[j].0 == Key(c)
  {
  }

  /** Walking one more root files that root's catalog on top of the dump so far. */
  lemma DumpSnoc(stage: Stage, roots: seq<string>, r: nat)
    requires AllRoots(roots) && r < |roots|
    ensures AllRoots(roots[..r]) && AllRoots(roots[..r + 1]) && AllKnown(Catalog(stage, roots[r]))
    ensures Dump(stage, roots[..r + 1]) == Record(Dump(stage, roots[..r]), Entries(Catalog(stage, roots[r])))
  {
    FiledSnoc(stage, roots, r);
    var before := Filed(stage, roots[..r]);
    var catalog := Catalog(stage, roots[r]);
    FiledKnown(stage, roots[..r]);
    CatalogKnown(stage, roots[r]);
    EntriesConcat(before, catalog);
    RecordConcat(map[], Entries(before), Entries(catalog));
  }

  /** Every chord read for every root can be looked up: its key is in the dump. */
  lemma DumpComplete(stage: Stage, roots: seq<string>, i: nat, c: ChordValue)
    requires AllRoots(roots) && i < |roots| && c in Catalog(stage, roots[i])
    ensures KnownIntervals(c.intervals) && Key(c) in Dump(stage, roots)
  {
    var cs := Filed(stage, roots);
    var blocks := Catalogs(stage, roots);
    FiledKnown(stage, roots);
    assert c in blocks[i];
    FlattenMembers(blocks, c);
    var j :| 0 <= j < |cs| && cs[j] == c;
    EntryKey(cs, j, c);
    RecordHasAll(map[], Entries(cs));
  }

  /**
   * Every entry of the dump comes from a chord generated for one of the roots, filed under
   * its own key, with the notes resolved from that chord's final name and intervals.
   */
  lemma DumpSound(stage: Stage, roots: seq<string>, k: string)
    requires AllRoots(roots) && k in Dump(stage, roots)
    ensures exists i, c ::
      && 0 <= i < |roots| && c in Catalog(stage, roots[i]) && Resolved(c, roots[i])
      && KnownIntervals(c.intervals) && Key(c) == k && Dump(stage, roots)[k] == c.notes
  {
    var cs := Filed(stage, roots);
    FiledKnown(stage, roots);
    var entries := Entries(cs);
    RecordLookup(map[], entries, k);
    var r := LastWith(entries, k);
    var c := cs[r];
    assert entries[r] == (Key(c), c.notes);
    var i := FiledSource(stage, roots, c);
  }

  /** A chord read for the dump comes from the catalog of one of the roots, resolved for that root. */
  lemma FiledSource(stage: Stage, roots: seq<string>, c: ChordValue) returns (i: nat)
    requires AllRoots(roots) && c in Filed(stage, roots)
    ensures i < |roots| && c in Catalog(stage, roots[i]) && Resolved(c, roots[i]) && KnownIntervals(c.intervals)
  {
    var blocks := Catalogs(stage, roots);
    FlattenMembers(blocks, c);
    i :| 0 <= i < |blocks| && c in blocks[i];
    var m :| 0 <= m < |blocks[i]| && blocks[i][m] == c;
    CatalogsResolved(stage, roots);
    assert Resolved(blocks[i][m], roots[i]);
  }

}
