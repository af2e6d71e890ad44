/**
 * `generate_chords` from src/musicinpython/generators/chordgenerator.py: the loop over
 * every root that has a generator fill its list, files each chord of the list under its
 * key, and clears the list before the next root.
 */
module ChordDumper {
  import opened StringOps
  import opened Notes
  import opened Chords
  import opened ChordStages
  import opened ChordDump
  import opened ChordGenerators

  /** The roots `generate_chords` walks: the seventeen catalog note names, in catalog order. */
  const Roots: seq<string> := AllNoteNames

  /** The roots walked are catalog note names. */
  lemma RootsKnown()
    ensures AllRoots(Roots)
  {
  }

  /**
   * The inner loop of `generate_chords`: each chord in turn is filed under its name followed
   * by its ordered intervals in parentheses, the entry being its notes.
   */
  method FileChords(dump: map<string, string>, chords: seq<Chord>) returns (filed: map<string, string>)
    requires AllKnown(Values(chords))
    ensures filed == Record(dump, Entries(Values(chords)))
  {
    ghost var entries := Entries(Values(chords));
    filed := dump;
    for k := 0 to |chords|
      invariant filed == Record(dump, entries[..k])
    {
      ValueAt(chords, k);
      var chord := chords[k];
      var key := chord.name + " (" + Join(OrderIntervals(chord.intervals), " ") + ")";
      filed := filed[key := chord.notes];
      assert entries[..k + 1][..k] == entries[..k];
    }
    assert entries[..|chords|] == entries;
  }

  /**
   * `generate_chords`: for every root in turn, sets the generator's root, generates its
   * stage's chords and the power chord, files them, and clears the list.
   */
  method GenerateChords(generator: ChordGenerator) returns (dump: map<string, string>)
    requires generator.chords == []
    modifies generator
    ensures AllRoots(Roots) && dump == Dump(generator.stage, Roots)
    ensures generator.chords == []
  {
    RootsKnown();
    dump := map[];
    for r := 0 to |Roots|
      invariant generator.chords == []
      invariant AllRoots(Roots[..r]) && dump == Dump(generator.stage, Roots[..r])
    {
      dump := FileRoot(generator, Roots, r, dump);
    }
    FullSlices(Roots, Roots);
  }

  /** One pass of the loop of `generate_chords`: the dump grows by the catalog of `roots[r]`. */
  method FileRoot(generator: ChordGenerator, roots: seq<string>, r: nat, dump: map<string, string>)
    returns (next: map<string, string>)
    requires AllRoots(roots) && r < |roots| && generator.chords == []
    requires AllRoots(roots[..r]) && dump == Dump(generator.stage, roots[..r])
    modifies generator
    ensures generator.chords == []
    ensures AllRoots(roots[..r + 1]) && next == Dump(generator.stage, roots[..r + 1])
  {
    var listed := ReadCatalog(generator, roots[r]);
    next := FileCatalog(generator.stage, roots, r, dump, listed);
    generator.chords := [];
  }

  /** Sets the generator's root, then calls `generate` and `generate_power_chord`. */
  method ReadCatalog(generator: ChordGenerator, root: string) returns (listed: seq<Chord>)
    requires generator.chords == [] && root in AllNoteNames
    modifies generator
    ensures generator.root == root && generator.chords == listed
    ensures Values(listed) == Catalog(generator.stage, root)
  {
    generator.root := root;
    generator.GenerateCatalog();
    listed := generator.chords;
  }

  /** Filing the chords read for `roots[r]` on top of the dump of the roots before it. */
  method FileCatalog(stage: Stage, roots: seq<string>, r: nat, dump: map<string, string>, listed: seq<Chord>)
    returns (next: map<string, string>)
    requires AllRoots(roots) && r < |roots| && Values(listed) == Catalog(stage, roots[r])
    requires AllRoots(roots[..r]) && dump == Dump(stage, roots[..r])
    ensures AllRoots(roots[..r + 1]) && next == Dump(stage, roots[..r + 1])
  {
    DumpSnoc(stage, roots, r);
    next := FileChords(dump, listed);
  }
}
