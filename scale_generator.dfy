/**
 * The scale generator (src/musicinpython/generators/scalegenerator.py): the tables of named
 * scales, the `Scale` object that reads its notes off the chromatic scale of its root, and the
 * generator that lists every table entry for a root and expands the list with altered degrees.
 *
 * `make_chromatic_scale` and `get_interval_index` of that file are the same functions as in
 * the chord generator: `Notes.ChromaticScale` and `Intervals.GetAllIntervalsIndex`.
 */
module ScaleGenerators {
  import opened Wrappers
  import opened StringOps
  import opened Notes
  import opened Intervals
  import opened Chords

  /** An ordered dictionary of the source: its entries of key and value, in insertion order. */
  type Table = seq<(string, string)>

  /** `d[key] = value`: replaces the value of an existing key in place, or appends a new entry. */
  function Put(d: Table, key: string, value: string): (r: Table)
    ensures |r| == if exists i :: 0 <= i < |d| && d[i].0 == key then |d| else |d| + 1
  {
    if |d| == 0 then [(key, value)]
    else if d[0].0 == key then [(key, value)] + d[1..]
    else [d[0]] + Put(d[1..], key, value)
  }

  /** `d.update(e)`: puts the entries of `e` into `d`, in order. */
  function Update(d: Table, e: Table): Table
    decreases |e|
  {
    if |e| == 0 then d else Update(Put(d, e[0].0, e[0].1), e[1..])
  }

  /** Putting a key the table does not hold appends the entry. */
  lemma {:induction false} PutAbsent(d: Table, key: string, value: string)
    requires forall i :: 0 <= i < |d| ==> d[i].0 != key
    ensures Put(d, key, value) == d + [(key, value)]
  {
    if |d| > 0 {
      PutAbsent(d[1..], key, value);
      assert d == [d[0]] + d[1..];
    }
  }

  /** Updating with entries whose keys are new and pairwise distinct appends them in order. */
  lemma {:induction false} UpdateDisjoint(d: Table, e: Table)
    requires forall i, j :: 0 <= i < |d| && 0 <= j < |e| ==> d[i].0 != e[j].0
    requires forall i, j :: 0 <= i < j < |e| ==> e[i].0 != e[j].0
    ensures Update(d, e) == d + e
    decreases |e|
  {
    if |e| > 0 {
      PutAbsent(d, e[0].0, e[0].1);
      var d' := d + [e[0]];
      forall i, j | 0 <= i < |d'| && 0 <= j < |e[1..]|
        ensures d'[i].0 != e[1..][j].0
      {
        if i == |d| {
          assert e[1..][j] == e[j + 1];
        }
      }
      UpdateDisjoint(d', e[1..]);
      assert d' + e[1..] == d + e;
    }
  }

  const BaseScales: Table := [
    ("Major", "I II III IV V VI VII"),
    ("Minor", "I II bIII IV V bVI bVII"),
    ("Harmonic minor", "I II bIII IV V bVI VII"),
    ("Melodic minor", "I II III IV V bVI VII")]

  const GreekModes: Table := [
    ("Ionian", "I II III IV V VI VII"),
    ("Dorian", "I II bIII IV V VI bVII"),
    ("Phrygian", "I bII bIII IV V bVI bVII"),
    ("Lydian", "I II III #IV V VI VII"),
    ("Mixolydian", "I II III IV V VI bVII"),
    ("Aeolian", "I II bIII IV V bVI bVII"),
    ("Locrian", "I bII bIII IV bV bVI bVII")]

  /** A copy of the base scales updated with the modes: the base scales, then the modes. */
  const DiatonicScales: Table := BaseScales + GreekModes

  const Pentatonics: Table := [
    ("Major pentatonic", "I II III V VI"),
    ("Minor pentatonic", "I bIII IV V bVII")]

  /** The variation tables of `generate_variations`: altered label and name suffix. */
  const SecondVariations: Table := [("bII", "b2"), ("#II", "#2")]
  const FourthVariations: Table := [("bIV", "b4"), ("#IV", "#4")]
  const SixthVariations: Table := [("bVI", "b6"), ("#VI", "#6")]
  const SeventhVariations: Table := [("bVII", "b7"), ("VII", "maj7")]

  /** The roots `generate_all_scales` walks: the 17 names of the note catalog, in its order. */
  const Roots: seq<string> := AllNoteNames

  /**
   * No mode shares a key with a base scale or with another mode, so the update appends all
   * seven: the diatonic table holds 11 entries, the base scales first.
   */
  lemma DiatonicScalesShape()
    ensures Update(BaseScales, GreekModes) == DiatonicScales && |DiatonicScales| == 11
  {
    UpdateDisjoint(BaseScales, GreekModes);
  }

  /** The state of a scale object: its interval string, its name and its notes. */
  datatype ScaleValue = ScaleValue(intervals: string, name: string, notes: string)

  /**
   * `get_root`: the first two characters of the name when the second is a sign, the first
   * otherwise. `None` stands for the `IndexError` of a name shorter than two characters.
   */
  function ScaleRoot(name: string): Option<string>
  {
    if |name| < 2 then None
    else if name[1] == 'b' || name[1] == '#' then Some(name[..2])
    else Some(name[..1])
  }

  /**
   * The scale's `get_root` reads the root the way the chord's does, except that it demands a
   * second character where the chord's accepts a one-letter name.
   */
  lemma ScaleRootIsRootOf(name: string)
    ensures ScaleRoot(name).Some? <==> |name| >= 2
    ensures |name| >= 2 ==> ScaleRoot(name).value == RootOf(name)
  {
  }

  /** A scale named after a catalog root, a space and anything, has that root. */
  lemma ScaleRootOfName(root: string, rest: string)
    requires root in AllNoteNames
    ensures ScaleRoot(root + " " + rest) == Some(root)
  {
    NoteNameChars(root);
    var name := root + " " + rest;
    assert name[..|root|] == root;
    assert name[|root|] == ' ';
  }

  /** Appending to a name of two or more characters keeps its root. */
  lemma ScaleRootAppend(name: string, tail: string)
    requires |name| >= 2
    ensures ScaleRoot(name + tail) == ScaleRoot(name)
  {
    assert (name + tail)[..2] == name[..2];
    assert (name + tail)[..1] == name[..1];
    assert (name + tail)[1] == name[1];
  }

  /** The test example: `F# Minor` has root `F#`. */
  lemma ScaleRootExample()
    ensures ScaleRoot("F# Minor") == Some("F#")
  {
    assert "F# Minor"[1] == '#';
    assert "F# Minor"[..2] == "F#";
  }

  /** `get_scale_notes` can run: the name has a catalog root and every listed label a slot. */
  predicate Resolvable(name: string, intervals: string)
  {
    ScaleRoot(name).Some? && ScaleRoot(name).value in AllNoteNames && Slotted(Words(intervals))
  }

  /**
   * What `get_scale_notes` stores on a scale whose notes start empty: for each listed label,
   * in the listed order, the root's chromatic scale at its slot, joined by spaces.
   */
  function ScaleNotes(name: string, intervals: string): string
    requires Resolvable(name, intervals)
  {
    Join(NotesFor(ScaleRoot(name).value, Words(intervals)), " ")
  }

  /** The scale tests: C Major pentatonic reads C, D, E, G and A, joined by spaces. */
  lemma PentatonicNotesExample(name: string, intervals: string)
    requires name == "C Major pentatonic" && intervals == "I II III V VI"
    ensures Resolvable(name, intervals)
    ensures ScaleNotes(name, intervals) == "C D E G A"
  {
    PentatonicNotesText();
    assert name == "C" + " " + "Major pentatonic";
    ScaleRootOfName("C", "Major pentatonic");
    MajorPentatonicLabels(intervals);
    PentatonicNotes("C", Words(intervals));
  }

  lemma PentatonicNotesText()
    ensures Join(["C", "D", "E", "G", "A"], " ") == "C D E G A"
  {
  }

  lemma PentatonicNotes(root: string, ordered: seq<string>)
    requires root == "C" && ordered == ["I", "II", "III", "V", "VI"]
    ensures Slotted(ordered)
    ensures NotesFor(root, ordered) == ["C", "D", "E", "G", "A"]
  {
    SlotAt("I", 0);
    SlotAt("II", 2);
    SlotAt("III", 4);
    SlotAt("V", 7);
    SlotAt("VI", 9);
    SlottedFive("I", "II", "III", "V", "VI");
    ChromaticScaleOfC(root);
    var r := NotesFor(root, ordered);
    assert r[0] == "C" && r[1] == "D" && r[2] == "E" && r[3] == "G" && r[4] == "A";
    ListOfFive(r, "C", "D", "E", "G", "A");
  }

  /** The scale tests: F# Minor reads F#, G#, A, B, C#, D and E, joined by spaces. */
  lemma MinorNotesExample(name: string, intervals: string)
    requires name == "F# Minor" && intervals == "I II bIII IV V bVI bVII"
    ensures Resolvable(name, intervals)
    ensures ScaleNotes(name, intervals) == "F# G# A B C# D E"
  {
    var labels := ["I", "II", "bIII", "IV", "V", "bVI", "bVII"];
    MinorName(name);
    MinorLabels(intervals);
    ScaleNotesOf(name, intervals, "F#", labels);
    MinorNotes("F#", labels);
    MinorNotesText(NotesFor("F#", labels));
  }

  lemma MinorName(name: string)
    requires name == "F# Minor"
    ensures ScaleRoot(name) == Some("F#")
  {
    assert name == "F#" + " " + "Minor";
    ScaleRootOfName("F#", "Minor");
  }

  /** A scale whose name has a catalog root and whose labels have slots lists their notes. */
  lemma ScaleNotesOf(name: string, intervals: string, root: string, labels: seq<string>)
    requires ScaleRoot(name) == Some(root) && root in AllNoteNames
    requires Words(intervals) == labels && Slotted(labels)
    ensures Resolvable(name, intervals)
    ensures ScaleNotes(name, intervals) == Join(NotesFor(root, labels), " ")
  {
  }

  lemma MinorNotesText(notes: seq<string>)
    requires notes == ["F#", "G#", "A", "B", "C#", "D", "E"]
    ensures Join(notes, " ") == "F# G# A B C# D E"
  {
    JoinSeven("F#", "G#", "A", "B", "C#", "D", "E", " ");
  }

  lemma MinorNotes(root: string, ordered: seq<string>)
    requires root == "F#" && ordered == ["I", "II", "bIII", "IV", "V", "bVI", "bVII"]
    requires Slotted(ordered)
    ensures NotesFor(root, ordered) == ["F#", "G#", "A", "B", "C#", "D", "E"]
  {
    ChromaticScaleOfFSharp(root);
    var s := SharpScale[6..] + SharpScale[..6];
    FSharpScaleAt(s);
    MinorSlots();
    SevenNotes(root, ordered, s, 0, 2, 3, 5, 7, 8, 10);
  }

  /** The slots of the minor scale's labels. */
  lemma MinorSlots()
    ensures SlotOf("I") == Some(0) && SlotOf("II") == Some(2) && SlotOf("bIII") == Some(3)
    ensures SlotOf("IV") == Some(5) && SlotOf("V") == Some(7) && SlotOf("bVI") == Some(8)
    ensures SlotOf("bVII") == Some(10)
  {
    SlotAt("I", 0);
    SlotAt("II", 2);
    SlotAt("bIII", 3);
    SlotAt("IV", 5);
    SlotAt("V", 7);
    SlotAt("bVI", 8);
    SlotAt("bVII", 10);
  }

  /** Seven labels with known slots give the root's chromatic scale at those slots, in order. */
  lemma SevenNotes(root: string, ordered: seq<string>, s: seq<string>,
                   i0: nat, i1: nat, i2: nat, i3: nat, i4: nat, i5: nat, i6: nat)
    requires root in AllNoteNames && ChromaticScale(root) == Some(s) && Slotted(ordered) && |ordered| == 7
    requires SlotOf(ordered[0]) == Some(i0) && SlotOf(ordered[1]) == Some(i1) && SlotOf(ordered[2]) == Some(i2)
    requires SlotOf(ordered[3]) == Some(i3) && SlotOf(ordered[4]) == Some(i4) && SlotOf(ordered[5]) == Some(i5)
    requires SlotOf(ordered[6]) == Some(i6)
    ensures i0 < |s| && i1 < |s| && i2 < |s| && i3 < |s| && i4 < |s| && i5 < |s| && i6 < |s|
    ensures NotesFor(root, ordered) == [s[i0], s[i1], s[i2], s[i3], s[i4], s[i5], s[i6]]
  {
    var r := NotesFor(root, ordered);
    NoteAtSlot(root, ordered, 0, i0);
    NoteAtSlot(root, ordered, 1, i1);
    NoteAtSlot(root, ordered, 2, i2);
    NoteAtSlot(root, ordered, 3, i3);
    NoteAtSlot(root, ordered, 4, i4);
    NoteAtSlot(root, ordered, 5, i5);
    NoteAtSlot(root, ordered, 6, i6);
    ListOfSeven(r, s[i0], s[i1], s[i2], s[i3], s[i4], s[i5], s[i6]);
  }

  /** The entries of F#'s chromatic scale at the slots of the minor scale. */
  lemma FSharpScaleAt(s: seq<string>)
    requires s == SharpScale[6..] + SharpScale[..6]
    ensures |s| == 12
    ensures s[0] == "F#" && s[2] == "G#" && s[3] == "A" && s[5] == "B"
    ensures s[7] == "C#" && s[8] == "D" && s[10] == "E"
  {
  }

  /** Entry `k` of the chord-note list is the root's chromatic scale at the slot of label `k`. */
  lemma NoteAtSlot(root: string, ordered: seq<string>, k: nat, slot: nat)
    requires root in AllNoteNames && Slotted(ordered) && k < |ordered| && SlotOf(ordered[k]) == Some(slot)
    ensures ChromaticScale(root).Some? && slot < |ChromaticScale(root).value|
    ensures NotesFor(root, ordered)[k] == ChromaticScale(root).value[slot]
  {
    ChromaticScaleShape(root);
    SlotOfLabel(ordered[k]);
  }

  /** A list of seven entries, written out. */
  lemma ListOfSeven(r: seq<string>, a: string, b: string, c: string, d: string, e: string, f: string, g: string)
    requires |r| == 7 && r[0] == a && r[1] == b && r[2] == c && r[3] == d && r[4] == e && r[5] == f && r[6] == g
    ensures r == [a, b, c, d, e, f, g]
  {
  }

  lemma SlottedFive(a: string, b: string, c: string, d: string, e: string)
    requires SlotOf(a).Some? && SlotOf(b).Some? && SlotOf(c).Some? && SlotOf(d).Some? && SlotOf(e).Some?
    ensures Slotted([a, b, c, d, e])
  {
  }

  /** A list of five entries, written out. */
  lemma ListOfFive(r: seq<string>, a: string, b: string, c: string, d: string, e: string)
    requires |r| == 5 && r[0] == a && r[1] == b && r[2] == c && r[3] == d && r[4] == e
    ensures r == [a, b, c, d, e]
  {
  }

  /**
   * What `get_scale_notes` leaves in a scale's notes that held `notes` before: each listed
   * label's note followed by a space, added after the old notes, less the last character.
   */
  function NotesAfter(notes: string, name: string, intervals: string): string
    requires Resolvable(name, intervals)
  {
    DropLast(notes + Terminated(NotesFor(ScaleRoot(name).value, Words(intervals)), " "))
  }

  /** From empty notes, `get_scale_notes` leaves the notes joined by single spaces. */
  lemma NotesAfterEmpty(name: string, intervals: string)
    requires Resolvable(name, intervals)
    ensures NotesAfter("", name, intervals) == ScaleNotes(name, intervals)
  {
    var expected := NotesFor(ScaleRoot(name).value, Words(intervals));
    assert "" + Terminated(expected, " ") == Terminated(expected, " ");
    TerminatedJoin(expected, " ");
  }

  /**
   * The notes split back into one note per listed label, in the listed order (the `k`-th is
   * the second note of the `k`-th label built on the root, by `NotesForSecondNotes`).
   */
  lemma ScaleNotesWords(name: string, intervals: string)
    requires Resolvable(name, intervals)
    ensures var root := ScaleRoot(name).value;
      var labels := Words(intervals);
      && Words(ScaleNotes(name, intervals)) == NotesFor(root, labels)
      && |Words(ScaleNotes(name, intervals))| == |labels|
  {
    var root := ScaleRoot(name).value;
    var labels := Words(intervals);
    ChromaticScaleNames(root);
    var notes := NotesFor(root, labels);
    forall k | 0 <= k < |notes|
      ensures Word(notes[k])
    {
      ChromaticScaleShape(root);
      SlotOfLabel(labels[k]);
      NoteNameWord(notes[k]);
    }
    WordsJoin(notes);
  }

  /** The scale objects of the source. */
  class Scale {
    var intervals: string
    var name: string
    var notes: string

    /** `Scale(intervals, name)`: the notes start empty. */
    constructor (intervals: string, name: string)
      ensures Value() == ScaleValue(intervals, name, "")
    {
      this.intervals := intervals;
      this.name := name;
      notes := "";
    }

    /** `copy.deepcopy` of a scale: a new object in the same state. */
    constructor DeepCopy(original: Scale)
      ensures Value() == original.Value()
    {
      intervals := original.intervals;
      name := original.name;
      notes := original.notes;
    }

    function Value(): ScaleValue
      reads this
    {
      ScaleValue(intervals, name, notes)
    }

    /**
     * `get_scale_notes`: for each word of the interval string, appends the note at the label's
     * slot and a space to `notes`, then drops the last character. On empty notes that leaves
     * the notes joined by spaces.
     */
    method GetScaleNotes()
      requires Resolvable(name, intervals)
      modifies this`notes
      ensures notes == NotesAfter(old(notes), name, intervals)
      ensures old(notes) == "" ==> notes == ScaleNotes(name, intervals)
    {
      var root := ScaleRoot(name).value;
      var chromatic := ChromaticScale(root);
      assert chromatic.Some? && |chromatic.value| == 12 by { ChromaticScaleShape(root); }
      var labels := Words(intervals);
      ghost var expected := NotesFor(root, labels);
      var added := "";
      var k := 0;
      while k < |labels|
        invariant k <= |labels| && notes == old(notes)
        invariant added == Terminated(expected[..k], " ")
      {
        var index := GetAllIntervalsIndex(labels[k]);
        assert index.value < 12 by { SlotOfLabel(labels[k]); }
        TerminatedPrefix(expected, k, " ");
        added := added + chromatic.value[index.value] + " ";
        k := k + 1;
      }
      assert expected[..|labels|] == expected;
      assert DropLast(notes + added) == NotesAfter(notes, name, intervals);
      NotesAfterEmpty(name, intervals);
      notes := DropLast(notes + added);
    }
  }

  /** The current values of a list of scale objects. */
  function ScaleValues(ss: seq<Scale>): (r: seq<ScaleValue>)
    reads ss
    ensures |r| == |ss|
  {
    if |ss| == 0 then [] else ScaleValues(ss[..|ss| - 1]) + [ss[|ss| - 1].Value()]
  }

  /** Entry `k` is the value of object `k`. */
  lemma {:induction false} ScaleValuesAt(ss: seq<Scale>, k: nat)
    requires k < |ss|
    ensures ScaleValues(ss)[k] == ss[k].Value()
    decreases |ss|
  {
    if k < |ss| - 1 {
      ScaleValuesAt(ss[..|ss| - 1], k);
    }
  }

  lemma ScaleValuesSnoc(ss: seq<Scale>, s: Scale)
    ensures ScaleValues(ss + [s]) == ScaleValues(ss) + [s.Value()]
  {
    assert (ss + [s])[..|ss|] == ss;
  }

  /** The values of two lists one after the other. */
  lemma {:induction false} ScaleValuesConcat(a: seq<Scale>, b: seq<Scale>)
    ensures ScaleValues(a + b) == ScaleValues(a) + ScaleValues(b)
    decreases |b|
  {
    if |b| > 0 {
      var c := b[..|b| - 1];
      assert (a + b)[..|a + b| - 1] == a + c;
      ScaleValuesConcat(a, c);
    } else {
      assert a + b == a;
    }
  }

  /** The scale `generate` makes of one entry: named after the root and the key. */
  function Entry(root: string, e: (string, string)): ScaleValue
  {
    ScaleValue(e.1, root + " " + e.0, "")
  }

  /** The scales `generate` appends for a root, one per entry of the table, in table order. */
  function Listed(root: string, table: Table): (r: seq<ScaleValue>)
    ensures |r| == |table|
  {
    seq(|table|, i requires 0 <= i < |table| => Entry(root, table[i]))
  }

  lemma ListedSnoc(root: string, table: Table, k: nat)
    requires k < |table|
    ensures Listed(root, table[..k + 1]) == Listed(root, table[..k]) + [Entry(root, table[k])]
  {
  }

  lemma ListedConcat(root: string, a: Table, b: Table)
    ensures Listed(root, a + b) == Listed(root, a) + Listed(root, b)
  {
  }

  /** `variation[1:]`: the key read without its first character, whatever that character is. */
  function Unaltered(variation: string): string
  {
    if |variation| == 0 then "" else variation[1..]
  }

  /**
   * The copy `add_variation` makes of a scale for one entry of a variation table: present
   * exactly when the key without its first character is one of the scale's labels; its first
   * occurrence is replaced by the key and the suffix is appended to the name after a space.
   */
  function Variant(v: ScaleValue, variation: string, suffix: string): Option<ScaleValue>
  {
    var labels := Words(v.intervals);
    var index := IndexOf(labels, Unaltered(variation));
    if index.None? then None
    else Some(ScaleValue(Join(labels[index.value := variation], " "), v.name + " " + suffix, v.notes))
  }

  function Listing(o: Option<ScaleValue>): seq<ScaleValue>
  {
    if o.Some? then [o.value] else []
  }

  /** The copies of one scale, one per applicable entry, in table order. */
  function VariantsOf(v: ScaleValue, table: Table): seq<ScaleValue>
  {
    if |table| == 0 then []
    else
      var e := table[|table| - 1];
      VariantsOf(v, table[..|table| - 1]) + Listing(Variant(v, e.0, e.1))
  }

  lemma VariantsOfSnoc(v: ScaleValue, table: Table, k: nat)
    requires k < |table|
    ensures VariantsOf(v, table[..k + 1]) == VariantsOf(v, table[..k]) + Listing(Variant(v, table[k].0, table[k].1))
  {
    assert table[..k + 1][..k] == table[..k];
  }

  /** The copies of every scale of a list, scale by scale. */
  function Variations(pool: seq<ScaleValue>, table: Table): seq<ScaleValue>
  {
    if |pool| == 0 then [] else Variations(pool[..|pool| - 1], table) + VariantsOf(pool[|pool| - 1], table)
  }

  lemma VariationsSnoc(pool: seq<ScaleValue>, table: Table, k: nat)
    requires k < |pool|
    ensures Variations(pool[..k + 1], table) == Variations(pool[..k], table) + VariantsOf(pool[k], table)
  {
    assert pool[..k + 1][..k] == pool[..k];
  }

  /** Appending in two steps appends the two parts. */
  lemma AppendTwice<T>(a: seq<T>, b: seq<T>, c: seq<T>)
    ensures a + b + c == a + (b + c)
  {
  }

  /** The list after `add_variation`: the scales it had, then the copies. */
  function Varied(pool: seq<ScaleValue>, table: Table): seq<ScaleValue>
  {
    pool + Variations(pool, table)
  }

  /** The list after `generate_variations`: second, fourth, sixth and seventh degrees in turn. */
  function AllVariations(pool: seq<ScaleValue>): seq<ScaleValue>
  {
    Varied(Varied(Varied(Varied(pool, SecondVariations), FourthVariations), SixthVariations), SeventhVariations)
  }

  /** The scales listed for a root from two tables, then varied. */
  function Collected(root: string, diatonic: Table, pentatonics: Table): seq<ScaleValue>
  {
    AllVariations(Listed(root, diatonic) + Listed(root, pentatonics))
  }

  /** The scales `generate_all_scales` collects for one root. */
  function RootScales(root: string): seq<ScaleValue>
  {
    Collected(root, DiatonicScales, Pentatonics)
  }

  /** The scales `generate_all_scales` collects over a list of roots, root by root. */
  function AllScales(roots: seq<string>): seq<ScaleValue>
  {
    if |roots| == 0 then [] else AllScales(roots[..|roots| - 1]) + RootScales(roots[|roots| - 1])
  }

  /** The first position of `x` in a list, given as the position where it first occurs. */
  lemma IndexOfFirst(xs: seq<string>, x: string, k: nat)
    requires k < |xs| && xs[k] == x && x !in xs[..k]
    ensures IndexOf(xs, x) == Some(k)
  {
    var r := IndexOf(xs, x).value;
    forall j | 0 <= j < k
      ensures xs[j] != x
    {
      assert xs[..k][j] == xs[j];
    }
    forall j | 0 <= j < r
      ensures xs[j] != x
    {
      assert xs[..r][j] == xs[j];
    }
  }

  /**
   * `add_variation` on one scale and one entry: the copy exists exactly when the key without
   * its first character is one of the scale's labels. The copy's labels are the scale's with
   * the first occurrence of that label replaced by the key, so there are as many of them; its
   * name gains the suffix after a space and its notes are the scale's.
   */
  lemma VariantShape(v: ScaleValue, variation: string, suffix: string)
    ensures Variant(v, variation, suffix).Some? <==> Unaltered(variation) in Words(v.intervals)
    ensures Variant(v, variation, suffix).Some? && Word(variation) ==>
      var labels := Words(v.intervals);
      var i := IndexOf(labels, Unaltered(variation)).value;
      var w := Variant(v, variation, suffix).value;
      && i < |labels| && labels[i] == Unaltered(variation) && Unaltered(variation) !in labels[..i]
      && Words(w.intervals) == labels[i := variation]
      && |Words(w.intervals)| == |labels|
      && w.name == v.name + " " + suffix && w.notes == v.notes
  {
    var labels := Words(v.intervals);
    if Unaltered(variation) in labels && Word(variation) {
      var i := IndexOf(labels, Unaltered(variation)).value;
      WordsAreWords(v.intervals);
      var updated := labels[i := variation];
      assert forall k :: 0 <= k < |updated| ==> Word(updated[k]);
      WordsJoin(updated);
    }
  }

  /** Each copy of one scale comes from an applicable entry of the table. */
  lemma {:induction false} VariantsOfSource(v: ScaleValue, table: Table, w: ScaleValue) returns (j: nat)
    requires w in VariantsOf(v, table)
    ensures j < |table| && Variant(v, table[j].0, table[j].1) == Some(w)
    decreases |table|
  {
    var n := |table| - 1;
    if w in VariantsOf(v, table[..n]) {
      j := VariantsOfSource(v, table[..n], w);
      assert table[..n][j] == table[j];
    } else {
      j := n;
    }
  }

  /** Each applicable entry of the table gives its copy of the scale. */
  lemma {:induction false} VariantsOfComplete(v: ScaleValue, table: Table, j: nat, w: ScaleValue)
    requires j < |table| && Variant(v, table[j].0, table[j].1) == Some(w)
    ensures w in VariantsOf(v, table)
    decreases |table|
  {
    var n := |table| - 1;
    var last := Listing(Variant(v, table[n].0, table[n].1));
    assert VariantsOf(v, table) == VariantsOf(v, table[..n]) + last;
    if j < n {
      assert table[..n][j] == table[j];
      VariantsOfComplete(v, table[..n], j, w);
    } else {
      assert last == [w];
    }
  }

  /** Each copy `add_variation` appends comes from a listed scale and an applicable entry. */
  lemma {:induction false} VariationsSource(pool: seq<ScaleValue>, table: Table, w: ScaleValue) returns (i: nat, j: nat)
    requires w in Variations(pool, table)
    ensures i < |pool| && j < |table| && Variant(pool[i], table[j].0, table[j].1) == Some(w)
    decreases |pool|
  {
    var n := |pool| - 1;
    if w in Variations(pool[..n], table) {
      i, j := VariationsSource(pool[..n], table, w);
      assert pool[..n][i] == pool[i];
    } else {
      i := n;
      j := VariantsOfSource(pool[n], table, w);
    }
  }

  /** The copies of each listed scale are among the copies `add_variation` appends. */
  lemma {:induction false} VariationsComplete(pool: seq<ScaleValue>, table: Table, i: nat, w: ScaleValue)
    requires i < |pool| && w in VariantsOf(pool[i], table)
    ensures w in Variations(pool, table)
    decreases |pool|
  {
    var n := |pool| - 1;
    if i < n {
      assert pool[..n][i] == pool[i];
      VariationsComplete(pool[..n], table, i, w);
    }
  }

  /** Each scale has at most one copy per entry of the table. */
  lemma {:induction false} VariationsBound(pool: seq<ScaleValue>, table: Table)
    ensures |Variations(pool, table)| <= |pool| * |table|
    decreases |pool|
  {
    if |pool| > 0 {
      VariationsBound(pool[..|pool| - 1], table);
      VariantsOfBound(pool[|pool| - 1], table);
      assert (|pool| - 1) * |table| + |table| == |pool| * |table|;
    }
  }

  lemma {:induction false} VariantsOfBound(v: ScaleValue, table: Table)
    ensures |VariantsOf(v, table)| <= |table|
    decreases |table|
  {
    if |table| > 0 {
      VariantsOfBound(v, table[..|table| - 1]);
    }
  }

  /** A copy is determined by the first occurrence of the unaltered label and the joined result. */
  lemma VariantAt(v: ScaleValue, variation: string, suffix: string, labels: seq<string>, i: nat, s: string, name: string)
    requires Words(v.intervals) == labels && IndexOf(labels, Unaltered(variation)) == Some(i)
    requires i < |labels| && Join(labels[i := variation], " ") == s && v.name + " " + suffix == name
    ensures Variant(v, variation, suffix) == Some(ScaleValue(s, name, v.notes))
  {
  }

  /**
   * The test example: the fourth-degree variation of C Major flattens its fourth. The
   * example holds for any scale named `C Major` whose intervals split into the seven
   * degrees, as `I II III IV V VI VII` does (`MajorLabels`); the copy's intervals are the
   * labels `I II III bIV V VI VII` joined by single spaces.
   */
  lemma FourthVariationExample(v: ScaleValue)
    requires Words(v.intervals) == ["I", "II", "III", "IV", "V", "VI", "VII"] && v.name == "C Major"
    ensures Variant(v, "bIV", "b4") == Some(ScaleValue(Join(["I", "II", "III", "bIV", "V", "VI", "VII"], " "), "C Major b4", v.notes))
  {
    var labels := ["I", "II", "III", "IV", "V", "VI", "VII"];
    FourthIndex(labels);
    CMajorSuffixes();
    VariantAt(v, "bIV", "b4", labels, 3, Join(["I", "II", "III", "bIV", "V", "VI", "VII"], " "), "C Major b4");
  }

  lemma FourthIndex(labels: seq<string>)
    requires labels == ["I", "II", "III", "IV", "V", "VI", "VII"]
    ensures IndexOf(labels, Unaltered("bIV")) == Some(3)
    ensures labels[3 := "bIV"] == ["I", "II", "III", "bIV", "V", "VI", "VII"]
  {
    assert Unaltered("bIV") == "IV";
    assert labels[..3] == ["I", "II", "III"];
    IndexOfFirst(labels, "IV", 3);
  }

  lemma CMajorSuffixes()
    ensures "C Major" + " " + "b4" == "C Major b4"
    ensures "C Major" + " " + "maj7" == "C Major maj7"
  {
  }

  /**
   * The match is literal: the key `VII` without its first character is `II`, so the
   * `maj7` entry of the seventh table applies to every scale with a second and puts `VII`
   * in its place, as C Major shows: its copy's intervals are `I VII III IV V VI VII`.
   */
  lemma SeventhVariationLiteral(v: ScaleValue)
    requires Words(v.intervals) == ["I", "II", "III", "IV", "V", "VI", "VII"] && v.name == "C Major"
    ensures Unaltered("VII") == "II"
    ensures Variant(v, "VII", "maj7") == Some(ScaleValue(Join(["I", "VII", "III", "IV", "V", "VI", "VII"], " "), "C Major maj7", v.notes))
  {
    var labels := ["I", "II", "III", "IV", "V", "VI", "VII"];
    SecondIndex(labels);
    CMajorSuffixes();
    VariantAt(v, "VII", "maj7", labels, 1, Join(["I", "VII", "III", "IV", "V", "VI", "VII"], " "), "C Major maj7");
  }

  lemma SecondIndex(labels: seq<string>)
    requires labels == ["I", "II", "III", "IV", "V", "VI", "VII"]
    ensures Unaltered("VII") == "II"
    ensures IndexOf(labels, Unaltered("VII")) == Some(1)
    ensures labels[1 := "VII"] == ["I", "VII", "III", "IV", "V", "VI", "VII"]
  {
    assert Unaltered("VII") == "II";
    assert labels[..1] == ["I"];
    IndexOfFirst(labels, "II", 1);
  }

  /** Every listed label of a scale has a slot. */
  predicate Labelled(table: Table)
  {
    forall i :: 0 <= i < |table| ==> Slotted(Words(table[i].1))
  }

  /** An interval string written as labels of the table of intervals joined by spaces. */
  lemma LabelsOf(s: string, labels: seq<string>)
    requires s == Join(labels, " ")
    requires forall k :: 0 <= k < |labels| ==> labels[k] in AllIntervalNamesUnpacked
    ensures Words(s) == labels && Slotted(labels)
  {
    forall k | 0 <= k < |labels|
      ensures Word(labels[k]) && SlotOf(labels[k]).Some?
    {
      LabelWord(labels[k]);
    }
    WordsJoin(labels);
  }

  /** A string of seven labels of the table of intervals separated by single spaces splits into them. */
  lemma SevenLabels(s: string, a: string, b: string, c: string, d: string, e: string, f: string, g: string)
    requires s == a + " " + b + " " + c + " " + d + " " + e + " " + f + " " + g
    requires a in AllIntervalNamesUnpacked && b in AllIntervalNamesUnpacked && c in AllIntervalNamesUnpacked
    requires d in AllIntervalNamesUnpacked && e in AllIntervalNamesUnpacked && f in AllIntervalNamesUnpacked
    requires g in AllIntervalNamesUnpacked
    ensures Words(s) == [a, b, c, d, e, f, g] && Slotted(Words(s))
  {
    JoinSeven(a, b, c, d, e, f, g, " ");
    LabelsOf(s, [a, b, c, d, e, f, g]);
  }

  /** A string of five labels of the table of intervals separated by single spaces splits into them. */
  lemma FiveLabels(s: string, a: string, b: string, c: string, d: string, e: string)
    requires s == a + " " + b + " " + c + " " + d + " " + e
    requires a in AllIntervalNamesUnpacked && b in AllIntervalNamesUnpacked && c in AllIntervalNamesUnpacked
    requires d in AllIntervalNamesUnpacked && e in AllIntervalNamesUnpacked
    ensures Words(s) == [a, b, c, d, e] && Slotted(Words(s))
  {
    JoinFive(a, b, c, d, e, " ");
    LabelsOf(s, [a, b, c, d, e]);
  }

  /** A label of the table of intervals is a word with a slot. */
  lemma LabelWord(x: string)
    requires x in AllIntervalNamesUnpacked
    ensures Word(x) && SlotOf(x).Some?
  {
    SlotOfLabel(x);
  }

  lemma MajorLabels(s: string)
    requires s == "I II III IV V VI VII"
    ensures Words(s) == ["I", "II", "III", "IV", "V", "VI", "VII"] && Slotted(Words(s))
  {
    SevenLabels(s, "I", "II", "III", "IV", "V", "VI", "VII");
  }

  lemma MinorLabels(s: string)
    requires s == "I II bIII IV V bVI bVII"
    ensures Words(s) == ["I", "II", "bIII", "IV", "V", "bVI", "bVII"] && Slotted(Words(s))
  {
    SevenLabels(s, "I", "II", "bIII", "IV", "V", "bVI", "bVII");
  }

  lemma HarmonicMinorLabels(s: string)
    requires s == "I II bIII IV V bVI VII"
    ensures Slotted(Words(s))
  {
    SevenLabels(s, "I", "II", "bIII", "IV", "V", "bVI", "VII");
  }

  lemma MelodicMinorLabels(s: string)
    requires s == "I II III IV V bVI VII"
    ensures Slotted(Words(s))
  {
    SevenLabels(s, "I", "II", "III", "IV", "V", "bVI", "VII");
  }

  lemma DorianLabels(s: string)
    requires s == "I II bIII IV V VI bVII"
    ensures Slotted(Words(s))
  {
    SevenLabels(s, "I", "II", "bIII", "IV", "V", "VI", "bVII");
  }

  lemma PhrygianLabels(s: string)
    requires s == "I bII bIII IV V bVI bVII"
    ensures Slotted(Words(s))
  {
    SevenLabels(s, "I", "bII", "bIII", "IV", "V", "bVI", "bVII");
  }

  lemma LydianLabels(s: string)
    requires s == "I II III #IV V VI VII"
    ensures Slotted(Words(s))
  {
    SevenLabels(s, "I", "II", "III", "#IV", "V", "VI", "VII");
  }

  lemma MixolydianLabels(s: string)
    requires s == "I II III IV V VI bVII"
    ensures Slotted(Words(s))
  {
    SevenLabels(s, "I", "II", "III", "IV", "V", "VI", "bVII");
  }

  lemma LocrianLabels(s: string)
    requires s == "I bII bIII IV bV bVI bVII"
    ensures Slotted(Words(s))
  {
    SevenLabels(s, "I", "bII", "bIII", "IV", "bV", "bVI", "bVII");
  }

  lemma MajorPentatonicLabels(s: string)
    requires s == "I II III V VI"
    ensures Words(s) == ["I", "II", "III", "V", "VI"] && Slotted(Words(s))
  {
    FiveLabels(s, "I", "II", "III", "V", "VI");
  }

  lemma MinorPentatonicLabels(s: string)
    requires s == "I bIII IV V bVII"
    ensures Slotted(Words(s))
  {
    FiveLabels(s, "I", "bIII", "IV", "V", "bVII");
  }

  /** Every label the scale tables list has a slot in the table of intervals. */
  lemma TablesLabelled()
    ensures Labelled(DiatonicScales) && Labelled(Pentatonics)
  {
    BaseScalesLabelled();
    GreekModesLabelled();
    LabelledConcat(BaseScales, GreekModes);
    PentatonicsLabelled();
  }

  lemma PentatonicsLabelled()
    ensures Labelled(Pentatonics)
  {
    forall i | 0 <= i < |Pentatonics|
      ensures Slotted(Words(Pentatonics[i].1))
    {
      var s := Pentatonics[i].1;
      if i == 0 {
        MajorPentatonicLabels(s);
      } else {
        MinorPentatonicLabels(s);
      }
    }
  }

  lemma BaseScalesLabelled()
    ensures Labelled(BaseScales)
  {
    forall i | 0 <= i < |BaseScales|
      ensures Slotted(Words(BaseScales[i].1))
    {
      var s := BaseScales[i].1;
      if i == 0 {
        MajorLabels(s);
      } else if i == 1 {
        MinorLabels(s);
      } else if i == 2 {
        HarmonicMinorLabels(s);
      } else {
        MelodicMinorLabels(s);
      }
    }
  }

  lemma GreekModesLabelled()
    ensures Labelled(GreekModes)
  {
    forall i | 0 <= i < |GreekModes|
      ensures Slotted(Words(GreekModes[i].1))
    {
      var s := GreekModes[i].1;
      if i == 0 {
        MajorLabels(s);
      } else if i == 1 {
        DorianLabels(s);
      } else if i == 2 {
        PhrygianLabels(s);
      } else if i == 3 {
        LydianLabels(s);
      } else if i == 4 {
        MixolydianLabels(s);
      } else if i == 5 {
        MinorLabels(s);
      } else {
        LocrianLabels(s);
      }
    }
  }

  lemma LabelledConcat(a: Table, b: Table)
    requires Labelled(a) && Labelled(b)
    ensures Labelled(a + b)
  {
    forall i | 0 <= i < |a + b|
      ensures Slotted(Words((a + b)[i].1))
    {
      if i >= |a| {
        assert (a + b)[i] == b[i - |a|];
      }
    }
  }

  /** Every key of a variation table is a label of the table of intervals. */
  predicate Alterations(table: Table)
  {
    forall j :: 0 <= j < |table| ==> Word(table[j].0) && SlotOf(table[j].0).Some?
  }

  lemma VariationTablesAlter()
    ensures Alterations(SecondVariations) && Alterations(FourthVariations)
    ensures Alterations(SixthVariations) && Alterations(SeventhVariations)
  {
    TableAlters(SecondVariations, "bII", "#II");
    TableAlters(FourthVariations, "bIV", "#IV");
    TableAlters(SixthVariations, "bVI", "#VI");
    TableAlters(SeventhVariations, "bVII", "VII");
  }

  /** A two-entry table whose keys are labels of the table of intervals lists alterations. */
  lemma TableAlters(table: Table, a: string, b: string)
    requires |table| == 2 && table[0].0 == a && table[1].0 == b
    requires a in AllIntervalNamesUnpacked && b in AllIntervalNamesUnpacked
    ensures Alterations(table)
  {
    forall j | 0 <= j < |table|
      ensures Word(table[j].0) && SlotOf(table[j].0).Some?
    {
      if j == 0 {
        LabelWord(a);
      } else {
        LabelWord(b);
      }
    }
  }

  /** A scale `get_scale_notes` can resolve, on the root `root`. */
  predicate RootedAt(v: ScaleValue, root: string)
  {
    root in AllNoteNames && ScaleRoot(v.name) == Some(root) && Slotted(Words(v.intervals))
  }

  /** A copy by an entry whose key is a label keeps the root and leaves every label slotted. */
  lemma VariantRooted(v: ScaleValue, variation: string, suffix: string, root: string)
    requires RootedAt(v, root) && Word(variation) && SlotOf(variation).Some?
    ensures Variant(v, variation, suffix).Some? ==> RootedAt(Variant(v, variation, suffix).value, root)
  {
    if Variant(v, variation, suffix).Some? {
      var w := Variant(v, variation, suffix).value;
      var labels := Words(v.intervals);
      var i := IndexOf(labels, Unaltered(variation)).value;
      var updated := labels[i := variation];
      assert Words(w.intervals) == updated && w.name == v.name + " " + suffix by {
        VariantShape(v, variation, suffix);
      }
      forall k | 0 <= k < |updated|
        ensures SlotOf(updated[k]).Some?
      {
        if k != i {
          assert updated[k] == labels[k];
        }
      }
      assert w.name == v.name + (" " + suffix);
      ScaleRootAppend(v.name, " " + suffix);
    }
  }

  lemma {:induction false} VariantsOfRooted(v: ScaleValue, table: Table, root: string)
    requires RootedAt(v, root) && Alterations(table)
    ensures forall w :: w in VariantsOf(v, table) ==> RootedAt(w, root)
    decreases |table|
  {
    if |table| > 0 {
      var n := |table| - 1;
      assert Alterations(table[..n]) by {
        forall j | 0 <= j < n
          ensures Word(table[..n][j].0) && SlotOf(table[..n][j].0).Some?
        {
          assert table[..n][j] == table[j];
        }
      }
      VariantsOfRooted(v, table[..n], root);
      VariantRooted(v, table[n].0, table[n].1, root);
      var last := Listing(Variant(v, table[n].0, table[n].1));
      assert VariantsOf(v, table) == VariantsOf(v, table[..n]) + last;
      forall w | w in VariantsOf(v, table)
        ensures RootedAt(w, root)
      {
        if w !in VariantsOf(v, table[..n]) {
          assert w in last;
        }
      }
    }
  }

  /** `add_variation` keeps every listed scale resolvable on the same root. */
  lemma {:induction false} VariedRooted(pool: seq<ScaleValue>, table: Table, root: string)
    requires Alterations(table)
    requires forall v :: v in pool ==> RootedAt(v, root)
    ensures forall w :: w in Varied(pool, table) ==> RootedAt(w, root)
  {
    forall w | w in Variations(pool, table)
      ensures RootedAt(w, root)
    {
      var i, j := VariationsSource(pool, table, w);
      VariantRooted(pool[i], table[j].0, table[j].1, root);
    }
  }

  lemma AllVariationsRooted(pool: seq<ScaleValue>, root: string)
    requires forall v :: v in pool ==> RootedAt(v, root)
    ensures forall w :: w in AllVariations(pool) ==> RootedAt(w, root)
  {
    VariationTablesAlter();
    var second := Varied(pool, SecondVariations);
    VariedRooted(pool, SecondVariations, root);
    var fourth := Varied(second, FourthVariations);
    VariedRooted(second, FourthVariations, root);
    var sixth := Varied(fourth, SixthVariations);
    VariedRooted(fourth, SixthVariations, root);
    VariedRooted(sixth, SeventhVariations, root);
  }

  /** `generate` names every scale after the root, so `get_root` gives the root back. */
  lemma ListedRooted(root: string, table: Table)
    requires root in AllNoteNames && Labelled(table)
    ensures forall v :: v in Listed(root, table) ==> RootedAt(v, root)
  {
    forall i | 0 <= i < |table|
      ensures RootedAt(Listed(root, table)[i], root)
    {
      ScaleRootOfName(root, table[i].0);
    }
  }

  /**
   * Every scale `generate_all_scales` collects for a catalog root is named after that root and
   * lists labels with slots only, so `get_scale_notes` resolves each of them.
   */
  lemma RootScalesResolvable(root: string)
    requires root in AllNoteNames
    ensures forall v :: v in RootScales(root) ==> RootedAt(v, root) && Resolvable(v.name, v.intervals)
  {
    TablesLabelled();
    var listed := Listed(root, DiatonicScales) + Listed(root, Pentatonics);
    ListedRooted(root, DiatonicScales);
    ListedRooted(root, Pentatonics);
    AllVariationsRooted(listed, root);
  }

  /** Every scale `generate_all_scales` produces can have its notes resolved. */
  lemma {:induction false} AllScalesResolvable(roots: seq<string>)
    requires forall k :: 0 <= k < |roots| ==> roots[k] in AllNoteNames
    ensures forall v :: v in AllScales(roots) ==> Resolvable(v.name, v.intervals)
    decreases |roots|
  {
    if |roots| > 0 {
      var n := |roots| - 1;
      AllScalesResolvable(roots[..n]);
      RootScalesResolvable(roots[n]);
    }
  }

  /** The list `generate_all_scales` returns is made of resolvable scales only. */
  lemma GeneratedScalesResolvable()
    ensures forall v :: v in AllScales(Roots) ==> Resolvable(v.name, v.intervals)
  {
    AllScalesResolvable(Roots);
  }

  lemma AllScalesSnoc(roots: seq<string>, k: nat)
    requires k < |roots|
    ensures AllScales(roots[..k + 1]) == AllScales(roots[..k]) + RootScales(roots[k])
  {
    assert roots[..k + 1][..k] == roots[..k];
  }

  /** A list sliced up to its length is the list. */
  lemma WholeSlice<T>(xs: seq<T>)
    ensures xs[..|xs|] == xs
  {
  }

  /** `ScaleGenerator`: a root and the list of scales generated so far. */
  class ScaleGenerator {
    var root: string
    var scalesGenerated: seq<Scale>

    constructor (root: string)
      ensures this.root == root && scalesGenerated == []
    {
      this.root := root;
      scalesGenerated := [];
    }

    /** One entry of `generate`: appends a new scale named after the root and the key. */
    method GenerateEntry(e: (string, string))
      modifies this`scalesGenerated
      ensures old(scalesGenerated) <= scalesGenerated
      ensures ScaleValues(scalesGenerated) == old(ScaleValues(scalesGenerated)) + [Entry(root, e)]
    {
      var scale := new Scale(e.1, root + " " + e.0);
      ScaleValuesSnoc(scalesGenerated, scale);
      scalesGenerated := scalesGenerated + [scale];
    }

    /** `generate`: appends one new scale per entry of the table, in table order. */
    method Generate(table: Table)
      modifies this`scalesGenerated
      ensures old(scalesGenerated) <= scalesGenerated
      ensures ScaleValues(scalesGenerated) == old(ScaleValues(scalesGenerated)) + Listed(root, table)
    {
      ghost var start := scalesGenerated;
      ghost var pool := ScaleValues(start);
      var k := 0;
      while k < |table|
        invariant k <= |table|
        invariant |start| <= |scalesGenerated| && scalesGenerated[..|start|] == start
        invariant ScaleValues(scalesGenerated) == pool + Listed(root, table[..k])
      {
        ListedSnoc(root, table, k);
        GenerateEntry(table[k]);
        k := k + 1;
      }
      assert table[..|table|] == table;
    }

    /** One entry of one scale in `add_variation`: appends the copy when the entry applies. */
    method AddVariant(scale: Scale, variation: string, suffix: string)
      modifies this`scalesGenerated
      ensures old(scalesGenerated) <= scalesGenerated
      ensures ScaleValues(scalesGenerated) == old(ScaleValues(scalesGenerated)) + Listing(Variant(scale.Value(), variation, suffix))
    {
      var natural := Unaltered(variation);
      if natural in Words(scale.intervals) {
        var copy := new Scale.DeepCopy(scale);
        var labels := Words(copy.intervals);
        var index := IndexOf(labels, natural).value;
        labels := labels[index := variation];
        copy.intervals := Join(labels, " ");
        copy.name := copy.name + " " + suffix;
        ScaleValuesSnoc(scalesGenerated, copy);
        scalesGenerated := scalesGenerated + [copy];
      }
    }

    /** The inner loop of `add_variation`: the copies of one scale, entry by entry. */
    method AddVariantsOf(scale: Scale, table: Table)
      modifies this`scalesGenerated
      ensures old(scalesGenerated) <= scalesGenerated
      ensures ScaleValues(scalesGenerated) == old(ScaleValues(scalesGenerated)) + VariantsOf(scale.Value(), table)
    {
      ghost var start := scalesGenerated;
      ghost var pool := ScaleValues(start);
      var k := 0;
      while k < |table|
        invariant k <= |table|
        invariant |start| <= |scalesGenerated| && scalesGenerated[..|start|] == start
        invariant ScaleValues(scalesGenerated) == pool + VariantsOf(scale.Value(), table[..k])
      {
        VariantsOfSnoc(scale.Value(), table, k);
        AppendTwice(pool, VariantsOf(scale.Value(), table[..k]), Listing(Variant(scale.Value(), table[k].0, table[k].1)));
        AddVariant(scale, table[k].0, table[k].1);
        k := k + 1;
      }
      assert table[..|table|] == table;
    }

    /**
     * `add_variation`: walks a snapshot of the list and appends the copies of each scale; the
     * scales already listed stay in place, unchanged.
     */
    method AddVariation(table: Table)
      modifies this`scalesGenerated
      ensures old(scalesGenerated) <= scalesGenerated
      ensures ScaleValues(scalesGenerated) == Varied(old(ScaleValues(scalesGenerated)), table)
    {
      var previous := scalesGenerated;
      ghost var pool := ScaleValues(previous);
      var k := 0;
      while k < |previous|
        invariant k <= |previous|
        invariant |previous| <= |scalesGenerated| && scalesGenerated[..|previous|] == previous
        invariant ScaleValues(previous) == pool
        invariant ScaleValues(scalesGenerated) == pool + Variations(pool[..k], table)
      {
        VariationsSnoc(pool, table, k);
        ScaleValuesAt(previous, k);
        AppendTwice(pool, Variations(pool[..k], table), VariantsOf(pool[k], table));
        AddVariantsOf(previous[k], table);
        k := k + 1;
      }
      assert pool[..|previous|] == pool;
    }

    /** The first steps of a root in `generate_all_scales`: sets the root and lists two tables. */
    method ListScales(root: string, diatonic: Table, pentatonics: Table)
      requires scalesGenerated == []
      modifies this
      ensures ScaleValues(scalesGenerated) == Listed(root, diatonic) + Listed(root, pentatonics)
    {
      this.root := root;
      Generate(diatonic);
      assert ScaleValues(scalesGenerated) == Listed(root, diatonic);
      Generate(pentatonics);
    }

    /** `generate_variations`: the four variation tables in turn. */
    method GenerateVariations()
      modifies this`scalesGenerated
      ensures old(scalesGenerated) <= scalesGenerated
      ensures ScaleValues(scalesGenerated) == AllVariations(old(ScaleValues(scalesGenerated)))
    {
      ghost var pool := ScaleValues(scalesGenerated);
      AddVariation(SecondVariations);
      ghost var second := ScaleValues(scalesGenerated);
      AddVariation(FourthVariations);
      ghost var fourth := ScaleValues(scalesGenerated);
      AddVariation(SixthVariations);
      ghost var sixth := ScaleValues(scalesGenerated);
      AddVariation(SeventhVariations);
      assert ScaleValues(scalesGenerated) == Varied(sixth, SeventhVariations);
    }
  }

  /**
   * One root of `generate_all_scales`, with the tables it uses as parameters: its scales, with
   * the generator's list cleared after.
   */
  method CollectRoot(generator: ScaleGenerator, root: string, diatonic: Table, pentatonics: Table)
    returns (scales: seq<Scale>)
    requires generator.scalesGenerated == []
    modifies generator
    ensures generator.scalesGenerated == []
    ensures ScaleValues(scales) == Collected(root, diatonic, pentatonics)
  {
    generator.ListScales(root, diatonic, pentatonics);
    generator.GenerateVariations();
    scales := generator.scalesGenerated;
    generator.scalesGenerated := [];
  }

  /** `generate_all_scales`: the scales of every root, root by root, in the order of the roots. */
  method GenerateAllScales() returns (all: seq<Scale>)
    ensures ScaleValues(all) == AllScales(Roots)
  {
    var generator := new ScaleGenerator("C");
    all := [];
    for k := 0 to |Roots|
      invariant generator.scalesGenerated == []
      invariant ScaleValues(all) == AllScales(Roots[..k])
    {
      all := CollectNext(generator, Roots[k], all, DiatonicScales, Pentatonics);
      AllScalesSnoc(Roots, k);
    }
    WholeSlice(Roots);
  }

  /**
   * One pass of the loop of `generate_all_scales`, with the tables it uses as parameters: the
   * list grows by the scales of `root`.
   */
  method CollectNext(generator: ScaleGenerator, root: string, all: seq<Scale>, diatonic: Table, pentatonics: Table)
    returns (next: seq<Scale>)
    requires generator.scalesGenerated == []
    modifies generator
    ensures generator.scalesGenerated == []
    ensures ScaleValues(next) == old(ScaleValues(all)) + Collected(root, diatonic, pentatonics)
  {
    var scales := CollectRoot(generator, root, diatonic, pentatonics);
    ScaleValuesConcat(all, scales);
    next := all + scales;
  }
}
