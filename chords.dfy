/**
 * The `Chord` object of src/musicinpython/generators/chordgenerator.py: a name, a set of
 * interval labels and the space-separated note names that `get_chord_notes` fills in.
 */
module Chords {
  import opened Wrappers
  import opened StringOps
  import opened Notes
  import opened Intervals

  /** A chord's fields at one moment; the specification works on these values. */
  datatype ChordValue = ChordValue(name: string, intervals: set<string>, notes: string)

  /** Every interval of the set is one of the 17 labels. */
  predicate KnownIntervals(ints: set<string>)
  {
    forall x :: x in ints ==> x in AllIntervalNamesUnpacked
  }

  /** The entries of `xs` that lie in `s`, in the order of `xs`. */
  function Select(xs: seq<string>, s: set<string>): seq<string>
  {
    if |xs| == 0 then [] else (if xs[0] in s then [xs[0]] else []) + Select(xs[1..], s)
  }

  lemma {:induction false} SelectMembers(xs: seq<string>, s: set<string>)
    ensures forall x :: x in Select(xs, s) <==> x in xs && x in s
  {
    if |xs| > 0 {
      SelectMembers(xs[1..], s);
    }
  }

  /** Position of a label in the 17-label order: the sort key of `order_intervals`. */
  function Position(x: string): nat
    requires x in AllIntervalNamesUnpacked
  {
    IndexOf(AllIntervalNamesUnpacked, x).value
  }

  /** Selecting from a list without repeats keeps the list's order strictly. */
  lemma {:induction false} SelectOrdered(xs: seq<string>, s: set<string>)
    requires Distinct(xs)
    ensures forall x :: x in Select(xs, s) ==> x in xs
    ensures Distinct(Select(xs, s))
    ensures forall i, j :: 0 <= i < j < |Select(xs, s)| ==>
      IndexOf(xs, Select(xs, s)[i]).value < IndexOf(xs, Select(xs, s)[j]).value
  {
    SelectMembers(xs, s);
    if |xs| > 0 {
      var rest := Select(xs[1..], s);
      assert Distinct(xs[1..]);
      SelectOrdered(xs[1..], s);
      SelectMembers(xs[1..], s);
      forall y | y in rest
        ensures y != xs[0] && IndexOf(xs, y).value == IndexOf(xs[1..], y).value + 1
      {
        var k :| 0 <= k < |xs[1..]| && xs[1..][k] == y;
        assert xs[k + 1] == y;
        IndexOfDistinct(xs, y, k + 1);
        IndexOfDistinct(xs[1..], y, k);
      }
    }
  }

  /** Without repeats, selecting gives as many entries as `s` shares with `xs`. */
  lemma {:induction false} SelectSize(xs: seq<string>, s: set<string>)
    requires Distinct(xs)
    ensures |Select(xs, s)| == |s * (set x | x in xs)|
  {
    if |xs| == 0 {
      assert s * (set x | x in xs) == {};
    } else {
      DistinctCons(xs);
      SelectSize(xs[1..], s);
      SharedCons(xs, s);
    }
  }

  /** A list without repeats: its head is not in its tail, and the tail has no repeats. */
  lemma DistinctCons(xs: seq<string>)
    requires Distinct(xs) && |xs| > 0
    ensures xs[0] !in xs[1..] && Distinct(xs[1..])
  {
    forall i | 0 <= i < |xs| - 1 ensures xs[1..][i] != xs[0] {
      assert xs[1..][i] == xs[i + 1];
    }
  }

  /** The members `s` shares with a list: the head if `s` has it, and those shared with the tail. */
  lemma SharedCons(xs: seq<string>, s: set<string>)
    requires |xs| > 0 && xs[0] !in xs[1..]
    ensures |s * (set x | x in xs)| ==
      (if xs[0] in s then 1 else 0) + |s * (set x | x in xs[1..])|
  {
    var tail := s * (set x | x in xs[1..]);
    assert xs == [xs[0]] + xs[1..];
    assert xs[0] !in tail;
    if xs[0] in s {
      assert s * (set x | x in xs) == {xs[0]} + tail;
    } else {
      assert s * (set x | x in xs) == tail;
    }
  }

  /** `order_intervals`: the chord's intervals sorted by their place among the 17 labels. */
  function OrderIntervals(ints: set<string>): seq<string>
    requires KnownIntervals(ints)
  {
    Select(AllIntervalNamesUnpacked, ints)
  }

  /** Selecting every member of `s` from a list without repeats that holds all of `s`. */
  lemma SelectAll(xs: seq<string>, s: set<string>)
    requires Distinct(xs) && forall x :: x in s ==> x in xs
    ensures var r := Select(xs, s);
      && (forall x :: x in r <==> x in s)
      && |r| == |s|
      && Distinct(r)
      && forall i, j :: 0 <= i < j < |r| ==> IndexOf(xs, r[i]).value < IndexOf(xs, r[j]).value
  {
    SelectMembers(xs, s);
    SelectOrdered(xs, s);
    SelectSize(xs, s);
    assert s * (set x | x in xs) == s;
  }

  /**
   * The ordered list holds exactly the chord's intervals, each once, with strictly
   * increasing positions in the 17-label order.
   */
  lemma OrderIntervalsSorted(ints: set<string>)
    requires KnownIntervals(ints)
    ensures var r := OrderIntervals(ints);
      && (forall x :: x in r <==> x in ints)
      && |r| == |ints|
      && Distinct(r)
      && forall i, j :: 0 <= i < j < |r| ==> Position(r[i]) < Position(r[j])
  {
    UnpackedDistinct(AllIntervalNamesUnpacked);
    SelectAll(AllIntervalNamesUnpacked, ints);
  }

  /** The entries of `r` are entries of `xs`, at strictly increasing positions of `xs`. */
  predicate Increasing(xs: seq<string>, r: seq<string>)
  {
    && (forall x :: x in r ==> x in xs)
    && forall i, j :: 0 <= i < j < |r| ==> IndexOf(xs, r[i]).value < IndexOf(xs, r[j]).value
  }

  /** Two lists in the order of `xs` with the same members are the same list. */
  lemma {:induction false} IncreasingUnique(xs: seq<string>, r1: seq<string>, r2: seq<string>)
    requires Increasing(xs, r1) && Increasing(xs, r2)
    requires forall x :: x in r1 <==> x in r2
    ensures r1 == r2
  {
    assert |r1| > 0 ==> r1[0] in r2;
    assert |r2| > 0 ==> r2[0] in r1;
    if |r1| > 0 && |r2| > 0 {
      var j :| 0 <= j < |r1| && r1[j] == r2[0];
      var i :| 0 <= i < |r2| && r2[i] == r1[0];
      assert r1[0] == r2[0];
      forall x
        ensures x in r1[1..] <==> x in r2[1..]
      {
        if x in r1[1..] {
          var a :| 0 <= a < |r1[1..]| && r1[1..][a] == x;
          assert IndexOf(xs, r1[0]).value < IndexOf(xs, r1[a + 1]).value;
          assert x in r2;
        }
        if x in r2[1..] {
          var b :| 0 <= b < |r2[1..]| && r2[1..][b] == x;
          assert IndexOf(xs, r2[0]).value < IndexOf(xs, r2[b + 1]).value;
          assert x in r1;
        }
      }
      IncreasingTail(xs, r1);
      IncreasingTail(xs, r2);
      IncreasingUnique(xs, r1[1..], r2[1..]);
      ConsTail(r1);
      ConsTail(r2);
    }
  }

  /** Dropping the first label keeps a list increasing. */
  lemma IncreasingTail(xs: seq<string>, r: seq<string>)
    requires Increasing(xs, r) && |r| > 0
    ensures Increasing(xs, r[1..])
  {
    forall i, j | 0 <= i < j < |r[1..]|
      ensures IndexOf(xs, r[1..][i]).value < IndexOf(xs, r[1..][j]).value
    {
      assert r[1..][i] == r[i + 1] && r[1..][j] == r[j + 1];
    }
  }

  lemma ConsTail(r: seq<string>)
    requires |r| > 0
    ensures r == [r[0]] + r[1..]
  {
  }

  /** A list is in the order of `xs` when it sits at increasing positions of `xs`. */
  lemma IncreasingAt(xs: seq<string>, r: seq<string>, pos: seq<nat>)
    requires Distinct(xs) && |pos| == |r|
    requires forall i :: 0 <= i < |r| ==> pos[i] < |xs| && xs[pos[i]] == r[i]
    requires forall i, j :: 0 <= i < j < |r| ==> pos[i] < pos[j]
    ensures Increasing(xs, r)
  {
    forall i | 0 <= i < |r|
      ensures IndexOf(xs, r[i]) == Some(pos[i])
    {
      IndexOfDistinct(xs, r[i], pos[i]);
    }
  }

  /** A list of labels in the 17-label order with the chord's members is what ordering gives. */
  lemma OrderIntervalsIs(ints: set<string>, r: seq<string>)
    requires KnownIntervals(ints)
    requires Increasing(AllIntervalNamesUnpacked, r) && forall x :: x in r <==> x in ints
    ensures OrderIntervals(ints) == r
  {
    UnpackedDistinct(AllIntervalNamesUnpacked);
    SelectAll(AllIntervalNamesUnpacked, ints);
    IncreasingUnique(AllIntervalNamesUnpacked, OrderIntervals(ints), r);
  }

  /** The example of the chord tests: Cm7's intervals in order. */
  lemma OrderIntervalsExample(ints: set<string>)
    requires ints == {"I", "bIII", "V", "bVII"}
    ensures KnownIntervals(ints) && OrderIntervals(ints) == ["I", "bIII", "V", "bVII"]
  {
    var u := AllIntervalNamesUnpacked;
    assert Distinct(u) by { UnpackedDistinct(u); }
    IncreasingAt(u, ["I", "bIII", "V", "bVII"], [0, 4, 10, 15]);
    assert KnownIntervals(ints);
    assert forall x :: x in ["I", "bIII", "V", "bVII"] <==> x in ints;
    OrderIntervalsIs(ints, ["I", "bIII", "V", "bVII"]);
  }

  /** `get_root`: the first two characters when the second is a sign, the first otherwise. */
  function RootOf(name: string): string
    requires |name| > 0
  {
    if |name| > 1 && (name[1] == '#' || name[1] == 'b') then name[..2] else name[..1]
  }

  /** Note names are written with the letters A to G and the two signs only. */
  lemma NoteNameChars(root: string)
    requires root in AllNoteNames
    ensures forall c :: c in root ==> c == '#' || c == 'b' || 'A' <= c <= 'G'
    ensures 0 < |root| <= 2 && (|root| == 2 <==> |root| > 1 && (root[1] == '#' || root[1] == 'b'))
  {
  }

  /** `get_root` reads back the root of a name built as root plus a suffix not starting with a sign. */
  lemma RootOfRootPlus(root: string, suffix: string)
    requires root in AllNoteNames
    requires suffix == "" || (suffix[0] != '#' && suffix[0] != 'b')
    ensures RootOf(root + suffix) == root
  {
    NoteNameChars(root);
    assert (root + suffix)[..|root|] == root;
    if |root| == 1 && |suffix| > 0 {
      assert (root + suffix)[1] == suffix[0];
    }
  }

  /** The test examples: `Cm7` has root C and `C#7M` has root C#. */
  lemma RootOfExamples()
    ensures RootOf("Cm7") == "C" && RootOf("C#7M") == "C#"
  {
  }

  /** The chord can be resolved: its root is a catalog name and its intervals are labels. */
  predicate Playable(name: string, ints: set<string>)
  {
    |name| > 0 && RootOf(name) in AllNoteNames && KnownIntervals(ints)
  }

  /** Every label of the list has a slot in the table of intervals. */
  predicate Slotted(ordered: seq<string>)
  {
    forall k :: 0 <= k < |ordered| ==> SlotOf(ordered[k]).Some?
  }

  /**
   * The notes `get_chord_notes` picks for the ordered intervals: for each, the root's
   * chromatic scale at the interval's slot.
   */
  function NotesFor(root: string, ordered: seq<string>): (r: seq<string>)
    requires root in AllNoteNames && Slotted(ordered)
    ensures |r| == |ordered|
  {
    ChromaticScaleShape(root);
    seq(|ordered|, k requires 0 <= k < |ordered| =>
      SlotOfLabel(ordered[k]); ChromaticScale(root).value[SlotOf(ordered[k]).value])
  }

  /** The notes are the second notes of intervals built on the root, one per interval. */
  lemma NotesForSecondNotes(root: string, ordered: seq<string>)
    requires root in AllNoteNames && Slotted(ordered)
    ensures forall k :: 0 <= k < |ordered| ==> ordered[k] in AllIntervalNamesUnpacked
    ensures forall k :: 0 <= k < |ordered| ==> NotesFor(root, ordered)[k] == SecondNoteName(root, ordered[k])
  {
    forall k | 0 <= k < |ordered|
      ensures ordered[k] in AllIntervalNamesUnpacked
    {
      SlotOfLabel(ordered[k]);
    }
  }

  /** The chord's intervals, in order, all have slots. */
  lemma OrderedSlotted(ints: set<string>)
    requires KnownIntervals(ints)
    ensures Slotted(OrderIntervals(ints))
  {
    SelectMembers(AllIntervalNamesUnpacked, ints);
    forall k | 0 <= k < |OrderIntervals(ints)|
      ensures SlotOf(OrderIntervals(ints)[k]).Some?
    {
      SlotOfLabel(OrderIntervals(ints)[k]);
    }
  }

  /** What `get_chord_notes` stores: the notes of the ordered intervals, joined by spaces. */
  function ChordNotes(name: string, ints: set<string>): string
    requires Playable(name, ints)
  {
    OrderedSlotted(ints);
    Join(NotesFor(RootOf(name), OrderIntervals(ints)), " ")
  }

  /**
   * A chord's notes split back into exactly one note per interval: the `k`-th word is the
   * note the `k`-th interval in order reaches from the root.
   */
  lemma ChordNotesWords(name: string, ints: set<string>)
    requires Playable(name, ints)
    ensures Slotted(OrderIntervals(ints))
    ensures Words(ChordNotes(name, ints)) == NotesFor(RootOf(name), OrderIntervals(ints))
    ensures |Words(ChordNotes(name, ints))| == |ints|
  {
    var root := RootOf(name);
    var ordered := OrderIntervals(ints);
    OrderedSlotted(ints);
    OrderIntervalsSorted(ints);
    ChromaticScaleNames(root);
    var notes := NotesFor(root, ordered);
    forall k | 0 <= k < |notes|
      ensures Word(notes[k])
    {
      ChromaticScaleShape(root);
      SlotOfLabel(ordered[k]);
      NoteNameWord(notes[k]);
    }
    WordsJoin(notes);
  }

  /** A note name is a single word. */
  lemma NoteNameWord(n: string)
    requires n in AllNoteNames
    ensures Word(n)
  {
  }

  /** A minor seventh chord sounds the root, the minor third, the fifth and the minor seventh. */
  lemma MinorSeventhNotes(root: string, name: string, ints: set<string>)
    requires root in AllNoteNames && name == root + "m7" && ints == {"I", "bIII", "V", "bVII"}
    ensures Playable(name, ints) && ChromaticScale(root).Some? && |ChromaticScale(root).value| == 12
    ensures var s := ChromaticScale(root).value;
      ChordNotes(name, ints) == Join([s[0], s[3], s[7], s[10]], " ")
  {
    assert RootOf(name) == root by { RootOfRootPlus(root, "m7"); }
    var ordered := ["I", "bIII", "V", "bVII"];
    assert KnownIntervals(ints) && OrderIntervals(ints) == ordered by { OrderIntervalsExample(ints); }
    MinorSeventhList(root, ordered);
  }

  lemma MinorSeventhList(root: string, ordered: seq<string>)
    requires root in AllNoteNames && ordered == ["I", "bIII", "V", "bVII"]
    ensures Slotted(ordered)
    ensures ChromaticScale(root).Some? && |ChromaticScale(root).value| == 12
    ensures var s := ChromaticScale(root).value;
      NotesFor(root, ordered) == [s[0], s[3], s[7], s[10]]
  {
    SlotAt("I", 0);
    SlotAt("bIII", 3);
    SlotAt("V", 7);
    SlotAt("bVII", 10);
    SlottedFour("I", "bIII", "V", "bVII");
    ChromaticScaleShape(root);
    var s := ChromaticScale(root).value;
    ListOfFour(NotesFor(root, ordered), s[0], s[3], s[7], s[10]);
  }

  /** The chord tests: Cm7 over C reads C, Eb, G and Bb, joined by spaces. */
  lemma ChordNotesExample(name: string, ints: set<string>)
    requires name == "Cm7" && ints == {"I", "bIII", "V", "bVII"}
    ensures Playable(name, ints)
    ensures ChordNotes(name, ints) == Join(["C", "Eb", "G", "Bb"], " ")
  {
    var root := "C";
    assert name == root + "m7";
    MinorSeventhNotes(root, name, ints);
    ScaleOfCNotes(root);
  }

  lemma ScaleOfCNotes(root: string)
    requires root == "C"
    ensures ChromaticScale(root).Some? && |ChromaticScale(root).value| == 12
    ensures var s := ChromaticScale(root).value;
      s[0] == "C" && s[3] == "Eb" && s[7] == "G" && s[10] == "Bb"
  {
    ChromaticScaleOfC(root);
  }

  lemma SlottedTwo(a: string, b: string)
    requires SlotOf(a).Some? && SlotOf(b).Some?
    ensures Slotted([a, b])
  {
  }

  lemma SlottedFour(a: string, b: string, c: string, d: string)
    requires SlotOf(a).Some? && SlotOf(b).Some? && SlotOf(c).Some? && SlotOf(d).Some?
    ensures Slotted([a, b, c, d])
  {
  }

  /** A list of two entries, written out. */
  lemma ListOfTwo(r: seq<string>, a: string, b: string)
    requires |r| == 2 && r[0] == a && r[1] == b
    ensures r == [a, b]
  {
  }

  /** A list of four entries, written out. */
  lemma ListOfFour(r: seq<string>, a: string, b: string, c: string, d: string)
    requires |r| == 4 && r[0] == a && r[1] == b && r[2] == c && r[3] == d
    ensures r == [a, b, c, d]
  {
  }

  /** The power chord: its notes are the root and the fifth of the root's chromatic scale. */
  lemma PowerChordNotes(root: string, name: string, ints: set<string>)
    requires root in AllNoteNames && name == root + "5" && ints == {"I", "V"}
    ensures Playable(name, ints) && ChromaticScale(root).Some? && |ChromaticScale(root).value| == 12
    ensures ChordNotes(name, ints) == ChromaticScale(root).value[0] + " " + ChromaticScale(root).value[7]
  {
    assert RootOf(name) == root by { RootOfRootPlus(root, "5"); }
    assert KnownIntervals(ints) && OrderIntervals(ints) == ["I", "V"] by { PowerChordOrder(ints); }
    SlotAt("I", 0);
    SlotAt("V", 7);
    SlottedTwo("I", "V");
    ChromaticScaleShape(root);
    var s := ChromaticScale(root).value;
    ListOfTwo(NotesFor(root, ["I", "V"]), s[0], s[7]);
    JoinTwo(s[0], s[7], " ");
  }

  lemma PowerChordOrder(ints: set<string>)
    requires ints == {"I", "V"}
    ensures KnownIntervals(ints) && OrderIntervals(ints) == ["I", "V"]
  {
    var u := AllIntervalNamesUnpacked;
    assert Distinct(u) by { UnpackedDistinct(u); }
    IncreasingAt(u, ["I", "V"], [0, 10]);
    assert KnownIntervals(ints);
    assert forall x :: x in ["I", "V"] <==> x in ints;
    OrderIntervalsIs(ints, ["I", "V"]);
  }

  /** A chord object; `notes` stays empty until `GetChordNotes` runs. */
  class Chord {
    var name: string
    var intervals: set<string>
    var notes: string

    constructor (name: string, intervals: set<string>)
      ensures this.name == name && this.intervals == intervals && notes == ""
    {
      this.name := name;
      this.intervals := intervals;
      notes := "";
    }

    /** `copy.deepcopy` of a chord: a new object with the same name, intervals and notes. */
    constructor DeepCopy(original: Chord)
      ensures Value() == original.Value()
    {
      name := original.name;
      intervals := original.intervals;
      notes := original.notes;
    }

    function Value(): ChordValue
      reads this
    {
      ChordValue(name, intervals, notes)
    }

    /** `add_interval_and_tone`: appends the tone to the name and the interval to the set. */
    method AddIntervalAndTone(interval: string, tone: string)
      modifies this`name, this`intervals
      ensures name == old(name) + tone && intervals == old(intervals) + {interval}
    {
      name := name + tone;
      intervals := intervals + {interval};
    }

    /**
     * `get_chord_notes`: walks the ordered intervals, appending each one's note and a space,
     * then drops the final space.
     */
    method GetChordNotes()
      requires Playable(name, intervals)
      modifies this`notes
      ensures notes == ChordNotes(name, intervals)
    {
      var ordered := OrderIntervals(intervals);
      var root := RootOf(name);
      var chordNotes := "";
      var scale := ChromaticScale(root);
      OrderedSlotted(intervals);
      assert scale.Some? && |scale.value| == 12 by { ChromaticScaleShape(root); }
      ghost var expected := NotesFor(root, ordered);
      for k := 0 to |ordered|
        invariant chordNotes == Terminated(expected[..k], " ")
      {
        var index := GetAllIntervalsIndex(ordered[k]);
        assert index.value < 12 by { SlotOfLabel(ordered[k]); }
        var lastNote := scale.value[index.value];
        TerminatedPrefix(expected, k, " ");
        chordNotes := chordNotes + lastNote + " ";
      }
      assert expected[..|ordered|] == expected;
      TerminatedJoin(expected, " ");
      notes := DropLast(chordNotes);
    }
  }
}
