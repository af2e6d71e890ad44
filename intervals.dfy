/**
 * The interval catalog (src/musicinpython/intervals.py): the 12 chromatic slots, five of
 * which hold an enharmonic pair of labels, the 17 labels in slot order, the six-way
 * classification, and the `Interval` object that computes a second note from a label and a
 * label from two notes.
 */
module Intervals {
  import opened Wrappers
  import opened Notes

  /** An entry of the slot table: one label, or two labels for the same pitch distance. */
  datatype Slot = Single(spelling: string) | Pair(first: string, second: string)

  const AllIntervalNames: seq<Slot> := [
    Single("I"), Single("bII"), Single("II"), Pair("#II", "bIII"), Pair("III", "bIV"),
    Single("IV"), Pair("#IV", "bV"), Single("V"), Pair("#V", "bVI"), Single("VI"),
    Pair("#VI", "bVII"), Single("VII")]

  const AllIntervalNamesUnpacked: seq<string> := [
    "I", "bII", "II", "#II", "bIII", "III", "bIV", "IV", "#IV", "bV", "V", "#V", "bVI",
    "VI", "#VI", "bVII", "VII"]

  /** The labels an entry stands for, in order. */
  function Labels(e: Slot): seq<string>
  {
    match e
    case Single(l) => [l]
    case Pair(a, b) => [a, b]
  }

  /** The table read entry by entry, with each pair opened in place. */
  function Flatten(es: seq<Slot>): seq<string>
  {
    if |es| == 0 then [] else Labels(es[0]) + Flatten(es[1..])
  }

  lemma {:induction false} FlattenConcat(a: seq<Slot>, b: seq<Slot>)
    ensures Flatten(a + b) == Flatten(a) + Flatten(b)
  {
    if |a| > 0 {
      assert (a + b)[1..] == a[1..] + b;
      FlattenConcat(a[1..], b);
    } else {
      assert a + b == b;
    }
  }

  lemma FlattenLow(a: seq<Slot>)
    requires a == [Single("I"), Single("bII"), Single("II"), Pair("#II", "bIII")]
    ensures Flatten(a) == ["I", "bII", "II", "#II", "bIII"]
  {
    assert Flatten([Single("I"), Single("bII"), Single("II"), Pair("#II", "bIII")])
      == ["I", "bII", "II", "#II", "bIII"];
  }

  lemma FlattenMiddle(b: seq<Slot>)
    requires b == [Pair("III", "bIV"), Single("IV"), Pair("#IV", "bV"), Single("V")]
    ensures Flatten(b) == ["III", "bIV", "IV", "#IV", "bV", "V"]
  {
    assert Flatten([Pair("III", "bIV"), Single("IV"), Pair("#IV", "bV"), Single("V")])
      == ["III", "bIV", "IV", "#IV", "bV", "V"];
  }

  lemma FlattenHigh(c: seq<Slot>)
    requires c == [Pair("#V", "bVI"), Single("VI"), Pair("#VI", "bVII"), Single("VII")]
    ensures Flatten(c) == ["#V", "bVI", "VI", "#VI", "bVII", "VII"]
  {
    assert Flatten([Pair("#V", "bVI"), Single("VI"), Pair("#VI", "bVII"), Single("VII")])
      == ["#V", "bVI", "VI", "#VI", "bVII", "VII"];
  }

  lemma FlattenChunks(xs: seq<Slot>, a: seq<Slot>, b: seq<Slot>, c: seq<Slot>)
    requires a == [Single("I"), Single("bII"), Single("II"), Pair("#II", "bIII")]
    requires b == [Pair("III", "bIV"), Single("IV"), Pair("#IV", "bV"), Single("V")]
    requires c == [Pair("#V", "bVI"), Single("VI"), Pair("#VI", "bVII"), Single("VII")]
    requires xs == a + b + c
    ensures Flatten(xs) == AllIntervalNamesUnpacked
  {
    FlattenLow(a);
    FlattenMiddle(b);
    FlattenHigh(c);
    FlattenConcat(a + b, c);
    FlattenConcat(a, b);
  }

  /**
   * The two tables agree: opening the pairs of the slot table in place gives the 17 labels in
   * their listed order, and no label occurs twice.
   */
  lemma TablesAgree()
    ensures Flatten(AllIntervalNames) == AllIntervalNamesUnpacked
    ensures Distinct(AllIntervalNamesUnpacked)
    ensures |AllIntervalNames| == 12 && |AllIntervalNamesUnpacked| == 17
  {
    var a := [Single("I"), Single("bII"), Single("II"), Pair("#II", "bIII")];
    var b := [Pair("III", "bIV"), Single("IV"), Pair("#IV", "bV"), Single("V")];
    var c := [Pair("#V", "bVI"), Single("VI"), Pair("#VI", "bVII"), Single("VII")];
    assert AllIntervalNames == a + b + c;
    FlattenChunks(AllIntervalNames, a, b, c);
    UnpackedDistinct(AllIntervalNamesUnpacked);
  }

  lemma UnpackedDistinct(xs: seq<string>)
    requires xs == ["I", "bII", "II", "#II", "bIII", "III", "bIV", "IV", "#IV", "bV", "V", "#V", "bVI",
      "VI", "#VI", "bVII", "VII"]
    ensures Distinct(xs)
  {
  }

  /** The table test of the source: the entry is the label itself, or a pair containing it. */
  predicate Holds(e: Slot, interval: string)
  {
    match e
    case Single(l) => l == interval
    case Pair(a, b) => interval == a || interval == b
  }

  lemma HoldsLabels(e: Slot, interval: string)
    ensures Holds(e, interval) <==> interval in Labels(e)
  {
  }

  /** The first slot from `k` on whose entry holds `label`. */
  function SlotFrom(interval: string, k: nat): (r: Option<nat>)
    ensures r.Some? ==> k <= r.value < |AllIntervalNames| && Holds(AllIntervalNames[r.value], interval)
    ensures r.None? ==> forall j :: k <= j < |AllIntervalNames| ==> !Holds(AllIntervalNames[j], interval)
    decreases |AllIntervalNames| - k
  {
    if k >= |AllIntervalNames| then None
    else if Holds(AllIntervalNames[k], interval) then Some(k)
    else SlotFrom(interval, k + 1)
  }

  /** The slot of a label: the position in `AllIntervalNames` of the entry that holds it. */
  function SlotOf(interval: string): Option<nat>
  {
    SlotFrom(interval, 0)
  }

  /** A label lies in the flattening exactly when some entry holds it. */
  lemma {:induction false} FlattenHolds(es: seq<Slot>, interval: string)
    ensures interval in Flatten(es) <==> exists j :: 0 <= j < |es| && Holds(es[j], interval)
  {
    if |es| > 0 {
      FlattenHolds(es[1..], interval);
      HoldsLabels(es[0], interval);
      if interval in Flatten(es[1..]) {
        var j :| 0 <= j < |es[1..]| && Holds(es[1..][j], interval);
        assert Holds(es[j + 1], interval);
      }
      if exists j :: 0 <= j < |es| && Holds(es[j], interval) {
        var j :| 0 <= j < |es| && Holds(es[j], interval);
        if j > 0 {
          assert Holds(es[1..][j - 1], interval);
        }
      }
    }
  }

  /** When the flattening has no repeats, two entries holding one label are the same entry. */
  lemma {:induction false} FlattenUnique(es: seq<Slot>, interval: string, i: nat, j: nat)
    requires Distinct(Flatten(es)) && i < |es| && j < |es|
    requires Holds(es[i], interval) && Holds(es[j], interval)
    ensures i == j
  {
    if i != j {
      var lo := if i < j then i else j;
      var hi := if i < j then j else i;
      FlattenConcat(es[..hi], es[hi..]);
      assert es == es[..hi] + es[hi..];
      FlattenHolds(es[..hi], interval);
      assert Holds(es[..hi][lo], interval);
      HoldsLabels(es[hi], interval);
      FlattenFrom(es, hi);
      DistinctConcat(Flatten(es[..hi]), Flatten(es[hi..]), interval);
    }
  }

  /** Opening the entries from `k` on: entry `k`'s labels, then those of the entries after it. */
  lemma FlattenFrom(es: seq<Slot>, k: nat)
    requires k < |es|
    ensures Flatten(es[k..]) == Labels(es[k]) + Flatten(es[k + 1..])
  {
    assert es[k..][1..] == es[k + 1..];
  }

  /** In a list without repeats, no name sits both in the front part and in the back part. */
  lemma DistinctConcat(a: seq<string>, b: seq<string>, x: string)
    requires Distinct(a + b)
    ensures x in a ==> x !in b
  {
    if x in a {
      var i :| 0 <= i < |a| && a[i] == x;
      forall j | 0 <= j < |b|
        ensures b[j] != x
      {
        assert (a + b)[i] == a[i] && (a + b)[|a| + j] == b[j];
      }
    }
  }

  /**
   * Every one of the 17 labels has exactly one slot, below 12, whose entry holds it; any
   * other text has none (the source then leaves its index unbound).
   */
  lemma SlotOfLabel(interval: string)
    ensures SlotOf(interval).Some? <==> interval in AllIntervalNamesUnpacked
    ensures SlotOf(interval).Some? ==>
      && SlotOf(interval).value < 12
      && forall j :: 0 <= j < |AllIntervalNames| && Holds(AllIntervalNames[j], interval) ==> j == SlotOf(interval).value
  {
    TablesAgree();
    FlattenHolds(AllIntervalNames, interval);
    if SlotOf(interval).Some? {
      forall j | 0 <= j < |AllIntervalNames| && Holds(AllIntervalNames[j], interval)
        ensures j == SlotOf(interval).value
      {
        FlattenUnique(AllIntervalNames, interval, j, SlotOf(interval).value);
      }
    }
  }

  /** A label held by entry `k` of the table has slot `k`. */
  lemma SlotAt(interval: string, k: nat)
    requires k < |AllIntervalNames| && Holds(AllIntervalNames[k], interval)
    ensures SlotOf(interval) == Some(k)
  {
    TablesAgree();
    FlattenHolds(AllIntervalNames, interval);
    SlotOfLabel(interval);
  }

  /** The examples of the source: `II` is slot 2 and `bVII` shares slot 10 with `#VI`; and the fifths. */
  lemma SlotExamples()
    ensures SlotOf("II") == Some(2) && SlotOf("bVII") == Some(10)
    ensures SlotOf("bV") == Some(6) && SlotOf("#V") == Some(8) && SlotOf("V") == Some(7)
  {
  }

  /**
   * `get_all_intervals_index` (chordgenerator.py) and `get_interval_index`
   * (scalegenerator.py): scans the whole table and keeps the last slot that holds the label.
   * `None` stands for the unbound index of an unknown label.
   */
  method GetAllIntervalsIndex(interval: string) returns (index: Option<nat>)
    ensures index == SlotOf(interval)
    ensures index.Some? <==> interval in AllIntervalNamesUnpacked
  {
    SlotOfLabel(interval);
    index := None;
    for k := 0 to |AllIntervalNames|
      invariant index.None? ==> forall j :: 0 <= j < k ==> !Holds(AllIntervalNames[j], interval)
      invariant index.Some? ==> index.value < k && Holds(AllIntervalNames[index.value], interval)
    {
      var item := AllIntervalNames[k];
      if item.Single? && interval == item.spelling {
        index := Some(k);
      } else if item.Pair? && (interval == item.first || interval == item.second) {
        index := Some(k);
      }
    }
  }

  predicate IsUnisonName(n: string) { n == "I" }
  predicate IsMajorName(n: string) { n in ["II", "III", "VI", "VII"] }
  predicate IsMinorName(n: string) { n in ["bII", "bIII", "bVI", "bVII"] }
  predicate IsDiminishedName(n: string) { n in ["bIV", "bV"] }
  predicate IsPerfectName(n: string) { n in ["IV", "V"] }
  predicate IsAugmentedName(n: string) { n in ["#II", "#IV", "#V", "#VI"] }

  /** How many of the six classes a name falls in. */
  function ClassCount(n: string): nat
  {
    (if IsUnisonName(n) then 1 else 0) + (if IsMajorName(n) then 1 else 0)
    + (if IsMinorName(n) then 1 else 0) + (if IsDiminishedName(n) then 1 else 0)
    + (if IsPerfectName(n) then 1 else 0) + (if IsAugmentedName(n) then 1 else 0)
  }

  /** Each of the 17 labels falls in exactly one of the six classes, and any other text in none. */
  lemma ClassificationExact(n: string)
    ensures ClassCount(n) == if n in AllIntervalNamesUnpacked then 1 else 0
  {
  }

  /** `choose_name_for_interval` as a value: the spelling chosen for each pair slot. */
  function Preferred(e: Slot): Slot
  {
    if e == Pair("III", "bIV") then Single("III")
    else if e == Pair("#V", "bVI") then Single("#V")
    else if e == Pair("#II", "bIII") then Single("bIII")
    else if e == Pair("#VI", "bVII") then Single("bVII")
    else if e == Pair("#IV", "bV") then Single("bV")
    else e
  }

  /**
   * Every entry of the table resolves to a single label it holds: a single entry stays as it
   * is, and the five pairs resolve to `III`, `#V`, `bIII`, `bVII` and `bV`.
   */
  lemma PreferredResolves(k: nat)
    requires k < |AllIntervalNames|
    ensures Preferred(AllIntervalNames[k]).Single?
    ensures Holds(AllIntervalNames[k], Preferred(AllIntervalNames[k]).spelling)
    ensures AllIntervalNames[k].Single? ==> Preferred(AllIntervalNames[k]) == AllIntervalNames[k]
  {
  }

  /** The two lists `choose_name_for_interval` walks: keep the first spelling, then the second. */
  const EnharmonicsFirst: seq<(string, string)> := [("III", "bIV"), ("#V", "bVI")]
  const EnharmonicsSecond: seq<(string, string)> := [("#II", "bIII"), ("#VI", "bVII"), ("#IV", "bV")]

  /** One walk over a list of pairs, replacing an entry equal to a pair by one of its spellings. */
  function Pass(e: Slot, pairs: seq<(string, string)>, keepFirst: bool): Slot
    decreases |pairs|
  {
    if |pairs| == 0 then e
    else
      var next := if e == Pair(pairs[0].0, pairs[0].1)
        then Single(if keepFirst then pairs[0].0 else pairs[0].1) else e;
      Pass(next, pairs[1..], keepFirst)
  }

  /** The two walks together choose exactly the spellings of `Preferred`. */
  lemma PassesPreferred(e: Slot)
    ensures Pass(Pass(e, EnharmonicsFirst, true), EnharmonicsSecond, false) == Preferred(e)
  {
    var first := Pass(e, EnharmonicsFirst, true);
    assert EnharmonicsFirst[1..][1..] == [];
    assert first == if e == Pair("III", "bIV") then Single("III")
      else if e == Pair("#V", "bVI") then Single("#V") else e;
    assert EnharmonicsSecond[1..][1..][1..] == [];
  }

  /** The labels that name their own slot once a pair's spelling is chosen. */
  predicate IsPreferred(interval: string)
  {
    SlotOf(interval).Some? && Preferred(AllIntervalNames[SlotOf(interval).value]) == Single(interval)
  }

  /** Exactly five of the 17 labels are the spelling not chosen for their slot. */
  lemma PreferredLabels(interval: string)
    requires interval in AllIntervalNamesUnpacked
    ensures !IsPreferred(interval) <==> interval in ["bIV", "bVI", "#II", "#VI", "#IV"]
  {
    SlotOfLabel(interval);
    PreferredHolder(SlotOf(interval).value, interval);
  }

  /** An entry's chosen spelling is a label it holds unless that label is one of the five. */
  lemma PreferredHolder(k: nat, interval: string)
    requires k < |AllIntervalNames| && Holds(AllIntervalNames[k], interval)
    ensures Preferred(AllIntervalNames[k]) == Single(interval) <==>
      interval !in ["bIV", "bVI", "#II", "#VI", "#IV"]
  {
  }

  /** What the source accepts in a note position: a `Note`, or some other value (text here). */
  datatype NoteArg = NoteValue(note: Note) | TextValue(text: string)

  datatype IntervalError = InvalidIntervalAttribute(attr: string)

  /** An interval between two notes; `note2` is empty (`None`) until it is set. */
  class Interval {
    var name: Slot
    var note1: Note
    var note2: Option<Note>

    constructor (name: string, note1: Note, note2: Option<Note>)
      requires name in AllIntervalNamesUnpacked || name == ""
      ensures this.name == Single(name) && this.note1 == note1 && this.note2 == note2
    {
      this.name := Single(name);
      this.note1 := note1;
      this.note2 := note2;
    }

    predicate IsUnison() reads this { name.Single? && IsUnisonName(name.spelling) }
    predicate IsMajor() reads this { name.Single? && IsMajorName(name.spelling) }
    predicate IsMinor() reads this { name.Single? && IsMinorName(name.spelling) }
    predicate IsDiminished() reads this { name.Single? && IsDiminishedName(name.spelling) }
    predicate IsPerfect() reads this { name.Single? && IsPerfectName(name.spelling) }
    predicate IsAugmented() reads this { name.Single? && IsAugmentedName(name.spelling) }

    /**
     * `get_second_note`: builds `note1`'s chromatic scale and takes the note at the label's
     * slot. The label must be one of the 17 (otherwise the source's index is unbound).
     */
    method GetSecondNote()
      requires note1.Valid() && name.Single? && name.spelling in AllIntervalNamesUnpacked
      modifies this`note2
      ensures note2.Some? && fresh(note2.value) && note2.value.Valid()
      ensures note2.value.name == SecondNoteName(note1.name, name.spelling)
    {
      var generator := new ChromaticScaleGenerator(note1);
      generator.Generate();
      var index := GetAllIntervalsIndex(name.spelling);
      SlotOfLabel(name.spelling);
      ChromaticScaleNames(note1.name);
      note2 := Some(generator.notes[index.value]);
    }

    /** `choose_name_for_interval`: replaces a pair by its chosen spelling, in two passes. */
    method ChooseNameForInterval()
      modifies this`name
      ensures name == Preferred(old(name))
    {
      for k := 0 to |EnharmonicsFirst|
        invariant Pass(name, EnharmonicsFirst[k..], true) == Pass(old(name), EnharmonicsFirst, true)
      {
        assert EnharmonicsFirst[k..][1..] == EnharmonicsFirst[k + 1..];
        if name == Pair(EnharmonicsFirst[k].0, EnharmonicsFirst[k].1) {
          name := Single(EnharmonicsFirst[k].0);
        }
      }
      ghost var afterFirst := name;
      for k := 0 to |EnharmonicsSecond|
        invariant Pass(name, EnharmonicsSecond[k..], false) == Pass(afterFirst, EnharmonicsSecond, false)
      {
        assert EnharmonicsSecond[k..][1..] == EnharmonicsSecond[k + 1..];
        if name == Pair(EnharmonicsSecond[k].0, EnharmonicsSecond[k].1) {
          name := Single(EnharmonicsSecond[k].1);
        }
      }
      PassesPreferred(old(name));
    }

    /**
     * `get_name`: finds `note2` in `note1`'s chromatic scale (first replacing it by its
     * enharmonic when its spelling is not there), names the interval after that slot, and
     * resolves a pair slot to its chosen spelling.
     */
    method GetName()
      requires note1.Valid() && note2.Some? && note2.value.Valid()
      modifies this`name, this`note2, note2.value`accidentSign
      ensures name == Single(IntervalNameOf(note1.name, old(note2.value.name)))
      ensures note2.Some? && note2.value.name == Spelling(note1.name, old(note2.value.name))
      ensures InChromaticScale(note1.name, old(note2.value.name)) ==>
        note2 == old(note2) && note2.value.accidentSign == old(note2.value.accidentSign)
      ensures !InChromaticScale(note1.name, old(note2.value.name)) ==>
        old(note2).value.accidentSign == SignAfterCheck(old(note2.value.name), old(note2.value.accidentSign))
    {
      var given := note2.value.name;
      var generator := new ChromaticScaleGenerator(note1);
      generator.Generate();
      var scaleNames := Names(generator.notes);
      assert scaleNames == ChromaticScale(note1.name).value;
      ChromaticScaleCovers(note1.name, given);
      if given !in scaleNames {
        var enharmonic := Enharmonize(note2.value);
        note2 := enharmonic;
      }
      assert note2.Some? && note2.value.name == Spelling(note1.name, given);
      var index := IndexOf(scaleNames, note2.value.name).value;
      NameAtSlot(note1.name, given, index);
      name := AllIntervalNames[index];
      if name.Pair? {
        ChooseNameForInterval();
      }
    }
  }

  /** `Interval(name, note1, note2)`: the three checks of the source, in its order. */
  method NewInterval(name: string, note1: NoteArg, note2: NoteArg) returns (r: Result<Interval, IntervalError>)
    ensures r.Failure? <==>
      || (name !in AllIntervalNamesUnpacked && name != "")
      || note1.TextValue?
      || (note2.TextValue? && note2.text != "")
    ensures r.Failure? && name !in AllIntervalNamesUnpacked && name != "" ==> r.error == InvalidIntervalAttribute("name")
    ensures r.Failure? && (name in AllIntervalNamesUnpacked || name == "") && note1.TextValue? ==>
      r.error == InvalidIntervalAttribute("note1")
    ensures r.Failure? && (name in AllIntervalNamesUnpacked || name == "") && note1.NoteValue? ==>
      r.error == InvalidIntervalAttribute("note2")
    ensures r.Success? ==>
      && fresh(r.value) && r.value.name == Single(name) && r.value.note1 == note1.note
      && r.value.note2 == (if note2.NoteValue? then Some(note2.note) else None)
  {
    if name !in AllIntervalNamesUnpacked && name != "" {
      return Failure(InvalidIntervalAttribute("name"));
    }
    if !note1.NoteValue? {
      return Failure(InvalidIntervalAttribute("note1"));
    }
    if !note2.NoteValue? && note2 != TextValue("") {
      return Failure(InvalidIntervalAttribute("note2"));
    }
    var interval := new Interval(name, note1.note, if note2.NoteValue? then Some(note2.note) else None);
    return Success(interval);
  }

  /** The note a label reaches from a root: the root's chromatic scale at the label's slot. */
  function SecondNoteName(root: string, interval: string): string
    requires root in AllNoteNames && interval in AllIntervalNamesUnpacked
  {
    ChromaticScaleShape(root);
    SlotOfLabel(interval);
    ChromaticScale(root).value[SlotOf(interval).value]
  }

  /** `n in chromatic_scale_names`: the root's chromatic scale is defined and spells `n` as given. */
  predicate InChromaticScale(root: string, n: string)
  {
    ChromaticScale(root).Some? && n in ChromaticScale(root).value
  }

  /** The spelling of `n` that the root's chromatic scale uses: `n` itself or its enharmonic. */
  function Spelling(root: string, n: string): (r: string)
    requires root in AllNoteNames && n in AllNoteNames
    ensures ChromaticScale(root).Some? && r in ChromaticScale(root).value
    ensures r == n || (IsAccidentalName(n) && Some(r) == EnharmonicName(n))
  {
    ChromaticScaleCovers(root, n);
    if n in ChromaticScale(root).value then n else EnharmonicName(n).value
  }

  /** The label `get_name` gives to slot `k`: its one label, or the chosen spelling of its pair. */
  function SlotName(k: nat): string
    requires k < |AllIntervalNames|
  {
    PreferredResolves(k);
    Preferred(AllIntervalNames[k]).spelling
  }

  /** Slot 6, the tritone, is named `bV`. */
  lemma SlotNameOfTritone(k: nat)
    requires k == 6
    ensures SlotName(k) == "bV"
  {
    assert AllIntervalNames[k] == Pair("#IV", "bV");
  }

  /** `get_name` names the interval after the slot where the scale holds the spelling. */
  lemma NameAtSlot(root: string, n: string, index: nat)
    requires root in AllNoteNames && n in AllNoteNames
    requires ChromaticScale(root).Some? && IndexOf(ChromaticScale(root).value, Spelling(root, n)) == Some(index)
    ensures index < |AllIntervalNames|
    ensures IntervalNameOf(root, n) == SlotName(index)
    ensures Preferred(AllIntervalNames[index]) == Single(SlotName(index))
    ensures AllIntervalNames[index].Single? ==> Preferred(AllIntervalNames[index]) == AllIntervalNames[index]
  {
    ChromaticScaleShape(root);
    PreferredResolves(index);
  }

  /** The label `get_name` assigns to the interval from `root` to `n`. */
  function IntervalNameOf(root: string, n: string): string
    requires root in AllNoteNames && n in AllNoteNames
  {
    ChromaticScaleShape(root);
    SlotName(IndexOf(ChromaticScale(root).value, Spelling(root, n)).value)
  }

  /**
   * Naming the note a label reaches gives the label back when it is the chosen spelling of its
   * slot, and the chosen spelling of the same slot otherwise.
   */
  lemma SecondNoteThenName(root: string, interval: string)
    requires root in AllNoteNames && interval in AllIntervalNamesUnpacked
    ensures SecondNoteName(root, interval) in AllNoteNames
    ensures SlotOf(interval).Some?
    ensures SlotOf(interval).value < |AllIntervalNames|
    ensures IntervalNameOf(root, SecondNoteName(root, interval)) == SlotName(SlotOf(interval).value)
    ensures IntervalNameOf(root, SecondNoteName(root, interval)) == interval <==> IsPreferred(interval)
  {
    ChromaticScaleShape(root);
    ChromaticScaleNames(root);
    SlotOfLabel(interval);
    var k := SlotOf(interval).value;
    var second := SecondNoteName(root, interval);
    IndexOfDistinct(ChromaticScale(root).value, second, k);
    NameAtSlot(root, second, k);
  }

  /** Whatever two catalog notes it is given, `get_name` answers with a label chosen for its slot. */
  lemma IntervalNameIsLabel(root: string, n: string)
    requires root in AllNoteNames && n in AllNoteNames
    ensures IntervalNameOf(root, n) in AllIntervalNamesUnpacked
    ensures IsPreferred(IntervalNameOf(root, n))
  {
    ChromaticScaleShape(root);
    var index := IndexOf(ChromaticScale(root).value, Spelling(root, n)).value;
    NameAtSlot(root, n, index);
    PreferredResolves(index);
    var l := IntervalNameOf(root, n);
    TablesAgree();
    FlattenHolds(AllIntervalNames, l);
    SlotOfLabel(l);
  }

  /** The examples of the source: from C, `bV` reaches Gb and `#V` reaches Ab. */
  lemma SecondNoteExamplesFromC(root: string)
    requires root == "C"
    ensures SecondNoteName(root, "bV") == "Gb" && SecondNoteName(root, "#V") == "Ab"
  {
    ChromaticScaleOfC(root);
    SlotExamples();
  }

  /** The example of the source: from C to F#, spelled Gb in C's scale, is a `bV`. */
  lemma IntervalNameExampleFromC(root: string, n: string)
    requires root == "C" && n == "F#"
    ensures IntervalNameOf(root, n) == "bV"
  {
    assert Spelling(root, n) == "Gb" by {
      ChromaticScaleOfC(root);
      EnharmonicOfFSharp(n);
      SpellingOfFSharpInC(root, n);
    }
    GbInScaleOfC(root);
    NameAtSlot(root, n, 6);
    SlotNameOfTritone(6);
  }

  lemma GbInScaleOfC(root: string)
    requires root == "C"
    ensures ChromaticScale(root).Some? && IndexOf(ChromaticScale(root).value, "Gb") == Some(6)
  {
    ChromaticScaleOfC(root);
    ScalesDistinct();
    IndexOfDistinct(FlatScale, "Gb", 6);
  }

  lemma EnharmonicOfFSharp(n: string)
    requires n == "F#"
    ensures EnharmonicName(n) == Some("Gb")
  {
    assert IsAccidentalName(n) by {
      assert n == AccidentalNotes[2].0;
    }
    EnharmonicFromPair(n, 0, 2);
  }

  lemma SpellingOfFSharpInC(root: string, n: string)
    requires root == "C" && n == "F#"
    requires ChromaticScale(root) == Some(FlatScale) && EnharmonicName(n) == Some("Gb")
    ensures Spelling(root, n) == "Gb"
  {
    FilteredNames();
    WithoutMembers(AllNoteNames, '#');
    assert n[1] == '#';
    assert n !in FlatScale;
  }

}
