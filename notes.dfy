/**
 * The pitch-class catalog (src/musicinpython/notes.py): the 17 note names, the
 * sharp/flat key partition, the `Note` object with its accidental predicates, the
 * enharmonic partner, and the chromatic-scale generator.
 */
module Notes {
  import opened Wrappers
  import opened StringOps

  const NaturalNotes: seq<string> := ["C", "D", "E", "F", "G", "A", "B"]

  /** The accidentals, each with its enharmonic partner: (sharp spelling, flat spelling). */
  const AccidentalNotes: seq<(string, string)> :=
    [("C#", "Db"), ("D#", "Eb"), ("F#", "Gb"), ("G#", "Ab"), ("A#", "Bb")]

  const AllNoteNames: seq<string> :=
    ["C", "C#", "Db", "D", "D#", "Eb", "E", "F", "F#", "Gb", "G", "G#", "Ab", "A", "A#", "Bb", "B"]

  /** Keys whose scales are spelled with sharps. */
  const SharpKeys: seq<string> := ["G", "D", "A", "E", "B", "F#", "C#", "G#", "D#", "A#"]

  /** Keys whose scales are spelled with flats. */
  const FlatKeys: seq<string> := ["C", "F", "Bb", "Eb", "Ab", "Db", "Gb"]

  /** The sharp and flat keys split the 17 names into two disjoint groups of 10 and 7. */
  lemma KeysPartition()
    ensures |SharpKeys| == 10 && |FlatKeys| == 7
    ensures forall n :: n in SharpKeys ==> n !in FlatKeys
    ensures forall n :: n in AllNoteNames <==> n in SharpKeys || n in FlatKeys
  {
  }

  /** True for a name that sits in one of the accidental pairs. */
  predicate IsAccidentalName(n: string)
  {
    exists k :: 0 <= k < |AccidentalNotes| && (n == AccidentalNotes[k].0 || n == AccidentalNotes[k].1)
  }

  /** The sign `is_accidental` leaves on a note named `n` that carried `sign`: `n[1]` for an accidental. */
  function SignAfterCheck(n: string, sign: string): string
  {
    if IsAccidentalName(n) then AccidentalNames(n); [n[1]] else sign
  }

  /** The accidentals are exactly the two-character names, and their second character is the sign. */
  lemma {:induction false} AccidentalNames(n: string)
    ensures IsAccidentalName(n) <==> n in AllNoteNames && n !in NaturalNotes
    ensures IsAccidentalName(n) ==> |n| == 2 && (n[1] == '#' || n[1] == 'b')
    ensures n in NaturalNotes ==> |n| == 1
  {
    if n in AllNoteNames && n !in NaturalNotes {
      var k := if n in ["C#", "Db"] then 0 else if n in ["D#", "Eb"] then 1
        else if n in ["F#", "Gb"] then 2 else if n in ["G#", "Ab"] then 3 else 4;
      assert n == AccidentalNotes[k].0 || n == AccidentalNotes[k].1;
    }
  }

  /** `is_flat`: an accidental whose sign is `b`. */
  predicate IsFlatName(n: string)
  {
    IsAccidentalName(n) && |n| > 1 && n[1] == 'b'
  }

  /** `is_sharp`: an accidental whose sign is `#`. */
  predicate IsSharpName(n: string)
  {
    IsAccidentalName(n) && |n| > 1 && n[1] == '#'
  }

  /** No name is both flat and sharp, a natural is neither, and every accidental is one of the two. */
  lemma FlatSharpExclusive(n: string)
    ensures !(IsFlatName(n) && IsSharpName(n))
    ensures n in NaturalNotes ==> !IsFlatName(n) && !IsSharpName(n)
    ensures IsAccidentalName(n) ==> IsFlatName(n) || IsSharpName(n)
  {
    AccidentalNames(n);
  }

  datatype NoteError = InvalidNoteName(name: string)

  /** A note; `accidentSign` is filled in by `IsAccidental`. */
  class Note {
    const name: string
    var accidentSign: string

    /** Every note built through `NewNote` carries one of the 17 names. */
    predicate Valid()
    {
      name in AllNoteNames
    }

    constructor (name: string)
      requires name in AllNoteNames
      ensures this.name == name && accidentSign == "" && Valid()
    {
      this.name := name;
      accidentSign := "";
    }

    /** `is_accidental`: searches the accidental pairs and records the sign of a match. */
    method IsAccidental() returns (r: bool)
      modifies this`accidentSign
      ensures r == IsAccidentalName(name)
      ensures accidentSign == SignAfterCheck(name, old(accidentSign))
    {
      for k := 0 to |AccidentalNotes|
        invariant forall j :: 0 <= j < k ==> name != AccidentalNotes[j].0 && name != AccidentalNotes[j].1
        invariant accidentSign == old(accidentSign)
      {
        if name == AccidentalNotes[k].0 || name == AccidentalNotes[k].1 {
          AccidentalNames(name);
          accidentSign := [name[1]];
          return true;
        }
      }
      return false;
    }

    /** `is_flat`: an accidental whose recorded sign is `b`. */
    method IsFlat() returns (r: bool)
      modifies this`accidentSign
      ensures r == IsFlatName(name)
      ensures accidentSign == SignAfterCheck(name, old(accidentSign))
    {
      var accidental := IsAccidental();
      if accidental {
        r := accidentSign == "b";
      } else {
        r := false;
      }
    }

    /** `is_sharp`: an accidental whose recorded sign is `#`. */
    method IsSharp() returns (r: bool)
      modifies this`accidentSign
      ensures r == IsSharpName(name)
      ensures accidentSign == SignAfterCheck(name, old(accidentSign))
    {
      var accidental := IsAccidental();
      if accidental {
        r := accidentSign == "#";
      } else {
        r := false;
      }
    }
  }

  /** `Note(name)`: succeeds exactly for the 17 catalog names, otherwise `InvalidNoteNameError`. */
  method NewNote(name: string) returns (r: Result<Note, NoteError>)
    ensures r.Success? <==> name in AllNoteNames
    ensures r.Success? ==> fresh(r.value) && r.value.name == name && r.value.accidentSign == ""
    ensures r.Failure? ==> r.error == InvalidNoteName(name)
  {
    if name !in AllNoteNames {
      return Failure(InvalidNoteName(name));
    }
    var n := new Note(name);
    return Success(n);
  }

  /** What `enharmonize_note`'s search returns, starting at pair `k` (it tests `name in item[i]`). */
  function EnharmonicFrom(n: string, k: nat): Option<string>
    decreases |AccidentalNotes| - k
  {
    if k >= |AccidentalNotes| then None
    else if Contains(AccidentalNotes[k].0, n) then Some(AccidentalNotes[k].1)
    else if Contains(AccidentalNotes[k].1, n) then Some(AccidentalNotes[k].0)
    else EnharmonicFrom(n, k + 1)
  }

  /** `enharmonize_note` on names: the pair partner of an accidental, nothing for a natural. */
  function EnharmonicName(n: string): Option<string>
  {
    if IsAccidentalName(n) then EnharmonicFrom(n, 0) else None
  }

  /** Between two-character names the substring test is equality. */
  lemma ContainsSameLength(s: string, n: string)
    requires |s| == |n|
    ensures Contains(s, n) <==> s == n
  {
    if Contains(s, n) {
      var i := ContainsWitness(s, n);
      assert s[0..|n|] == s;
    }
    if s == n {
      assert s[0..|n|] == n;
      ContainsAt(s, n, 0);
    }
  }

  /** The search finds the pair that holds an accidental. */
  lemma {:induction false} EnharmonicFromPair(n: string, k: nat, j: nat)
    requires k <= j < |AccidentalNotes| && (n == AccidentalNotes[j].0 || n == AccidentalNotes[j].1)
    ensures EnharmonicFrom(n, k) == Some(if n == AccidentalNotes[j].0 then AccidentalNotes[j].1 else AccidentalNotes[j].0)
    decreases j - k
  {
    ContainsSameLength(AccidentalNotes[k].0, n);
    ContainsSameLength(AccidentalNotes[k].1, n);
    if k < j {
      EnharmonicFromPair(n, k + 1, j);
    }
  }

  /**
   * The enharmonic of an accidental is its partner in the same pair, with the opposite sign;
   * applying it twice gives the name back; a natural has none.
   */
  lemma EnharmonicInvolution(n: string)
    ensures EnharmonicName(n).Some? <==> IsAccidentalName(n)
    ensures IsAccidentalName(n) ==>
      var m := EnharmonicName(n).value;
      && IsAccidentalName(m) && m != n
      && (exists k :: 0 <= k < |AccidentalNotes| && {n, m} == {AccidentalNotes[k].0, AccidentalNotes[k].1})
      && (IsFlatName(n) <==> IsSharpName(m))
      && EnharmonicName(m) == Some(n)
  {
    if IsAccidentalName(n) {
      var j :| 0 <= j < |AccidentalNotes| && (n == AccidentalNotes[j].0 || n == AccidentalNotes[j].1);
      EnharmonicFromPair(n, 0, j);
      var m := EnharmonicName(n).value;
      assert IsAccidentalName(m);
      EnharmonicFromPair(m, 0, j);
      assert IsFlatName(n) <==> IsSharpName(m) by {
        PairSigns(j);
      }
    }
  }

  /** Each accidental pair holds a sharp spelling first and a flat one second. */
  lemma PairSigns(k: nat)
    requires k < |AccidentalNotes|
    ensures IsSharpName(AccidentalNotes[k].0) && !IsFlatName(AccidentalNotes[k].0)
    ensures IsFlatName(AccidentalNotes[k].1) && !IsSharpName(AccidentalNotes[k].1)
  {
    assert IsAccidentalName(AccidentalNotes[k].0) && IsAccidentalName(AccidentalNotes[k].1);
  }

  /** `enharmonize_note`: a fresh note for the partner spelling, `None` for a natural. */
  method Enharmonize(n: Note) returns (r: Option<Note>)
    modifies n`accidentSign
    ensures EnharmonicName(n.name).Some? <==> r.Some?
    ensures r.Some? ==> fresh(r.value) && r.value.name == EnharmonicName(n.name).value && r.value.Valid()
    ensures n.accidentSign == SignAfterCheck(n.name, old(n.accidentSign))
  {
    var accidental := n.IsAccidental();
    if !accidental {
      return None;
    }
    EnharmonicInvolution(n.name);
    for k := 0 to |AccidentalNotes|
      invariant EnharmonicFrom(n.name, k) == EnharmonicFrom(n.name, 0)
    {
      if Contains(AccidentalNotes[k].0, n.name) {
        var m := new Note(AccidentalNotes[k].1);
        return Some(m);
      } else if Contains(AccidentalNotes[k].1, n.name) {
        var m := new Note(AccidentalNotes[k].0);
        return Some(m);
      }
    }
    assert false;
  }

  /** The names of a list of notes. */
  function Names(ns: seq<Note>): (r: seq<string>)
    ensures |r| == |ns| && forall k :: 0 <= k < |ns| ==> r[k] == ns[k].name
  {
    seq(|ns|, k requires 0 <= k < |ns| => ns[k].name)
  }

  /** The one-name list `[x]` when `x` does not contain `c`, else nothing. */
  function Keep(x: string, c: char): seq<string>
  {
    if c in x then [] else [x]
  }

  /** The names of a rotated list of notes are the rotated list of names. */
  lemma NamesRotate(ns: seq<Note>, i: nat)
    requires i <= |ns|
    ensures Names(ns[i..] + ns[..i]) == Rotate(Names(ns), i)
  {
    var r := ns[i..] + ns[..i];
    assert forall k :: 0 <= k < |r| ==> Names(r)[k] == Rotate(Names(ns), i)[k];
  }

  /** The names that do not contain character `c`, in order (the list comprehensions of the source). */
  function Without(xs: seq<string>, c: char): seq<string>
  {
    if |xs| == 0 then [] else Keep(xs[0], c) + Without(xs[1..], c)
  }

  lemma {:induction false} WithoutConcat(a: seq<string>, b: seq<string>, c: char)
    ensures Without(a + b, c) == Without(a, c) + Without(b, c)
  {
    if |a| > 0 {
      assert (a + b)[1..] == a[1..] + b;
      WithoutConcat(a[1..], b, c);
    } else {
      assert a + b == b;
    }
  }

  /** Every kept name comes from the input and lacks `c`; every such input name is kept. */
  lemma {:induction false} WithoutMembers(xs: seq<string>, c: char)
    ensures forall x :: x in Without(xs, c) <==> x in xs && c !in x
  {
    if |xs| > 0 {
      WithoutMembers(xs[1..], c);
      assert xs == [xs[0]] + xs[1..];
    }
  }

  /** C to D: a chunk of `AllNoteNames` small enough to filter by evaluation. */
  lemma FilterChunk1(a: seq<string>)
    requires a == ["C", "C#", "Db", "D"]
    ensures Without(a, 'b') == ["C", "C#", "D"] && Without(a, '#') == ["C", "Db", "D"]
  {
    assert Without(["C", "C#", "Db", "D"], 'b') == ["C", "C#", "D"];
    assert Without(["C", "C#", "Db", "D"], '#') == ["C", "Db", "D"];
  }

  /** D# to F. */
  lemma FilterChunk2(a: seq<string>)
    requires a == ["D#", "Eb", "E", "F"]
    ensures Without(a, 'b') == ["D#", "E", "F"] && Without(a, '#') == ["Eb", "E", "F"]
  {
    assert Without(["D#", "Eb", "E", "F"], 'b') == ["D#", "E", "F"];
    assert Without(["D#", "Eb", "E", "F"], '#') == ["Eb", "E", "F"];
  }

  /** F# to G#. */
  lemma FilterChunk3(a: seq<string>)
    requires a == ["F#", "Gb", "G", "G#"]
    ensures Without(a, 'b') == ["F#", "G", "G#"] && Without(a, '#') == ["Gb", "G"]
  {
    assert Without(["F#", "Gb", "G", "G#"], 'b') == ["F#", "G", "G#"];
    assert Without(["F#", "Gb", "G", "G#"], '#') == ["Gb", "G"];
  }

  /** Ab to B. */
  lemma FilterChunk4(a: seq<string>)
    requires a == ["Ab", "A", "A#", "Bb", "B"]
    ensures Without(a, 'b') == ["A", "A#", "B"] && Without(a, '#') == ["Ab", "A", "Bb", "B"]
  {
    assert Without(a, 'b') == ["A", "A#", "B"] by {
      assert Without(["Ab", "A", "A#", "Bb", "B"], 'b') == ["A", "A#", "B"];
    }
    assert Without(["Ab", "A", "A#", "Bb", "B"], '#') == ["Ab", "A", "Bb", "B"];
  }

  lemma FilterLowHalf(xs: seq<string>, a: seq<string>, b: seq<string>)
    requires a == ["C", "C#", "Db", "D"] && b == ["D#", "Eb", "E", "F"] && xs == a + b
    ensures Without(xs, 'b') == ["C", "C#", "D", "D#", "E", "F"]
    ensures Without(xs, '#') == ["C", "Db", "D", "Eb", "E", "F"]
  {
    FilterChunk1(a);
    FilterChunk2(b);
    WithoutConcat(a, b, 'b');
    WithoutConcat(a, b, '#');
  }

  lemma FilterHighHalf(xs: seq<string>, c: seq<string>, d: seq<string>)
    requires c == ["F#", "Gb", "G", "G#"] && d == ["Ab", "A", "A#", "Bb", "B"] && xs == c + d
    ensures Without(xs, 'b') == ["F#", "G", "G#", "A", "A#", "B"]
    ensures Without(xs, '#') == ["Gb", "G", "Ab", "A", "Bb", "B"]
  {
    FilterChunk3(c);
    FilterChunk4(d);
    WithoutConcat(c, d, 'b');
    WithoutConcat(c, d, '#');
  }

  lemma FilterChunks(xs: seq<string>, low: seq<string>, high: seq<string>)
    requires low == ["C", "C#", "Db", "D", "D#", "Eb", "E", "F"]
    requires high == ["F#", "Gb", "G", "G#", "Ab", "A", "A#", "Bb", "B"] && xs == low + high
    ensures Without(xs, 'b') == SharpScale && Without(xs, '#') == FlatScale
  {
    FilterLowHalf(low, low[..4], low[4..]);
    FilterHighHalf(high, high[..4], high[4..]);
    WithoutConcat(low, high, 'b');
    WithoutConcat(low, high, '#');
  }

  /** The two base lists: the 17 names without the flats, and without the sharps. */
  lemma FilteredNames()
    ensures Without(AllNoteNames, 'b') == SharpScale
    ensures Without(AllNoteNames, '#') == FlatScale
  {
    FilterChunks(AllNoteNames, AllNoteNames[..8], AllNoteNames[8..]);
  }

  const SharpScale: seq<string> := ["C", "C#", "D", "D#", "E", "F", "F#", "G", "G#", "A", "A#", "B"]
  const FlatScale: seq<string> := ["C", "Db", "D", "Eb", "E", "F", "Gb", "G", "Ab", "A", "Bb", "B"]

  /** The chromatic list from C in the root's spelling convention; empty for an unknown root. */
  function BaseScale(root: string): seq<string>
  {
    if root in SharpKeys then SharpScale
    else if root in FlatKeys then FlatScale
    else []
  }

  /**
   * The base list is the source's list comprehension over the 17 names: flats dropped for a
   * sharp key, sharps dropped for a flat key.
   */
  lemma BaseScaleFiltered(root: string)
    ensures root in SharpKeys ==> BaseScale(root) == Without(AllNoteNames, 'b')
    ensures root !in SharpKeys && root in FlatKeys ==> BaseScale(root) == Without(AllNoteNames, '#')
  {
    FilteredNames();
  }

  /** A catalog root has a 12-name base list holding the root; any other name has an empty one. */
  lemma BaseScaleHoldsRoot(root: string)
    ensures root in AllNoteNames <==> root in BaseScale(root)
    ensures |BaseScale(root)| == if root in AllNoteNames then 12 else 0
  {
  }

  lemma ScalesDistinct()
    ensures Distinct(SharpScale) && Distinct(FlatScale)
  {
    assert Distinct(SharpScale);
    assert Distinct(FlatScale);
  }

  /** The base list repeats no name and holds only catalog names. */
  lemma BaseScaleDistinct(root: string)
    ensures Distinct(BaseScale(root))
    ensures forall x :: x in BaseScale(root) ==> x in AllNoteNames
  {
    ScalesDistinct();
  }

  /** A sharp key's base list has no flats, a flat key's has no sharps. */
  lemma BaseScaleSpelling(root: string)
    ensures root in SharpKeys ==> forall x :: x in BaseScale(root) ==> 'b' !in x
    ensures root in FlatKeys ==> forall x :: x in BaseScale(root) ==> '#' !in x
  {
    KeysPartition();
    FilteredNames();
    WithoutMembers(AllNoteNames, 'b');
    WithoutMembers(AllNoteNames, '#');
  }

  /** Python's `list.index`: the first position holding `x`. */
  function IndexOf(xs: seq<string>, x: string): (r: Option<nat>)
    ensures r.Some? <==> x in xs
    ensures r.Some? ==> r.value < |xs| && xs[r.value] == x && x !in xs[..r.value]
  {
    if |xs| == 0 then None
    else if xs[0] == x then Some(0)
    else
      var r := IndexOf(xs[1..], x);
      if r.None? then None else (assert xs[..r.value + 1] == [xs[0]] + xs[1..][..r.value]; Some(r.value + 1))
  }

  /** A list without repeated names. */
  predicate Distinct(xs: seq<string>)
  {
    forall i, j :: 0 <= i < j < |xs| ==> xs[i] != xs[j]
  }

  /** In a list without repeats, the position holding `x` is the only one. */
  lemma IndexOfDistinct(xs: seq<string>, x: string, k: nat)
    requires Distinct(xs) && k < |xs| && xs[k] == x
    ensures IndexOf(xs, x) == Some(k)
  {

  }

  /** Position `j` of a cycle of length `n`, for `j` below `2 * n`. */
  function Wrap(j: nat, n: nat): nat
  {
    if j < n then j else j - n
  }

  /** The list read from position `i` on, then from the start up to `i`. */
  function Rotate<T>(xs: seq<T>, i: nat): (r: seq<T>)
    requires i <= |xs|
    ensures |r| == |xs|
  {
    xs[i..] + xs[..i]
  }

  /** Position `k` of the rotation holds the entry `k` steps after `i`, cyclically. */
  lemma RotateAt<T>(xs: seq<T>, i: nat, k: nat)
    requires i < |xs| && k < |xs|
    ensures Wrap(i + k, |xs|) < |xs| && Rotate(xs, i)[k] == xs[Wrap(i + k, |xs|)]
  {
  }

  /** Rotation keeps the entries and their distinctness. */
  lemma RotateKeeps(xs: seq<string>, i: nat)
    requires i < |xs|
    ensures forall y :: y in Rotate(xs, i) <==> y in xs
    ensures Distinct(xs) ==> Distinct(Rotate(xs, i))
  {
    assert xs == xs[..i] + xs[i..];
    if Distinct(xs) {
      forall a, b | 0 <= a < b < |xs|
        ensures Rotate(xs, i)[a] != Rotate(xs, i)[b]
      {
        RotateAt(xs, i, a);
        RotateAt(xs, i, b);
      }
    }
  }

  /**
   * `make_chromatic_scale` (chordgenerator.py, scalegenerator.py) and the name list that
   * `ChromaticScaleGenerator.generate` leaves: the base list rotated so the root comes first.
   * `None` stands for the `ValueError` raised when the root is in neither key list.
   */
  function ChromaticScale(root: string): Option<seq<string>>
  {
    var base := BaseScale(root);
    var index := IndexOf(base, root);
    if index.None? then None else Some(Rotate(base, index.value))
  }

  /** Rotating a 12-name list without repeats to start at `root`. */
  lemma RotateToRoot(base: seq<string>, root: string)
    requires Distinct(base) && root in base
    ensures var i := IndexOf(base, root).value;
      var s := Rotate(base, i);
      && |s| == |base| && s[0] == root && Distinct(s)
      && (forall k :: 0 <= k < |base| ==> s[k] == base[Wrap(i + k, |base|)])
      && (forall y :: y in s <==> y in base)
  {
    var i := IndexOf(base, root).value;
    RotateKeeps(base, i);
    forall k | 0 <= k < |base|
      ensures Rotate(base, i)[k] == base[Wrap(i + k, |base|)]
    {
      RotateAt(base, i, k);
    }
  }

  /** `make_chromatic_scale` succeeds exactly for the 17 catalog names. */
  lemma ChromaticScaleDefined(root: string)
    ensures ChromaticScale(root).Some? <==> root in AllNoteNames
  {
    BaseScaleHoldsRoot(root);
  }

  /**
   * The chromatic scale of a catalog root has 12 distinct names, starts at the root and reads
   * the base list cyclically from the root.
   */
  lemma ChromaticScaleShape(root: string)
    requires root in AllNoteNames
    ensures ChromaticScale(root).Some?
    ensures var s := ChromaticScale(root).value;
      && |s| == 12 && s[0] == root && Distinct(s)
    ensures var s := ChromaticScale(root).value;
      var base := BaseScale(root);
      var i := IndexOf(base, root).value;
      forall k :: 0 <= k < 12 ==> s[k] == base[Wrap(i + k, |base|)]
  {
    BaseScaleHoldsRoot(root);
    BaseScaleDistinct(root);
    RotateToRoot(BaseScale(root), root);
  }

  /** The chromatic scale holds catalog names only. */
  lemma ChromaticScaleNames(root: string)
    requires root in AllNoteNames
    ensures var s := ChromaticScale(root).value;
      forall k :: 0 <= k < |s| ==> s[k] in AllNoteNames
  {
    ChromaticScaleShape(root);
    BaseScaleHoldsRoot(root);
    BaseScaleDistinct(root);
  }

  /** Every entry of a list whose names all come from `base` avoids a sign none of them carries. */
  lemma SpelledWithout(s: seq<string>, base: seq<string>, sign: char)
    requires forall y :: y in s ==> y in base
    requires forall x :: x in base ==> sign !in x
    ensures forall k :: 0 <= k < |s| ==> sign !in s[k]
  {
    forall k | 0 <= k < |s|
      ensures sign !in s[k]
    {
      assert s[k] in base;
    }
  }

  /** A sharp key's chromatic scale is spelled without flats. */
  lemma ChromaticScaleSharp(root: string)
    requires root in SharpKeys
    ensures root in AllNoteNames
    ensures var s := ChromaticScale(root).value;
      forall k :: 0 <= k < |s| ==> 'b' !in s[k]
  {
    KeysPartition();
    BaseScaleHoldsRoot(root);
    BaseScaleDistinct(root);
    RotateToRoot(BaseScale(root), root);
    BaseScaleSpelling(root);
    SpelledWithout(ChromaticScale(root).value, BaseScale(root), 'b');
  }

  /** A flat key's chromatic scale is spelled without sharps. */
  lemma ChromaticScaleFlat(root: string)
    requires root in FlatKeys
    ensures root in AllNoteNames
    ensures var s := ChromaticScale(root).value;
      forall k :: 0 <= k < |s| ==> '#' !in s[k]
  {
    KeysPartition();
    BaseScaleHoldsRoot(root);
    BaseScaleDistinct(root);
    RotateToRoot(BaseScale(root), root);
    BaseScaleSpelling(root);
    SpelledWithout(ChromaticScale(root).value, BaseScale(root), '#');
  }

  /** An accidental carries its sign in second position only. */
  lemma AccidentalSigns(n: string)
    requires IsAccidentalName(n)
    ensures 'b' in n <==> IsFlatName(n)
    ensures '#' in n <==> IsSharpName(n)
  {
    var k :| 0 <= k < |AccidentalNotes| && (n == AccidentalNotes[k].0 || n == AccidentalNotes[k].1);
  }

  /** No natural name carries a sign. */
  lemma NaturalsUnsigned(n: string)
    requires n in NaturalNotes
    ensures 'b' !in n && '#' !in n
  {
  }

  /**
   * Every catalog name is in every catalog root's chromatic scale, either as spelled or, for
   * an accidental spelled the other way, as its enharmonic partner.
   */
  lemma ChromaticScaleCovers(root: string, n: string)
    requires root in AllNoteNames && n in AllNoteNames
    ensures ChromaticScale(root).Some?
    ensures n !in ChromaticScale(root).value ==>
      IsAccidentalName(n) && EnharmonicName(n).Some? && EnharmonicName(n).value in ChromaticScale(root).value
  {
    BaseScaleHoldsRoot(root);
    BaseScaleDistinct(root);
    RotateToRoot(BaseScale(root), root);
    var s := ChromaticScale(root).value;
    if n !in s {
      FilteredNames();
      BaseScaleFiltered(root);
      KeysPartition();
      WithoutMembers(AllNoteNames, 'b');
      WithoutMembers(AllNoteNames, '#');
      AccidentalNames(n);
      if n in NaturalNotes {
        NaturalsUnsigned(n);
      }
      EnharmonicInvolution(n);
      var m := EnharmonicName(n).value;
      AccidentalSigns(n);
      AccidentalSigns(m);
      FlatSharpExclusive(n);
      FlatSharpExclusive(m);
      AccidentalNames(m);
    }
  }

  /** The chord tests: C's scale has `Bb` at position 10. */
  lemma ChromaticScaleOfC(root: string)
    requires root == "C"
    ensures ChromaticScale(root) == Some(FlatScale)
    ensures ChromaticScale(root).value[10] == "Bb"
  {
    ScalesDistinct();
    IndexOfDistinct(FlatScale, root, 0);
    assert FlatScale[0..] + FlatScale[..0] == FlatScale;
  }

  /** The chord tests' sharp example: G's scale runs from `G` round to `F#` at position 11. */
  lemma ChromaticScaleOfG(root: string)
    requires root == "G"
    ensures ChromaticScale(root) == Some(SharpScale[7..] + SharpScale[..7])
    ensures ChromaticScale(root).value[11] == "F#"
  {
    SharpRootAt(root, 7);
    ChromaticScaleFrom(root, SharpScale, 7);
    RotateAt(SharpScale, 7, 11);
  }

  /** The scale tests' sharp root: F#'s scale starts at position 6 of the sharp list. */
  lemma ChromaticScaleOfFSharp(root: string)
    requires root == "F#"
    ensures ChromaticScale(root) == Some(SharpScale[6..] + SharpScale[..6])
  {
    SharpRootAt(root, 6);
    ChromaticScaleFrom(root, SharpScale, 6);
  }

  /** A sharp key has the sharp list as its base list, and `index` finds it where it stands. */
  lemma SharpRootAt(root: string, i: nat)
    requires root in SharpKeys && i < |SharpScale| && SharpScale[i] == root
    ensures BaseScale(root) == SharpScale && IndexOf(SharpScale, root) == Some(i)
  {
    ScalesDistinct();
    IndexOfDistinct(SharpScale, root, i);
  }

  /** The chromatic scale is the base list rotated at the root's position in it. */
  lemma ChromaticScaleFrom(root: string, base: seq<string>, i: nat)
    requires BaseScale(root) == base && IndexOf(base, root) == Some(i)
    ensures ChromaticScale(root) == Some(base[i..] + base[..i])
  {
  }

  /** `ChromaticScaleGenerator`: builds the chromatic scale of `root` as a list of fresh notes. */
  class ChromaticScaleGenerator {
    const root: Note
    var notes: seq<Note>

    constructor (root: Note)
      ensures this.root == root && notes == []
    {
      this.root := root;
      notes := [];
    }

    /** One pass of `generate_base_scale`: appends a fresh note for each name without `c`. */
    method AppendNamesWithout(names: seq<string>, c: char)
      requires forall x :: x in names ==> x in AllNoteNames
      modifies this`notes
      ensures Names(notes) == Names(old(notes)) + Without(names, c)
      ensures forall k :: |old(notes)| <= k < |notes| ==> fresh(notes[k])
    {
      ghost var start := notes;
      for k := 0 to |names|
        invariant Names(notes) == Names(start) + Without(names[..k], c)
        invariant forall j :: |start| <= j < |notes| ==> fresh(notes[j])
      {
        var name := names[k];
        assert names[..k + 1] == names[..k] + [name];
        WithoutConcat(names[..k], [name], c);
        if c !in name {
          var n := new Note(name);
          notes := notes + [n];
        }
      }
      assert names[..|names|] == names;
    }

    /** `generate_base_scale`: appends one fresh note per name of the root's base list. */
    method GenerateBaseScale()
      modifies this`notes
      ensures Names(notes) == Names(old(notes)) + BaseScale(root.name)
      ensures forall k :: |old(notes)| <= k < |notes| ==> fresh(notes[k])
    {
      BaseScaleFiltered(root.name);
      if root.name in SharpKeys {
        AppendNamesWithout(AllNoteNames, 'b');
      } else if root.name in FlatKeys {
        AppendNamesWithout(AllNoteNames, '#');
      }
    }

    /**
     * `generate`: builds the base list, finds the note carrying the root's name and rotates
     * the list to start there. The list must start empty, as it does on a fresh generator.
     */
    method Generate()
      requires notes == [] && root.Valid()
      modifies this`notes
      ensures Names(notes) == ChromaticScale(root.name).value
      ensures |notes| == 12 && notes[0].name == root.name
      ensures forall k :: 0 <= k < |notes| ==> fresh(notes[k])
    {
      GenerateBaseScale();
      RotateToRootNote();
    }

    /** The end of `generate`: finds the last note carrying the root's name and rotates there. */
    method RotateToRootNote()
      requires root.Valid() && Names(notes) == BaseScale(root.name)
      modifies this`notes
      ensures Names(notes) == ChromaticScale(root.name).value
      ensures |notes| == 12 && notes[0].name == root.name
      ensures forall k :: 0 <= k < |notes| ==> notes[k] in old(notes)
    {
      BaseScaleHoldsRoot(root.name);
      var index := LastIndexOfName(notes, root.name);
      assert index.Some?;
      RotateFresh(notes, index.value);
      GenerateRotation(notes, root.name, index.value);
      notes := Rotate(notes, index.value);
    }
  }

  /** The search loop of `generate`: the position of the last note carrying `name`, if any. */
  method LastIndexOfName(ns: seq<Note>, name: string) returns (index: Option<nat>)
    ensures index.Some? <==> name in Names(ns)
    ensures index.Some? ==>
      && index.value < |ns| && ns[index.value].name == name
      && forall j :: index.value < j < |ns| ==> ns[j].name != name
  {
    index := None;
    for k := 0 to |ns|
      invariant index.None? ==> forall j :: 0 <= j < k ==> ns[j].name != name
      invariant index.Some? ==>
        && index.value < k && ns[index.value].name == name
        && forall j :: index.value < j < k ==> ns[j].name != name
    {
      if ns[k].name == name {
        index := Some(k);
      }
    }
  }

  /** Rotating a list of notes keeps each of them, so freshness carries over. */
  lemma RotateFresh(ns: seq<Note>, i: nat)
    requires i < |ns|
    ensures forall k :: 0 <= k < |ns| ==> Rotate(ns, i)[k] in ns
  {
    forall k | 0 <= k < |ns|
      ensures Rotate(ns, i)[k] in ns
    {
      RotateAt(ns, i, k);
    }
  }

  /** Rotating the base list of notes at the root's position yields the chromatic scale. */
  lemma GenerateRotation(ns: seq<Note>, root: string, i: nat)
    requires root in AllNoteNames && Names(ns) == BaseScale(root)
    requires i < |ns| && ns[i].name == root
    ensures Names(Rotate(ns, i)) == ChromaticScale(root).value
    ensures |Rotate(ns, i)| == 12 && Rotate(ns, i)[0].name == root
  {
    BaseScaleHoldsRoot(root);
    BaseScaleDistinct(root);
    IndexOfDistinct(BaseScale(root), root, i);
    NamesRotate(ns, i);
  }
}
