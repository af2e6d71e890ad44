/**
 * The chords the three generator classes of src/musicinpython/generators/chordgenerator.py
 * leave in `chords_generated` for one root, written as values: the tables they expand,
 * the filters, the name fix-ups and the note resolution, stage by stage.
 */
module ChordStages {
  import opened StringOps
  import opened Notes
  import opened Intervals
  import opened Chords
  import opened ChordNames

  /** One entry of a generator dictionary: the interval label and the name suffix it adds. */
  datatype Addition = Addition(interval: string, tone: string)

  /** `thirds` of `generate_triads`, in dictionary order. */
  const Thirds: seq<Addition> := [Addition("bIII", "m"), Addition("III", "")]

  /** `fifths` of `generate_triads`, one entry per suffix, in dictionary order. */
  const Fifths: seq<Addition> := [
    Addition("bV", "5-"), Addition("bV", "dim"), Addition("bV", "(b5)"),
    Addition("V", ""), Addition("#V", "5+"), Addition("#V", "aug")]

  /** `sus_chords_dict`: the middle interval and the name suffix of each "sus" chord. */
  const SusTable: seq<Addition> := [Addition("II", "sus2"), Addition("IV", "sus4"), Addition("IV", "sus")]

  /** `sevenths` of `generate_seventh_chords`. */
  const Sevenths: seq<Addition> := [Addition("bVII", "7"), Addition("VII", "maj7"), Addition("VII", "7M")]

  /** The three dictionaries of `generate_extended_chords`. */
  const Ninths: seq<Addition> := [Addition("bII", "b9"), Addition("II", "2"), Addition("II", "9"), Addition("#II", "#9")]
  const Elevenths: seq<Addition> := [Addition("bIV", "b11"), Addition("IV", "4"), Addition("IV", "11"), Addition("#IV", "#11")]
  const Thirteenths: seq<Addition> := [Addition("bVI", "b13"), Addition("VI", "6"), Addition("VI", "13"), Addition("#VI", "#13")]

  // ---------------------------------------------------------------- generation

  /** The triad `generate_triads` builds from a third and a fifth. */
  function TriadChord(root: string, third: Addition, fifth: Addition): ChordValue
  {
    ChordValue(root + third.tone + fifth.tone, {"I", third.interval, fifth.interval}, "")
  }

  /** What `generate_triads` appends: for each third in order, one triad per fifth in order. */
  function Triads(root: string): seq<ChordValue>
  {
    seq(|Thirds| * |Fifths|, k requires 0 <= k < |Thirds| * |Fifths| =>
      TriadChord(root, Thirds[k / |Fifths|], Fifths[k % |Fifths|]))
  }

  /** The "sus" chord of one `sus_chords_dict` entry. */
  function SusChord(root: string, sus: Addition): ChordValue
  {
    ChordValue(root + sus.tone, {"I", sus.interval, "V"}, "")
  }

  /** What `generate_sus_chords` appends. */
  function SusChords(root: string): seq<ChordValue>
  {
    seq(|SusTable|, k requires 0 <= k < |SusTable| => SusChord(root, SusTable[k]))
  }

  /** A deep copy of `c` with `sep` and the entry's suffix added to the name and its label to the set. */
  function Copy(c: ChordValue, a: Addition, sep: string): ChordValue
  {
    ChordValue(c.name + sep + a.tone, c.intervals + {a.interval}, c.notes)
  }

  function Copies(c: ChordValue, table: seq<Addition>, sep: string): seq<ChordValue>
  {
    seq(|table|, j requires 0 <= j < |table| => Copy(c, table[j], sep))
  }

  /**
   * What `generate_seventh_chords` (with `sep` empty) and `generate_nth_chords` (with `sep`
   * a slash) append: for each chord of the snapshot in order, one copy per table entry.
   */
  function Extend(pool: seq<ChordValue>, table: seq<Addition>, sep: string): seq<ChordValue>
  {
    if |pool| == 0 then [] else Extend(pool[..|pool| - 1], table, sep) + Copies(pool[|pool| - 1], table, sep)
  }

  /** Each chord of the snapshot contributes one copy per table entry. */
  lemma {:induction false} ExtendLength(pool: seq<ChordValue>, table: seq<Addition>, sep: string)
    ensures |Extend(pool, table, sep)| == |pool| * |table|
    decreases |pool|
  {
    if |pool| > 0 {
      ExtendLength(pool[..|pool| - 1], table, sep);
    }
  }

  /** Entry `j` of block `i` comes before the end of block `i`, which is at most `n` blocks in. */
  lemma BlockBound(i: nat, j: nat, n: nat, m: nat)
    requires i < n && j < m
    ensures i * m + j < n * m
  {
    assert (i + 1) * m <= n * m;
  }

  /** The copy of chord `i` with entry `j` sits at position `i * |table| + j`. */
  lemma {:induction false} ExtendAt(pool: seq<ChordValue>, table: seq<Addition>, sep: string, i: nat, j: nat)
    requires i < |pool| && j < |table|
    ensures i * |table| + j < |pool| * |table| == |Extend(pool, table, sep)|
    ensures Extend(pool, table, sep)[i * |table| + j] == Copy(pool[i], table[j], sep)
    decreases |pool|
  {
    var n := |pool| - 1;
    var m := |table|;
    ExtendLength(pool, table, sep);
    ExtendLength(pool[..n], table, sep);
    BlockBound(i, j, |pool|, m);
    if i < n {
      ExtendAt(pool[..n], table, sep, i, j);
      assert pool[..n][i] == pool[i];
    } else {
      assert Copies(pool[n], table, sep)[j] == Copy(pool[n], table[j], sep);
    }
  }

  /** A chord that is copied lands in the extension. */
  lemma {:induction false} ExtendHolds(pool: seq<ChordValue>, table: seq<Addition>, sep: string, i: nat, j: nat)
    requires i < |pool| && j < |table|
    ensures Copy(pool[i], table[j], sep) in Extend(pool, table, sep)
    decreases |pool|
  {
    var n := |pool| - 1;
    if i < n {
      ExtendHolds(pool[..n], table, sep, i, j);
      assert pool[..n][i] == pool[i];
    } else {
      assert Copies(pool[n], table, sep)[j] == Copy(pool[n], table[j], sep);
    }
  }

  /** Every chord of the extension is a copy of some prior chord with some table entry. */
  lemma {:induction false} ExtendFrom(pool: seq<ChordValue>, table: seq<Addition>, sep: string, c: ChordValue)
    requires c in Extend(pool, table, sep)
    ensures exists i, j :: 0 <= i < |pool| && 0 <= j < |table| && c == Copy(pool[i], table[j], sep)
    decreases |pool|
  {
    var n := |pool| - 1;
    if c in Extend(pool[..n], table, sep) {
      ExtendFrom(pool[..n], table, sep, c);
      var i, j :| 0 <= i < n && 0 <= j < |table| && c == Copy(pool[..n][i], table[j], sep);
      assert pool[..n][i] == pool[i];
    } else {
      var j :| 0 <= j < |table| && Copies(pool[n], table, sep)[j] == c;
    }
  }

  // ---------------------------------------------------------------- filtering

  datatype Stage = Triad | Seventh | Extended

  /**
   * How many times `remove_unstandard_triad_chords` removes the chord: once for a major
   * "dim" name and once for each of "aug" and "5+" in a minor name.
   */
  function TriadHits(c: ChordValue): nat
  {
    (if "III" in c.intervals && Contains(c.name, "dim") then 1 else 0) + AugmentedHits(c, AugmentedTones)
  }

  /** The suffixes the triad filter looks for in minor names. */
  const AugmentedTones: seq<string> := ["aug", "5+"]

  /** How many of `tones` make the minor chord `c` go. */
  function AugmentedHits(c: ChordValue, tones: seq<string>): nat
  {
    if |tones| == 0 then 0
    else AugmentedHits(c, tones[..|tones| - 1]) + (if "bIII" in c.intervals && Contains(c.name, tones[|tones| - 1]) then 1 else 0)
  }

  /** The name holds the digit `d` and is not just the root followed by it. */
  predicate DigitBeyondRoot(name: string, d: string)
    requires |name| > 0
  {
    Contains(name, d) && name != RootOf(name) + d
  }

  /**
   * The chords each stage's `remove_unstandard_...` method drops. An empty name cannot
   * reach the extended filter (every generated name starts with its root).
   */
  predicate Unstandard(stage: Stage, c: ChordValue)
  {
    match stage
    case Triad => TriadHits(c) > 0
    case Seventh =>
      Contains(c.name, "mmaj7") || Contains(c.name, "susmaj7") || Contains(c.name, "augmaj7") || Contains(c.name, "dim7")
    case Extended =>
      |c.name| > 0 && (DigitBeyondRoot(c.name, "2") || DigitBeyondRoot(c.name, "4") || DigitBeyondRoot(c.name, "6"))
  }

  /** The pool after the stage's removal pass: the standard chords, in their order. */
  function Standard(stage: Stage, pool: seq<ChordValue>): seq<ChordValue>
  {
    if |pool| == 0 then []
    else Standard(stage, pool[..|pool| - 1]) + (if Unstandard(stage, pool[|pool| - 1]) then [] else [pool[|pool| - 1]])
  }

  /** A chord survives the removal pass exactly when it is in the pool and standard. */
  lemma {:induction false} StandardMembers(stage: Stage, pool: seq<ChordValue>)
    ensures forall c :: c in Standard(stage, pool) <==> c in pool && !Unstandard(stage, c)
    ensures |Standard(stage, pool)| <= |pool|
    decreases |pool|
  {
    if |pool| > 0 {
      var n := |pool| - 1;
      StandardMembers(stage, pool[..n]);
      assert pool == pool[..n] + [pool[n]];
    }
  }

  /** A pool with nothing to remove comes through whole. */
  lemma {:induction false} StandardKeepsAll(stage: Stage, pool: seq<ChordValue>)
    requires forall i :: 0 <= i < |pool| ==> !Unstandard(stage, pool[i])
    ensures Standard(stage, pool) == pool
    decreases |pool|
  {
    if |pool| > 0 {
      var n := |pool| - 1;
      StandardKeepsAll(stage, pool[..n]);
      assert pool == pool[..n] + [pool[n]];
    }
  }

  // ---------------------------------------------------------------- soundness of generated chords

  /** A generated chord: its name is the root plus a guarded suffix, its intervals are labels. */
  predicate SoundAt(c: ChordValue, root: string)
  {
    Rooted(c.name, root) && KnownIntervals(c.intervals)
  }

  predicate OverRoot(pool: seq<ChordValue>, root: string)
  {
    forall i :: 0 <= i < |pool| ==> SoundAt(pool[i], root)
  }

  /** A table whose suffixes, written after `sep`, keep names guarded and whose labels are known. */
  predicate Fits(table: seq<Addition>, sep: string)
  {
    forall j :: 0 <= j < |table| ==> EntryFits(table[j], sep)
  }

  predicate EntryFits(a: Addition, sep: string)
  {
    Guarded(sep + a.tone, ' ') && a.interval in AllIntervalNamesUnpacked
  }

  /** An entry fits when its label is the `k`-th of the 17 and its suffix keeps names guarded. */
  lemma EntryFitsAt(a: Addition, sep: string, k: nat)
    requires k < |AllIntervalNamesUnpacked| && AllIntervalNamesUnpacked[k] == a.interval
    requires Guarded(sep + a.tone, ' ')
    ensures EntryFits(a, sep)
  {
  }

  /** A suffix with no sign keeps names guarded. */
  lemma UnsignedFitsAt(a: Addition, sep: string, k: nat)
    requires k < |AllIntervalNamesUnpacked| && AllIntervalNamesUnpacked[k] == a.interval
    requires Unsigned(sep + a.tone)
    ensures EntryFits(a, sep)
  {
    UnsignedGuarded(sep + a.tone, ' ');
  }

  /** A sign right after an opening character, then no sign, keeps names guarded. */
  lemma GuardedAfterOpen(open: char, sign: char, rest: string)
    requires Opens(open) && Unsigned(rest)
    ensures Guarded([open, sign] + rest, ' ')
  {
    assert ([open, sign] + rest)[1..] == [sign] + rest;
    assert ([sign] + rest)[1..] == rest;
    UnsignedGuarded(rest, sign);
  }

  /** A signed extension ("b9", "#11", ...) written after a slash keeps names guarded. */
  lemma SignedFitsAt(a: Addition, sep: string, k: nat)
    requires k < |AllIntervalNamesUnpacked| && AllIntervalNamesUnpacked[k] == a.interval
    requires sep == "/" && |a.tone| > 0 && Unsigned(a.tone[1..])
    ensures EntryFits(a, sep)
  {
    assert sep + a.tone == ['/', a.tone[0]] + a.tone[1..];
    GuardedAfterOpen('/', a.tone[0], a.tone[1..]);
  }

  lemma FitsTwo(a: Addition, b: Addition, sep: string)
    requires EntryFits(a, sep) && EntryFits(b, sep)
    ensures Fits([a, b], sep)
  {
  }

  lemma FitsThree(a: Addition, b: Addition, c: Addition, sep: string)
    requires EntryFits(a, sep) && EntryFits(b, sep) && EntryFits(c, sep)
    ensures Fits([a, b, c], sep)
  {
  }

  lemma FitsFour(a: Addition, b: Addition, c: Addition, d: Addition, sep: string)
    requires EntryFits(a, sep) && EntryFits(b, sep) && EntryFits(c, sep) && EntryFits(d, sep)
    ensures Fits([a, b, c, d], sep)
  {
  }

  lemma FitsSix(a: Addition, b: Addition, c: Addition, d: Addition, e: Addition, f: Addition, sep: string)
    requires EntryFits(a, sep) && EntryFits(b, sep) && EntryFits(c, sep)
    requires EntryFits(d, sep) && EntryFits(e, sep) && EntryFits(f, sep)
    ensures Fits([a, b, c, d, e, f], sep)
  {
  }

  lemma TablesFit()
    ensures Fits(Thirds, "") && Fits(Fifths, "") && Fits(SusTable, "") && Fits(Sevenths, "")
    ensures Fits(Ninths, "/") && Fits(Elevenths, "/") && Fits(Thirteenths, "/")
  {
    TriadTablesFit();
    SeventhsFit();
    NinthsFit();
    EleventhsFit();
    ThirteenthsFit();
  }

  lemma TriadTablesFit()
    ensures Fits(Thirds, "") && Fits(Fifths, "") && Fits(SusTable, "")
  {
    ThirdsFit();
    FifthsFit();
    SusTableFits();
  }

  lemma ThirdsFit()
    ensures Fits(Thirds, "")
  {
    UnsignedFitsAt(Thirds[0], "", 4);
    UnsignedFitsAt(Thirds[1], "", 5);
    FitsTwo(Thirds[0], Thirds[1], "");
  }

  lemma FifthsFit()
    ensures Fits(Fifths, "")
  {
    var f := Fifths;
    UnsignedFitsAt(f[0], "", 9);
    UnsignedFitsAt(f[1], "", 9);
    assert "" + f[2].tone == ['(', 'b'] + "5)";
    GuardedAfterOpen('(', 'b', "5)");
    EntryFitsAt(f[2], "", 9);
    UnsignedFitsAt(f[3], "", 10);
    UnsignedFitsAt(f[4], "", 11);
    UnsignedFitsAt(f[5], "", 11);
    FitsSix(f[0], f[1], f[2], f[3], f[4], f[5], "");
  }

  lemma SusTableFits()
    ensures Fits(SusTable, "")
  {
    UnsignedFitsAt(SusTable[0], "", 2);
    UnsignedFitsAt(SusTable[1], "", 7);
    UnsignedFitsAt(SusTable[2], "", 7);
    FitsThree(SusTable[0], SusTable[1], SusTable[2], "");
  }

  lemma SeventhsFit()
    ensures Fits(Sevenths, "")
  {
    UnsignedFitsAt(Sevenths[0], "", 15);
    UnsignedFitsAt(Sevenths[1], "", 16);
    UnsignedFitsAt(Sevenths[2], "", 16);
    FitsThree(Sevenths[0], Sevenths[1], Sevenths[2], "");
  }

  lemma NinthsFit()
    ensures Fits(Ninths, "/")
  {
    var t := Ninths;
    SignedFitsAt(t[0], "/", 1);
    UnsignedFitsAt(t[1], "/", 2);
    UnsignedFitsAt(t[2], "/", 2);
    SignedFitsAt(t[3], "/", 3);
    FitsFour(t[0], t[1], t[2], t[3], "/");
  }

  lemma EleventhsFit()
    ensures Fits(Elevenths, "/")
  {
    var t := Elevenths;
    SignedFitsAt(t[0], "/", 6);
    UnsignedFitsAt(t[1], "/", 7);
    UnsignedFitsAt(t[2], "/", 7);
    SignedFitsAt(t[3], "/", 8);
    FitsFour(t[0], t[1], t[2], t[3], "/");
  }

  lemma ThirteenthsFit()
    ensures Fits(Thirteenths, "/")
  {
    var t := Thirteenths;
    SignedFitsAt(t[0], "/", 12);
    UnsignedFitsAt(t[1], "/", 13);
    UnsignedFitsAt(t[2], "/", 13);
    SignedFitsAt(t[3], "/", 14);
    FitsFour(t[0], t[1], t[2], t[3], "/");
  }

  lemma StandardOverRoot(stage: Stage, pool: seq<ChordValue>, root: string)
    requires OverRoot(pool, root)
    ensures OverRoot(Standard(stage, pool), root)
  {
    StandardMembers(stage, pool);
    forall i | 0 <= i < |Standard(stage, pool)|
      ensures SoundAt(Standard(stage, pool)[i], root)
    {
      var c := Standard(stage, pool)[i];
      assert c in Standard(stage, pool);
      var k :| 0 <= k < |pool| && pool[k] == c;
    }
  }

  lemma CopySound(c: ChordValue, a: Addition, sep: string, root: string)
    requires SoundAt(c, root) && EntryFits(a, sep)
    ensures SoundAt(Copy(c, a, sep), root)
  {
    var suffix := c.name[|root|..];
    assert c.name + sep + a.tone == root + (suffix + (sep + a.tone));
    GuardedWeaken(sep + a.tone, ' ', LastOr(suffix, ' '));
    GuardedAppend(suffix, sep + a.tone, ' ');
    RootedPlus(root, suffix + (sep + a.tone));
  }

  lemma ExtendOverRoot(pool: seq<ChordValue>, table: seq<Addition>, sep: string, root: string)
    requires OverRoot(pool, root) && Fits(table, sep)
    ensures OverRoot(pool + Extend(pool, table, sep), root)
  {
    var grown := pool + Extend(pool, table, sep);
    forall k | 0 <= k < |grown|
      ensures SoundAt(grown[k], root)
    {
      if k >= |pool| {
        ExtendFrom(pool, table, sep, grown[k]);
        var i, j :| 0 <= i < |pool| && 0 <= j < |table| && grown[k] == Copy(pool[i], table[j], sep);
        CopySound(pool[i], table[j], sep, root);
      }
    }
  }

  lemma TriadsOverRoot(root: string)
    requires root in AllNoteNames
    ensures OverRoot(Triads(root) + SusChords(root), root)
  {
    var triads := Triads(root);
    var sus := SusChords(root);
    assert OverRoot(triads, root) by {
      ThirdsFit();
      FifthsFit();
      forall k | 0 <= k < |triads|
        ensures SoundAt(triads[k], root)
      {
        TriadSound(root, Thirds[k / 6], Fifths[k % 6]);
      }
    }
    assert OverRoot(sus, root) by {
      SusTableFits();
      forall k | 0 <= k < |sus|
        ensures SoundAt(sus[k], root)
      {
        SusSound(root, SusTable[k]);
      }
    }
    OverRootConcat(triads, sus, root);
  }

  lemma OverRootConcat(a: seq<ChordValue>, b: seq<ChordValue>, root: string)
    requires OverRoot(a, root) && OverRoot(b, root)
    ensures OverRoot(a + b, root)
  {
    forall k | 0 <= k < |a + b|
      ensures SoundAt((a + b)[k], root)
    {
      if k >= |a| {
        assert (a + b)[k] == b[k - |a|];
      }
    }
  }

  lemma TriadSound(root: string, third: Addition, fifth: Addition)
    requires root in AllNoteNames
    requires EntryFits(third, "") && EntryFits(fifth, "")
    ensures SoundAt(TriadChord(root, third, fifth), root)
  {
    assert "" + third.tone == third.tone && "" + fifth.tone == fifth.tone;
    assert "I" == AllIntervalNamesUnpacked[0];
    GuardedWeaken(fifth.tone, ' ', LastOr(third.tone, ' '));
    GuardedAppend(third.tone, fifth.tone, ' ');
    assert root + third.tone + fifth.tone == root + (third.tone + fifth.tone);
    RootedPlus(root, third.tone + fifth.tone);
  }

  lemma SusSound(root: string, sus: Addition)
    requires root in AllNoteNames
    requires EntryFits(sus, "")
    ensures SoundAt(SusChord(root, sus), root)
  {
    assert "" + sus.tone == sus.tone;
    assert "I" == AllIntervalNamesUnpacked[0] && "V" == AllIntervalNamesUnpacked[10];
    RootedPlus(root, sus.tone);
  }

  // ---------------------------------------------------------------- formatting and notes

  /** The stage's name fix-up. */
  function FormatName(stage: Stage, c: ChordValue): string
    requires |c.name| > 0
  {
    match stage
    case Triad => FormatTriad(c.name, c.intervals)
    case Seventh => FormatSeventh(c.name)
    case Extended => FormatExtended(c.name)
  }

  lemma FormatNameRooted(stage: Stage, c: ChordValue, root: string)
    requires Rooted(c.name, root)
    ensures |c.name| > 0 && Rooted(FormatName(stage, c), root)
  {
    RootedRoot(c.name, root);
    match stage
    case Triad => FormatTriadRooted(c.name, c.intervals, root);
    case Seventh => FormatSeventhRooted(c.name, root);
    case Extended => FormatExtendedRooted(c.name, root);
  }

  /** The chord after the stage's closing loop: name fixed up, then `get_chord_notes`. */
  function Finished(stage: Stage, root: string, c: ChordValue): ChordValue
    requires SoundAt(c, root)
  {
    FormatNameRooted(stage, c, root);
    var name := FormatName(stage, c);
    RootedRoot(name, root);
    ChordValue(name, c.intervals, ChordNotes(name, c.intervals))
  }

  /** The closing loop over the whole pool. */
  function Finish(stage: Stage, root: string, pool: seq<ChordValue>): seq<ChordValue>
    requires OverRoot(pool, root)
  {
    seq(|pool|, i requires 0 <= i < |pool| => Finished(stage, root, pool[i]))
  }

  /** A chord whose notes are those `get_chord_notes` reads for its current name and intervals. */
  predicate Resolved(c: ChordValue, root: string)
  {
    SoundAt(c, root) && (RootedRoot(c.name, root); c.notes == ChordNotes(c.name, c.intervals))
  }

  predicate AllResolved(pool: seq<ChordValue>, root: string)
  {
    forall i :: 0 <= i < |pool| ==> Resolved(pool[i], root)
  }

  /**
   * After the closing loop every chord keeps its root and intervals, and its notes are
   * exactly the ones read from its fixed-up name.
   */
  lemma FinishResolved(stage: Stage, root: string, pool: seq<ChordValue>)
    requires OverRoot(pool, root)
    ensures |Finish(stage, root, pool)| == |pool|
    ensures AllResolved(Finish(stage, root, pool), root) && OverRoot(Finish(stage, root, pool), root)
    ensures forall i :: 0 <= i < |pool| ==> Finish(stage, root, pool)[i].intervals == pool[i].intervals
  {
    forall i | 0 <= i < |pool|
      ensures Resolved(Finish(stage, root, pool)[i], root)
    {
      FormatNameRooted(stage, pool[i], root);
    }
  }

  // ---------------------------------------------------------------- the stages

  /** `TriadChordGenerator.generate` on an empty pool. */
  function TriadStage(root: string): seq<ChordValue>
    requires root in AllNoteNames
  {
    TriadsOverRoot(root);
    StandardOverRoot(Triad, Triads(root) + SusChords(root), root);
    Finish(Triad, root, Standard(Triad, Triads(root) + SusChords(root)))
  }

  lemma TriadStageResolved(root: string)
    requires root in AllNoteNames
    ensures OverRoot(TriadStage(root), root) && AllResolved(TriadStage(root), root)
  {
    TriadsOverRoot(root);
    StandardOverRoot(Triad, Triads(root) + SusChords(root), root);
    FinishResolved(Triad, root, Standard(Triad, Triads(root) + SusChords(root)));
  }

  /** The pool after `generate_seventh_chords`: the triad stage, then its seventh copies. */
  function SeventhPool(root: string): seq<ChordValue>
    requires root in AllNoteNames
  {
    TriadStage(root) + Extend(TriadStage(root), Sevenths, "")
  }

  lemma SeventhPoolOverRoot(root: string)
    requires root in AllNoteNames
    ensures OverRoot(SeventhPool(root), root)
  {
    TriadStageResolved(root);
    TablesFit();
    ExtendOverRoot(TriadStage(root), Sevenths, "", root);
  }

  /** `SeventhChordGenerator.generate` on an empty pool. */
  function SeventhStage(root: string): seq<ChordValue>
    requires root in AllNoteNames
  {
    SeventhPoolOverRoot(root);
    StandardOverRoot(Seventh, SeventhPool(root), root);
    Finish(Seventh, root, Standard(Seventh, SeventhPool(root)))
  }

  lemma SeventhStageResolved(root: string)
    requires root in AllNoteNames
    ensures OverRoot(SeventhStage(root), root) && AllResolved(SeventhStage(root), root)
  {
    SeventhPoolOverRoot(root);
    StandardOverRoot(Seventh, SeventhPool(root), root);
    FinishResolved(Seventh, root, Standard(Seventh, SeventhPool(root)));
  }

  /** One call of `generate_nth_chords`: the pool, then its slash copies. */
  function Grow(pool: seq<ChordValue>, table: seq<Addition>): seq<ChordValue>
  {
    pool + Extend(pool, table, "/")
  }

  /** The pool after `generate_extended_chords`: three accumulating rounds over the seventh stage. */
  function ExtendedPool(root: string): seq<ChordValue>
    requires root in AllNoteNames
  {
    Grow(Grow(Grow(SeventhStage(root), Ninths), Elevenths), Thirteenths)
  }

  lemma ExtendedPoolOverRoot(root: string)
    requires root in AllNoteNames
    ensures OverRoot(ExtendedPool(root), root)
  {
    SeventhStageResolved(root);
    TablesFit();
    var s := SeventhStage(root);
    ExtendOverRoot(s, Ninths, "/", root);
    ExtendOverRoot(Grow(s, Ninths), Elevenths, "/", root);
    ExtendOverRoot(Grow(Grow(s, Ninths), Elevenths), Thirteenths, "/", root);
  }

  /** `ExtendedChordGenerator.generate` on an empty pool: the removal runs before the fix-ups. */
  function ExtendedStage(root: string): seq<ChordValue>
    requires root in AllNoteNames
  {
    ExtendedPoolOverRoot(root);
    StandardOverRoot(Extended, ExtendedPool(root), root);
    Finish(Extended, root, Standard(Extended, ExtendedPool(root)))
  }

  lemma ExtendedStageResolved(root: string)
    requires root in AllNoteNames
    ensures OverRoot(ExtendedStage(root), root) && AllResolved(ExtendedStage(root), root)
  {
    ExtendedPoolOverRoot(root);
    StandardOverRoot(Extended, ExtendedPool(root), root);
    FinishResolved(Extended, root, Standard(Extended, ExtendedPool(root)));
  }

  // ---------------------------------------------------------------- the triad filter removes each chord once

  /** Neither minor-chord test fires on a name missing "a"; the "5+" test not on one missing "5". */
  lemma AugmentedHitsAtMostOne(c: ChordValue)
    requires 'a' !in c.name || '5' !in c.name
    ensures AugmentedHits(c, AugmentedTones) <= 1
  {
    var t := AugmentedTones;
    assert t[..1][..0] == [] && t[..2][..1] == t[..1] && t[..2] == t;
    assert t[0] == "aug" && t[1] == "5+";
    var minor := "bIII" in c.intervals;
    assert AugmentedHits(c, t[..1]) == (if minor && Contains(c.name, "aug") then 1 else 0);
    assert AugmentedHits(c, t) == AugmentedHits(c, t[..1]) + (if minor && Contains(c.name, "5+") then 1 else 0);
    if 'a' !in c.name {
      ContainsNoFirstChar(c.name, "aug");
    } else {
      ContainsNoFirstChar(c.name, "5+");
    }
  }

  /** A triad removed at most once: it is major or minor, and a minor name lacks "a" or "5". */
  lemma TriadChordHits(root: string, third: Addition, fifth: Addition)
    requires root in AllNoteNames
    requires third.interval == "III" || third.interval == "bIII"
    requires fifth.interval != "III" && fifth.interval != "bIII"
    requires third.interval == "bIII" ==> 'a' !in third.tone + fifth.tone || '5' !in third.tone + fifth.tone
    ensures TriadHits(TriadChord(root, third, fifth)) <= 1
  {
    var c := TriadChord(root, third, fifth);
    RootLacks(root);
    assert c.name == root + (third.tone + fifth.tone);
    if third.interval == "bIII" {
      AugmentedHitsAtMostOne(c);
    } else {
      AugmentedHitsNone(c, AugmentedTones);
    }
  }

  /** A chord without the minor third is never removed by the minor-chord tests. */
  lemma {:induction false} AugmentedHitsNone(c: ChordValue, tones: seq<string>)
    requires "bIII" !in c.intervals
    ensures AugmentedHits(c, tones) == 0
    decreases |tones|
  {
    if |tones| > 0 {
      AugmentedHitsNone(c, tones[..|tones| - 1]);
    }
  }

  /**
   * Every chord of the pool `remove_unstandard_triad_chords` sees is removed at most once,
   * so no `remove` call misses its chord.
   */
  lemma TriadPoolHitsAtMostOnce(root: string)
    requires root in AllNoteNames
    ensures forall k :: 0 <= k < |Triads(root) + SusChords(root)| ==> TriadHits((Triads(root) + SusChords(root))[k]) <= 1
  {
    var triads := Triads(root);
    var sus := SusChords(root);
    assert forall k :: 0 <= k < |triads| ==> TriadHits(triads[k]) <= 1 by {
      forall k | 0 <= k < |triads|
        ensures TriadHits(triads[k]) <= 1
      {
        FifthFacts(k % 6);
        assert Thirds[k / 6].interval == "III" || Thirds[k / 6].interval == "bIII";
        assert Thirds[k / 6].interval == "bIII" ==> Thirds[k / 6].tone == "m";
        TriadChordHits(root, Thirds[k / 6], Fifths[k % 6]);
      }
    }
    assert forall k :: 0 <= k < |sus| ==> TriadHits(sus[k]) == 0 by {
      forall k | 0 <= k < |sus|
        ensures TriadHits(sus[k]) == 0
      {
        assert SusTable[k].interval == "II" || SusTable[k].interval == "IV";
        AugmentedHitsNone(sus[k], AugmentedTones);
      }
    }
    forall k | 0 <= k < |triads + sus|
      ensures TriadHits((triads + sus)[k]) <= 1
    {
      if k >= |triads| {
        assert (triads + sus)[k] == sus[k - |triads|];
      }
    }
  }

  lemma FifthFacts(j: nat)
    requires j < |Fifths|
    ensures Fifths[j].interval != "III" && Fifths[j].interval != "bIII"
    ensures 'a' !in "m" + Fifths[j].tone || '5' !in "m" + Fifths[j].tone
  {
  }

  // ---------------------------------------------------------------- the power chord

  /** What `generate_power_chord` appends: root plus "5", the root and the fifth, notes resolved. */
  function PowerChord(root: string): ChordValue
    requires root in AllNoteNames
  {
    PowerChordNotes(root, root + "5", {"I", "V"});
    ChordValue(root + "5", {"I", "V"}, ChordNotes(root + "5", {"I", "V"}))
  }

  lemma PowerChordResolved(root: string)
    requires root in AllNoteNames
    ensures Resolved(PowerChord(root), root)
    ensures ChromaticScale(root).Some? && |ChromaticScale(root).value| == 12
    ensures PowerChord(root).notes == ChromaticScale(root).value[0] + " " + ChromaticScale(root).value[7]
  {
    assert Rooted(root + "5", root) by {
      assert Guarded("5", ' ') by { assert "5"[1..] == ""; }
      RootedPlus(root, "5");
    }
    PowerChordNotes(root, root + "5", {"I", "V"});
  }

  // ---------------------------------------------------------------- one root, all roots

  /** The chords one stage's generator holds for `root` when `generate_chords` reads them. */
  function StageChords(stage: Stage, root: string): seq<ChordValue>
    requires root in AllNoteNames
  {
    match stage
    case Triad => TriadStage(root)
    case Seventh => SeventhStage(root)
    case Extended => ExtendedStage(root)
  }

  function Catalog(stage: Stage, root: string): seq<ChordValue>
    requires root in AllNoteNames
  {
    StageChords(stage, root) + [PowerChord(root)]
  }

  /**
   * Every chord `generate_chords` reads for a root is built on that root, holds only known
   * labels, and carries exactly the notes resolved from its final name and intervals.
   */
  lemma CatalogResolved(stage: Stage, root: string)
    requires root in AllNoteNames
    ensures AllResolved(Catalog(stage, root), root)
  {
    StageResolved(stage, root);
    PowerChordResolved(root);
    ResolvedSnoc(StageChords(stage, root), PowerChord(root), root);
  }

  lemma StageResolved(stage: Stage, root: string)
    requires root in AllNoteNames
    ensures AllResolved(StageChords(stage, root), root)
  {
    match stage {
      case Triad => TriadStageResolved(root);
      case Seventh => SeventhStageResolved(root);
      case Extended => ExtendedStageResolved(root);
    }
  }

  lemma ResolvedSnoc(pool: seq<ChordValue>, c: ChordValue, root: string)
    requires AllResolved(pool, root) && Resolved(c, root)
    ensures AllResolved(pool + [c], root)
  {
    forall k | 0 <= k < |pool| + 1
      ensures Resolved((pool + [c])[k], root)
    {
      if k < |pool| {
        assert (pool + [c])[k] == pool[k];
      }
    }
  }
}
