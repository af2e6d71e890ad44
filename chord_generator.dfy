/**
 * The chord generators: objects that fill a list of chord objects for one root, stage by
 * stage. Each method is proved to leave exactly the value-level pool `ChordStages` defines.
 */
module ChordGenerators {
  import opened StringOps
  import opened Notes
  import opened Chords
  import opened ChordNames
  import opened ChordStages

  /** The current values of a list of chord objects. */
  function Values(cs: seq<Chord>): (r: seq<ChordValue>)
    reads cs
    ensures |r| == |cs|
  {
    if |cs| == 0 then [] else Values(cs[..|cs| - 1]) + [cs[|cs| - 1].Value()]
  }

  /** Entry `i` is the value of object `i`. */
  lemma {:induction false} ValuesAt(cs: seq<Chord>)
    ensures forall i :: 0 <= i < |cs| ==> Values(cs)[i] == cs[i].Value()
    decreases |cs|
  {
    if |cs| > 0 {
      ValuesAt(cs[..|cs| - 1]);
    }
  }

  lemma {:induction false} ValueAt(cs: seq<Chord>, k: nat)
    requires k < |cs|
    ensures Values(cs)[k] == cs[k].Value()
    decreases |cs|
  {
    if k < |cs| - 1 {
      ValueAt(cs[..|cs| - 1], k);
    }
  }

  /** The values of objects no step has touched are the values they had before it. */
  twostate lemma ValuesUnchanged(cs: seq<Chord>)
    requires forall c :: c in cs ==> old(allocated(c)) && unchanged(c)
    ensures Values(cs) == old(Values(cs))
    decreases |cs|
  {
    if |cs| > 0 {
      var n := |cs| - 1;
      forall c | c in cs[..n]
        ensures c in cs
      {
        var i :| 0 <= i < n && cs[..n][i] == c;
        assert cs[i] == c;
      }
      ValuesUnchanged(cs[..n]);
      assert cs[n] in cs;
      assert cs[n].Value() == old(cs[n].Value());
    }
  }

  lemma ValuesSnoc(cs: seq<Chord>, c: Chord)
    ensures Values(cs + [c]) == Values(cs) + [c.Value()]
  {
  }

  lemma AppendAssoc(start: seq<ChordValue>, done: seq<ChordValue>, c: ChordValue)
    ensures start + done + [c] == start + (done + [c])
  {
  }

  /** No object occurs twice in the list. */
  predicate NoRepeats(cs: seq<Chord>)
  {
    forall i, j :: 0 <= i < j < |cs| ==> cs[i] != cs[j]
  }

  /** Index of the first occurrence of `c`: the element `list.remove` takes out. */
  function Find(cs: seq<Chord>, c: Chord): (i: nat)
    requires c in cs
    ensures i < |cs| && cs[i] == c && c !in cs[..i]
  {
    if cs[0] == c then 0
    else
      var j := Find(cs[1..], c);
      assert cs[..j + 1] == [cs[0]] + cs[1..][..j];
      j + 1
  }

  /** Slicing at the full length. */
  lemma FullSlices<T, U>(a: seq<T>, b: seq<U>)
    requires |a| == |b|
    ensures a[|a|..] == [] && a[..|a|] == a && b[..|a|] == b
  {
  }

  lemma {:induction false} UnflaggedMembers<T>(pool: seq<T>, flags: seq<bool>)
    requires |flags| == |pool|
    ensures forall x :: x in Unflagged(pool, flags) ==> x in pool
    decreases |pool|
  {
    if |pool| > 0 {
      UnflaggedMembers(pool[..|pool| - 1], flags[..|pool| - 1]);
    }
  }

  lemma {:induction false} ValuesUnflagged(cs: seq<Chord>, flags: seq<bool>)
    requires |flags| == |cs|
    ensures Values(Unflagged(cs, flags)) == Unflagged(Values(cs), flags)
    decreases |cs|
  {
    if |cs| > 0 {
      var n := |cs| - 1;
      ValuesUnflagged(cs[..n], flags[..n]);
      assert Values(cs) == Values(cs[..n]) + [cs[n].Value()];
      assert Values(cs)[..n] == Values(cs[..n]);
      var u := Unflagged(cs[..n], flags[..n]);
      assert Unflagged(Values(cs), flags) == Unflagged(Values(cs[..n]), flags[..n]) + (if flags[n] then [] else [cs[n].Value()]);
      if flags[n] {
        assert Unflagged(cs, flags) == u;
      } else {
        assert Unflagged(cs, flags) == u + [cs[n]];
        ValuesSnoc(u, cs[n]);
      }
    }
  }

  /** What a removal pass leaves: the standard chords of the pool, each one from the pool. */
  lemma RemovedUnflagged(stage: Stage, previous: seq<Chord>, pool: seq<ChordValue>)
    requires Values(previous) == pool
    ensures var kept := Unflagged(previous, Flags(stage, pool));
      Values(kept) == Standard(stage, pool) && forall c :: c in kept ==> c in previous
  {
    StandardUnflagged(stage, pool);
    ValuesUnflagged(previous, Flags(stage, pool));
    UnflaggedMembers(previous, Flags(stage, pool));
  }

  /** Removing an object listed once, right after `kept`, leaves `kept` and what followed it. */
  lemma RemovalAt(kept: seq<Chord>, c: Chord, rest: seq<Chord>)
    requires NoRepeats(kept + [c] + rest)
    ensures c in kept + [c] + rest
    ensures var s := kept + [c] + rest; var i := Find(s, c); s[..i] + s[i + 1..] == kept + rest
  {
    var s := kept + [c] + rest;
    assert s[|kept|] == c;
    var i := Find(s, c);
    assert i == |kept|;
    assert s[..i] == kept;
    assert s[i + 1..] == rest;
  }

  lemma NoRepeatsRemove(s: seq<Chord>, i: nat)
    requires NoRepeats(s) && i < |s|
    ensures NoRepeats(s[..i] + s[i + 1..])
  {
    var t := s[..i] + s[i + 1..];
    forall a, b | 0 <= a < b < |t|
      ensures t[a] != t[b]
    {
      var a' := if a < i then a else a + 1;
      var b' := if b < i then b else b + 1;
      assert t[a] == s[a'] && t[b] == s[b'];
    }
  }

  lemma StandardSnoc(stage: Stage, pool: seq<ChordValue>, c: ChordValue)
    ensures Standard(stage, pool + [c]) == Standard(stage, pool) + (if Unstandard(stage, c) then [] else [c])
  {
    assert (pool + [c])[..|pool|] == pool;
  }

  /** The entries of `pool` whose flag is off, in order. */
  function Unflagged<T>(pool: seq<T>, flags: seq<bool>): seq<T>
    requires |flags| == |pool|
  {
    if |pool| == 0 then []
    else Unflagged(pool[..|pool| - 1], flags[..|pool| - 1]) + (if flags[|pool| - 1] then [] else [pool[|pool| - 1]])
  }

  lemma UnflaggedSnoc<T>(pool: seq<T>, flags: seq<bool>, k: nat)
    requires |flags| == |pool| && k < |pool|
    ensures Unflagged(pool[..k + 1], flags[..k + 1]) == Unflagged(pool[..k], flags[..k]) + (if flags[k] then [] else [pool[k]])
  {
    assert pool[..k + 1][..k] == pool[..k] && flags[..k + 1][..k] == flags[..k];
  }

  /**
   * Turn `k` of a pass over `pool`: the chords kept so far, then chord `k`, then the rest;
   * afterwards chord `k` is kept exactly when it is not flagged.
   */
  lemma VisitShape<T>(pool: seq<T>, flags: seq<bool>, k: nat)
    requires |flags| == |pool| && k < |pool|
    ensures var kept := Unflagged(pool[..k], flags[..k]);
      kept + pool[k..] == kept + [pool[k]] + pool[k + 1..]
    ensures var kept := Unflagged(pool[..k], flags[..k]);
      Unflagged(pool[..k + 1], flags[..k + 1]) + pool[k + 1..]
      == if flags[k] then kept + pool[k + 1..] else kept + [pool[k]] + pool[k + 1..]
  {
    UnflaggedSnoc(pool, flags, k);
    assert pool[k..] == [pool[k]] + pool[k + 1..];
  }

  /** The list part-way through a removal pass: the unflagged objects among the first `k`, then the rest. */
  function Pending<T>(xs: seq<T>, flags: seq<bool>, k: nat): seq<T>
    requires k <= |xs| == |flags|
  {
    Unflagged(xs[..k], flags[..k]) + xs[k..]
  }

  /** Before the pass nothing is dropped; after it, exactly the flagged objects are. */
  lemma PendingEnds<T>(xs: seq<T>, flags: seq<bool>)
    requires |xs| == |flags|
    ensures Pending(xs, flags, 0) == xs && Pending(xs, flags, |xs|) == Unflagged(xs, flags)
  {
    assert xs[..0] == [] && flags[..0] == [] && xs[0..] == xs;
    assert xs[..|xs|] == xs && flags[..|xs|] == flags && xs[|xs|..] == [];
  }

  /** Which chords of the pool the stage's removal pass drops. */
  function Flags(stage: Stage, pool: seq<ChordValue>): seq<bool>
  {
    seq(|pool|, i requires 0 <= i < |pool| => Unstandard(stage, pool[i]))
  }

  /** The removal pass keeps exactly the unflagged chords. */
  lemma {:induction false} StandardUnflagged(stage: Stage, pool: seq<ChordValue>)
    ensures Standard(stage, pool) == Unflagged(pool, Flags(stage, pool))
    decreases |pool|
  {
    if |pool| > 0 {
      var n := |pool| - 1;
      StandardUnflagged(stage, pool[..n]);
      assert Flags(stage, pool)[..n] == Flags(stage, pool[..n]);
    }
  }

  /** The hits over a prefix of the tones never exceed the hits over all of them. */
  lemma {:induction false} AugmentedHitsPrefix(c: ChordValue, tones: seq<string>, t: nat)
    requires t <= |tones|
    ensures AugmentedHits(c, tones[..t]) <= AugmentedHits(c, tones)
    decreases |tones| - t
  {
    if t < |tones| {
      AugmentedHitsPrefix(c, tones, t + 1);
      assert tones[..t + 1][..t] == tones[..t];
    } else {
      assert tones[..t] == tones;
    }
  }

  /** The `generate_triads` order: third `i`, fifth `j` is the next triad after the ones before it. */
  lemma TriadsSnoc(root: string, i: nat, j: nat)
    requires i < |Thirds| && j < |Fifths|
    ensures i * |Fifths| + j < |Triads(root)|
    ensures Triads(root)[..i * |Fifths| + j + 1] == Triads(root)[..i * |Fifths| + j] + [TriadChord(root, Thirds[i], Fifths[j])]
  {
    var k := i * 6 + j;
    assert k / 6 == i && k % 6 == j;
  }

  /** The triad `generate_triads` builds: the root, then the third, then the fifth. */
  method NewTriad(root: string, third: Addition, fifth: Addition) returns (chord: Chord)
    ensures fresh(chord) && chord.Value() == TriadChord(root, third, fifth)
  {
    chord := new Chord(root, {"I"});
    chord.name := chord.name + third.tone;
    chord.intervals := chord.intervals + {third.interval};
    chord.AddIntervalAndTone(fifth.interval, fifth.tone);
    assert chord.intervals == {"I", third.interval, fifth.interval};
  }

  /** The chord `generate_power_chord` builds: the root, then the fifth with tone "5", notes read. */
  method NewPowerChord(root: string) returns (chord: Chord)
    requires root in AllNoteNames
    ensures fresh(chord) && chord.Value() == PowerChord(root)
  {
    chord := new Chord(root, {"I"});
    chord.AddIntervalAndTone("V", "5");
    assert chord.intervals == {"I", "V"};
    PowerChordNotes(root, chord.name, chord.intervals);
    chord.GetChordNotes();
  }

  /** A deep copy with `sep` and the entry's suffix added to the name, its label to the intervals. */
  method NewCopy(chord: Chord, a: Addition, sep: string) returns (copy: Chord)
    ensures fresh(copy) && copy.Value() == Copy(chord.Value(), a, sep)
  {
    copy := new Chord.DeepCopy(chord);
    copy.name := copy.name + sep;
    copy.AddIntervalAndTone(a.interval, a.tone);
  }

  /** One turn of a stage's closing loop: the stage's name fix-up, then `get_chord_notes`. */
  method FinishChord(chord: Chord, formatter: Stage, root: string)
    requires SoundAt(chord.Value(), root)
    modifies chord
    ensures chord.Value() == Finished(formatter, root, old(chord.Value()))
  {
    FormatNameRooted(formatter, chord.Value(), root);
    match formatter {
      case Triad => FormatTriadName(chord);
      case Seventh => FormatSeventhName(chord);
      case Extended => FormatExtendedName(chord);
    }
    RootedRoot(chord.name, root);
    chord.GetChordNotes();
  }

  /**
   * A chord generator. `stage` says which of the three generator classes it is (the triad,
   * seventh or extended generator); `chords` is `chords_generated`.
   */
  class ChordGenerator {
    var root: string
    var chords: seq<Chord>
    const stage: Stage

    constructor (root: string, stage: Stage)
      ensures this.root == root && this.stage == stage && chords == []
    {
      this.root := root;
      this.stage := stage;
      chords := [];
    }

    /** No chord object is listed twice. */
    predicate Separate()
      reads this
    {
      NoRepeats(chords)
    }

    /** `list.append` of a chord object not in the list yet. */
    method Append(chord: Chord)
      requires Separate() && chord !in chords
      modifies this`chords
      ensures Separate() && chords == old(chords) + [chord]
      ensures Values(chords) == old(Values(chords)) + [chord.Value()]
    {
      ValuesSnoc(chords, chord);
      chords := chords + [chord];
    }

    /** `generate_triads`: one triad per third and fifth, thirds outermost. */
    method GenerateTriads()
      requires Separate()
      modifies this`chords
      ensures Separate() && forall c :: c in chords ==> c in old(chords) || fresh(c)
      ensures Values(chords) == old(Values(chords)) + Triads(root)
    {
      ghost var start := Values(chords);
      for i := 0 to |Thirds|
        invariant Separate() && forall c :: c in chords ==> c in old(chords) || fresh(c)
        invariant Values(chords) == start + Triads(root)[..i * |Fifths|]
      {
        GenerateTriadsOn(i, start);
      }
      assert Triads(root)[..|Thirds| * |Fifths|] == Triads(root);
    }

    /** One pass of the outer loop of `generate_triads`: the triads on one third, one per fifth. */
    method GenerateTriadsOn(i: nat, ghost start: seq<ChordValue>)
      requires i < |Thirds| && Separate()
      requires Values(chords) == start + Triads(root)[..i * |Fifths|]
      modifies this`chords
      ensures Separate() && forall c :: c in chords ==> c in old(chords) || fresh(c)
      ensures Values(chords) == start + Triads(root)[..(i + 1) * |Fifths|]
    {
      for j := 0 to |Fifths|
        invariant Separate() && forall c :: c in chords ==> c in old(chords) || fresh(c)
        invariant Values(chords) == start + Triads(root)[..i * |Fifths| + j]
      {
        label Before:
        var chord := NewTriad(root, Thirds[i], Fifths[j]);
        ValuesUnchanged@Before(chords);
        TriadsSnoc(root, i, j);
        AppendAssoc(start, Triads(root)[..i * |Fifths| + j], chord.Value());
        Append(chord);
      }
      assert i * |Fifths| + |Fifths| == (i + 1) * |Fifths|;
    }

    /** `generate_sus_chords`: one chord per entry of the "sus" table. */
    method GenerateSusChords()
      requires Separate()
      modifies this`chords
      ensures Separate() && forall c :: c in chords ==> c in old(chords) || fresh(c)
      ensures Values(chords) == old(Values(chords)) + SusChords(root)
    {
      ghost var start := Values(chords);
      for k := 0 to |SusTable|
        invariant Separate() && forall c :: c in chords ==> c in old(chords) || fresh(c)
        invariant Values(chords) == start + SusChords(root)[..k]
      {
        var sus := SusTable[k];
        var chord := new Chord(root + sus.tone, {"I", sus.interval, "V"});
        assert SusChords(root)[..k + 1] == SusChords(root)[..k] + [SusChord(root, sus)];
        AppendAssoc(start, SusChords(root)[..k], chord.Value());
        Append(chord);
      }
      assert SusChords(root)[..|SusTable|] == SusChords(root);
    }

    /** `generate_power_chord`: appends the root's "5" chord with its notes already read. */
    method GeneratePowerChord()
      requires Separate() && root in AllNoteNames
      modifies this`chords
      ensures Separate() && forall c :: c in chords ==> c in old(chords) || fresh(c)
      ensures Values(chords) == old(Values(chords)) + [PowerChord(root)]
    {
      var chord := NewPowerChord(root);
      ValuesUnchanged(chords);
      Append(chord);
    }

    /** `list.remove`: takes out the first occurrence of the object. */
    method RemoveChord(chord: Chord)
      requires chord in chords
      modifies this`chords
      ensures chords == old(chords[..Find(chords, chord)] + chords[Find(chords, chord) + 1..])
      ensures old(Separate()) ==> Separate()
    {
      var i := 0;
      while chords[i] != chord
        invariant i <= Find(chords, chord)
        decreases Find(chords, chord) - i
      {
        i := i + 1;
      }
      if Separate() {
        NoRepeatsRemove(chords, i);
      }
      chords := chords[..i] + chords[i + 1..];
    }

    /**
     * `remove_unstandard_triad_chords`: walks a copy of the list and removes major chords
     * named "dim" and minor chords named with "aug" or "5+". A chord hit twice would make
     * the second `remove` fail, so each chord may be hit at most once.
     */
    method RemoveUnstandardTriadChords()
      requires Separate()
      requires forall i :: 0 <= i < |Values(chords)| ==> TriadHits(Values(chords)[i]) <= 1
      modifies this`chords
      ensures Separate() && forall c :: c in chords ==> c in old(chords)
      ensures Values(chords) == Standard(Triad, old(Values(chords)))
    {
      RemoveUnstandard(Triad);
    }

    /**
     * The triad test on one chord, as `remove_unstandard_triad_chords` runs it: the chord
     * goes when it is major with "dim" in its name, and again for each augmented suffix a
     * minor name holds. At most one of these tests fires, so `list.remove` never misses.
     */
    method DropTriad(chord: Chord, ghost kept: seq<Chord>, ghost rest: seq<Chord>)
      requires Separate() && chords == kept + [chord] + rest && TriadHits(chord.Value()) <= 1
      modifies this`chords
      ensures Separate()
      ensures chords == if TriadHits(chord.Value()) > 0 then kept + rest else kept + [chord] + rest
    {
      ghost var value := chord.Value();
      ghost var dim := if "III" in value.intervals && Contains(value.name, "dim") then 1 else 0;
      if "III" in chord.intervals && Contains(chord.name, "dim") {
        RemovalAt(kept, chord, rest);
        RemoveChord(chord);
      }
      var tones := AugmentedTones;
      AugmentedHitsPrefix(value, tones, 0);
      for t := 0 to |tones|
        invariant Separate()
        invariant dim + AugmentedHits(value, tones[..t]) <= 1
        invariant chords == kept + (if dim + AugmentedHits(value, tones[..t]) == 0 then [chord] + rest else rest)
      {
        assert tones[..t + 1][..t] == tones[..t];
        AugmentedHitsPrefix(value, tones, t + 1);
        if "bIII" in chord.intervals && Contains(chord.name, tones[t]) {
          RemovalAt(kept, chord, rest);
          RemoveChord(chord);
        }
      }
      assert tones[..|tones|] == tones;
    }

    /**
     * `remove_unstandard_seventh_chords`: walks a copy of the list and removes the chords
     * named with "mmaj7", "susmaj7", "augmaj7" or "dim7".
     */
    method RemoveUnstandardSeventhChords()
      requires Separate()
      modifies this`chords
      ensures Separate() && forall c :: c in chords ==> c in old(chords)
      ensures Values(chords) == Standard(Seventh, old(Values(chords)))
    {
      RemoveUnstandard(Seventh);
    }

    /**
     * `remove_unstandard_extended_chords`: walks a copy of the list and removes the chords
     * whose name holds a "2", "4" or "6" without being just the root followed by it. Reading
     * the root of an empty name would fail.
     */
    method RemoveUnstandardExtendedChords()
      requires Separate()
      requires forall i :: 0 <= i < |Values(chords)| ==> |Values(chords)[i].name| > 0
      modifies this`chords
      ensures Separate() && forall c :: c in chords ==> c in old(chords)
      ensures Values(chords) == Standard(Extended, old(Values(chords)))
    {
      RemoveUnstandard(Extended);
    }

    /**
     * The pass every stage's removal shares: for each chord of a copy of the list, remove
     * it when the stage's test says it is not standard. In the triad stage each chord must
     * fail at most one of the triad tests, as every generated triad and "sus" chord does.
     */
    method RemoveUnstandard(stage: Stage)
      requires Separate()
      requires stage == Triad ==> forall i :: 0 <= i < |Values(chords)| ==> TriadHits(Values(chords)[i]) <= 1
      modifies this`chords
      ensures Separate() && forall c :: c in chords ==> c in old(chords)
      ensures Values(chords) == Standard(stage, old(Values(chords)))
    {
      var previous := chords;
      ghost var pool := Values(previous);
      RemovalPass(stage, previous, pool);
      RemovedUnflagged(stage, previous, pool);
    }

    /** The loop of a removal pass over `previous`, a copy of the list taken before it. */
    method RemovalPass(stage: Stage, previous: seq<Chord>, ghost pool: seq<ChordValue>)
      requires Separate() && chords == previous && Values(previous) == pool
      requires stage == Triad ==> forall i :: 0 <= i < |pool| ==> TriadHits(pool[i]) <= 1
      modifies this`chords
      ensures Separate() && Values(previous) == pool
      ensures chords == Unflagged(previous, Flags(stage, pool))
    {
      ghost var flags := Flags(stage, pool);
      PendingEnds(previous, flags);
      var k := 0;
      while k < |previous|
        invariant k <= |previous| && Separate()
        invariant chords == Pending(previous, flags, k)
        invariant Values(previous) == pool
      {
        Visit(stage, previous, pool, k);
        k := k + 1;
      }
    }

    /**
     * One turn of a removal pass: the `k`-th chord of the copy sits right after the chords
     * kept so far, and `list.remove` takes it out when the stage's test says it is not
     * standard.
     */
    method Visit(stage: Stage, previous: seq<Chord>, ghost pool: seq<ChordValue>, k: nat)
      requires Separate() && k < |previous| && Values(previous) == pool
      requires stage == Triad ==> forall i :: 0 <= i < |pool| ==> TriadHits(pool[i]) <= 1
      requires chords == Pending(previous, Flags(stage, pool), k)
      modifies this`chords
      ensures Separate() && Values(previous) == pool
      ensures chords == Pending(previous, Flags(stage, pool), k + 1)
    {
      if stage == Triad {
        VisitTriad(previous[k], previous, pool, k);
      } else {
        VisitNamed(stage, previous[k], previous, pool, k);
      }
    }

    /** The turn outside the triad stage, where the test reads only the chord's name. */
    method VisitNamed(stage: Stage, chord: Chord, ghost previous: seq<Chord>, ghost pool: seq<ChordValue>, k: nat)
      requires Separate() && k < |previous| && chord == previous[k]
      requires Values(previous) == pool && stage != Triad
      requires chords == Unflagged(previous[..k], Flags(stage, pool)[..k]) + previous[k..]
      modifies this`chords
      ensures Separate() && Values(previous) == pool
      ensures chords == Unflagged(previous[..k + 1], Flags(stage, pool)[..k + 1]) + previous[k + 1..]
    {
      ghost var flags := Flags(stage, pool);
      ghost var kept := Unflagged(previous[..k], flags[..k]);
      ghost var rest := previous[k + 1..];
      VisitShape(previous, flags, k);
      ValueAt(previous, k);
      if Unstandard(stage, chord.Value()) {
        RemovalAt(kept, chord, rest);
        RemoveChord(chord);
      }
    }

    /** The same turn in the triad stage, where the chord fails at most one triad test. */
    method VisitTriad(chord: Chord, ghost previous: seq<Chord>, ghost pool: seq<ChordValue>, k: nat)
      requires Separate() && k < |previous| && chord == previous[k]
      requires Values(previous) == pool && TriadHits(pool[k]) <= 1
      requires chords == Unflagged(previous[..k], Flags(Triad, pool)[..k]) + previous[k..]
      modifies this`chords
      ensures Separate() && Values(previous) == pool
      ensures chords == Unflagged(previous[..k + 1], Flags(Triad, pool)[..k + 1]) + previous[k + 1..]
    {
      ghost var flags := Flags(Triad, pool);
      ghost var kept := Unflagged(previous[..k], flags[..k]);
      ghost var rest := previous[k + 1..];
      VisitShape(previous, flags, k);
      ValueAt(previous, k);
      DropTriad(chord, kept, rest);
    }

    /**
     * The closing loop of each stage's `generate`: fixes up every name with the stage's
     * formatter, then reads the chord's notes.
     */
    method FinishChords(formatter: Stage)
      requires Separate() && OverRoot(Values(chords), root)
      modifies set c | c in chords
      ensures chords == old(chords)
      ensures Values(chords) == Finish(formatter, root, old(Values(chords)))
    {
      ghost var pool := Values(chords);
      ghost var done := Finish(formatter, root, pool);
      ValuesAt(chords);
      for k := 0 to |chords|
        invariant forall i :: 0 <= i < k ==> chords[i].Value() == done[i]
        invariant forall i :: k <= i < |chords| ==> chords[i].Value() == pool[i]
      {
        FinishAt(formatter, pool, done, k);
      }
      ValuesAt(chords);
    }

    /** One turn of the closing loop: chord `k` is finished and no other chord changes. */
    method FinishAt(formatter: Stage, ghost pool: seq<ChordValue>, ghost done: seq<ChordValue>, k: nat)
      requires Separate() && |pool| == |chords| && k < |chords|
      requires OverRoot(pool, root) && done == Finish(formatter, root, pool)
      requires forall i :: 0 <= i < k ==> chords[i].Value() == done[i]
      requires forall i :: k <= i < |chords| ==> chords[i].Value() == pool[i]
      modifies chords[k]
      ensures forall i :: 0 <= i < k + 1 ==> chords[i].Value() == done[i]
      ensures forall i :: k + 1 <= i < |chords| ==> chords[i].Value() == pool[i]
    {
      assert SoundAt(pool[k], root);
      var chord := chords[k];
      FinishChord(chord, formatter, root);
      forall i | 0 <= i < |chords| && i != k
        ensures chords[i].Value() == old(chords[i].Value())
      {
        assert chords[i] != chord;
      }
    }

    /**
     * The end every stage's `generate` shares, once its pool is built: the removal pass of
     * stage `pass`, then the formatting loop with that stage's formatter.
     */
    method RemoveAndFinish(pass: Stage, ghost pool: seq<ChordValue>)
      requires Separate() && Values(chords) == pool && OverRoot(pool, root)
      requires pass == Triad ==> forall i :: 0 <= i < |pool| ==> TriadHits(pool[i]) <= 1
      modifies this`chords, set c | c in chords
      ensures Separate() && forall c :: c in chords ==> c in old(chords)
      ensures OverRoot(Standard(pass, pool), root) && Values(chords) == Finish(pass, root, Standard(pass, pool))
    {
      match pass {
        case Triad => RemoveUnstandardTriadChords();
        case Seventh => RemoveUnstandardSeventhChords();
        case Extended =>
          forall i | 0 <= i < |pool|
            ensures |pool[i].name| > 0
          {
            RootedRoot(pool[i].name, root);
          }
          RemoveUnstandardExtendedChords();
      }
      StandardOverRoot(pass, pool, root);
      FinishChords(pass);
    }

    /** The first two calls of `TriadChordGenerator.generate`: the triads, then the "sus" chords. */
    method GenerateTriadPool()
      requires chords == []
      modifies this`chords
      ensures Separate() && forall c :: c in chords ==> fresh(c)
      ensures Values(chords) == Triads(root) + SusChords(root)
    {
      GenerateTriads();
      GenerateSusChords();
    }

    /** `TriadChordGenerator.generate` on an empty list. */
    method GenerateTriadStage()
      requires chords == [] && root in AllNoteNames
      modifies this`chords
      ensures Separate() && forall c :: c in chords ==> fresh(c)
      ensures Values(chords) == TriadStage(root)
    {
      GenerateTriadPool();
      ghost var pool := Triads(root) + SusChords(root);
      TriadPoolHitsAtMostOnce(root);
      TriadsOverRoot(root);
      RemoveAndFinish(Triad, pool);
    }

    /** `generate_seventh_chords` on an empty list: the triad stage, then its seventh copies. */
    method GenerateSeventhChords()
      requires chords == [] && root in AllNoteNames
      modifies this`chords
      ensures Separate() && forall c :: c in chords ==> fresh(c)
      ensures Values(chords) == SeventhPool(root)
    {
      GenerateTriadStage();
      AppendCopies(Sevenths, "");
    }

    /** `generate_nth_chords`: a slash copy of every chord for every entry of the table. */
    method GenerateNthChords(table: seq<Addition>)
      requires Separate()
      modifies this`chords
      ensures Separate() && forall c :: c in chords ==> c in old(chords) || fresh(c)
      ensures Values(chords) == Grow(old(Values(chords)), table)
    {
      AppendCopies(table, "/");
    }

    /**
     * The loop `generate_seventh_chords` and `generate_nth_chords` share: for each chord of
     * a copy of the list, one deep copy per table entry, with `sep` and the entry's suffix
     * added to its name and the entry's label to its intervals.
     */
    method AppendCopies(table: seq<Addition>, sep: string)
      requires Separate()
      modifies this`chords
      ensures Separate() && forall c :: c in chords ==> c in old(chords) || fresh(c)
      ensures Values(chords) == old(Values(chords)) + Extend(old(Values(chords)), table, sep)
    {
      var previous := chords;
      ghost var start := Values(chords);
      for i := 0 to |previous|
        invariant Separate() && forall c :: c in chords ==> c in old(chords) || fresh(c)
        invariant Values(previous) == start
        invariant Values(chords) == start + Extend(start[..i], table, sep)
      {
        ValueAt(previous, i);
        assert start[..i + 1][..i] == start[..i];
        AppendCopiesOf(previous[i], table, sep);
      }
      assert start[..|previous|] == start;
    }

    /** The inner loop of `AppendCopies`: the copies of one chord, one per table entry, in order. */
    method AppendCopiesOf(chord: Chord, table: seq<Addition>, sep: string)
      requires Separate()
      modifies this`chords
      ensures Separate() && forall c :: c in chords ==> c in old(chords) || fresh(c)
      ensures Values(chords) == old(Values(chords)) + Copies(chord.Value(), table, sep)
    {
      ghost var start := Values(chords);
      for j := 0 to |table|
        invariant Separate() && forall c :: c in chords ==> c in old(chords) || fresh(c)
        invariant Values(chords) == start + Copies(chord.Value(), table[..j], sep)
      {
        var copy := NewCopy(chord, table[j], sep);
        assert Copies(chord.Value(), table[..j + 1], sep) == Copies(chord.Value(), table[..j], sep) + [copy.Value()];
        AppendAssoc(start, Copies(chord.Value(), table[..j], sep), copy.Value());
        Append(copy);
      }
      assert table[..|table|] == table;
    }

    /** `SeventhChordGenerator.generate` on an empty list. */
    method GenerateSeventhStage()
      requires chords == [] && root in AllNoteNames
      modifies this`chords
      ensures Separate() && forall c :: c in chords ==> fresh(c)
      ensures Values(chords) == SeventhStage(root)
    {
      GenerateSeventhChords();
      SeventhPoolOverRoot(root);
      RemoveAndFinish(Seventh, SeventhPool(root));
    }

    /** `generate_extended_chords` on an empty list: the seventh stage grown by three tables. */
    method GenerateExtendedChords()
      requires chords == [] && root in AllNoteNames
      modifies this`chords
      ensures Separate() && forall c :: c in chords ==> fresh(c)
      ensures Values(chords) == ExtendedPool(root)
    {
      GenerateEleventhChords();
      GenerateNthChords(Thirteenths);
    }

    /** The first three calls of `ExtendedChordGenerator.generate_extended_chords`. */
    method GenerateEleventhChords()
      requires chords == [] && root in AllNoteNames
      modifies this`chords
      ensures Separate() && forall c :: c in chords ==> fresh(c)
      ensures Values(chords) == Grow(Grow(SeventhStage(root), Ninths), Elevenths)
    {
      GenerateNinthChords();
      GenerateNthChords(Elevenths);
    }

    /** The first two calls of `ExtendedChordGenerator.generate_extended_chords`: the seventh stage, then its ninths. */
    method GenerateNinthChords()
      requires chords == [] && root in AllNoteNames
      modifies this`chords
      ensures Separate() && forall c :: c in chords ==> fresh(c)
      ensures Values(chords) == Grow(SeventhStage(root), Ninths)
    {
      GenerateSeventhStage();
      GenerateNthChords(Ninths);
    }

    /** `ExtendedChordGenerator.generate` on an empty list. */
    method GenerateExtendedStage()
      requires chords == [] && root in AllNoteNames
      modifies this`chords
      ensures Separate() && forall c :: c in chords ==> fresh(c)
      ensures Values(chords) == ExtendedStage(root)
    {
      GenerateExtendedChords();
      ExtendedPoolOverRoot(root);
      RemoveAndFinish(Extended, ExtendedPool(root));
    }

    /** `generate`, dispatched on the generator's class. */
    method Generate()
      requires chords == [] && root in AllNoteNames
      modifies this`chords
      ensures Separate() && forall c :: c in chords ==> fresh(c)
      ensures Values(chords) == StageChords(stage, root)
    {
      match stage {
        case Triad => GenerateTriadStage();
        case Seventh => GenerateSeventhStage();
        case Extended => GenerateExtendedStage();
      }
    }

    /** `generate` followed by `generate_power_chord`: the list holds the root's catalog. */
    method GenerateCatalog()
      requires chords == [] && root in AllNoteNames
      modifies this`chords
      ensures Separate() && Values(chords) == Catalog(stage, root)
    {
      Generate();
      GeneratePowerChord();
    }
  }
}
