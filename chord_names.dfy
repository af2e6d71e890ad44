/**
 * `ChordNameFormatter` of src/musicinpython/generators/chordgenerator.py: the string
 * fix-ups applied to chord names after each stage, and the invariant that none of them
 * moves the chord's root (so the notes read from the chromatic scale stay the same).
 */
module ChordNames {
  import opened StringOps
  import opened Notes
  import opened Chords

  predicate Sign(c: char) { c == 'b' || c == '#' }

  predicate Opens(c: char) { c == '(' || c == '/' }

  /** `s` holds no sign character. */
  predicate Unsigned(s: string) { 'b' !in s && '#' !in s }

  /**
   * Every sign in `s` comes right after "(" or "/", where `prev` is the character just
   * before `s`: a chord suffix never looks like an accidental of the root.
   */
  predicate Guarded(s: string, prev: char)
    decreases |s|
  {
    |s| == 0 || ((Sign(s[0]) ==> Opens(prev)) && Guarded(s[1..], s[0]))
  }

  function LastOr(s: string, c: char): char
  {
    if |s| == 0 then c else s[|s| - 1]
  }

  lemma {:induction false} GuardedAppend(a: string, b: string, prev: char)
    ensures Guarded(a + b, prev) <==> Guarded(a, prev) && Guarded(b, LastOr(a, prev))
    decreases |a|
  {
    if |a| == 0 {
      assert a + b == b;
    } else {
      assert (a + b)[1..] == a[1..] + b;
      GuardedAppend(a[1..], b, a[0]);
    }
  }

  /** A guarded string stays guarded after any character that opens whenever the old one did. */
  lemma GuardedWeaken(s: string, p: char, q: char)
    requires Guarded(s, p) && (Opens(p) ==> Opens(q))
    ensures Guarded(s, q)
  {
  }

  lemma {:induction false} UnsignedGuarded(s: string, prev: char)
    requires Unsigned(s)
    ensures Guarded(s, prev)
    decreases |s|
  {
    if |s| > 0 {
      assert s == [s[0]] + s[1..];
      UnsignedGuarded(s[1..], s[0]);
    }
  }

  /**
   * Replacing every occurrence of `pat` by a sign-free `rep` keeps signs behind "(" or "/",
   * provided a pattern ending in one of those is replaced by text ending in one of those.
   */
  lemma {:induction false} GuardedReplaceAll(s: string, pat: string, rep: string, p: char, q: char)
    requires |pat| > 0 && Guarded(s, p) && (Opens(p) ==> Opens(q))
    requires Unsigned(rep)
    requires Opens(pat[|pat| - 1]) ==> |rep| > 0 && Opens(rep[|rep| - 1])
    ensures Guarded(ReplaceAll(s, pat, rep), q)
    decreases |s|
  {
    if |s| == 0 {
    } else if StartsWith(s, pat) {
      StartsWithSlice(s, pat);
      var t := s[|pat|..];
      assert s == pat + t;
      GuardedAppend(pat, t, p);
      GuardedReplaceAll(t, pat, rep, pat[|pat| - 1], LastOr(rep, q));
      UnsignedGuarded(rep, q);
      GuardedAppend(rep, ReplaceAll(t, pat, rep), q);
    } else {
      GuardedReplaceAll(s[1..], pat, rep, s[0], s[0]);
      GuardedAppend([s[0]], ReplaceAll(s[1..], pat, rep), q);
    }
  }

  /** The same for replacing only the leftmost occurrence. */
  lemma {:induction false} GuardedReplaceFirst(s: string, pat: string, rep: string, p: char, q: char)
    requires |pat| > 0 && Guarded(s, p) && (Opens(p) ==> Opens(q))
    requires Unsigned(rep)
    requires Opens(pat[|pat| - 1]) ==> |rep| > 0 && Opens(rep[|rep| - 1])
    ensures Guarded(ReplaceFirst(s, pat, rep), q)
    decreases |s|
  {
    if StartsWith(s, pat) {
      StartsWithSlice(s, pat);
      var t := s[|pat|..];
      assert s == pat + t;
      GuardedAppend(pat, t, p);
      GuardedWeaken(t, pat[|pat| - 1], LastOr(rep, q));
      UnsignedGuarded(rep, q);
      GuardedAppend(rep, t, q);
    } else if |s| > 0 {
      GuardedReplaceFirst(s[1..], pat, rep, s[0], s[0]);
      GuardedAppend([s[0]], ReplaceFirst(s[1..], pat, rep), q);
    }
  }

  /**
   * `name` is `root` followed by a suffix whose signs all follow "(" or "/": the shape of
   * every generated chord name.
   */
  predicate Rooted(name: string, root: string)
  {
    && root in AllNoteNames
    && |root| <= |name|
    && name[..|root|] == root
    && Guarded(name[|root|..], ' ')
  }

  lemma RootedPlus(root: string, suffix: string)
    requires root in AllNoteNames && Guarded(suffix, ' ')
    ensures Rooted(root + suffix, root)
  {
    assert (root + suffix)[..|root|] == root;
    assert (root + suffix)[|root|..] == suffix;
  }

  /** `get_root` reads back the root of a rooted name. */
  lemma RootedRoot(name: string, root: string)
    requires Rooted(name, root)
    ensures |name| > 0 && RootOf(name) == root
  {
    var suffix := name[|root|..];
    assert name == root + suffix;
    RootOfRootPlus(root, suffix);
  }

  /** No character of a note name starts any of the patterns the formatters look for. */
  lemma RootLacks(root: string)
    requires root in AllNoteNames
    ensures 'm' !in root && '(' !in root && 's' !in root && '/' !in root && 'd' !in root
    ensures 'a' !in root && '5' !in root && '2' !in root && '4' !in root && '6' !in root
    ensures '1' !in root && '9' !in root && '7' !in root
  {
    NoteNameChars(root);
  }

  // ---------------------------------------------------------------- format_triad_name

  /** `format_triad_name`: a minor chord named with "dim" loses its first "m". */
  function FormatTriad(name: string, intervals: set<string>): string
  {
    if "bIII" in intervals && Contains(name, "dim") then ReplaceFirst(name, "m", "") else name
  }

  /** The triad fix-up works on the suffix alone: the root holds none of "m" and "d". */
  lemma FormatTriadSuffix(root: string, suffix: string, intervals: set<string>)
    requires root in AllNoteNames
    ensures FormatTriad(root + suffix, intervals) == root + FormatTriad(suffix, intervals)
  {
    RootLacks(root);
    ContainsSkip(root, suffix, "dim");
    ReplaceFirstSkip(root, suffix, "m", "");
  }

  /** The triad fix-up keeps the root. */
  lemma FormatTriadRooted(name: string, intervals: set<string>, root: string)
    requires Rooted(name, root)
    ensures Rooted(FormatTriad(name, intervals), root)
  {
    var suffix := name[|root|..];
    assert name == root + suffix;
    FormatTriadSuffix(root, suffix, intervals);
    GuardedReplaceFirst(suffix, "m", "", ' ', ' ');
    RootedPlus(root, FormatTriad(suffix, intervals));
  }

  /** The example of the formatter's documentation: a root's "mdim" triad becomes its "dim" triad. */
  lemma FormatTriadExample(root: string)
    requires root in AllNoteNames
    ensures FormatTriad(root + "mdim", {"I", "bIII", "bV"}) == root + "dim"
  {
    FormatTriadSuffix(root, "mdim", {"I", "bIII", "bV"});
    ContainsAt("mdim", "dim", 1);
    assert ReplaceFirst("mdim", "m", "") == "dim";
  }

  /** `format_triad_name` on a chord object. */
  method FormatTriadName(chord: Chord)
    modifies chord`name
    ensures chord.name == FormatTriad(old(chord.name), chord.intervals)
  {
    if "bIII" in chord.intervals && Contains(chord.name, "dim") {
      chord.name := ReplaceFirst(chord.name, "m", "");
    }
  }

  // ---------------------------------------------------------------- format_seventh_chord_name

  /**
   * `format_seventh_chord_name`: "(b5)" moves to the end of the name; otherwise "sus27"
   * becomes "sus2/7", or else "sus47" becomes "sus4/7".
   */
  function FormatSeventh(name: string): string
  {
    if Contains(name, "(b5)") then ReplaceAll(name, "(b5)", "") + "(b5)"
    else if Contains(name, "sus27") then ReplaceAll(name, "sus27", "sus2/7")
    else if Contains(name, "sus47") then ReplaceAll(name, "sus47", "sus4/7")
    else name
  }

  /** The seventh fix-up works on the suffix alone: the root holds none of "(" and "s". */
  lemma FormatSeventhSuffix(root: string, suffix: string)
    requires root in AllNoteNames
    ensures FormatSeventh(root + suffix) == root + FormatSeventh(suffix)
  {
    RootLacks(root);
    var name := root + suffix;
    ContainsSkip(root, suffix, "(b5)");
    if Contains(suffix, "(b5)") {
      ReplaceAllSkip(root, suffix, "(b5)", "");
      assert FormatSeventh(name) == root + ReplaceAll(suffix, "(b5)", "") + "(b5)";
      return;
    }
    ContainsSkip(root, suffix, "sus27");
    if Contains(suffix, "sus27") {
      ReplaceAllSkip(root, suffix, "sus27", "sus2/7");
      return;
    }
    ContainsSkip(root, suffix, "sus47");
    if Contains(suffix, "sus47") {
      ReplaceAllSkip(root, suffix, "sus47", "sus4/7");
    }
  }

  /** The seventh fix-up keeps the root. */
  lemma FormatSeventhRooted(name: string, root: string)
    requires Rooted(name, root)
    ensures Rooted(FormatSeventh(name), root)
  {
    var suffix := name[|root|..];
    assert name == root + suffix;
    FormatSeventhSuffix(root, suffix);
    if Contains(suffix, "(b5)") {
      var cut := ReplaceAll(suffix, "(b5)", "");
      GuardedReplaceAll(suffix, "(b5)", "", ' ', ' ');
      GuardedAppend(cut, "(b5)", ' ');
    } else if Contains(suffix, "sus27") {
      GuardedReplaceAll(suffix, "sus27", "sus2/7", ' ', ' ');
    } else if Contains(suffix, "sus47") {
      GuardedReplaceAll(suffix, "sus47", "sus4/7", ' ', ' ');
    }
    RootedPlus(root, FormatSeventh(suffix));
  }

  /**
   * A single "(b5)" between text without parentheses moves to the end of the name,
   * the rest keeping its order.
   */
  lemma FormatSeventhFlatFive(before: string, after: string)
    requires '(' !in before && '(' !in after
    ensures FormatSeventh(before + "(b5)" + after) == before + after + "(b5)"
  {
    var tail := "(b5)" + after;
    var name := before + tail;
    assert before + "(b5)" + after == name;
    assert Contains(name, "(b5)") by {
      assert name[|before|..|before| + 4] == "(b5)";
      ContainsAt(name, "(b5)", |before|);
    }
    assert ReplaceAll(tail, "(b5)", "") == ReplaceAll(after, "(b5)", "") by {
      StartsWithSlice(tail, "(b5)");
      assert tail[..4] == "(b5)" && tail[4..] == after;
    }
    ReplaceAllAbsent(after, "(b5)", "");
    ReplaceAllSkip(before, tail, "(b5)", "");
  }

  /** "sus2" and "sus4" sevenths get a slash before the "7". */
  lemma FormatSeventhSus(root: string)
    requires root in AllNoteNames
    ensures FormatSeventh(root + "sus27") == root + "sus2/7"
    ensures FormatSeventh(root + "sus47") == root + "sus4/7"
  {
    FormatSeventhSuffix(root, "sus27");
    FormatSeventhSuffix(root, "sus47");
    ContainsNoFirstChar("sus27", "(b5)");
    ContainsNoFirstChar("sus47", "(b5)");
    ContainsAt("sus27", "sus27", 0);
    ContainsAt("sus47", "sus47", 0);
    assert !Contains("sus47", "sus27");
    assert ReplaceAll("sus27", "sus27", "sus2/7") == "sus2/7";
    assert ReplaceAll("sus47", "sus47", "sus4/7") == "sus4/7";
  }

  /** `format_seventh_chord_name` on a chord object. */
  method FormatSeventhName(chord: Chord)
    modifies chord`name
    ensures chord.name == FormatSeventh(old(chord.name))
  {
    if Contains(chord.name, "(b5)") {
      chord.name := ReplaceAll(chord.name, "(b5)", "") + "(b5)";
    } else if Contains(chord.name, "sus27") {
      chord.name := ReplaceAll(chord.name, "sus27", "sus2/7");
    } else if Contains(chord.name, "sus47") {
      chord.name := ReplaceAll(chord.name, "sus47", "sus4/7");
    }
  }

  // ---------------------------------------------------------------- format_extended_chord_name

  /** The extension numbers `format_extended_chord_name` tries, in its order. */
  const ExtensionDigits: seq<string> := ["2", "4", "6", "9", "11", "13"]

  /**
   * One pass of the formatter's loop: a bare root-slash-number name drops the slash;
   * otherwise a name with a single slash, no "(b5)" and the number in it puts the part
   * after the slash in parentheses.
   */
  function FormatTone(name: string, root: string, tone: string): string
  {
    if name == root + "/" + tone then ReplaceAll(name, "/", "")
    else if Count(name, '/') == 1 && !Contains(name, "(b5)") && Contains(name, tone)
    then ReplaceAll(name, "/", "(") + ")"
    else name
  }

  /** The passes for `tones`, first to last. */
  function FormatTones(name: string, root: string, tones: seq<string>): string
    decreases |tones|
  {
    if |tones| == 0 then name else FormatTones(FormatTone(name, root, tones[0]), root, tones[1..])
  }

  /** `format_extended_chord_name`: the passes for 2, 4, 6, 9, 11 and 13 with the name's root. */
  function FormatExtended(name: string): string
    requires |name| > 0
  {
    FormatTones(name, RootOf(name), ExtensionDigits)
  }

  lemma {:induction false} FormatTonesSnoc(name: string, root: string, tones: seq<string>, k: nat)
    requires k < |tones|
    ensures FormatTones(name, root, tones[..k + 1]) == FormatTone(FormatTones(name, root, tones[..k]), root, tones[k])
    decreases k
  {
    if k == 0 {
      assert tones[..1][1..] == [];
    } else {
      assert tones[..k + 1][1..] == tones[1..][..k];
      assert tones[..k][1..] == tones[1..][..k - 1];
      FormatTonesSnoc(FormatTone(name, root, tones[0]), root, tones[1..], k - 1);
    }
  }

  /** The extension numbers are digits: no sign, no slash, no parenthesis. */
  predicate Digits(tone: string)
  {
    |tone| > 0 && forall i :: 0 <= i < |tone| ==> '0' <= tone[i] <= '9'
  }

  lemma ExtensionDigitsAreDigits()
    ensures forall k :: 0 <= k < |ExtensionDigits| ==> Digits(ExtensionDigits[k])
  {
  }

  /** One pass with the root's own prefix works on the suffix alone. */
  function FormatToneSuffix(suffix: string, tone: string): string
  {
    if suffix == "/" + tone then ReplaceAll(suffix, "/", "")
    else if Count(suffix, '/') == 1 && !Contains(suffix, "(b5)") && Contains(suffix, tone)
    then ReplaceAll(suffix, "/", "(") + ")"
    else suffix
  }

  function FormatTonesSuffix(suffix: string, tones: seq<string>): string
    decreases |tones|
  {
    if |tones| == 0 then suffix else FormatTonesSuffix(FormatToneSuffix(suffix, tones[0]), tones[1..])
  }

  lemma PrefixCancel(root: string, a: string, b: string)
    ensures root + a == root + b <==> a == b
  {
    if root + a == root + b {
      assert a == (root + a)[|root|..];
    }
  }

  lemma FormatToneOnSuffix(root: string, suffix: string, tone: string)
    requires root in AllNoteNames && Digits(tone)
    ensures FormatTone(root + suffix, root, tone) == root + FormatToneSuffix(suffix, tone)
  {
    RootLacks(root);
    assert root + "/" + tone == root + ("/" + tone);
    PrefixCancel(root, suffix, "/" + tone);
    CountConcat(root, suffix, '/');
    CountZero(root, '/');
    ContainsSkip(root, suffix, "(b5)");
    assert tone[0] !in root by { NoteNameChars(root); }
    ContainsSkip(root, suffix, tone);
    ReplaceAllSkip(root, suffix, "/", "");
    ReplaceAllSkip(root, suffix, "/", "(");
  }

  lemma {:induction false} FormatTonesOnSuffix(root: string, suffix: string, tones: seq<string>)
    requires root in AllNoteNames && forall k :: 0 <= k < |tones| ==> Digits(tones[k])
    ensures FormatTones(root + suffix, root, tones) == root + FormatTonesSuffix(suffix, tones)
    decreases |tones|
  {
    if |tones| > 0 {
      FormatToneOnSuffix(root, suffix, tones[0]);
      FormatTonesOnSuffix(root, FormatToneSuffix(suffix, tones[0]), tones[1..]);
    }
  }

  /** The extended fix-up of a rooted name is the fix-up of its suffix behind the same root. */
  lemma FormatExtendedSuffix(root: string, suffix: string)
    requires Rooted(root + suffix, root)
    ensures FormatExtended(root + suffix) == root + FormatTonesSuffix(suffix, ExtensionDigits)
  {
    RootedRoot(root + suffix, root);
    ExtensionDigitsAreDigits();
    FormatTonesOnSuffix(root, suffix, ExtensionDigits);
  }

  lemma FormatToneSuffixGuarded(suffix: string, tone: string)
    requires Guarded(suffix, ' ') && Digits(tone)
    ensures Guarded(FormatToneSuffix(suffix, tone), ' ')
  {
    if suffix == "/" + tone {
      assert '/' !in tone;
      StartsWithChar(suffix, '/');
      assert suffix[1..] == tone;
      ReplaceAllAbsent(tone, "/", "");
      assert ReplaceAll(suffix, "/", "") == "" + ReplaceAll(tone, "/", "");
      assert "" + tone == tone;
      assert FormatToneSuffix(suffix, tone) == tone;
      assert Unsigned(tone);
      UnsignedGuarded(tone, ' ');
    } else if Count(suffix, '/') == 1 && !Contains(suffix, "(b5)") && Contains(suffix, tone) {
      var parenthesised := ReplaceAll(suffix, "/", "(");
      GuardedReplaceAll(suffix, "/", "(", ' ', ' ');
      GuardedAppend(parenthesised, ")", ' ');
    }
  }

  lemma {:induction false} FormatTonesSuffixGuarded(suffix: string, tones: seq<string>)
    requires Guarded(suffix, ' ') && forall k :: 0 <= k < |tones| ==> Digits(tones[k])
    ensures Guarded(FormatTonesSuffix(suffix, tones), ' ')
    decreases |tones|
  {
    if |tones| > 0 {
      FormatToneSuffixGuarded(suffix, tones[0]);
      FormatTonesSuffixGuarded(FormatToneSuffix(suffix, tones[0]), tones[1..]);
    }
  }

  /** The extended fix-up keeps the root. */
  lemma FormatExtendedRooted(name: string, root: string)
    requires Rooted(name, root)
    ensures |name| > 0 && Rooted(FormatExtended(name), root)
  {
    RootedRoot(name, root);
    var suffix := name[|root|..];
    assert name == root + suffix;
    FormatExtendedSuffix(root, suffix);
    ExtensionDigitsAreDigits();
    FormatTonesSuffixGuarded(suffix, ExtensionDigits);
    RootedPlus(root, FormatTonesSuffix(suffix, ExtensionDigits));
  }

  /** The formatter's examples: a bare ninth drops its slash, an added eleventh is parenthesised. */
  lemma FormatExtendedExamples(root: string)
    requires root in AllNoteNames
    ensures FormatExtended(root + "/9") == root + "9"
    ensures FormatExtended(root + "m7/11") == root + "m7(11)"
  {
    RootedPlus(root, "/9");
    RootedPlus(root, "m7/11");
    FormatExtendedSuffix(root, "/9");
    FormatExtendedSuffix(root, "m7/11");
    BareNinth("/9");
    AddedEleventh("m7/11");
  }

  /** The six passes, one after the other. */
  lemma FormatTonesSuffixSix(suffix: string, tones: seq<string>)
    requires |tones| == 6
    ensures FormatTonesSuffix(suffix, tones) ==
      FormatToneSuffix(FormatToneSuffix(FormatToneSuffix(FormatToneSuffix(FormatToneSuffix(
        FormatToneSuffix(suffix, tones[0]), tones[1]), tones[2]), tones[3]), tones[4]), tones[5])
  {
    var s1 := FormatToneSuffix(suffix, tones[0]);
    var s2 := FormatToneSuffix(s1, tones[1]);
    var s3 := FormatToneSuffix(s2, tones[2]);
    var s4 := FormatToneSuffix(s3, tones[3]);
    var s5 := FormatToneSuffix(s4, tones[4]);
    var s6 := FormatToneSuffix(s5, tones[5]);
    var t := tones[1..];
    assert FormatTonesSuffix(suffix, tones) == FormatTonesSuffix(s1, t);
    assert FormatTonesSuffix(s1, t) == FormatTonesSuffix(s2, t[1..]);
    assert FormatTonesSuffix(s2, t[1..]) == FormatTonesSuffix(s3, t[1..][1..]);
    assert FormatTonesSuffix(s3, t[1..][1..]) == FormatTonesSuffix(s4, t[1..][1..][1..]);
    assert FormatTonesSuffix(s4, t[1..][1..][1..]) == FormatTonesSuffix(s5, t[1..][1..][1..][1..]);
    assert FormatTonesSuffix(s5, t[1..][1..][1..][1..]) == FormatTonesSuffix(s6, t[1..][1..][1..][1..][1..]);
    assert t[1..][1..][1..][1..][1..] == [];
  }

  /** A pass leaves alone a suffix that lacks the number's first digit. */
  lemma FormatToneSuffixKeeps(suffix: string, tone: string)
    requires |tone| > 0 && tone[0] !in suffix && suffix != "/" + tone
    ensures FormatToneSuffix(suffix, tone) == suffix
  {
    ContainsNoFirstChar(suffix, tone);
  }

  lemma BareNinth(suffix: string)
    requires suffix == "/9"
    ensures FormatTonesSuffix(suffix, ExtensionDigits) == "9"
  {
    FormatTonesSuffixSix(suffix, ExtensionDigits);
    assert suffix[1] == '9';
    FormatToneSuffixKeeps(suffix, "2");
    FormatToneSuffixKeeps(suffix, "4");
    FormatToneSuffixKeeps(suffix, "6");
    assert suffix == "/" + "9";
    StartsWithChar(suffix, '/');
    assert suffix[1..] == "9";
    ReplaceAllAbsent("9", "/", "");
    assert FormatToneSuffix(suffix, "9") == "9";
    FormatToneSuffixKeeps("9", "11");
    FormatToneSuffixKeeps("9", "13");
  }

  lemma AddedEleventh(suffix: string)
    requires suffix == "m7/11"
    ensures FormatTonesSuffix(suffix, ExtensionDigits) == "m7(11)"
  {
    FormatTonesSuffixSix(suffix, ExtensionDigits);
    FormatToneSuffixKeeps(suffix, "2");
    FormatToneSuffixKeeps(suffix, "4");
    FormatToneSuffixKeeps(suffix, "6");
    FormatToneSuffixKeeps(suffix, "9");
    EleventhParenthesised(suffix);
    ClosedEleventhKept("m7(11)");
  }

  lemma EleventhParenthesised(suffix: string)
    requires suffix == "m7/11"
    ensures FormatToneSuffix(suffix, "11") == "m7(11)"
  {
    assert suffix == "m7" + "/11";
    assert Count(suffix, '/') == 1 by {
      CountConcat("m7", "/11", '/');
      CountZero("m7", '/');
      assert "/11" == "/" + "11";
      CountConcat("/", "11", '/');
      CountZero("11", '/');
    }
    ContainsNoFirstChar(suffix, "(b5)");
    assert Contains(suffix, "11") by {
      assert suffix[3..5] == "11";
      ContainsAt(suffix, "11", 3);
    }
    assert ReplaceAll(suffix, "/", "(") == "m7(11" by {
      ReplaceAllSkip("m7", "/11", "/", "(");
      StartsWithChar("/11", '/');
      assert "/11"[1..] == "11";
      ReplaceAllAbsent("11", "/", "(");
    }
  }

  lemma ClosedEleventhKept(name: string)
    requires name == "m7(11)"
    ensures FormatToneSuffix(name, "13") == name
  {
    assert name != "/" + "13";
    assert Count(name, '/') == 0 by { CountZero(name, '/'); }
  }

  /** `format_extended_chord_name` on a chord object: the root is read once, then six passes. */
  method FormatExtendedName(chord: Chord)
    requires |chord.name| > 0
    modifies chord`name
    ensures chord.name == FormatExtended(old(chord.name))
  {
    var root := RootOf(chord.name);
    var tones := ExtensionDigits;
    for k := 0 to |tones|
      invariant chord.name == FormatTones(old(chord.name), root, tones[..k])
    {
      FormatTonesSnoc(old(chord.name), root, tones, k);
      if chord.name == root + "/" + tones[k] {
        chord.name := ReplaceAll(chord.name, "/", "");
      } else if Count(chord.name, '/') == 1 && !Contains(chord.name, "(b5)") && Contains(chord.name, tones[k]) {
        chord.name := ReplaceAll(chord.name, "/", "(") + ")";
      }
    }
    assert tones[..|tones|] == tones;
  }
}
