/**
 * The handful of Python string operations the chord and scale generators rely on:
 * `sub in s`, `s.replace(old, new)`, `s.replace(old, new, 1)`, `s.count(c)`,
 * `sep.join(xs)`, `s.split()` and the slice `s[:-1]`.
 */
module StringOps {

  /** True when `p` is a prefix of `s` (compared character by character). */
  predicate StartsWith(s: string, p: string)
    ensures StartsWith(s, p) ==> |p| <= |s|
    decreases |p|
  {
    |p| == 0 || (|s| > 0 && s[0] == p[0] && StartsWith(s[1..], p[1..]))
  }

  lemma {:induction false} StartsWithSlice(s: string, p: string)
    ensures StartsWith(s, p) <==> |p| <= |s| && s[..|p|] == p
    decreases |p|
  {
    if |p| > 0 && |s| > 0 {
      StartsWithSlice(s[1..], p[1..]);
      if |p| <= |s| && s[..|p|] == p {
        assert s[1..][..|p| - 1] == s[..|p|][1..];
      }
      if s[0] == p[0] && |p| - 1 <= |s| - 1 && s[1..][..|p| - 1] == p[1..] {
        assert s[..|p|] == [s[0]] + s[1..][..|p| - 1];
        assert p == [p[0]] + p[1..];
      }
    }
  }

  /** Python's `sub in s`: `sub` occurs somewhere in `s` (the empty string occurs everywhere). */
  predicate Contains(s: string, sub: string)
    decreases |s|
  {
    if StartsWith(s, sub) then true
    else if |s| == 0 then false
    else Contains(s[1..], sub)
  }

  lemma {:induction false} ContainsAt(s: string, sub: string, i: nat)
    requires i + |sub| <= |s| && s[i..i + |sub|] == sub
    ensures Contains(s, sub)
    decreases i
  {
    StartsWithSlice(s, sub);
    if i > 0 && !StartsWith(s, sub) {
      assert s[1..][i - 1..i - 1 + |sub|] == s[i..i + |sub|];
      ContainsAt(s[1..], sub, i - 1);
    }
  }

  lemma {:induction false} ContainsWitness(s: string, sub: string) returns (i: nat)
    requires Contains(s, sub)
    ensures i + |sub| <= |s| && s[i..i + |sub|] == sub
    decreases |s|
  {
    StartsWithSlice(s, sub);
    if StartsWith(s, sub) {
      i := 0;
    } else {
      var j := ContainsWitness(s[1..], sub);
      assert s[1..][j..j + |sub|] == s[j + 1..j + 1 + |sub|];
      i := j + 1;
    }
  }

  /** Searching `p + s` for `sub` cannot match inside `p` when `p` lacks the first character of `sub`. */
  lemma {:induction false} ContainsSkip(p: string, s: string, sub: string)
    requires |sub| > 0 && sub[0] !in p
    ensures Contains(p + s, sub) == Contains(s, sub)
    decreases |p|
  {
    if |p| > 0 {
      assert (p + s)[1..] == p[1..] + s;
      ContainsSkip(p[1..], s, sub);
    } else {
      assert p + s == s;
    }
  }

  /** A string without the first character of `sub` does not contain `sub`. */
  lemma ContainsNoFirstChar(s: string, sub: string)
    requires |sub| > 0 && sub[0] !in s
    ensures !Contains(s, sub)
  {
    if Contains(s, sub) {
      var i := ContainsWitness(s, sub);
    }
  }

  /** Containment survives appending on the right. */
  lemma ContainsExtend(s: string, t: string, sub: string)
    requires Contains(s, sub)
    ensures Contains(s + t, sub)
  {
    var i := ContainsWitness(s, sub);
    assert (s + t)[i..i + |sub|] == s[i..i + |sub|];
    ContainsAt(s + t, sub, i);
  }

  /** A one-character pattern occurs exactly when the character is present. */
  lemma ContainsChar(s: string, c: char)
    ensures Contains(s, [c]) <==> c in s
  {
    if Contains(s, [c]) {
      var i := ContainsWitness(s, [c]);
      assert s[i] == c;
    }
    if c in s {
      var i :| 0 <= i < |s| && s[i] == c;
      assert s[i..i + 1] == [c];
      ContainsAt(s, [c], i);
    }
  }

  /** Python's `s.replace(pat, rep)`: every non-overlapping occurrence, scanned left to right. */
  function ReplaceAll(s: string, pat: string, rep: string): string
    requires |pat| > 0
    decreases |s|
  {
    if |s| == 0 then s
    else if StartsWith(s, pat) then rep + ReplaceAll(s[|pat|..], pat, rep)
    else [s[0]] + ReplaceAll(s[1..], pat, rep)
  }

  /** Python's `s.replace(pat, rep, 1)`: only the leftmost occurrence. */
  function ReplaceFirst(s: string, pat: string, rep: string): string
    decreases |s|
  {
    if StartsWith(s, pat) then rep + s[|pat|..]
    else if |s| == 0 then s
    else [s[0]] + ReplaceFirst(s[1..], pat, rep)
  }

  /** A match needs its first character, so a string lacking it is left alone. */
  lemma {:induction false} ReplaceAllAbsent(s: string, pat: string, rep: string)
    requires |pat| > 0 && pat[0] !in s
    ensures ReplaceAll(s, pat, rep) == s
    decreases |s|
  {
    if |s| > 0 {
      ReplaceAllAbsent(s[1..], pat, rep);
    }
  }

  /** Replacement leaves a prefix alone when the prefix lacks the pattern's first character. */
  lemma {:induction false} ReplaceAllSkip(p: string, s: string, pat: string, rep: string)
    requires |pat| > 0 && pat[0] !in p
    ensures ReplaceAll(p + s, pat, rep) == p + ReplaceAll(s, pat, rep)
    decreases |p|
  {
    if |p| > 0 {
      assert (p + s)[1..] == p[1..] + s;
      ReplaceAllSkip(p[1..], s, pat, rep);
    } else {
      assert p + s == s;
    }
  }

  lemma {:induction false} ReplaceFirstSkip(p: string, s: string, pat: string, rep: string)
    requires |pat| > 0 && pat[0] !in p
    ensures ReplaceFirst(p + s, pat, rep) == p + ReplaceFirst(s, pat, rep)
    decreases |p|
  {
    if |p| > 0 {
      assert (p + s)[1..] == p[1..] + s;
      ReplaceFirstSkip(p[1..], s, pat, rep);
    } else {
      assert p + s == s;
    }
  }

  /** A one-character prefix test looks at the first character only. */
  lemma StartsWithChar(s: string, c: char)
    ensures StartsWith(s, [c]) <==> |s| > 0 && s[0] == c
  {
    if |s| > 0 {
      assert [c][1..] == [];
    }
  }

  /** The first step of replacing a one-character pattern. */
  lemma ReplaceCharStep(s: string, a: char, rep: string)
    requires |s| > 0
    ensures ReplaceAll(s, [a], rep) == (if s[0] == a then rep else [s[0]]) + ReplaceAll(s[1..], [a], rep)
  {
    StartsWithChar(s, a);
  }

  /** Replacing one character by another is a character-by-character map. */
  lemma {:induction false} ReplaceCharAt(s: string, a: char, b: char, i: nat)
    requires i < |s|
    ensures |ReplaceAll(s, [a], [b])| == |s|
    ensures ReplaceAll(s, [a], [b])[i] == if s[i] == a then b else s[i]
    decreases |s|
  {
    ReplaceCharLength(s, a, b);
    ReplaceCharStep(s, a, [b]);
    if i > 0 {
      ReplaceCharAt(s[1..], a, b, i - 1);
    }
  }

  lemma {:induction false} ReplaceCharLength(s: string, a: char, b: char)
    ensures |ReplaceAll(s, [a], [b])| == |s|
    decreases |s|
  {
    if |s| > 0 {
      ReplaceCharStep(s, a, [b]);
      ReplaceCharLength(s[1..], a, b);
    }
  }

  /** Replacing all occurrences of a character by a string that lacks it removes it. */
  lemma {:induction false} ReplaceCharGone(s: string, a: char, rep: string)
    requires a !in rep
    ensures a !in ReplaceAll(s, [a], rep)
    decreases |s|
  {
    if |s| > 0 {
      ReplaceCharStep(s, a, rep);
      ReplaceCharGone(s[1..], a, rep);
    }
  }

  /** Replacement distributes over concatenation when the pattern is one character. */
  lemma {:induction false} ReplaceCharConcat(s: string, t: string, a: char, rep: string)
    ensures ReplaceAll(s + t, [a], rep) == ReplaceAll(s, [a], rep) + ReplaceAll(t, [a], rep)
    decreases |s|
  {
    if |s| == 0 {
      assert s + t == t;
    } else {
      assert (s + t)[1..] == s[1..] + t;
      ReplaceCharStep(s + t, a, rep);
      ReplaceCharStep(s, a, rep);
      ReplaceCharConcat(s[1..], t, a, rep);
    }
  }

  /** Python's `s.count(c)` for a one-character `c`. */
  function Count(s: string, c: char): nat
  {
    if |s| == 0 then 0 else (if s[0] == c then 1 else 0) + Count(s[1..], c)
  }

  lemma {:induction false} CountZero(s: string, c: char)
    ensures Count(s, c) == 0 <==> c !in s
    decreases |s|
  {
    if |s| > 0 {
      CountZero(s[1..], c);
    }
  }

  lemma {:induction false} CountConcat(s: string, t: string, c: char)
    ensures Count(s + t, c) == Count(s, c) + Count(t, c)
    decreases |s|
  {
    if |s| == 0 {
      assert s + t == t;
    } else {
      assert (s + t)[1..] == s[1..] + t;
      CountConcat(s[1..], t, c);
    }
  }

  /** Python's `sep.join(xs)`. */
  function Join(xs: seq<string>, sep: string): string
  {
    if |xs| == 0 then ""
    else if |xs| == 1 then xs[0]
    else xs[0] + sep + Join(xs[1..], sep)
  }

  /** Joining two words puts the separator between them. */
  lemma JoinTwo(a: string, b: string, sep: string)
    ensures Join([a, b], sep) == a + sep + b
  {
    assert [a, b][1..] == [b];
  }

  /** Joining four words puts the separator between each neighbouring pair. */
  lemma JoinFour(a: string, b: string, c: string, d: string, sep: string)
    ensures Join([a, b, c, d], sep) == a + sep + b + sep + c + sep + d
  {
    assert [a, b, c, d][1..] == [b, c, d];
    assert [b, c, d][1..] == [c, d];
    JoinTwo(c, d, sep);
  }

  /** Joining five words puts the separator between each neighbouring pair. */
  lemma JoinFive(a: string, b: string, c: string, d: string, e: string, sep: string)
    ensures Join([a, b, c, d, e], sep) == a + sep + b + sep + c + sep + d + sep + e
  {
    assert [a, b, c, d, e][1..] == [b, c, d, e];
    JoinFour(b, c, d, e, sep);
  }

  /** Joining seven words puts the separator between each neighbouring pair. */
  lemma JoinSeven(a: string, b: string, c: string, d: string, e: string, f: string, g: string, sep: string)
    ensures Join([a, b, c, d, e, f, g], sep) == a + sep + b + sep + c + sep + d + sep + e + sep + f + sep + g
  {
    assert [a, b, c, d, e, f, g][1..] == [b, c, d, e, f, g];
    assert [b, c, d, e, f, g][1..] == [c, d, e, f, g];
    assert [c, d, e, f, g][1..] == [d, e, f, g];
    JoinFour(d, e, f, g, sep);
    assert Join([c, d, e, f, g], sep) == c + sep + Join([d, e, f, g], sep);
    assert Join([b, c, d, e, f, g], sep) == b + sep + Join([c, d, e, f, g], sep);
  }

  /** Every element followed by `t`: what a loop doing `acc += x + t` builds. */
  function Terminated(xs: seq<string>, t: string): string
  {
    if |xs| == 0 then "" else Terminated(xs[..|xs| - 1], t) + xs[|xs| - 1] + t
  }

  /** Python's `s[:-1]`: everything but the last character (nothing left of the empty string). */
  function DropLast(s: string): string
  {
    if |s| == 0 then s else s[..|s| - 1]
  }

  /** Terminating one more entry of a list appends that entry and the terminator. */
  lemma TerminatedPrefix(xs: seq<string>, k: nat, t: string)
    requires k < |xs|
    ensures Terminated(xs[..k + 1], t) == Terminated(xs[..k], t) + xs[k] + t
  {
    assert xs[..k + 1][..k] == xs[..k];
  }

  lemma {:induction false} TerminatedCons(x: string, xs: seq<string>, t: string)
    ensures Terminated([x] + xs, t) == x + t + Terminated(xs, t)
    decreases |xs|
  {
    if |xs| > 0 {
      var ys := [x] + xs;
      assert ys[..|ys| - 1] == [x] + xs[..|xs| - 1];
      TerminatedCons(x, xs[..|xs| - 1], t);
    } else {
      assert [x] + xs == [x];
      assert [x][..0] == [];
    }
  }

  /** Trimming the trailing separator of the accumulated string gives the join. */
  lemma {:induction false} TerminatedJoin(xs: seq<string>, t: string)
    requires |t| == 1
    ensures DropLast(Terminated(xs, t)) == Join(xs, t)
    decreases |xs|
  {
    if |xs| == 1 {
      assert xs[..0] == [];
      assert Terminated(xs, t) == xs[0] + t;
      assert (xs[0] + t)[..|xs[0] + t| - 1] == xs[0];
    } else if |xs| > 1 {
      TerminatedJoin(xs[1..], t);
      assert xs == [xs[0]] + xs[1..];
      TerminatedCons(xs[0], xs[1..], t);
      var rest := Terminated(xs[1..], t);
      assert |rest| > 0 by { TerminatedNonEmpty(xs[1..], t); }
      assert (xs[0] + t + rest)[..|xs[0] + t + rest| - 1] == xs[0] + t + rest[..|rest| - 1];
    }
  }

  lemma {:induction false} TerminatedNonEmpty(xs: seq<string>, t: string)
    requires |xs| > 0 && |t| > 0
    ensures |Terminated(xs, t)| > 0
  {
  }

  /** The first word of `s`: its longest prefix without a space. */
  function FirstWord(s: string): (w: string)
    ensures |w| <= |s| && w == s[..|w|] && ' ' !in w
    ensures |w| < |s| ==> s[|w|] == ' '
  {
    if |s| == 0 || s[0] == ' ' then "" else [s[0]] + FirstWord(s[1..])
  }

  /**
   * Python's `s.split()` for text whose only whitespace is the space character:
   * the maximal runs of non-space characters, in order.
   */
  function Words(s: string): seq<string>
    decreases |s|
  {
    if |s| == 0 then []
    else if s[0] == ' ' then Words(s[1..])
    else
      var w := FirstWord(s);
      [w] + Words(s[|w|..])
  }

  predicate Word(x: string)
  {
    x != "" && ' ' !in x
  }

  lemma {:induction false} FirstWordOf(x: string, rest: string)
    requires ' ' !in x && (rest == "" || rest[0] == ' ')
    ensures FirstWord(x + rest) == x
    decreases |x|
  {
    if |x| > 0 {
      assert (x + rest)[1..] == x[1..] + rest;
      FirstWordOf(x[1..], rest);
      assert x == [x[0]] + x[1..];
    } else {
      assert x + rest == rest;
    }
  }

  /** Splitting a space-joined list of words gives the words back. */
  lemma {:induction false} WordsJoin(xs: seq<string>)
    requires forall k :: 0 <= k < |xs| ==> Word(xs[k])
    ensures Words(Join(xs, " ")) == xs
    decreases |xs|
  {
    if |xs| == 1 {
      FirstWordOf(xs[0], "");
      assert xs[0] + "" == xs[0];
      assert xs[0][|xs[0]|..] == "";
    } else if |xs| > 1 {
      assert Word(xs[0]) && forall k :: 0 <= k < |xs[1..]| ==> Word(xs[1..][k]) by {
        assert forall k :: 0 <= k < |xs[1..]| ==> xs[1..][k] == xs[k + 1];
      }
      WordsCons(xs[0], Join(xs[1..], " "));
      WordsJoin(xs[1..]);
      assert xs == [xs[0]] + xs[1..];
    }
  }

  /** A word, a space and more text split into that word followed by the words of the text. */
  lemma WordsCons(w: string, rest: string)
    requires Word(w)
    ensures Words(w + " " + rest) == [w] + Words(rest)
  {
    var s := w + " " + rest;
    assert s == w + (" " + rest);
    FirstWordOf(w, " " + rest);
    assert s[|w|..] == " " + rest;
    assert (" " + rest)[1..] == rest;
  }

  /** Every piece `split()` produces is a word. */
  lemma {:induction false} WordsAreWords(s: string)
    ensures forall k :: 0 <= k < |Words(s)| ==> Word(Words(s)[k])
    decreases |s|
  {
    if |s| > 0 {
      if s[0] == ' ' {
        WordsAreWords(s[1..]);
      } else {
        WordsAreWords(s[|FirstWord(s)|..]);
      }
    }
  }
}
