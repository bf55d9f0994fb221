/**
 The Python string operations the build recipe relies on: `str.replace`,
 `str.count`, `str.split('.')[0]`, `' '.join`, and the path helpers
 `os.path.basename`, `os.path.splitext` and `os.path.join`.
 */
module Strings {

  /** `p` occurs in `s` starting at index `i`. */
  predicate OccursAt(s: string, p: string, i: nat) {
    i + |p| <= |s| && s[i..i + |p|] == p
  }

  ghost predicate Contains(s: string, p: string) {
    exists i: nat :: OccursAt(s, p, i)
  }

  /** Python's `s.replace(old, new)`: a left-to-right scan that replaces
      non-overlapping occurrences. */
  function ReplaceAll(s: string, pat: string, rep: string): string
    requires pat != []
    decreases |s|
  {
    if |s| < |pat| then s
    else if s[..|pat|] == pat then rep + ReplaceAll(s[|pat|..], pat, rep)
    else [s[0]] + ReplaceAll(s[1..], pat, rep)
  }

  /** Python's `s.count(p)`: the number of non-overlapping occurrences found
      by the same left-to-right scan. */
  function Count(s: string, p: string): nat
    requires p != []
    decreases |s|
  {
    if |s| < |p| then 0
    else if s[..|p|] == p then 1 + Count(s[|p|..], p)
    else Count(s[1..], p)
  }

  /** Without an occurrence of `pat`, replacing changes nothing and counting finds nothing. */
  lemma {:induction false} ReplaceAbsent(s: string, pat: string, rep: string)
    requires pat != []
    requires !Contains(s, pat)
    ensures ReplaceAll(s, pat, rep) == s
    ensures Count(s, pat) == 0
    decreases |s|
  {
    if |s| >= |pat| {
      assert !OccursAt(s, pat, 0);
      var t := s[1..];
      forall i: nat ensures !OccursAt(t, pat, i) {
        assert !OccursAt(s, pat, i + 1);
      }
      ReplaceAbsent(t, pat, rep);
    }
  }

  /** Replacing a pattern by itself changes nothing. */
  lemma {:induction false} ReplaceSame(s: string, pat: string)
    requires pat != []
    ensures ReplaceAll(s, pat, pat) == s
    decreases |s|
  {
    if |s| >= |pat| {
      if s[..|pat|] == pat {
        ReplaceSame(s[|pat|..], pat);
        assert s == s[..|pat|] + s[|pat|..];
      } else {
        ReplaceSame(s[1..], pat);
        assert s == [s[0]] + s[1..];
      }
    }
  }

  /** Deleting a pattern never lengthens a string, and a deletion that
      keeps the length found nothing to delete. */
  lemma {:induction false} DeleteShrinks(s: string, pat: string)
    requires pat != []
    ensures |ReplaceAll(s, pat, "")| <= |s|
    ensures |ReplaceAll(s, pat, "")| == |s| ==> ReplaceAll(s, pat, "") == s && !Contains(s, pat)
    decreases |s|
  {
    if |s| < |pat| {
      forall i: nat ensures !OccursAt(s, pat, i) {
      }
    } else if s[..|pat|] == pat {
      DeleteShrinks(s[|pat|..], pat);
    } else {
      var t := s[1..];
      DeleteShrinks(t, pat);
      if |ReplaceAll(s, pat, "")| == |s| {
        assert s == [s[0]] + t;
        forall i: nat ensures !OccursAt(s, pat, i) {
          if i > 0 {
            assert !OccursAt(t, pat, i - 1);
            assert i + |pat| <= |s| ==> s[i..i + |pat|] == t[i - 1..i - 1 + |pat|];
          }
        }
      }
    }
  }

  /** A character that does not occur in the pattern splits both the scan
      of `str.replace` and that of `str.count`: no occurrence can straddle it. */
  lemma {:induction false} ReplaceAroundSeparator(a: string, c: char, b: string, pat: string, rep: string)
    requires pat != [] && c !in pat
    ensures ReplaceAll(a + [c] + b, pat, rep) == ReplaceAll(a, pat, rep) + [c] + ReplaceAll(b, pat, rep)
    ensures Count(a + [c] + b, pat) == Count(a, pat) + Count(b, pat)
    decreases |a|
  {
    var s := a + [c] + b;
    if |s| < |pat| {
      assert ReplaceAll(a, pat, rep) == a && ReplaceAll(b, pat, rep) == b;
    } else if s[..|pat|] == pat {
      if |pat| > |a| {
        SeparatorInPrefix(a, c, b, pat);
        assert false;
      }
      assert a[..|pat|] == pat;
      assert s[|pat|..] == a[|pat|..] + [c] + b;
      ReplaceAroundSeparator(a[|pat|..], c, b, pat, rep);
    } else if a == [] {
      assert s == [c] + b && s[1..] == b;
    } else {
      assert s[1..] == a[1..] + [c] + b;
      ReplaceAroundSeparator(a[1..], c, b, pat, rep);
      if |a| >= |pat| {
        assert a[..|pat|] == s[..|pat|];
      } else {
        assert ReplaceAll(a[1..], pat, rep) == a[1..];
        assert Count(a[1..], pat) == 0;
      }
    }
  }

  /** A prefix of `a + [c] + b` longer than `a` contains `c`. */
  lemma SeparatorInPrefix(a: string, c: char, b: string, p: string)
    requires |a| < |p| <= |a| + 1 + |b|
    requires (a + [c] + b)[..|p|] == p
    ensures c in p
  {
    assert p[|a|] == c;
  }

  /** Replacing a whole pattern by `rep` yields `rep`, and the pattern counts once. */
  lemma ReplaceWhole(pat: string, rep: string)
    requires pat != []
    ensures ReplaceAll(pat, pat, rep) == rep
    ensures Count(pat, pat) == 1
  {
    assert pat[..|pat|] == pat;
    assert pat[|pat|..] == [];
  }

  /** `' '.join(xs)`. */
  function JoinSpace(xs: seq<string>): (r: string)
    ensures |xs| == 1 ==> r == xs[0]
    ensures |xs| > 1 ==> r == xs[0] + " " + JoinSpace(xs[1..])
  {
    if xs == [] then ""
    else if |xs| == 1 then xs[0]
    else xs[0] + " " + JoinSpace(xs[1..])
  }

  /** `s.endswith(t)`. */
  predicate EndsWith(s: string, t: string) {
    |s| >= |t| && s[|s| - |t|..] == t
  }

  /** A text ends as its last part does. */
  lemma EndsWithAppend(a: string, b: string, t: string)
    requires EndsWith(b, t)
    ensures EndsWith(a + b, t)
  {
    assert (a + b)[|a + b| - |t|..] == b[|b| - |t|..];
  }

  /** Everything before the first `.`: Python's `s.split('.')[0]`. */
  function BeforeFirstDot(s: string): (r: string)
    ensures r <= s
    ensures '.' !in r
    ensures |r| < |s| ==> s[|r|] == '.'
  {
    if s == [] || s[0] == '.' then "" else [s[0]] + BeforeFirstDot(s[1..])
  }

  /** Index of the first occurrence of `c` in `s`, if any. */
  function FirstIndexOf(s: string, c: char): (r: Option<nat>)
    ensures r.Some? ==> r.value < |s| && s[r.value] == c && c !in s[..r.value]
    ensures r.None? <==> c !in s
  {
    if s == [] then None
    else if s[0] == c then Some(0)
    else match FirstIndexOf(s[1..], c)
      case None => None
      case Some(i) => assert s[..i + 1] == [s[0]] + s[1..][..i]; Some(i + 1)
  }

  /** The first `c` after a stretch without one is found right there. */
  lemma FirstIndexAfter(a: string, c: char, b: string)
    requires c !in a
    ensures FirstIndexOf(a + [c] + b, c) == Some(|a|)
  {
    var s := a + [c] + b;
    var r := FirstIndexOf(s, c);
    assert s[|a|] == c;
  }

  /** Index of the last occurrence of `c` in `s`, if any. */
  function LastIndexOf(s: string, c: char): (r: Option<nat>)
    ensures r.Some? ==> r.value < |s| && s[r.value] == c && c !in s[r.value + 1..]
    ensures r.None? ==> c !in s
    decreases |s|
  {
    if s == [] then None
    else if s[|s| - 1] == c then Some(|s| - 1)
    else LastIndexOf(s[..|s| - 1], c)
  }

  /** The last `c` before a stretch without one is found right there. */
  lemma {:induction false} LastIndexBefore(a: string, c: char, b: string)
    requires c !in b
    ensures LastIndexOf(a + [c] + b, c) == Some(|a|)
    decreases |b|
  {
    var s := a + [c] + b;
    if b != [] {
      var b' := b[..|b| - 1];
      assert s[|s| - 1] == b[|b| - 1];
      assert s[..|s| - 1] == a + [c] + b';
      LastIndexBefore(a, c, b');
    }
  }

  /** `os.path.basename`: everything after the last `/`. */
  function Basename(p: string): (r: string)
    ensures '/' !in r
    ensures |r| <= |p| && p[|p| - |r|..] == r
    ensures |r| < |p| ==> p[|p| - |r| - 1] == '/'
  {
    match LastIndexOf(p, '/')
    case None => p
    case Some(i) => p[i + 1..]
  }

  /** `os.path.splitext(name)[0]` for a name with no `/`: the extension is
      stripped only when the last dot follows some character other than a dot. */
  function StripExtension(name: string): (r: string)
    ensures r <= name
  {
    match LastIndexOf(name, '.')
    case None => name
    case Some(d) => if exists j :: 0 <= j < d && name[j] != '.' then name[..d] else name
  }

  /** `os.path.join(a, b)` for a relative `b`. */
  function PathJoin(a: string, b: string): (r: string)
    requires b == [] || b[0] != '/'
    ensures |r| == |a| + |b| || |r| == |a| + |b| + 1
    ensures a <= r && r[|r| - |b|..] == b
  {
    if a == [] || a[|a| - 1] == '/' then a + b else a + "/" + b
  }

  import opened Wrappers

  /** Concatenation regroups freely. */
  lemma Assoc(x: string, y: string, z: string)
    ensures x + (y + z) == x + y + z
  {
  }
}
