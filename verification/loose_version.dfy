/**
 Python 2's `distutils.version.LooseVersion`, which the recipe uses for every
 version gate. A version string is cut into maximal runs of digits, of
 lower-case letters and of any other characters; dots only separate and are
 dropped. Digit runs become numbers (`int("072") == 72`), every other run stays
 a string. Two versions compare as Python 2 compares lists: element by element,
 a proper prefix is smaller, and a number is smaller than any string.
 */
module LooseVersion {

  datatype Comp = Num(n: nat) | Word(w: string)

  type Version = seq<Comp>

  datatype CharClass = Digit | Lower | Dot | Other

  function ClassOf(c: char): CharClass {
    if '0' <= c <= '9' then Digit
    else if 'a' <= c <= 'z' then Lower
    else if c == '.' then Dot
    else Other
  }

  /** Length of the longest prefix of `s` whose characters all belong to `k`. */
  function RunLength(s: string, k: CharClass): (n: nat)
    ensures n <= |s|
    ensures forall i :: 0 <= i < n ==> ClassOf(s[i]) == k
    ensures n < |s| ==> ClassOf(s[n]) != k
  {
    if s == [] || ClassOf(s[0]) != k then 0 else 1 + RunLength(s[1..], k)
  }

  function DigitValue(c: char): nat
    requires ClassOf(c) == Digit
  {
    c as int - '0' as int
  }

  /** Python's `int(s)` on a non-empty run of decimal digits. */
  function DigitsValue(s: string): nat
    requires forall i :: 0 <= i < |s| ==> ClassOf(s[i]) == Digit
    decreases |s|
  {
    if s == [] then 0 else 10 * DigitsValue(s[..|s| - 1]) + DigitValue(s[|s| - 1])
  }

  /** The components of `LooseVersion(s).version`. */
  function Parse(s: string): Version
    decreases |s|
  {
    if s == [] then []
    else
      var k := ClassOf(s[0]);
      var n := RunLength(s, k);
      if k == Dot then Parse(s[n..])
      else if k == Digit then [Num(DigitsValue(s[..n]))] + Parse(s[n..])
      else [Word(s[..n])] + Parse(s[n..])
  }

  /** Python 2 ordering of two strings: by character code, a proper prefix first. */
  predicate StrLess(a: string, b: string) {
    if a == [] then b != []
    else if b == [] then false
    else if a[0] != b[0] then a[0] < b[0]
    else StrLess(a[1..], b[1..])
  }

  /** Python 2 ordering of two components: numbers come before strings. */
  predicate CompLess(a: Comp, b: Comp) {
    match (a, b)
    case (Num(x), Num(y)) => x < y
    case (Num(_), Word(_)) => true
    case (Word(_), Num(_)) => false
    case (Word(x), Word(y)) => StrLess(x, y)
  }

  /** `LooseVersion(v) < LooseVersion(w)`: lexicographic, a proper prefix is smaller. */
  predicate Less(v: Version, w: Version) {
    if v == [] then w != []
    else if w == [] then false
    else if v[0] != w[0] then CompLess(v[0], w[0])
    else Less(v[1..], w[1..])
  }

  /** `LooseVersion(v) >= LooseVersion(w)`. */
  predicate AtLeast(v: Version, w: Version) {
    !Less(v, w)
  }

  /** A version made of numbers only, as every dotted numeric string parses to. */
  predicate IsNumeric(v: Version) {
    forall i :: 0 <= i < |v| ==> v[i].Num?
  }

  /** The ordering on versions is a strict total order. */
  lemma {:induction false} StrLessIrreflexive(a: string)
    ensures !StrLess(a, a)
    decreases |a|
  {
    if a != [] {
      StrLessIrreflexive(a[1..]);
    }
  }

  lemma {:induction false} StrLessTransitive(a: string, b: string, c: string)
    requires StrLess(a, b) && StrLess(b, c)
    ensures StrLess(a, c)
    decreases |a|
  {
    if a != [] && a[0] == b[0] && b[0] == c[0] {
      StrLessTransitive(a[1..], b[1..], c[1..]);
    }
  }

  lemma {:induction false} StrLessTotal(a: string, b: string)
    requires a != b
    ensures StrLess(a, b) || StrLess(b, a)
    decreases |a|
  {
    if a != [] && b != [] && a[0] == b[0] {
      assert a == [a[0]] + a[1..] && b == [b[0]] + b[1..];
      StrLessTotal(a[1..], b[1..]);
    }
  }

  lemma CompLessIrreflexive(a: Comp)
    ensures !CompLess(a, a)
  {
    if a.Word? {
      StrLessIrreflexive(a.w);
    }
  }

  lemma CompLessTransitive(a: Comp, b: Comp, c: Comp)
    requires CompLess(a, b) && CompLess(b, c)
    ensures CompLess(a, c)
  {
    if a.Word? && b.Word? && c.Word? {
      StrLessTransitive(a.w, b.w, c.w);
    }
  }

  lemma CompLessTotal(a: Comp, b: Comp)
    requires a != b
    ensures CompLess(a, b) || CompLess(b, a)
  {
    if a.Word? && b.Word? {
      StrLessTotal(a.w, b.w);
    }
  }

  lemma {:induction false} LessIrreflexive(v: Version)
    ensures !Less(v, v)
    decreases |v|
  {
    if v != [] {
      LessIrreflexive(v[1..]);
    }
  }

  lemma {:induction false} LessTransitive(u: Version, v: Version, w: Version)
    requires Less(u, v) && Less(v, w)
    ensures Less(u, w)
    decreases |u|
  {
    if u != [] && v != [] && w != [] {
      if u[0] == v[0] && v[0] == w[0] {
        LessTransitive(u[1..], v[1..], w[1..]);
      } else if u[0] != v[0] && v[0] != w[0] {
        CompLessTransitive(u[0], v[0], w[0]);
        CompLessIrreflexive(u[0]);
      }
    }
  }

  lemma {:induction false} LessTotal(v: Version, w: Version)
    requires v != w
    ensures Less(v, w) || Less(w, v)
    decreases |v|
  {
    if v != [] && w != [] {
      if v[0] == w[0] {
        assert v == [v[0]] + v[1..] && w == [w[0]] + w[1..];
        LessTotal(v[1..], w[1..]);
      } else {
        CompLessTotal(v[0], w[0]);
      }
    }
  }

  lemma LessAsymmetric(v: Version, w: Version)
    requires Less(v, w)
    ensures !Less(w, v)
  {
    if Less(w, v) {
      LessTransitive(v, w, v);
      LessIrreflexive(v);
    }
  }

  /** `>=` is transitive. */
  lemma AtLeastTransitive(u: Version, v: Version, w: Version)
    requires AtLeast(u, v) && AtLeast(v, w)
    ensures AtLeast(u, w)
  {
    if u != v && v != w {
      LessTotal(u, v);
      LessTotal(v, w);
      LessTransitive(w, v, u);
      LessAsymmetric(w, u);
    }
  }

  predicate AllDigits(s: string) {
    forall i :: 0 <= i < |s| ==> ClassOf(s[i]) == Digit
  }

  /** The run length is the first position whose class differs. */
  lemma {:induction false} RunLengthExact(s: string, k: CharClass, m: nat)
    requires m <= |s|
    requires forall i :: 0 <= i < m ==> ClassOf(s[i]) == k
    requires m == |s| || ClassOf(s[m]) != k
    ensures RunLength(s, k) == m
  {
    if m > 0 {
      RunLengthExact(s[1..], k, m - 1);
    }
  }

  /** A run of digits ended by a dot (or by the end of the string) is one numeric component. */
  lemma ParseDigitRun(d: string, rest: string)
    requires d != [] && AllDigits(d)
    requires rest == [] || rest[0] == '.'
    ensures Parse(d + rest) == [Num(DigitsValue(d))] + Parse(rest)
  {
    var s := d + rest;
    RunLengthExact(s, Digit, |d|);
    assert s[..|d|] == d && s[|d|..] == rest;
  }

  /** A single dot in front of anything but another dot is dropped. */
  lemma ParseDot(rest: string)
    requires rest == [] || rest[0] != '.'
    ensures Parse("." + rest) == Parse(rest)
  {
    var s := "." + rest;
    RunLengthExact(s, Dot, 1);
    assert s[1..] == rest;
  }

  /** `int()` of a literal of two, three or four digits. */
  lemma DigitsLiteral2(a: char, b: char)
    requires ClassOf(a) == Digit && ClassOf(b) == Digit
    ensures DigitsValue([a, b]) == 10 * DigitValue(a) + DigitValue(b)
  {
    assert [a, b][..1] == [a];
    assert [a][..0] == [];
    assert DigitsValue([a]) == 10 * DigitsValue([]) + DigitValue(a);
  }

  lemma DigitsLiteral3(a: char, b: char, c: char)
    requires ClassOf(a) == Digit && ClassOf(b) == Digit && ClassOf(c) == Digit
    ensures DigitsValue([a, b, c]) == 100 * DigitValue(a) + 10 * DigitValue(b) + DigitValue(c)
  {
    assert [a, b, c][..2] == [a, b];
    DigitsLiteral2(a, b);
  }

  lemma DigitsLiteral4(a: char, b: char, c: char, d: char)
    requires ClassOf(a) == Digit && ClassOf(b) == Digit && ClassOf(c) == Digit && ClassOf(d) == Digit
    ensures DigitsValue([a, b, c, d]) == 1000 * DigitValue(a) + 100 * DigitValue(b) + 10 * DigitValue(c) + DigitValue(d)
  {
    assert [a, b, c, d][..3] == [a, b, c];
    DigitsLiteral3(a, b, c);
  }

  /** Dotted numeric strings parse to their numbers, component by component. */
  lemma ParseOne(a: string)
    requires a != [] && AllDigits(a)
    ensures Parse(a) == [Num(DigitsValue(a))]
  {
    ParseDigitRun(a, "");
    assert a + "" == a;
  }

  lemma ParseTwo(a: string, b: string)
    requires a != [] && AllDigits(a) && b != [] && AllDigits(b)
    ensures Parse(a + ("." + b)) == [Num(DigitsValue(a)), Num(DigitsValue(b))]
  {
    ParseDotDigits(b);
    ParseDigitRun(a, "." + b);
  }

  lemma ParseDotDigits(b: string)
    requires b != [] && AllDigits(b)
    ensures Parse("." + b) == [Num(DigitsValue(b))]
  {
    ParseDot(b);
    ParseOne(b);
  }

  lemma ParseThree(a: string, b: string, c: string)
    requires a != [] && AllDigits(a) && b != [] && AllDigits(b) && c != [] && AllDigits(c)
    ensures Parse(a + ("." + (b + ("." + c)))) == [Num(DigitsValue(a)), Num(DigitsValue(b)), Num(DigitsValue(c))]
  {
    var bc := b + ("." + c);
    ParseTwo(b, c);
    assert bc[0] == b[0];
    ParseDot(bc);
    ParseDigitRun(a, "." + bc);
  }

  /** Against a one-number bound, a numeric version compares by its first number. */
  lemma LessOne(v: Version, a: nat)
    requires v != [] && IsNumeric(v)
    ensures Less(v, [Num(a)]) <==> v[0].n < a
  {
    if v[0] == Num(a) {
      assert [Num(a)][1..] == [];
    }
  }

  /** Against a two-number bound: first number, then the second (a missing
      second number is smaller). */
  lemma LessTwo(v: Version, a: nat, b: nat)
    requires v != [] && IsNumeric(v)
    ensures Less(v, [Num(a), Num(b)]) <==> v[0].n < a || (v[0].n == a && (|v| == 1 || v[1].n < b))
  {
    if v[0] == Num(a) {
      assert [Num(a), Num(b)][1..] == [Num(b)];
      if |v| > 1 {
        LessOne(v[1..], b);
      }
    }
  }

  /** Against a three-number bound, component by component. */
  lemma LessThree(v: Version, a: nat, b: nat, c: nat)
    requires v != [] && IsNumeric(v)
    ensures Less(v, [Num(a), Num(b), Num(c)]) <==>
      v[0].n < a || (v[0].n == a && (|v| == 1 || v[1].n < b ||
        (v[1].n == b && (|v| == 2 || v[2].n < c))))
  {
    if v[0] == Num(a) {
      assert [Num(a), Num(b), Num(c)][1..] == [Num(b), Num(c)];
      if |v| > 1 {
        LessTwo(v[1..], b, c);
      }
    }
  }
}
