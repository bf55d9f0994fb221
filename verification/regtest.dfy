/**
 The analysis of the regression test summary at the end of `test_step`
 (lines 680-742). The test harness's output is searched, case-insensitively,
 for lines `number of <CATEGORY> tests <count>`: first the total (the
 category left empty), then FAILED, WRONG, NEW and CORRECT. Each count is
 judged: failed tests, and wrong tests once they reach the total, are fatal
 unless 'ignore_regtest_fails' is set; the rest is reported as a warning or
 as information.

 The search is modelled twice: `Derives` reads the pattern of line 688 as a
 regular expression over text positions, and `CountStart` is a scanner that
 walks the text once; `HeadsIff` proves they agree.
 */
module Regtest {
  import opened Wrappers
  import opened LooseVersion

  // ------------------------------------------------------------ characters

  /** Python 2's `\s` on byte strings: space, tab, newline, vertical tab,
      form feed and carriage return. */
  predicate IsSpace(ch: char) {
    ch == ' ' || 9 <= ch as int <= 13
  }

  predicate IsDigit(ch: char) {
    ClassOf(ch) == Digit
  }

  /** The case folding of `re.I` on byte strings: ASCII letters only. */
  function Lower(ch: char): char {
    if 'A' <= ch <= 'Z' then (ch as int + 32) as char else ch
  }

  /** `w` occurs at position `i` of `text`, ignoring case. */
  predicate SameAt(text: string, i: nat, w: string) {
    i + |w| <= |text| && forall k :: 0 <= k < |w| ==> Lower(text[i + k]) == Lower(w[k])
  }

  /** A character that folds like a non-space is not a space. */
  lemma FoldKeepsSpace(a: char, b: char)
    requires Lower(a) == Lower(b) && !IsSpace(b)
    ensures !IsSpace(a)
  {
  }

  // ------------------------------------------------------------ the pattern

  /** The categories of line 688's pattern; the total leaves the category empty. */
  datatype Category = Total | Failed | Wrong | New | Correct

  /** The word interpolated into the pattern: `test_result.upper()`. */
  function Word(c: Category): (w: string)
    ensures c != Total ==> w != [] && !IsSpace(w[0])
  {
    match c
    case Total => ""
    case Failed => "FAILED"
    case Wrong => "WRONG"
    case New => "NEW"
    case Correct => "CORRECT"
  }

  /** The pieces of a regular expression the pattern is made of: a literal
      word, or `\s+`. */
  datatype Token = Lit(word: string) | Spaces

  /** Line 688 with the category interpolated, up to the count group
      `(?P<cnt>[0-9]+)`. For the total the empty word leaves two `\s+` side
      by side. */
  function Pattern(c: Category): seq<Token> {
    [Lit("number"), Spaces, Lit("of")] + Tail(Word(c))
  }

  /** The pattern after `of`. */
  function Tail(w: string): seq<Token> {
    [Spaces, Lit(w), Spaces, Lit("tests"), Spaces]
  }

  /** The tokens match `text[i..j]`. */
  predicate Derives(toks: seq<Token>, text: string, i: nat, j: nat)
    requires i <= j <= |text|
    decreases j - i, |toks|
  {
    if toks == [] then i == j
    else match toks[0]
      case Lit(w) => i + |w| <= j && SameAt(text, i, w) && Derives(toks[1..], text, i + |w|, j)
      case Spaces =>
        i < j && IsSpace(text[i]) && (Derives(toks[1..], text, i + 1, j) || Derives(toks, text, i + 1, j))
  }

  /** A match of the category's pattern starts at `i` and its count at `d`. */
  predicate Heads(text: string, c: Category, i: nat, d: nat) {
    i <= d < |text| && Derives(Pattern(c), text, i, d) && IsDigit(text[d])
  }

  /** The match `regexp.search` returns: the leftmost one. */
  ghost predicate FirstHead(text: string, c: Category, i: nat, d: nat) {
    Heads(text, c, i, d) && forall i', d' :: 0 <= i' < i ==> !Heads(text, c, i', d')
  }

  // ------------------------------------------------------------ the scanner

  /** The length of the run of whitespace at `i`. */
  function SpaceRun(text: string, i: nat): (n: nat)
    requires i <= |text|
    ensures i + n <= |text|
    ensures forall k :: i <= k < i + n ==> IsSpace(text[k])
    ensures i + n < |text| ==> !IsSpace(text[i + n])
    decreases |text| - i
  {
    if i == |text| || !IsSpace(text[i]) then 0 else 1 + SpaceRun(text, i + 1)
  }

  /** The length of the run of digits at `i`: the greedy `[0-9]+`. */
  function DigitRun(text: string, i: nat): (n: nat)
    requires i <= |text|
    ensures i + n <= |text|
    ensures forall k :: i <= k < i + n ==> IsDigit(text[k])
    ensures i + n < |text| ==> !IsDigit(text[i + n])
    decreases |text| - i
  {
    if i == |text| || !IsDigit(text[i]) then 0 else 1 + DigitRun(text, i + 1)
  }

  /** `int(res.group('cnt'))` for a count starting at `d`. */
  function Count(text: string, d: nat): nat
    requires d <= |text|
  {
    var n := DigitRun(text, d);
    DigitsValue(text[d..d + n])
  }

  /** After `tests`: at least one space, then a digit. */
  function CountAfterTests(text: string, p: nat): (r: Option<nat>)
    requires p <= |text|
    ensures r.Some? ==> p < r.value < |text| && IsDigit(text[r.value])
  {
    if !SameAt(text, p, "tests") then None
    else
      var q := p + 5;
      var r := SpaceRun(text, q);
      if r == 0 || q + r == |text| || !IsDigit(text[q + r]) then None
      else Some(q + r)
  }

  /** After `of`: the whitespace, the category word and the rest, with the
      two runs of whitespace around an empty word read as one. */
  function AfterOf(text: string, w: string, b: nat): (r: Option<nat>)
    requires b <= |text|
    ensures r.Some? ==> b < r.value < |text|
  {
    var r2 := SpaceRun(text, b);
    if w == "" then
      if r2 < 2 then None else CountAfterTests(text, b + r2)
    else if r2 == 0 || !SameAt(text, b + r2, w) then None
    else
      var e := b + r2 + |w|;
      var r3 := SpaceRun(text, e);
      if r3 == 0 then None else CountAfterTests(text, e + r3)
  }

  /** The scanner over `number\s+of` from `i`: where `of` ends. */
  function OfEnd(text: string, i: nat): (r: Option<nat>)
    requires i <= |text|
    ensures r.Some? ==> i < r.value <= |text|
  {
    if !SameAt(text, i, "number") then None
    else
      var a := i + 6;
      var r1 := SpaceRun(text, a);
      if r1 == 0 || !SameAt(text, a + r1, "of") then None
      else Some(a + r1 + 2)
  }

  /** Where the count of a match starting at `i` begins, if one does. */
  function CountStart(text: string, c: Category, i: nat): (r: Option<nat>)
    requires i <= |text|
    ensures r.Some? ==> i < r.value < |text|
  {
    match OfEnd(text, i)
    case None => None
    case Some(b) => AfterOf(text, Word(c), b)
  }

  /** Whether the scanner stops, for every start position of the text. */
  function Hits(text: string, c: Category): (h: seq<bool>)
    ensures |h| == |text| + 1
    ensures forall i :: 0 <= i <= |text| ==> h[i] == CountStart(text, c, i).Some?
  {
    seq(|text| + 1, i requires 0 <= i <= |text| => CountStart(text, c, i).Some?)
  }

  /** The first position from `from` on that holds. */
  function FirstTrue(h: seq<bool>, from: nat): (r: Option<nat>)
    requires from <= |h|
    ensures r.Some? ==> from <= r.value < |h| && h[r.value]
    decreases |h| - from
  {
    if from == |h| then None else if h[from] then Some(from) else FirstTrue(h, from + 1)
  }

  /** `regexp.search(regtest_output)`: the leftmost start position with a
      match, and the count of that match. */
  function Search(text: string, c: Category): Option<nat> {
    match FirstTrue(Hits(text, c), 0)
    case None => None
    case Some(i) => Some(Count(text, CountStart(text, c, i).value))
  }

  // ------------------------------------------------ the scanner reads the pattern

  /** A token list whose every match starts with a character that is not
      whitespace. */
  predicate Solid(toks: seq<Token>) {
    toks != [] && toks[0].Lit? && toks[0].word != [] && !IsSpace(toks[0].word[0])
  }

  lemma DerivesSolid(toks: seq<Token>, text: string, p: nat, j: nat)
    requires p <= j <= |text| && Solid(toks) && Derives(toks, text, p, j)
    ensures p < |text| && !IsSpace(text[p])
  {
    var w := toks[0].word;
    assert Lower(text[p + 0]) == Lower(w[0]);
    FoldKeepsSpace(text[p], w[0]);
  }

  /** A literal word, then the rest. */
  lemma DerivesLit(toks: seq<Token>, text: string, p: nat, j: nat)
    requires p <= j <= |text| && toks != [] && toks[0].Lit?
    ensures Derives(toks, text, p, j) <==>
      p + |toks[0].word| <= j && SameAt(text, p, toks[0].word) && Derives(toks[1..], text, p + |toks[0].word|, j)
  {
  }

  /** `\s+` before a solid rest takes the whole run of whitespace. */
  lemma {:induction false} SpacesThen(toks: seq<Token>, text: string, p: nat, j: nat)
    requires p <= j <= |text| && toks != [] && toks[0] == Spaces && Solid(toks[1..])
    ensures Derives(toks, text, p, j) <==>
      SpaceRun(text, p) >= 1 && p + SpaceRun(text, p) <= j && Derives(toks[1..], text, p + SpaceRun(text, p), j)
    decreases j - p
  {
    if p < j && IsSpace(text[p]) {
      SpacesThen(toks, text, p + 1, j);
      if Derives(toks[1..], text, p + 1, j) {
        DerivesSolid(toks[1..], text, p + 1, j);
      }
    }
  }

  /** `\s+\s+` before a solid rest takes a run of at least two. */
  lemma {:induction false} TwoSpacesThen(toks: seq<Token>, text: string, p: nat, j: nat)
    requires p <= j <= |text| && |toks| >= 3 && toks[0] == Spaces && toks[1] == Lit("") && toks[2] == Spaces
    requires Solid(toks[3..])
    ensures Derives(toks, text, p, j) <==>
      SpaceRun(text, p) >= 2 && p + SpaceRun(text, p) <= j && Derives(toks[3..], text, p + SpaceRun(text, p), j)
    decreases j - p
  {
    if p < j && IsSpace(text[p]) {
      assert toks[1..][1..] == toks[2..] && toks[2..][1..] == toks[3..];
      TwoSpacesThen(toks, text, p + 1, j);
      SpacesThen(toks[2..], text, p + 1, j);
    }
  }

  /** The closing `\s+` up to a count: exactly the run of whitespace. */
  lemma {:induction false} SpacesToDigit(text: string, p: nat, d: nat)
    requires p <= d < |text| && !IsSpace(text[d])
    ensures Derives([Spaces], text, p, d) <==> SpaceRun(text, p) >= 1 && d == p + SpaceRun(text, p)
    decreases d - p
  {
    if p < d && IsSpace(text[p]) {
      assert [Spaces][1..] == [];
      SpacesToDigit(text, p + 1, d);
    }
  }

  /** From `tests` on, the pattern and the scanner agree. */
  lemma TailIff(text: string, p: nat, d: nat)
    requires p <= d < |text|
    ensures Derives([Lit("tests"), Spaces], text, p, d) && IsDigit(text[d]) <==> CountAfterTests(text, p) == Some(d)
  {
    var toks := [Lit("tests"), Spaces];
    DerivesLit(toks, text, p, d);
    assert toks[1..] == [Spaces];
    if p + 5 <= d && IsDigit(text[d]) {
      SpacesToDigit(text, p + 5, d);
    }
  }

  /** After the category word: a run of whitespace, then `tests` and the count at `d`. */
  predicate AfterWord(text: string, e: nat, d: nat)
    requires e <= |text|
  {
    SpaceRun(text, e) != 0 && e + SpaceRun(text, e) <= d && CountAfterTests(text, e + SpaceRun(text, e)) == Some(d)
  }

  /** From the `\s+` after the category word on. */
  lemma AfterWordIff(text: string, e: nat, d: nat)
    requires e <= d < |text|
    ensures Derives([Spaces, Lit("tests"), Spaces], text, e, d) && IsDigit(text[d]) <==> AfterWord(text, e, d)
  {
    var t := [Spaces, Lit("tests"), Spaces];
    assert t[1..] == [Lit("tests"), Spaces];
    SpacesThen(t, text, e, d);
    var r := SpaceRun(text, e);
    if r >= 1 && e + r <= d {
      TailIff(text, e + r, d);
    }
  }

  /** `\s+` and a word: the whole run of whitespace, then the word. */
  lemma SpacesWord(toks: seq<Token>, text: string, p: nat, j: nat)
    requires p <= j <= |text| && |toks| >= 2 && toks[0] == Spaces && Solid(toks[1..])
    ensures Derives(toks, text, p, j) <==>
      SpaceRun(text, p) >= 1 && p + SpaceRun(text, p) + |toks[1].word| <= j
      && SameAt(text, p + SpaceRun(text, p), toks[1].word)
      && Derives(toks[2..], text, p + SpaceRun(text, p) + |toks[1].word|, j)
  {
    SpacesThen(toks, text, p, j);
    assert toks[1..][1..] == toks[2..];
    var r := SpaceRun(text, p);
    if r >= 1 && p + r <= j {
      DerivesLit(toks[1..], text, p + r, j);
    }
  }

  /** The pattern of a category with a word, from the word's `\s+` on. */
  lemma WordTailIff(text: string, w: string, b: nat, d: nat)
    requires w != [] && !IsSpace(w[0]) && b <= d < |text|
    ensures Derives(Tail(w), text, b, d) && IsDigit(text[d]) <==>
      SpaceRun(text, b) != 0 && SameAt(text, b + SpaceRun(text, b), w)
      && b + SpaceRun(text, b) + |w| <= d && AfterWord(text, b + SpaceRun(text, b) + |w|, d)
  {
    var t := [Spaces, Lit(w), Spaces, Lit("tests"), Spaces];
    assert t[2..] == [Spaces, Lit("tests"), Spaces];
    SpacesWord(t, text, b, d);
    var e := b + SpaceRun(text, b) + |w|;
    if e <= d {
      AfterWordIff(text, e, d);
    }
  }

  /** The total's pattern from the `\s+\s+` on. */
  lemma TotalTailIff(text: string, b: nat, d: nat)
    requires b <= d < |text|
    ensures Derives(Tail(""), text, b, d) && IsDigit(text[d]) <==>
      SpaceRun(text, b) >= 2 && b + SpaceRun(text, b) <= d && CountAfterTests(text, b + SpaceRun(text, b)) == Some(d)
  {
    var t := [Spaces, Lit(""), Spaces, Lit("tests"), Spaces];
    assert t[3..] == [Lit("tests"), Spaces];
    TwoSpacesThen(t, text, b, d);
    var r := SpaceRun(text, b);
    if r >= 2 && b + r <= d {
      TailIff(text, b + r, d);
    }
  }

  /** The pattern's head, `number\s+of`, as the scanner reads it. */
  lemma HeadIff(text: string, w: string, i: nat, d: nat)
    requires i <= d <= |text|
    ensures Derives([Lit("number"), Spaces, Lit("of")] + Tail(w), text, i, d) <==>
      OfEnd(text, i).Some? && OfEnd(text, i).value <= d && Derives(Tail(w), text, OfEnd(text, i).value, d)
  {
    var t := [Lit("number"), Spaces, Lit("of")] + Tail(w);
    assert t[1..][1..] == t[2..] && t[2..][1..] == Tail(w);
    DerivesLit(t, text, i, d);
    if SameAt(text, i, "number") && i + 6 <= d {
      SpacesThen(t[1..], text, i + 6, d);
      var r1 := SpaceRun(text, i + 6);
      if r1 >= 1 && i + 6 + r1 <= d {
        DerivesLit(t[2..], text, i + 6 + r1, d);
      }
    }
  }

  /** The pattern after `of`, as the scanner reads it. */
  lemma AfterOfIff(text: string, w: string, b: nat, d: nat)
    requires w == [] || !IsSpace(w[0])
    requires b <= d < |text|
    ensures Derives(Tail(w), text, b, d) && IsDigit(text[d]) <==> AfterOf(text, w, b) == Some(d)
  {
    if w == [] {
      TotalTailIff(text, b, d);
    } else {
      WordTailIff(text, w, b, d);
    }
  }

  /** The scanner finds exactly the matches of the pattern: a match of the
      category's pattern starts at `i` with its count at `d` if and only if
      the scanner, started at `i`, stops at `d`. */
  lemma HeadsIff(text: string, c: Category, i: nat, d: nat)
    requires i <= |text|
    ensures Heads(text, c, i, d) <==> CountStart(text, c, i) == Some(d)
  {
    if i <= d < |text| {
      HeadIff(text, Word(c), i, d);
      var b := OfEnd(text, i);
      if b.Some? && b.value <= d {
        AfterOfIff(text, Word(c), b.value, d);
      }
    }
  }

  // ------------------------------------------------------------ the search

  /** Nothing holds from `from` on exactly when the search finds nothing. */
  lemma {:induction false} FirstTrueNone(h: seq<bool>, from: nat)
    requires from <= |h|
    ensures FirstTrue(h, from) == None <==> forall i :: from <= i < |h| ==> !h[i]
    decreases |h| - from
  {
    if from < |h| && !h[from] {
      FirstTrueNone(h, from + 1);
    }
  }

  /** The search returns a position that holds when none before it does. */
  lemma {:induction false} FirstTrueAt(h: seq<bool>, from: nat, i: nat)
    requires from <= i < |h| && h[i]
    requires forall i' :: from <= i' < i ==> !h[i']
    ensures FirstTrue(h, from) == Some(i)
    decreases i - from
  {
    if from < i {
      FirstTrueAt(h, from + 1, i);
    }
  }

  /** No match starts at `i` exactly when the scanner does not stop there. */
  lemma NoHeadAt(text: string, c: Category, i: nat)
    requires i <= |text|
    ensures (forall d :: !Heads(text, c, i, d)) <==> CountStart(text, c, i) == None
  {
    var s := CountStart(text, c, i);
    if s.Some? {
      HeadsIff(text, c, i, s.value);
    } else {
      forall d | Heads(text, c, i, d)
        ensures false
      {
        HeadsIff(text, c, i, d);
      }
    }
  }

  /** `regexp.search` finds nothing exactly when the pattern matches nowhere. */
  lemma SearchNone(text: string, c: Category)
    ensures Search(text, c) == None <==> forall i, d :: !Heads(text, c, i, d)
  {
    var h := Hits(text, c);
    match FirstTrue(h, 0)
    case Some(i) =>
      HeadsIff(text, c, i, CountStart(text, c, i).value);
    case None =>
      FirstTrueNone(h, 0);
      forall i: nat, d: nat | Heads(text, c, i, d)
        ensures false
      {
        HeadsIff(text, c, i, d);
      }
  }

  /** `regexp.search` returns the count of the leftmost match. */
  lemma SearchFindsFirst(text: string, c: Category, i: nat, d: nat)
    requires FirstHead(text, c, i, d)
    ensures Search(text, c) == Some(Count(text, d))
  {
    HeadsIff(text, c, i, d);
    forall i' | 0 <= i' < i
      ensures CountStart(text, c, i') == None
    {
      NoHeadAt(text, c, i');
    }
    FirstTrueAt(Hits(text, c), 0, i);
  }

  /** The total's pattern leaves the category empty between two `\s+`, so a
      summary line for the total needs two whitespace characters in a row
      after `of`. */
  lemma TotalNeedsTwoSpaces(text: string, i: nat, d: nat)
    requires Heads(text, Total, i, d)
    ensures exists k :: i < k && k + 1 < d && IsSpace(text[k]) && IsSpace(text[k + 1])
  {
    HeadsIff(text, Total, i, d);
    var b := OfEnd(text, i).value;
    assert IsSpace(text[b]) && IsSpace(text[b + 1]);
  }

  // ------------------------------------------------------------ the verdict

  datatype Level = Info | Warning

  /** What `test_report` logs for one category. */
  datatype Report = Report(category: Category, count: nat, level: Level)

  datatype RegtestError =
    | RunFailed           // lines 682-685: a non-zero exit code
    | NoTotal             // line 697: no total in the summary
    | NoCount(category: Category)  // line 712: no count for a category
    | ZeroDivision        // line 720: `cnt / tot_cnt` with a total of zero
    | TooMany(category: Category, count: nat)  // line 725

  /** When a count stops the installation: failed tests at all, or as many
      wrong tests as there are tests (or any count of wrong tests out of
      zero, which divides by zero), unless failures are to be ignored. */
  predicate Fatal(c: Category, cnt: nat, tot: nat, ignore: bool) {
    (c == Wrong && tot == 0)
    || (!ignore && ((c == Failed && cnt > 0) || (c == Wrong && cnt >= tot)))
  }

  /** Line 720's `(cnt / tot_cnt) > 0.1` on Python 2 integers: the division
      truncates, so it holds once the count reaches the total. */
  lemma WrongExcessive(cnt: nat, tot: nat)
    ensures tot > 0 ==> ((cnt / tot) as real > 0.1 <==> cnt >= tot)
  {
    if tot == 0 {
    } else if cnt < tot {
      assert cnt / tot == 0;
    } else {
      assert cnt / tot >= 1 by {
        assert cnt == tot * (cnt / tot) + cnt % tot;
      }
    }
  }

  /** Lines 718-729 for one count. */
  function Judge(c: Category, cnt: nat, tot: nat, ignore: bool): (r: Result<Level, RegtestError>)
    ensures r.Err? <==> Fatal(c, cnt, tot, ignore)
    ensures r.Err? ==> r.error == (if c == Wrong && tot == 0 then ZeroDivision else TooMany(c, cnt))
    ensures r.Ok? ==> (r.value == Warning <==> c != Correct && cnt > 0)
    ensures c == New || c == Correct ==> r.Ok?
  {
    if c == Wrong && tot == 0 then Err(ZeroDivision)
    else
      WrongExcessive(cnt, tot);
      if (c == Failed && cnt > 0) || (c == Wrong && (cnt / tot) as real > 0.1) then
        if ignore then Ok(Warning) else Err(TooMany(c, cnt))
      else if c == Correct || cnt == 0 then Ok(Info)
      else Ok(Warning)
  }

  // ------------------------------------------------------------ the analysis

  /** The categories `test_report` is called for, in order (lines 733-742). */
  const CHECKED: seq<Category> := [Failed, Wrong, New, Correct]

  /** A category's count is found and does not stop the installation;
      `count` gives what the search finds for each category. */
  predicate Passes(count: Category -> Option<nat>, c: Category, tot: nat, ignore: bool) {
    count(c).Some? && !Fatal(c, count(c).value, tot, ignore)
  }

  /** The report for a found count: a warning for any count of tests that
      are not correct, information otherwise. */
  function ReportOf(count: Category -> Option<nat>, c: Category): Report
    requires count(c).Some?
  {
    var cnt := count(c).value;
    Report(c, cnt, if c != Correct && cnt > 0 then Warning else Info)
  }

  /** Why a category that does not pass stops the installation. */
  function StepError(count: Category -> Option<nat>, c: Category, tot: nat): RegtestError {
    match count(c)
    case None => NoCount(c)
    case Some(cnt) => if c == Wrong && tot == 0 then ZeroDivision else TooMany(c, cnt)
  }

  /** `test_report` for each category in turn; the first error ends the
      analysis. */
  function Reports(count: Category -> Option<nat>, cats: seq<Category>, tot: nat, ignore: bool): Result<seq<Report>, RegtestError>
    decreases |cats|
  {
    if cats == [] then Ok([])
    else match count(cats[0])
      case None => Err(NoCount(cats[0]))
      case Some(cnt) =>
        match Judge(cats[0], cnt, tot, ignore)
        case Err(e) => Err(e)
        case Ok(level) =>
          match Reports(count, cats[1..], tot, ignore)
          case Err(e) => Err(e)
          case Ok(rest) => Ok([Report(cats[0], cnt, level)] + rest)
  }

  /** The count the search finds for each category. */
  function Counts(text: string): Category -> Option<nat> {
    c => Search(text, c)
  }

  /** Lines 680-742 given the count found for each category: the exit
      code, the total, then every category. */
  function Summarise(count: Category -> Option<nat>, exitCode: int, ignore: bool): Result<seq<Report>, RegtestError> {
    if exitCode != 0 then Err(RunFailed)
    else match count(Total)
      case None => Err(NoTotal)
      case Some(tot) => Reports(count, CHECKED, tot, ignore)
  }

  /** Lines 680-742 on the test harness's output. */
  function Analyse(text: string, exitCode: int, ignore: bool): Result<seq<Report>, RegtestError> {
    Summarise(Counts(text), exitCode, ignore)
  }

  /** The reports succeed exactly when every category passes, and then
      report every category; otherwise the first category that does not
      pass gives the error. */
  lemma {:induction false} ReportsOutcome(count: Category -> Option<nat>, cats: seq<Category>, tot: nat, ignore: bool)
    ensures Reports(count, cats, tot, ignore).Ok? <==> forall k :: 0 <= k < |cats| ==> Passes(count, cats[k], tot, ignore)
    ensures Reports(count, cats, tot, ignore).Ok? ==>
      |Reports(count, cats, tot, ignore).value| == |cats|
      && (forall k :: 0 <= k < |cats| ==>
            count(cats[k]).Some? && Reports(count, cats, tot, ignore).value[k] == ReportOf(count, cats[k]))
    ensures Reports(count, cats, tot, ignore).Err? ==>
      exists k :: 0 <= k < |cats| && !Passes(count, cats[k], tot, ignore)
        && (forall j :: 0 <= j < k ==> Passes(count, cats[j], tot, ignore))
        && Reports(count, cats, tot, ignore).error == StepError(count, cats[k], tot)
    decreases |cats|
  {
    if cats != [] {
      ReportsOutcome(count, cats[1..], tot, ignore);
      var r := Reports(count, cats, tot, ignore);
      var rest := Reports(count, cats[1..], tot, ignore);
      if Passes(count, cats[0], tot, ignore) {
        if rest.Ok? {
          assert r.Ok? && r.value == [ReportOf(count, cats[0])] + rest.value;
        } else {
          var k :| 0 <= k < |cats[1..]| && !Passes(count, cats[1..][k], tot, ignore)
            && (forall j :: 0 <= j < k ==> Passes(count, cats[1..][j], tot, ignore))
            && rest.error == StepError(count, cats[1..][k], tot);
          assert r.Err? && r.error == rest.error;
          assert forall j :: 0 <= j < k + 1 ==> Passes(count, cats[j], tot, ignore);
        }
      } else {
        assert r.Err? && r.error == StepError(count, cats[0], tot);
      }
    }
  }

  /** The analysis succeeds exactly when the run exits cleanly, the total is
      found and every category passes; it then reports the four categories
      in order with the counts found. */
  lemma SummariseOutcome(count: Category -> Option<nat>, exitCode: int, ignore: bool)
    ensures Summarise(count, exitCode, ignore).Ok? <==>
      exitCode == 0 && count(Total).Some? && forall c :: c != Total ==> Passes(count, c, count(Total).value, ignore)
    ensures Summarise(count, exitCode, ignore).Ok? ==>
      Summarise(count, exitCode, ignore).value
      == [ReportOf(count, Failed), ReportOf(count, Wrong), ReportOf(count, New), ReportOf(count, Correct)]
  {
    if exitCode == 0 && count(Total).Some? {
      var tot := count(Total).value;
      ReportsOutcome(count, CHECKED, tot, ignore);
      if forall c :: c != Total ==> Passes(count, c, tot, ignore) {
        assert forall k :: 0 <= k < |CHECKED| ==> CHECKED[k] != Total;
      } else {
        var c :| c != Total && !Passes(count, c, tot, ignore);
        assert c == CHECKED[0] || c == CHECKED[1] || c == CHECKED[2] || c == CHECKED[3];
      }
    }
  }

  /** The errors before the categories: a failed run, then a missing total. */
  lemma AnalyseEarlyErrors(text: string, exitCode: int, ignore: bool)
    ensures exitCode != 0 ==> Analyse(text, exitCode, ignore) == Err(RunFailed)
    ensures exitCode == 0 && (forall i, d :: !Heads(text, Total, i, d)) ==> Analyse(text, exitCode, ignore) == Err(NoTotal)
  {
    SearchNone(text, Total);
  }

  /** A category error: the first of FAILED, WRONG, NEW and CORRECT that
      does not pass. */
  lemma SummariseFirstError(count: Category -> Option<nat>, ignore: bool)
    requires count(Total).Some? && Summarise(count, 0, ignore).Err?
    ensures exists k ::
      && 0 <= k < |CHECKED| && !Passes(count, CHECKED[k], count(Total).value, ignore)
      && (forall j :: 0 <= j < k ==> Passes(count, CHECKED[j], count(Total).value, ignore))
      && Summarise(count, 0, ignore).error == StepError(count, CHECKED[k], count(Total).value)
  {
    ReportsOutcome(count, CHECKED, count(Total).value, ignore);
  }

  /** With 'ignore_regtest_fails' set no count is too many, and a summary
      that passes without it is reported the same with it. */
  lemma SummariseIgnore(count: Category -> Option<nat>, exitCode: int)
    ensures Summarise(count, exitCode, true).Err? ==> !Summarise(count, exitCode, true).error.TooMany?
    ensures Summarise(count, exitCode, false).Ok? ==> Summarise(count, exitCode, true) == Summarise(count, exitCode, false)
  {
    if exitCode == 0 && count(Total).Some? {
      var tot := count(Total).value;
      ReportsOutcome(count, CHECKED, tot, true);
      ReportsOutcome(count, CHECKED, tot, false);
      var strict, lenient := Reports(count, CHECKED, tot, false), Reports(count, CHECKED, tot, true);
      if strict.Ok? {
        assert lenient.Ok?;
        assert lenient.value == strict.value;
      }
    }
  }
}
