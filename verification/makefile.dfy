/**
 `_generate_makefile` (lines 103-109): a header line, one `KEY = VALUE`
 line per dictionary entry in the dictionary's iteration order, then the
 extra make rules. Python 2 dictionaries iterate in no promised order, so
 the order is a parameter: any sequence listing every key once.
 */
module Makefile {
  import opened Wrappers
  import opened Strings
  import opened Options

  const HEADER: string := "# Makefile generated by CP2K._generateMakefile, items might appear in random order\n"

  /** Upper-case letters, digits and underscores only. */
  predicate IsWord(s: string) {
    forall i :: 0 <= i < |s| ==> s[i] == '_' || 'A' <= s[i] <= 'Z' || '0' <= s[i] <= '9'
  }

  lemma NameWordFirst(k: Key)
    requires k == CC || k == CPP || k == FC || k == LD || k == AR || k == CPPFLAGS || k == FPIC
      || k == DEBUG || k == FCFLAGS || k == FCFLAGS2
    ensures Name(k) != [] && IsWord(Name(k))
  {
  }

  lemma NameWordSecond(k: Key)
    requires k == CFLAGS || k == DFLAGS || k == FCFLAGSNOOPT || k == FCFLAGSOPT || k == FCFLAGSOPT2
      || k == LIBS || k == LIBINTLIB || k == FREE || k == SAFE
    ensures Name(k) != [] && IsWord(Name(k))
  {
  }

  lemma NameWordThird(k: Key)
    requires k == INCFLAGS || k == LDFLAGS || k == OBJECTS_ARCHITECTURE
    ensures Name(k) != [] && IsWord(Name(k))
  {
  }

  lemma NameWordFourth(k: Key)
    requires k == INTEL_INC || k == INTEL_INCF || k == ACML_INC || k == FFTW_INC || k == FFTW3INC || k == FFTW3LIB
    ensures Name(k) != [] && IsWord(Name(k))
  {
  }

  /** Variable names are single words. */
  lemma NameIsWord(k: Key)
    ensures Name(k) != [] && ' ' !in Name(k) && '\n' !in Name(k)
  {
    match k
    case CC | CPP | FC | LD | AR | CPPFLAGS | FPIC | DEBUG | FCFLAGS | FCFLAGS2 =>
      NameWordFirst(k);
    case CFLAGS | DFLAGS | FCFLAGSNOOPT | FCFLAGSOPT | FCFLAGSOPT2 | LIBS | LIBINTLIB | FREE | SAFE =>
      NameWordSecond(k);
    case INCFLAGS | LDFLAGS | OBJECTS_ARCHITECTURE =>
      NameWordThird(k);
    case _ =>
      NameWordFourth(k);
  }

  /** `order` lists every key of `o` exactly once. */
  predicate IsOrder(o: Options, order: seq<Key>) {
    (forall k :: k in o <==> k in order)
    && (forall i, j :: 0 <= i < j < |order| ==> order[i] != order[j])
  }

  /** Line 108 for one key. */
  function Line(o: Options, k: Key): string
    requires k in o
  {
    Name(k) + " = " + o[k] + "\n"
  }

  /** The loop of lines 107-108. */
  function Lines(o: Options, order: seq<Key>): string
    requires forall k :: k in order ==> k in o
  {
    if order == [] then "" else Line(o, order[0]) + Lines(o, order[1..])
  }

  /** Lines 103-109: header, variables, rules. */
  function Generate(o: Options, order: seq<Key>, rules: string): (text: string)
    requires IsOrder(o, order)
    ensures HEADER <= text
    ensures |text| >= |HEADER| + |rules| && text[|text| - |rules|..] == rules
  {
    var body := Lines(o, order);
    assert (HEADER + body + rules)[..|HEADER|] == HEADER;
    assert (HEADER + body + rules)[|HEADER| + |body|..] == rules;
    HEADER + body + rules
  }

  /** The variable section of a generated Makefile. */
  function Body(o: Options, order: seq<Key>, rules: string): string
    requires IsOrder(o, order)
  {
    var text := Generate(o, order, rules);
    text[|HEADER|..|text| - |rules|]
  }

  // A reader for the variable section: lines `NAME = VALUE`, the name ending
  // at the first space and the value at the end of the line.

  /** One line split into name and value, and the text after it. */
  datatype Assignment = Assignment(name: string, value: string)

  /** A line `NAME = VALUE`: the name ends at the first space. */
  function ReadAssignment(line: string): Option<Assignment> {
    match FirstIndexOf(line, ' ')
    case None => None
    case Some(j) =>
      if " = " <= line[j..] then Some(Assignment(line[..j], line[j + 3..])) else None
  }

  function ReadLine(text: string): Option<(Assignment, string)> {
    match FirstIndexOf(text, '\n')
    case None => None
    case Some(i) =>
      match ReadAssignment(text[..i])
      case None => None
      case Some(a) => Some((a, text[i + 1..]))
  }

  function ReadLines(text: string): Option<seq<Assignment>>
    decreases |text|
  {
    if text == [] then Some([])
    else match ReadLine(text)
      case None => None
      case Some((a, rest)) =>
        if |rest| >= |text| then None
        else match ReadLines(rest)
          case None => None
          case Some(more) => Some([a] + more)
  }

  /** The assignments a dictionary is written as, in order. */
  function Assignments(o: Options, order: seq<Key>): (r: seq<Assignment>)
    requires forall k :: k in order ==> k in o
    ensures |r| == |order|
    ensures forall i :: 0 <= i < |order| ==> r[i] == Assignment(Name(order[i]), o[order[i]])
  {
    seq(|order|, i requires 0 <= i < |order| => Assignment(Name(order[i]), o[order[i]]))
  }

  /** A line ends at the first newline. */
  lemma ReadLineEnds(line: string, rest: string)
    requires '\n' !in line && ReadAssignment(line).Some?
    ensures ReadLine(line + ['\n'] + rest) == Some((ReadAssignment(line).value, rest))
  {
    var text := line + ['\n'] + rest;
    FirstIndexAfter(line, '\n', rest);
    assert text[..|line|] == line;
    assert text[|line| + 1..] == rest;
  }

  /** An assignment written from a one-word name reads back. */
  lemma ReadWrittenAssignment(name: string, v: string)
    requires name != [] && ' ' !in name
    ensures ReadAssignment(name + " = " + v) == Some(Assignment(name, v))
  {
    var line := name + " = " + v;
    assert line == name + [' '] + ("= " + v);
    FirstIndexAfter(name, ' ', "= " + v);
    assert line[|name|..] == " = " + v;
    assert line[..|name|] == name;
    assert line[|name| + 3..] == v;
  }

  /** Reading one line written from a one-word name and a one-line value
      gives both back. */
  lemma ReadWrittenText(name: string, v: string, rest: string)
    requires name != [] && ' ' !in name && '\n' !in name && '\n' !in v
    ensures ReadLine(name + " = " + v + "\n" + rest) == Some((Assignment(name, v), rest))
  {
    var line := name + " = " + v;
    assert name + " = " + v + "\n" + rest == line + ['\n'] + rest;
    ReadWrittenAssignment(name, v);
    ReadLineEnds(line, rest);
  }

  /** Reading one written line gives back its name and value. */
  lemma ReadWrittenLine(o: Options, k: Key, rest: string)
    requires k in o && '\n' !in o[k]
    ensures ReadLine(Line(o, k) + rest) == Some((Assignment(Name(k), o[k]), rest))
  {
    NameIsWord(k);
    ReadWrittenText(Name(k), o[k], rest);
  }

  /** The variable section reads back as the dictionary's entries, in the
      order they were written, as long as no value spans lines. */
  lemma {:induction false} ReadWritten(o: Options, order: seq<Key>)
    requires forall k :: k in order ==> k in o && '\n' !in o[k]
    ensures ReadLines(Lines(o, order)) == Some(Assignments(o, order))
    decreases |order|
  {
    if order != [] {
      var line, rest := Line(o, order[0]), Lines(o, order[1..]);
      assert Lines(o, order) == line + rest;
      ReadWrittenLine(o, order[0], rest);
      ReadWritten(o, order[1..]);
      ReadLinesStep(line + rest, Assignment(Name(order[0]), o[order[0]]), rest);
      AssignmentsCons(o, order);
    }
  }

  /** Reading a text whose first line reads as `a` and leaves `rest`. */
  lemma ReadLinesStep(text: string, a: Assignment, rest: string)
    requires ReadLine(text) == Some((a, rest)) && |rest| < |text|
    requires ReadLines(rest).Some?
    ensures ReadLines(text) == Some([a] + ReadLines(rest).value)
  {
  }

  lemma AssignmentsCons(o: Options, order: seq<Key>)
    requires order != [] && forall k :: k in order ==> k in o
    ensures Assignments(o, order) == [Assignment(Name(order[0]), o[order[0]])] + Assignments(o, order[1..])
  {
    assert forall k :: k in order[1..] ==> k in order;
  }

  /** A generated Makefile's variable section names every key of the
      dictionary exactly once, with its value. */
  lemma MakefileRoundTrip(o: Options, order: seq<Key>, rules: string)
    requires IsOrder(o, order) && forall k :: k in o ==> '\n' !in o[k]
    ensures ReadLines(Body(o, order, rules)) == Some(Assignments(o, order))
  {
    var body := Lines(o, order);
    var text := HEADER + body + rules;
    assert text[|HEADER|..|text| - |rules|] == body;
    ReadWritten(o, order);
  }
}
