/**
 The last step on LIBS in `configure_step` (lines 190-193): every link
 group marker is removed and the whole list is wrapped in one
 `-Wl,--start-group ... -Wl,--end-group` pair, "to avoid group nesting".

 The recipe removes the markers with one `str.replace` pass per marker.
 A pass can join the pieces around a removed marker into a new marker, so
 the result can still nest groups (`NestedGroup`). `Normalise`, which the
 configure pipeline uses, follows the recipe's single pass; `LinkGroup`
 removes markers until none is left, which is what the comment intends,
 and `AsWrittenAgrees` says when the two coincide.
 */
module LinkGroup {
  import opened Wrappers
  import opened Strings
  import opened Options

  const START: string := "-Wl,--start-group"
  const END: string := "-Wl,--end-group"

  /** Line 191: one `str.replace` pass for each marker. */
  function StripOnce(l: string): string {
    ReplaceAll(ReplaceAll(l, START, ""), END, "")
  }

  /** Lines 191-193 as written. */
  function GroupAsWritten(l: string): string {
    START + " " + StripOnce(l) + " " + END
  }

  /** A pass over `l` finds nothing to remove. */
  predicate Clean(l: string) {
    StripOnce(l) == l
  }

  /** A pass never lengthens the list, and one that keeps its length
      changed nothing. */
  lemma StripShrinks(l: string)
    ensures |StripOnce(l)| <= |l|
    ensures |StripOnce(l)| == |l| ==> Clean(l)
  {
    var once := ReplaceAll(l, START, "");
    DeleteShrinks(l, START);
    DeleteShrinks(once, END);
  }

  /** A list is clean exactly when it holds neither marker. */
  lemma CleanMeansNoMarker(l: string)
    ensures Clean(l) <==> !Contains(l, START) && !Contains(l, END)
  {
    var once := ReplaceAll(l, START, "");
    DeleteShrinks(l, START);
    DeleteShrinks(once, END);
    if !Contains(l, START) && !Contains(l, END) {
      ReplaceAbsent(l, START, "");
      ReplaceAbsent(l, END, "");
    }
  }

  /** Markers removed until none is left. */
  function StripAll(l: string): (r: string)
    ensures Clean(r) && |r| <= |l|
    decreases |l|
  {
    StripShrinks(l);
    var t := StripOnce(l);
    if t == l then l else StripAll(t)
  }

  /** A clean list is left as it is. */
  lemma StripAllClean(l: string)
    requires Clean(l)
    ensures StripAll(l) == l
  {
  }

  /** Lines 191-193 as intended: one group around a list with no marker. */
  function LinkGroup(l: string): (r: string)
    ensures Count(r, START) == 1 && Count(r, END) == 1
  {
    GroupCount(StripAll(l));
    START + " " + StripAll(l) + " " + END
  }

  /** Neither marker contains a space, the recipe's separator. */
  lemma SpaceSeparates()
    ensures ' ' !in START && ' ' !in END
  {
  }

  /** The end marker is shorter than the start marker, so it holds none. */
  lemma EndHoldsNoStart()
    ensures Count(END, START) == 0 && ReplaceAll(END, START, "") == END
  {
  }

  /** The start marker holds no end marker. */
  lemma StartHoldsNoEnd()
    ensures Count(START, END) == 0 && ReplaceAll(START, END, "") == START
  {
    var n := |END|;
    assert START[..n] != END by { assert START[6] != END[6]; }
    assert START[1..][..n] != END by { assert START[1] != END[0]; }
    assert START[2..][..n] != END by { assert START[2] != END[0]; }
    assert START[1..][1..] == START[2..];
    assert START[2..][1..] == START[3..];
    assert |START[3..]| < n;
    assert [START[0]] + START[1..] == START;
    assert [START[1]] + START[2..] == START[1..];
    assert [START[2]] + START[3..] == START[2..];
  }

  /** `START + " " + x + " " + END` split at its two spaces. */
  lemma GroupSplits(x: string)
    ensures START + " " + x + " " + END == START + [' '] + (x + [' '] + END)
  {
  }

  /** A group around a clean list holds one marker of each kind. */
  lemma GroupCount(x: string)
    requires Clean(x)
    ensures Count(START + " " + x + " " + END, START) == 1
    ensures Count(START + " " + x + " " + END, END) == 1
  {
    CleanMeansNoMarker(x);
    SpaceSeparates();
    GroupSplits(x);
    ReplaceAroundSeparator(START, ' ', x + [' '] + END, START, "");
    ReplaceAroundSeparator(x, ' ', END, START, "");
    ReplaceAroundSeparator(START, ' ', x + [' '] + END, END, "");
    ReplaceAroundSeparator(x, ' ', END, END, "");
    ReplaceWhole(START, "");
    ReplaceWhole(END, "");
    ReplaceAbsent(x, START, "");
    ReplaceAbsent(x, END, "");
    EndHoldsNoStart();
    StartHoldsNoEnd();
  }

  /** One pass over a group around a clean list leaves the list between
      two spaces. */
  lemma StripGroup(x: string)
    requires Clean(x)
    ensures StripOnce(START + " " + x + " " + END) == " " + x + " "
  {
    CleanMeansNoMarker(x);
    SpaceSeparates();
    GroupSplits(x);
    ReplaceAroundSeparator(START, ' ', x + [' '] + END, START, "");
    ReplaceAroundSeparator(x, ' ', END, START, "");
    ReplaceWhole(START, "");
    ReplaceAbsent(x, START, "");
    ReplaceAbsent(x, END, "");
    EndHoldsNoStart();
    var once := [' '] + (x + [' '] + END);
    assert ReplaceAll(START + " " + x + " " + END, START, "") == "" + [' '] + (x + [' '] + END);
    assert once == [] + [' '] + (x + [' '] + END);
    ReplaceAroundSeparator([], ' ', x + [' '] + END, END, "");
    ReplaceAroundSeparator(x, ' ', END, END, "");
    ReplaceWhole(END, "");
  }

  /** A clean list between spaces is clean. */
  lemma PaddedClean(x: string)
    requires Clean(x)
    ensures Clean(" " + x + " ")
  {
    CleanMeansNoMarker(x);
    SpaceSeparates();
    assert " " + x + " " == [] + [' '] + (x + [' '] + []);
    ReplaceAroundSeparator([], ' ', x + [' '] + [], START, "");
    ReplaceAroundSeparator(x, ' ', [], START, "");
    ReplaceAbsent(x, START, "");
    var once := ReplaceAll(" " + x + " ", START, "");
    assert once == [] + [' '] + (x + [' '] + []);
    ReplaceAroundSeparator([], ' ', x + [' '] + [], END, "");
    ReplaceAroundSeparator(x, ' ', [], END, "");
    ReplaceAbsent(x, END, "");
  }

  /** Removing every marker from a group around a clean list leaves the
      list between two spaces. */
  lemma StripAllGroup(x: string)
    requires Clean(x)
    ensures StripAll(START + " " + x + " " + END) == " " + x + " "
  {
    StripGroup(x);
    PaddedClean(x);
    var g := START + " " + x + " " + END;
    assert StripOnce(g) != g by { assert |StripOnce(g)| < |g|; }
    StripAllClean(" " + x + " ");
  }

  /** Normalising twice keeps one marker pair; the second pass only widens
      the spaces inside it. */
  lemma Renormalise(l: string)
    ensures LinkGroup(LinkGroup(l)) == START + "  " + StripAll(l) + "  " + END
  {
    StripAllGroup(StripAll(l));
  }

  /** Normalising twice with the recipe's code, on a list one pass cleans,
      keeps one marker pair; the second pass only widens the spaces. */
  lemma RenormaliseAsWritten(l: string)
    requires Clean(StripOnce(l))
    ensures GroupAsWritten(GroupAsWritten(l)) == START + "  " + StripOnce(l) + "  " + END
    ensures Count(GroupAsWritten(GroupAsWritten(l)), START) == 1
    ensures Count(GroupAsWritten(GroupAsWritten(l)), END) == 1
  {
    StripGroup(StripOnce(l));
    PaddedClean(StripOnce(l));
    GroupCount(" " + StripOnce(l) + " ");
  }

  /** When one pass already leaves a clean list, the recipe's code and the
      intended normalisation agree. */
  lemma AsWrittenAgrees(l: string)
    requires Clean(StripOnce(l))
    ensures GroupAsWritten(l) == LinkGroup(l)
  {
    if StripOnce(l) != l {
      StripAllClean(StripOnce(l));
    }
  }

  /** A list the recipe's code leaves with two start markers, so the link
      groups still nest. */
  lemma NestedGroup()
    ensures Count(GroupAsWritten([START[0]] + START + START[1..]), START) == 2
  {
    var l := [START[0]] + START + START[1..];
    var n := |START|;
    assert l[..n] != START by { assert l[1] != START[1]; }
    assert l[1..][..n] == START;
    assert l[1..][n..] == START[1..];
    assert ReplaceAll(START[1..], START, "") == START[1..];
    assert ReplaceAll(l[1..], START, "") == "" + START[1..];
    assert ReplaceAll(l, START, "") == [START[0]] + ("" + START[1..]) == START;
    StartHoldsNoEnd();
    assert StripOnce(l) == START;
    SpaceSeparates();
    GroupSplits(START);
    ReplaceAroundSeparator(START, ' ', START + [' '] + END, START, "");
    ReplaceAroundSeparator(START, ' ', END, START, "");
    ReplaceWhole(START, "");
    EndHoldsNoStart();
  }

  /** Lines 190-193 on the dictionary, as the recipe writes them: LIBS
      must hold a value, and one pass per marker removes the old markers. */
  function Normalise(r: Result<Options, ConfigError>): (out: Result<Options, ConfigError>)
    ensures out.Ok? <==> r.Ok? && LIBS in r.value
    ensures r.Err? ==> out == r
    ensures r.Ok? && LIBS !in r.value ==> out == Err(NoneValue(LIBS))
  {
    match r
    case Err(e) => Err(e)
    case Ok(o) => if LIBS in o then Ok(o[LIBS := GroupAsWritten(o[LIBS])]) else Err(NoneValue(LIBS))
  }

  /** After normalising, LIBS is the old list in the recipe's link group,
      with exactly one start and one end marker whenever one pass leaves no
      marker behind, and every other entry is as it was. */
  lemma NormaliseEffect(r: Result<Options, ConfigError>, k: Key)
    requires Normalise(r).Ok?
    ensures r.Ok? && LIBS in r.value && LIBS in Normalise(r).value
    ensures Normalise(r).value[LIBS] == START + " " + StripOnce(r.value[LIBS]) + " " + END
    ensures Clean(StripOnce(r.value[LIBS])) ==>
      Count(Normalise(r).value[LIBS], START) == 1 && Count(Normalise(r).value[LIBS], END) == 1
    ensures k in Normalise(r).value <==> k in r.value
    ensures k != LIBS ==> Lookup(Normalise(r).value, k) == Lookup(r.value, k)
  {
    if Clean(StripOnce(r.value[LIBS])) {
      AsWrittenAgrees(r.value[LIBS]);
    }
  }
}
