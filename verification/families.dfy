/**
 The compiler-family stage of `configure_step`: `configure_intel_based`
 and `configure_GCC_based` each add their own option fragment on top of the
 common dictionary, and the Intel one also checks the ifort release and
 chooses the extra make rules that go after the options in the arch file.
 */
module Families {
  import opened Wrappers
  import opened Strings
  import opened LooseVersion
  import opened BuildFacts
  import opened Options

  /** `LooseVersion('2011')`, `('2012')`, `('2011.8')`, `('11')` and
      `('11.1.072')` (see `VersionLiterals`). */
  const V2011: Version := [Num(2011)]
  const V2012: Version := [Num(2012)]
  const V2011_8: Version := [Num(2011), Num(8)]
  const V11: Version := [Num(11)]
  const V11_1_072: Version := [Num(11), Num(1), Num(72)]

  /** The version constants are what `LooseVersion` makes of the recipe's literals. */
  lemma VersionLiterals()
    ensures Parse("2011") == V2011 && Parse("2012") == V2012 && Parse("2011.8") == V2011_8
    ensures Parse("11") == V11 && Parse("11.1.072") == V11_1_072
  {
    Literal2011();
    Literal2012();
    Literal2011_8();
    Literal11();
    Literal11_1_072();
  }

  lemma Literal2011()
    ensures Parse("2011") == V2011
  {
    ParseOne("2011");
    DigitsLiteral4('2', '0', '1', '1');
  }

  lemma Literal2012()
    ensures Parse("2012") == V2012
  {
    ParseOne("2012");
    DigitsLiteral4('2', '0', '1', '2');
  }

  lemma Literal2011_8()
    ensures Parse("2011.8") == V2011_8
  {
    Parts2011_8();
    ParseTwo("2011", "8");
  }

  lemma Parts2011_8()
    ensures "2011" + ("." + "8") == "2011.8"
    ensures [Num(DigitsValue("2011")), Num(DigitsValue("8"))] == V2011_8
  {
    assert DigitsValue("8") == 10 * DigitsValue("") + DigitValue('8');
    DigitsLiteral4('2', '0', '1', '1');
  }

  lemma Literal11()
    ensures Parse("11") == V11
  {
    ParseOne("11");
    DigitsLiteral2('1', '1');
  }

  lemma Literal11_1_072()
    ensures Parse("11.1.072") == V11_1_072
  {
    Parts11_1_072();
    ParseThree("11", "1", "072");
  }

  lemma Parts11_1_072()
    ensures "11" + ("." + ("1" + ("." + "072"))) == "11.1.072"
    ensures [Num(DigitsValue("11")), Num(DigitsValue("1")), Num(DigitsValue("072"))] == V11_1_072
  {
    assert DigitsValue("1") == 10 * DigitsValue("") + DigitValue('1');
    DigitsLiteral2('1', '1');
    DigitsLiteral3('0', '7', '2');
  }

  /** Make rules that compile one source with the less aggressive FCFLAGS2. */
  const ET_RULE := "et_coupling.o: et_coupling.F\n\t$(FC) -c $(FCFLAGS2) $<\n"
  const QS_RULE := "qs_vxc_atom.o: qs_vxc_atom.F\n\t$(FC) -c $(FCFLAGS2) $<\n"

  /** Lines 429-451: the ifort release gate. Its value is the make rules the
      release needs; a release with a known defect, an unsupported release
      and an unknown version (comparing a `LooseVersion(None)` raises) are
      fatal. */
  function IntelGate(version: string): (r: Result<string, ConfigError>)
    ensures r.Ok? ==> r.value == QS_RULE || r.value == ET_RULE + QS_RULE
    ensures r == Err(VersionUnknown(Ifort)) <==> version == ""
  {
    if version == "" then Err(VersionUnknown(Ifort))
    else
      var v := Parse(version);
      if AtLeast(v, V2011) && Less(v, V2012) then
        if AtLeast(v, V2011_8) then Ok(ET_RULE + QS_RULE)
        else Err(IntelTooOld("v12", "v2011.8"))
      else if AtLeast(v, V11) then
        if AtLeast(v, V11_1_072) then Ok(QS_RULE)
        else Err(IntelTooOld("v11", "v11.1.072"))
      else Err(IntelUnsupported(version))
  }

  /** For a dotted numeric release `a.b.c...`, the gate by components:
      2011 needs update 8 and gets both rules, 11 needs 11.1.072, any other
      release from 12 on gets the one rule, and anything older than 11 is
      unsupported. */
  lemma IntelGateNumeric(version: string)
    requires version != "" && Parse(version) != [] && IsNumeric(Parse(version))
    ensures var v := Parse(version); var a := v[0].n;
      && (a == 2011 ==>
            IntelGate(version) == (if |v| >= 2 && v[1].n >= 8 then Ok(ET_RULE + QS_RULE)
                                   else Err(IntelTooOld("v12", "v2011.8"))))
      && (a == 11 ==>
            IntelGate(version) == (if |v| >= 2 && (v[1].n > 1 || (v[1].n == 1 && |v| >= 3 && v[2].n >= 72))
                                   then Ok(QS_RULE) else Err(IntelTooOld("v11", "v11.1.072"))))
      && (a >= 12 && a != 2011 ==> IntelGate(version) == Ok(QS_RULE))
      && (a < 11 ==> IntelGate(version) == Err(IntelUnsupported(version)))
  {
    var v := Parse(version);
    LessOne(v, 2011);
    LessOne(v, 2012);
    LessOne(v, 11);
    LessTwo(v, 2011, 8);
    LessThree(v, 11, 1, 72);
  }

  /** The gate as a fragment of the pipeline: nothing to change, or the fatal error. */
  function GateFragment(gate: Result<string, ConfigError>): (r: Result<seq<Edit>, ConfigError>)
    ensures r.Ok? <==> gate.Ok?
    ensures r.Ok? ==> r.value == []
    ensures r.Err? ==> r.error == gate.error
  {
    match gate
    case Ok(_) => Ok([])
    case Err(e) => Err(e)
  }

  /** `-I<modincpath>` when a module include directory was prepared. */
  function ModIncFlag(f: Facts): string {
    if f.modincpath != "" then "-I" + f.modincpath else ""
  }

  /** The Intel and GCC architecture-tuning flags. */
  function IntelArch(f: Facts): string {
    if f.optarch then "-xHOST" else ""
  }

  function GccArch(f: Facts): string {
    if f.optarch then "-march=native" else ""
  }

  const INTEL_CREATED: set<Key> := {FREE, SAFE, INCFLAGS, LDFLAGS, OBJECTS_ARCHITECTURE}
  const GCC_CREATED: set<Key> := {FREE, LDFLAGS, OBJECTS_ARCHITECTURE}

  /** Lines 403-416: the keys `configure_intel_based` sets outright. */
  function IntelAssigns(f: Facts): (r: seq<Edit>)
    ensures Created(r) == Touched(r) == {FREE, SAFE, INCFLAGS, LDFLAGS}
    ensures Extended(r) == {}
  {
    var e1 := Assign(FREE, "-fpp -free");
    var e2 := Assign(SAFE, "-assume protect_parens -no-unroll-aggressive");
    var e3 := Assign(INCFLAGS, "$(DFLAGS) -I$(INTEL_INC) -I$(INTEL_INCF) " + ModIncFlag(f));
    var e4 := Assign(LDFLAGS, "$(INCFLAGS) -i-static");
    Summary4(e1, e2, e3, e4);
    [e1, e2, e3, e4]
  }

  /** Lines 417-427: the object file, the family define and the tuning flags. */
  function IntelTuning(f: Facts): (r: seq<Edit>)
    ensures Created(r) == {OBJECTS_ARCHITECTURE}
    ensures Extended(r) == {DFLAGS, FCFLAGSOPT, FCFLAGSOPT2}
    ensures Touched(r) == {OBJECTS_ARCHITECTURE, DFLAGS, FCFLAGSOPT, FCFLAGSOPT2}
    ensures OnlyExtends(r, DFLAGS) && OnlyExtends(r, FCFLAGSOPT) && OnlyExtends(r, FCFLAGSOPT2)
    ensures Suffixes(r, DFLAGS) == " -D__INTEL"
    ensures Suffixes(r, FCFLAGSOPT) == Suffixes(r, FCFLAGSOPT2) == " $(INCFLAGS) " + IntelArch(f) + " -heap-arrays 64"
  {
    var tuning := " $(INCFLAGS) " + IntelArch(f) + " -heap-arrays 64";
    var e1 := Assign(OBJECTS_ARCHITECTURE, "machine_intel.o");
    var e2 := Extend(DFLAGS, " -D__INTEL");
    var e3 := Extend(FCFLAGSOPT, tuning);
    var e4 := Extend(FCFLAGSOPT2, tuning);
    Summary4(e1, e2, e3, e4);
    [e1, e2, e3, e4]
  }

  /** Lines 459-465: the keys `configure_GCC_based` sets outright. */
  function GccAssigns(): (r: seq<Edit>)
    ensures Created(r) == Touched(r) == {FREE, LDFLAGS, OBJECTS_ARCHITECTURE}
    ensures Extended(r) == {}
  {
    var e1 := Assign(FREE, "-ffree-form -ffree-line-length-none");
    var e2 := Assign(LDFLAGS, "$(FCFLAGS)");
    var e3 := Assign(OBJECTS_ARCHITECTURE, "machine_gfortran.o");
    Summary3(e1, e2, e3);
    [e1, e2, e3]
  }

  /** Lines 467-474: the family define and the tuning flags; the stack-size
      limit is added whatever the architecture flag. */
  function GccTuning(f: Facts): (r: seq<Edit>)
    ensures Created(r) == {}
    ensures Extended(r) == Touched(r) == {DFLAGS, FCFLAGSOPT, FCFLAGSOPT2}
    ensures OnlyExtends(r, DFLAGS) && OnlyExtends(r, FCFLAGSOPT) && OnlyExtends(r, FCFLAGSOPT2)
    ensures Suffixes(r, DFLAGS) == " -D__GFORTRAN"
    ensures Suffixes(r, FCFLAGSOPT) == " $(DFLAGS) $(CFLAGS) " + GccArch(f) + " -fmax-stack-var-size=32768"
    ensures Suffixes(r, FCFLAGSOPT2) == " $(DFLAGS) $(CFLAGS) " + GccArch(f)
  {
    var e1 := Extend(DFLAGS, " -D__GFORTRAN");
    var e2 := Extend(FCFLAGSOPT, " $(DFLAGS) $(CFLAGS) " + GccArch(f) + " -fmax-stack-var-size=32768");
    var e3 := Extend(FCFLAGSOPT2, " $(DFLAGS) $(CFLAGS) " + GccArch(f));
    Summary3(e1, e2, e3);
    [e1, e2, e3]
  }

  /** The stack limit GCC's optimised flags always end with. */
  const STACK_LIMIT := " -fmax-stack-var-size=32768"

  /** GCC's tuning of FCFLAGSOPT ends with the stack limit, with or
      without 'optarch'. */
  lemma GccOptEnds(f: Facts)
    requires f.compiler == Gcc
    ensures EndsWith(OptTuning(f), STACK_LIMIT)
  {
    EndsWithAppend(" $(DFLAGS) $(CFLAGS) " + GccArch(f), STACK_LIMIT, STACK_LIMIT);
  }

  /** The define each compiler family adds to DFLAGS. */
  function FamilyDefine(c: CompilerFamily): string {
    match c
    case IntelComp => " -D__INTEL"
    case Gcc => " -D__GFORTRAN"
    case OtherCompiler(_) => ""
  }

  /** What each family appends to FCFLAGSOPT and FCFLAGSOPT2. */
  function OptTuning(f: Facts): string {
    match f.compiler
    case IntelComp => " $(INCFLAGS) " + IntelArch(f) + " -heap-arrays 64"
    case Gcc => " $(DFLAGS) $(CFLAGS) " + GccArch(f) + " -fmax-stack-var-size=32768"
    case OtherCompiler(_) => ""
  }

  function Opt2Tuning(f: Facts): string {
    match f.compiler
    case IntelComp => " $(INCFLAGS) " + IntelArch(f) + " -heap-arrays 64"
    case Gcc => " $(DFLAGS) $(CFLAGS) " + GccArch(f)
    case OtherCompiler(_) => ""
  }

  /** The keys each family adds to the dictionary. */
  function FamilyCreated(c: CompilerFamily): set<Key> {
    match c
    case IntelComp => INTEL_CREATED
    case Gcc => GCC_CREATED
    case OtherCompiler(_) => {}
  }

  /** Every key either family may write. */
  const FAMILY_TOUCHED: set<Key> := INTEL_CREATED + {DFLAGS, FCFLAGSOPT, FCFLAGSOPT2}

  /** Lines 401-427: the Intel fragments on the common dictionary. */
  function IntelStage(f: Facts, r: Result<Options, ConfigError>): Result<Options, ConfigError> {
    Then(Then(r, Ok(IntelAssigns(f))), Ok(IntelTuning(f)))
  }

  /** Lines 457-474: the GCC fragments on the common dictionary. */
  function GccStage(f: Facts, r: Result<Options, ConfigError>): Result<Options, ConfigError> {
    Then(Then(r, Ok(GccAssigns())), Ok(GccTuning(f)))
  }

  /** Lines 164-171: the family's fragments run on the common dictionary,
      the verdict of the Intel release gate last; an unknown family is fatal. */
  function FamilyStage(f: Facts, gate: Result<string, ConfigError>, r: Result<Options, ConfigError>): Result<Options, ConfigError> {
    match f.compiler
    case IntelComp => Then(IntelStage(f, r), GateFragment(gate))
    case Gcc => GccStage(f, r)
    case OtherCompiler(_) => Err(UnsupportedCompiler)
  }

  /** A successful family stage is its family's fragments, the gate passed. */
  lemma FamilyUnfold(f: Facts, gate: Result<string, ConfigError>, r: Result<Options, ConfigError>)
    requires FamilyStage(f, gate, r).Ok?
    ensures f.compiler == IntelComp ==> IntelStage(f, r).Ok? && FamilyStage(f, gate, r) == IntelStage(f, r)
    ensures f.compiler == IntelComp ==> gate.Ok?
    ensures f.compiler == Gcc ==> FamilyStage(f, gate, r) == GccStage(f, r)
    ensures !f.compiler.OtherCompiler?
  {
    if f.compiler == IntelComp {
      ThenOk(IntelStage(f, r), GateFragment(gate));
      ThenEmpty(IntelStage(f, r), GateFragment(gate));
    }
  }

  /** The family stage adds exactly its family's keys. */
  lemma FamilyKeys(f: Facts, gate: Result<string, ConfigError>, r: Result<Options, ConfigError>)
    requires FamilyStage(f, gate, r).Ok?
    ensures r.Ok? && !f.compiler.OtherCompiler?
    ensures FamilyStage(f, gate, r).value.Keys == r.value.Keys + FamilyCreated(f.compiler)
  {
    FamilyUnfold(f, gate, r);
    if f.compiler == IntelComp {
      TwoSteps(r, Ok(IntelAssigns(f)), Ok(IntelTuning(f)), DFLAGS);
    } else {
      TwoSteps(r, Ok(GccAssigns()), Ok(GccTuning(f)), DFLAGS);
    }
  }

  /** The flags both families extend are left alone by the assignments
      and only extended by the tuning fragment. */
  lemma IntelSpares(f: Facts, k: Key)
    requires k == DFLAGS || k == FCFLAGSOPT || k == FCFLAGSOPT2
    ensures k !in Touched(IntelAssigns(f)) && OnlyExtends(IntelTuning(f), k)
  {
    IntelAssignsSpare(f, k);
    IntelTuningExtends(f, k);
  }

  lemma IntelAssignsSpare(f: Facts, k: Key)
    requires k == DFLAGS || k == FCFLAGSOPT || k == FCFLAGSOPT2
    ensures k !in Touched(IntelAssigns(f))
  {
  }

  lemma IntelTuningExtends(f: Facts, k: Key)
    requires k == DFLAGS || k == FCFLAGSOPT || k == FCFLAGSOPT2
    ensures OnlyExtends(IntelTuning(f), k)
  {
  }

  lemma GccSpares(f: Facts, k: Key)
    requires k == DFLAGS || k == FCFLAGSOPT || k == FCFLAGSOPT2
    ensures k !in Touched(GccAssigns()) && OnlyExtends(GccTuning(f), k)
  {
    GccAssignsSpare(k);
    GccTuningExtends(f, k);
  }

  lemma GccAssignsSpare(k: Key)
    requires k == DFLAGS || k == FCFLAGSOPT || k == FCFLAGSOPT2
    ensures k !in Touched(GccAssigns())
  {
  }

  lemma GccTuningExtends(f: Facts, k: Key)
    requires k == DFLAGS || k == FCFLAGSOPT || k == FCFLAGSOPT2
    ensures OnlyExtends(GccTuning(f), k)
  {
  }

  /** The keys the Intel fragments extend keep their value, followed by
      what the tuning fragment appends. */
  lemma IntelExtends(f: Facts, r: Result<Options, ConfigError>, k: Key)
    requires IntelStage(f, r).Ok? && (k == DFLAGS || k == FCFLAGSOPT || k == FCFLAGSOPT2)
    ensures r.Ok?
    ensures k in r.value ==> Lookup(IntelStage(f, r).value, k) == Some(r.value[k] + Suffixes(IntelTuning(f), k))
  {
    IntelSpares(f, k);
    TwoSteps(r, Ok(IntelAssigns(f)), Ok(IntelTuning(f)), k);
  }

  /** The same for the GCC fragments. */
  lemma GccExtends(f: Facts, r: Result<Options, ConfigError>, k: Key)
    requires GccStage(f, r).Ok? && (k == DFLAGS || k == FCFLAGSOPT || k == FCFLAGSOPT2)
    ensures r.Ok?
    ensures k in r.value ==> Lookup(GccStage(f, r).value, k) == Some(r.value[k] + Suffixes(GccTuning(f), k))
  {
    GccSpares(f, k);
    TwoSteps(r, Ok(GccAssigns()), Ok(GccTuning(f)), k);
  }

  /** DFLAGS gains the family define. */
  lemma FamilyDflags(f: Facts, gate: Result<string, ConfigError>, r: Result<Options, ConfigError>)
    requires FamilyStage(f, gate, r).Ok?
    ensures r.Ok?
    ensures DFLAGS in r.value ==> Lookup(FamilyStage(f, gate, r).value, DFLAGS) == Some(r.value[DFLAGS] + FamilyDefine(f.compiler))
  {
    FamilyUnfold(f, gate, r);
    if f.compiler == IntelComp {
      IntelExtends(f, r, DFLAGS);
    } else {
      GccExtends(f, r, DFLAGS);
    }
  }

  /** FCFLAGSOPT gains the family tuning (for GCC always with the stack-size limit). */
  lemma FamilyOpt(f: Facts, gate: Result<string, ConfigError>, r: Result<Options, ConfigError>)
    requires FamilyStage(f, gate, r).Ok?
    ensures r.Ok?
    ensures FCFLAGSOPT in r.value ==> Lookup(FamilyStage(f, gate, r).value, FCFLAGSOPT) == Some(r.value[FCFLAGSOPT] + OptTuning(f))
  {
    FamilyUnfold(f, gate, r);
    if f.compiler == IntelComp {
      IntelExtends(f, r, FCFLAGSOPT);
    } else {
      GccExtends(f, r, FCFLAGSOPT);
    }
  }

  /** FCFLAGSOPT2 gains the family tuning. */
  lemma FamilyOpt2(f: Facts, gate: Result<string, ConfigError>, r: Result<Options, ConfigError>)
    requires FamilyStage(f, gate, r).Ok?
    ensures r.Ok?
    ensures FCFLAGSOPT2 in r.value ==> Lookup(FamilyStage(f, gate, r).value, FCFLAGSOPT2) == Some(r.value[FCFLAGSOPT2] + Opt2Tuning(f))
  {
    FamilyUnfold(f, gate, r);
    if f.compiler == IntelComp {
      IntelExtends(f, r, FCFLAGSOPT2);
    } else {
      GccExtends(f, r, FCFLAGSOPT2);
    }
  }

  /** Every other key keeps its value through the family stage. */
  lemma FamilyFrame(f: Facts, gate: Result<string, ConfigError>, r: Result<Options, ConfigError>, k: Key)
    requires FamilyStage(f, gate, r).Ok? && k !in FAMILY_TOUCHED
    ensures r.Ok? && Lookup(FamilyStage(f, gate, r).value, k) == Lookup(r.value, k)
  {
    FamilyUnfold(f, gate, r);
    if f.compiler == IntelComp {
      TwoSteps(r, Ok(IntelAssigns(f)), Ok(IntelTuning(f)), k);
    } else {
      TwoSteps(r, Ok(GccAssigns()), Ok(GccTuning(f)), k);
    }
  }

  /** On a dictionary holding the keys the family extends, the stage fails
      exactly when the Intel release gate does, and then with its error. */
  lemma FamilyOutcome(f: Facts, gate: Result<string, ConfigError>, r: Result<Options, ConfigError>)
    requires r.Ok? && DFLAGS in r.value && FCFLAGSOPT in r.value && FCFLAGSOPT2 in r.value
    ensures f.compiler == Gcc ==> FamilyStage(f, gate, r).Ok?
    ensures f.compiler == IntelComp ==>
      (FamilyStage(f, gate, r).Ok? <==> gate.Ok?)
    ensures f.compiler == IntelComp && gate.Err? ==>
      FamilyStage(f, gate, r) == Err(gate.error)
  {
    match f.compiler
    case IntelComp =>
      IntelStageSafe(f, r);
    case Gcc =>
      GccStageSafe(f, r);
    case OtherCompiler(_) =>
  }

  /** Neither family's fragments fail on a dictionary holding the keys they extend. */
  lemma IntelStageSafe(f: Facts, r: Result<Options, ConfigError>)
    requires r.Ok? && {DFLAGS, FCFLAGSOPT, FCFLAGSOPT2} <= r.value.Keys
    ensures IntelStage(f, r).Ok?
  {
    var r1 := Then(r, Ok(IntelAssigns(f)));
    ThenSafe(r, Ok(IntelAssigns(f)));
    ThenEffect(r, Ok(IntelAssigns(f)), DFLAGS);
    ThenSafe(r1, Ok(IntelTuning(f)));
  }

  lemma GccStageSafe(f: Facts, r: Result<Options, ConfigError>)
    requires r.Ok? && {DFLAGS, FCFLAGSOPT, FCFLAGSOPT2} <= r.value.Keys
    ensures GccStage(f, r).Ok?
  {
    var r1 := Then(r, Ok(GccAssigns()));
    ThenSafe(r, Ok(GccAssigns()));
    ThenEffect(r, Ok(GccAssigns()), DFLAGS);
    ThenSafe(r1, Ok(GccTuning(f)));
  }

  /** A known family's stage passes an earlier failure on unchanged. */
  lemma FamilyPasses(f: Facts, gate: Result<string, ConfigError>, e: ConfigError)
    requires !f.compiler.OtherCompiler?
    ensures FamilyStage(f, gate, Err(e)) == Err(e)
  {
  }
}
