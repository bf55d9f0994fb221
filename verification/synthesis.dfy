/**
 `configure_step` (lines 111-205) end to end: the build type check, the
 shared settings, the compiler family's dictionary, the library stage, the
 link group around LIBS, and the make rules that follow the options in the
 arch file.
 */
module Synthesis {
  import opened Wrappers
  import opened Strings
  import opened BuildFacts
  import opened Options
  import opened Common
  import opened Families
  import opened Providers
  import opened Libraries
  import opened LinkGroup
  import opened Makefile

  /** The verdict of the libxc version rule for the loaded libxc. */
  function LibxcVerdict(f: Facts): Result<string, ConfigError> {
    LibxcLibs(SoftwareVersion(f, Libxc))
  }

  /** The verdict of the ifort release gate for the loaded ifort. */
  function Gate(f: Facts): Result<string, ConfigError> {
    IntelGate(SoftwareVersion(f, Ifort))
  }

  /** Lines 164-193 after `configure_common`: the family's fragments, the
      library stage and the link group around LIBS. */
  function Finish(f: Facts, s: Settings, gate: Result<string, ConfigError>, c: Result<Options, ConfigError>): Result<Options, ConfigError> {
    Normalise(LibraryStage(f, s, FamilyStage(f, gate, c)))
  }

  /** Lines 164-193 with the settings, the libxc verdict and the ifort
      verdict given. */
  function Pipeline(f: Facts, s: Settings, libxc: Result<string, ConfigError>, gate: Result<string, ConfigError>): Result<Options, ConfigError> {
    Finish(f, s, gate, Configure(f, s, libxc))
  }

  /** Lines 117-193: the dictionary `configure_step` writes to the arch file. */
  function ConfigureOptions(f: Facts): Result<Options, ConfigError> {
    if f.buildType.OtherType? then Err(UnknownBuildType(f.buildType.name))
    else Pipeline(f, Prepare(f), LibxcVerdict(f), Gate(f))
  }

  /** Lines 162 and 432-448: no rules, except what the ifort gate asks for. */
  function MakeRules(f: Facts): string {
    if f.compiler == IntelComp && Gate(f).Ok? then Gate(f).value else ""
  }

  /** What `configure_step` writes: the option dictionary and the make
      rules appended after it. */
  datatype Configuration = Configuration(options: Options, rules: string)

  /** `configure_step` up to the arch file text. */
  function Synthesize(f: Facts): Result<Configuration, ConfigError> {
    match ConfigureOptions(f)
    case Err(e) => Err(e)
    case Ok(o) => Ok(Configuration(o, MakeRules(f)))
  }

  /** Lines 196-197: the arch file is named after the toolchain and the build type. */
  function ArchFileName(toolchain: string, t: BuildType): (name: string)
    requires !t.OtherType?
    ensures "Linux-x86-64-" <= name
    ensures t == Popt ==> EndsWith(name, ".popt")
    ensures t == Psmp ==> EndsWith(name, ".psmp")
    ensures |name| == 13 + |toolchain| + 5 && name[13..|name| - 5] == toolchain
  {
    var suffix := if t == Popt then ".popt" else ".psmp";
    var name := "Linux-x86-64-" + toolchain + suffix;
    assert name[..13] == "Linux-x86-64-";
    assert name[|name| - 5..] == suffix;
    assert name[13..|name| - 5] == toolchain;
    name
  }

  /** Distinct toolchains or build types never share an arch file. */
  lemma ArchFileNameDistinct(a: string, t: BuildType, b: string, u: BuildType)
    requires !t.OtherType? && !u.OtherType?
    requires ArchFileName(a, t) == ArchFileName(b, u)
    ensures a == b && t == u
  {
  }

  /** Line 199: the arch file's text for one iteration order of the
      dictionary. */
  function ArchText(c: Configuration, order: seq<Key>): (text: string)
    requires IsOrder(c.options, order)
    ensures HEADER <= text
    ensures EndsWith(text, c.rules)
  {
    Generate(c.options, order, c.rules)
  }

  // ------------------------------------------------- after configure_common

  /** Which stages leave which keys alone. */
  lemma UntouchedBase(k: Key)
    requires k in UNTOUCHED_BASE
    ensures k != DFLAGS && k != LIBS && k != LIBINTLIB && k !in FAMILY_TOUCHED && k !in LIBRARY_TOUCHED
  {
  }

  lemma UntouchedOpt(k: Key)
    requires k == FCFLAGSOPT || k == FCFLAGSOPT2
    ensures k != DFLAGS && k != LIBS && k != LIBINTLIB && k !in LIBRARY_TOUCHED
  {
  }

  lemma UntouchedByFamily(k: Key)
    requires k == CFLAGS || k == LIBS
    ensures k !in FAMILY_TOUCHED && k !in FamilyCreated(Gcc) && k !in FamilyCreated(IntelComp)
    ensures k == CFLAGS ==> k != DFLAGS && k != LIBS && k != LIBINTLIB
  {
  }

  /** A successful finish ran every stage on a dictionary. */
  lemma FinishStages(f: Facts, s: Settings, gate: Result<string, ConfigError>, c: Result<Options, ConfigError>)
    requires Finish(f, s, gate, c).Ok?
    ensures c.Ok? && FamilyStage(f, gate, c).Ok? && LibraryStage(f, s, FamilyStage(f, gate, c)).Ok?
  {
    var lib := LibraryStage(f, s, FamilyStage(f, gate, c));
    NormaliseEffect(lib, DFLAGS);
    LibraryHas(f, s, FamilyStage(f, gate, c), DFLAGS);
    FamilyKeys(f, gate, c);
  }

  /** DFLAGS gains the family's, the provider's and FFTW's defines. */
  lemma FinishDflags(f: Facts, s: Settings, gate: Result<string, ConfigError>, c: Result<Options, ConfigError>)
    requires Finish(f, s, gate, c).Ok?
    ensures c.Ok?
    ensures DFLAGS in c.value ==>
      Lookup(Finish(f, s, gate, c).value, DFLAGS) == Some(c.value[DFLAGS] + FamilyDefine(f.compiler) + ProviderDefines(f) + FftwDefines(f))
  {
    FinishStages(f, s, gate, c);
    NormaliseEffect(LibraryStage(f, s, FamilyStage(f, gate, c)), DFLAGS);
    LibraryDflags(f, s, FamilyStage(f, gate, c));
    FamilyDflags(f, gate, c);
  }

  /** Keys no later stage writes keep their common value. */
  lemma FinishFrame(f: Facts, s: Settings, gate: Result<string, ConfigError>, c: Result<Options, ConfigError>, k: Key)
    requires Finish(f, s, gate, c).Ok? && k !in FAMILY_TOUCHED && k !in LIBRARY_TOUCHED && k != LIBS
    ensures c.Ok? && Lookup(Finish(f, s, gate, c).value, k) == Lookup(c.value, k)
  {
    FinishStages(f, s, gate, c);
    NormaliseEffect(LibraryStage(f, s, FamilyStage(f, gate, c)), k);
    LibraryFrame(f, s, FamilyStage(f, gate, c), k);
    FamilyFrame(f, gate, c, k);
  }

  /** FCFLAGSOPT gains the family's tuning. */
  lemma FinishOpt(f: Facts, s: Settings, gate: Result<string, ConfigError>, c: Result<Options, ConfigError>)
    requires Finish(f, s, gate, c).Ok?
    ensures c.Ok?
    ensures FCFLAGSOPT in c.value ==> Lookup(Finish(f, s, gate, c).value, FCFLAGSOPT) == Some(c.value[FCFLAGSOPT] + OptTuning(f))
  {
    FinishStages(f, s, gate, c);
    UntouchedOpt(FCFLAGSOPT);
    NormaliseEffect(LibraryStage(f, s, FamilyStage(f, gate, c)), FCFLAGSOPT);
    LibraryFrame(f, s, FamilyStage(f, gate, c), FCFLAGSOPT);
    FamilyOpt(f, gate, c);
  }

  /** FCFLAGSOPT2 gains the family's second tuning. */
  lemma FinishOpt2(f: Facts, s: Settings, gate: Result<string, ConfigError>, c: Result<Options, ConfigError>)
    requires Finish(f, s, gate, c).Ok?
    ensures c.Ok?
    ensures FCFLAGSOPT2 in c.value ==> Lookup(Finish(f, s, gate, c).value, FCFLAGSOPT2) == Some(c.value[FCFLAGSOPT2] + Opt2Tuning(f))
  {
    FinishStages(f, s, gate, c);
    UntouchedOpt(FCFLAGSOPT2);
    NormaliseEffect(LibraryStage(f, s, FamilyStage(f, gate, c)), FCFLAGSOPT2);
    LibraryFrame(f, s, FamilyStage(f, gate, c), FCFLAGSOPT2);
    FamilyOpt2(f, gate, c);
  }

  /** CFLAGS gains the provider's include flags. */
  lemma FinishCflags(f: Facts, s: Settings, gate: Result<string, ConfigError>, c: Result<Options, ConfigError>)
    requires Finish(f, s, gate, c).Ok?
    ensures c.Ok?
    ensures CFLAGS in c.value ==> Lookup(Finish(f, s, gate, c).value, CFLAGS) == Some(c.value[CFLAGS] + ProviderIncludes(f))
  {
    FinishStages(f, s, gate, c);
    UntouchedByFamily(CFLAGS);
    NormaliseEffect(LibraryStage(f, s, FamilyStage(f, gate, c)), CFLAGS);
    LibraryCflags(f, s, FamilyStage(f, gate, c));
    FamilyFrame(f, gate, c, CFLAGS);
  }

  /** LIBS is the common list with the libraries' additions, in the
      recipe's link group. */
  lemma FinishLibs(f: Facts, s: Settings, gate: Result<string, ConfigError>, c: Result<Options, ConfigError>)
    requires Finish(f, s, gate, c).Ok?
    ensures c.Ok? && LIBS in c.value
    ensures Lookup(Finish(f, s, gate, c).value, LIBS)
      == Some(GroupAsWritten(ProviderLibs(f, s, c.value[LIBS]) + FftwLibs(f) + TailLibs(f)))
  {
    FinishStages(f, s, gate, c);
    UntouchedByFamily(LIBS);
    NormaliseEffect(LibraryStage(f, s, FamilyStage(f, gate, c)), LIBS);
    LibraryLibs(f, s, FamilyStage(f, gate, c));
    FamilyFrame(f, gate, c, LIBS);
  }

  /** The family's, the provider's and FFTW's keys are added. */
  lemma FinishKeys(f: Facts, s: Settings, gate: Result<string, ConfigError>, c: Result<Options, ConfigError>, k: Key)
    requires Finish(f, s, gate, c).Ok?
    ensures c.Ok?
    ensures k in Finish(f, s, gate, c).value <==>
      k in c.value || k in FamilyCreated(f.compiler) || k in ProviderCreated(f) || (Loaded(f, FFTW) && k in FFTW_CREATED)
  {
    FinishStages(f, s, gate, c);
    NormaliseEffect(LibraryStage(f, s, FamilyStage(f, gate, c)), k);
    LibraryHas(f, s, FamilyStage(f, gate, c), k);
    FamilyKeys(f, gate, c);
  }

  /** The first error of the finish for a known family: an earlier
      failure, the ifort gate, ACML without LIBBLAS, LIBS still `None`. */
  function FinishError(f: Facts, gate: Result<string, ConfigError>, c: Result<Options, ConfigError>): Option<ConfigError> {
    if c.Err? then Some(c.error)
    else if f.compiler == IntelComp && gate.Err? then Some(gate.error)
    else if ChooseProvider(f) == Acml && LIBBLAS !in f.env then Some(EnvUnset(LIBBLAS))
    else if LIBS !in c.value then Some(NoneValue(LIBS))
    else None
  }

  /** The flags the family and library stages extend are present. */
  predicate CommonFlags(o: Options) {
    DFLAGS in o && CFLAGS in o && FCFLAGSOPT in o && FCFLAGSOPT2 in o
  }

  /** After a successful family stage, the library stage fails on ACML
      without LIBBLAS or on LIBS still `None` at the provider's append; the
      link group then finds LIBS filled. */
  lemma FinishLate(f: Facts, s: Settings, gate: Result<string, ConfigError>, c: Result<Options, ConfigError>)
    requires c.Ok? && FamilyStage(f, gate, c).Ok? && CommonFlags(c.value)
    ensures Finish(f, s, gate, c).Ok? <==> LIBS in c.value && (ChooseProvider(f) == Acml ==> LIBBLAS in f.env)
    ensures Finish(f, s, gate, c).Err? ==>
      Finish(f, s, gate, c).error == if ChooseProvider(f) == Acml && LIBBLAS !in f.env then EnvUnset(LIBBLAS) else NoneValue(LIBS)
  {
    var fam := FamilyStage(f, gate, c);
    FamilyKeys(f, gate, c);
    UntouchedByFamily(LIBS);
    LibraryOutcome(f, s, fam);
    if LibraryStage(f, s, fam).Ok? {
      LibraryLibs(f, s, fam);
    }
  }

  /** Every provider appends to LIBS (lines 491, 498, 516), so a library
      stage that succeeds leaves LIBS filled, and the link group's `None`
      case is never reached from the pipeline. */
  lemma LinkGroupFindsLibs(f: Facts, s: Settings, gate: Result<string, ConfigError>, c: Result<Options, ConfigError>)
    requires LibraryStage(f, s, FamilyStage(f, gate, c)).Ok?
    ensures LIBS in LibraryStage(f, s, FamilyStage(f, gate, c)).value
    ensures Finish(f, s, gate, c).Ok?
  {
    LibraryLibs(f, s, FamilyStage(f, gate, c));
  }

  /** A failed family stage is the finish's failure. */
  lemma FinishFails(f: Facts, s: Settings, gate: Result<string, ConfigError>, c: Result<Options, ConfigError>)
    requires FamilyStage(f, gate, c).Err?
    ensures Finish(f, s, gate, c) == FamilyStage(f, gate, c)
  {
    LibraryPasses(f, s, FamilyStage(f, gate, c).error);
  }

  /** A failed ifort gate is the finish's failure. */
  lemma FinishGate(f: Facts, s: Settings, gate: Result<string, ConfigError>, c: Result<Options, ConfigError>)
    requires c.Ok? && CommonFlags(c.value) && f.compiler == IntelComp && gate.Err?
    ensures Finish(f, s, gate, c) == Err(gate.error)
  {
    FamilyOutcome(f, gate, c);
    FinishFails(f, s, gate, c);
  }

  /** On a dictionary with the flags the later stages extend, a known
      family's finish fails exactly when `FinishError` names an error, and
      with that error. */
  lemma FinishOutcome(f: Facts, s: Settings, gate: Result<string, ConfigError>, c: Result<Options, ConfigError>)
    requires !f.compiler.OtherCompiler?
    requires c.Ok? ==> CommonFlags(c.value)
    ensures FinishError(f, gate, c).None? ==> Finish(f, s, gate, c).Ok?
    ensures FinishError(f, gate, c).Some? ==> Finish(f, s, gate, c) == Err(FinishError(f, gate, c).value)
  {
    if c.Err? {
      FamilyPasses(f, gate, c.error);
      FinishFails(f, s, gate, c);
    } else if f.compiler == IntelComp && gate.Err? {
      FinishGate(f, s, gate, c);
    } else {
      FamilyOutcome(f, gate, c);
      FinishLate(f, s, gate, c);
    }
  }

  /** An unknown compiler family is fatal whatever came before. */
  lemma FinishUnknownFamily(f: Facts, s: Settings, gate: Result<string, ConfigError>, c: Result<Options, ConfigError>)
    requires f.compiler.OtherCompiler?
    ensures Finish(f, s, gate, c) == Err(UnsupportedCompiler)
  {
    LibraryPasses(f, s, UnsupportedCompiler);
  }

  // ------------------------------------------------- with configure_common

  /** The base keys no later stage writes. */
  const UNTOUCHED_BASE: set<Key> := {CC, CPP, FC, LD, AR, CPPFLAGS, FPIC, DEBUG, FCFLAGS, FCFLAGS2, FCFLAGSNOOPT}

  /** A successful `configure_common` holds the keys the later stages
      extend, and LIBS exactly when the environment has it. */
  lemma CommonKeys(f: Facts, s: Settings, libxc: Result<string, ConfigError>)
    requires Configure(f, s, libxc).Ok?
    ensures CommonFlags(Configure(f, s, libxc).value)
    ensures LIBS in Configure(f, s, libxc).value <==> LIBS_ENV in f.env
  {
    ConfigureKeys(f, s, libxc);
    LibsNotBase();
  }

  /** DFLAGS is the fixed head, the extra defines, then one define per
      optional library, the family's, the provider's and FFTW's. */
  lemma PipelineDflags(f: Facts, s: Settings, libxc: Result<string, ConfigError>, gate: Result<string, ConfigError>)
    requires Pipeline(f, s, libxc, gate).Ok?
    ensures Lookup(Pipeline(f, s, libxc, gate).value, DFLAGS) == Some(DFLAGS_BASE + s.extradflags
      + DefineIf(Loaded(f, LibInt), " -D__LIBINT") + DefineIf(Loaded(f, Libxc), " -D__LIBXC2")
      + FamilyDefine(f.compiler) + ProviderDefines(f) + FftwDefines(f))
  {
    FinishDflags(f, s, gate, Configure(f, s, libxc));
    ConfigureDflags(f, s, libxc);
  }

  /** The keys no later stage writes keep their base value. */
  lemma PipelineBase(f: Facts, s: Settings, libxc: Result<string, ConfigError>, gate: Result<string, ConfigError>, k: Key)
    requires Pipeline(f, s, libxc, gate).Ok? && k in UNTOUCHED_BASE
    ensures Lookup(Pipeline(f, s, libxc, gate).value, k) == Some(BaseValue(f, s, k))
  {
    UntouchedBase(k);
    FinishFrame(f, s, gate, Configure(f, s, libxc), k);
    ConfigureFrame(f, s, libxc, k);
    BaseEntries(f, s);
  }

  /** FC and LD are the MPI Fortran wrapper with the OpenMP setting. */
  lemma PipelineCompilers(f: Facts, s: Settings, libxc: Result<string, ConfigError>, gate: Result<string, ConfigError>)
    requires Pipeline(f, s, libxc, gate).Ok?
    ensures var o := Pipeline(f, s, libxc, gate).value;
      FC in o && LD in o && o[FC] == o[LD] == EnvText(f, MPIF90) + " " + s.openmp
  {
    PipelineBase(f, s, libxc, gate, FC);
    PipelineBase(f, s, libxc, gate, LD);
    BaseCompilers(f, s);
  }

  /** FCFLAGS and FCFLAGS2 follow 'typeopt'. */
  lemma PipelineFcflags(f: Facts, s: Settings, libxc: Result<string, ConfigError>, gate: Result<string, ConfigError>)
    requires Pipeline(f, s, libxc, gate).Ok?
    ensures var o := Pipeline(f, s, libxc, gate).value;
      && FCFLAGS in o && FCFLAGS2 in o
      && o[FCFLAGS] == (if f.typeopt then "$(FCFLAGSOPT)" else "$(FCFLAGSNOOPT)")
      && o[FCFLAGS2] == (if f.typeopt then "$(FCFLAGSOPT2)" else "$(FCFLAGSNOOPT)")
  {
    PipelineBase(f, s, libxc, gate, FCFLAGS);
    PipelineBase(f, s, libxc, gate, FCFLAGS2);
    BaseFcflags(f, s);
  }

  /** FCFLAGSOPT and FCFLAGSOPT2 are the base flags with the family's tuning. */
  lemma PipelineOpt(f: Facts, s: Settings, libxc: Result<string, ConfigError>, gate: Result<string, ConfigError>)
    requires Pipeline(f, s, libxc, gate).Ok?
    ensures Lookup(Pipeline(f, s, libxc, gate).value, FCFLAGSOPT) == Some("-O2 $(FREE) $(SAFE) $(FPIC) $(DEBUG)" + OptTuning(f))
    ensures Lookup(Pipeline(f, s, libxc, gate).value, FCFLAGSOPT2) == Some("-O1 $(FREE) $(SAFE) $(FPIC) $(DEBUG)" + Opt2Tuning(f))
  {
    var c := Configure(f, s, libxc);
    FinishOpt(f, s, gate, c);
    FinishOpt2(f, s, gate, c);
    UntouchedOpt(FCFLAGSOPT);
    UntouchedOpt(FCFLAGSOPT2);
    ConfigureFrame(f, s, libxc, FCFLAGSOPT);
    ConfigureFrame(f, s, libxc, FCFLAGSOPT2);
    BaseEntries(f, s);
    BaseOpt(f, s);
  }

  /** CFLAGS is the base value with the provider's include flags. */
  lemma PipelineCflags(f: Facts, s: Settings, libxc: Result<string, ConfigError>, gate: Result<string, ConfigError>)
    requires Pipeline(f, s, libxc, gate).Ok?
    ensures Lookup(Pipeline(f, s, libxc, gate).value, CFLAGS) == Some(BaseValue(f, s, CFLAGS) + ProviderIncludes(f))
  {
    UntouchedByFamily(CFLAGS);
    FinishCflags(f, s, gate, Configure(f, s, libxc));
    ConfigureFrame(f, s, libxc, CFLAGS);
    BaseEntries(f, s);
  }

  /** LIBS is the environment's list with every addition, in the recipe's
      link group. */
  lemma PipelineLibs(f: Facts, s: Settings, libxc: Result<string, ConfigError>, gate: Result<string, ConfigError>)
    requires Pipeline(f, s, libxc, gate).Ok?
    ensures LIBS_ENV in f.env
    ensures Lookup(Pipeline(f, s, libxc, gate).value, LIBS) == Some(GroupAsWritten(
      ProviderLibs(f, s, f.env[LIBS_ENV] + LibIntLibs(f) + LibxcLinks(f, libxc)) + FftwLibs(f) + TailLibs(f)))
  {
    FinishLibs(f, s, gate, Configure(f, s, libxc));
    CommonKeys(f, s, libxc);
    ConfigureLibs(f, s, libxc);
  }

  /** The keys: the common ones, LIBS, LIBINTLIB with LibInt, the family's,
      the provider's and FFTW's. */
  lemma PipelineKeys(f: Facts, s: Settings, libxc: Result<string, ConfigError>, gate: Result<string, ConfigError>, k: Key)
    requires Pipeline(f, s, libxc, gate).Ok?
    ensures k in Pipeline(f, s, libxc, gate).value <==>
      k in BASE_KEYS || k == LIBS || (Loaded(f, LibInt) && k == LIBINTLIB)
      || k in FamilyCreated(f.compiler) || k in ProviderCreated(f) || (Loaded(f, FFTW) && k in FFTW_CREATED)
  {
    FinishKeys(f, s, gate, Configure(f, s, libxc), k);
    FinishLibs(f, s, gate, Configure(f, s, libxc));
    ConfigureHas(f, s, libxc, k);
    ConfigureHas(f, s, libxc, LIBS);
    LibsNotBase();
  }

  /** For a known family, the first error after the family check, in
      source order: the MPI-2 check, `configure_common`'s steps, the ifort
      gate, ACML without LIBBLAS, and LIBS still `None`. */
  function PipelineError(f: Facts, libxc: Result<string, ConfigError>, gate: Result<string, ConfigError>): Option<ConfigError> {
    if !Mpi2Available(f) then Some(NoMpi2)
    else if CommonError(f, libxc).Some? then CommonError(f, libxc)
    else if f.compiler == IntelComp && gate.Err? then Some(gate.error)
    else if ChooseProvider(f) == Acml && LIBBLAS !in f.env then Some(EnvUnset(LIBBLAS))
    else if LIBS_ENV !in f.env then Some(NoneValue(LIBS))
    else None
  }

  /** `configure_common`'s outcome followed by the finish's first error is
      the pipeline's first error. */
  lemma ErrorsAgree(f: Facts, s: Settings, libxc: Result<string, ConfigError>, gate: Result<string, ConfigError>)
    ensures FinishError(f, gate, Configure(f, s, libxc)) == PipelineError(f, libxc, gate)
  {
    if Mpi2Available(f) {
      ConfigureErrors(f, s, libxc);
      if Configure(f, s, libxc).Ok? {
        CommonKeys(f, s, libxc);
      }
    }
  }

  /** For a known family the pipeline fails exactly when `PipelineError`
      names an error, and with that error. */
  lemma PipelineOutcome(f: Facts, s: Settings, libxc: Result<string, ConfigError>, gate: Result<string, ConfigError>)
    requires !f.compiler.OtherCompiler?
    ensures Pipeline(f, s, libxc, gate).Ok? <==> PipelineError(f, libxc, gate).None?
    ensures Pipeline(f, s, libxc, gate).Err? ==> Pipeline(f, s, libxc, gate).error == PipelineError(f, libxc, gate).value
  {
    var c := Configure(f, s, libxc);
    if c.Ok? {
      CommonKeys(f, s, libxc);
    }
    FinishOutcome(f, s, gate, c);
    ErrorsAgree(f, s, libxc, gate);
  }

  // ------------------------------------------------- configure_step

  /** The first error of `configure_step`, in source order: the build type
      (line 118), the compiler family (171), the MPI-2 check and the LibInt
      and libxc steps of `configure_common`, the ifort gate (441, 448, 451), ACML
      without LIBBLAS, and LIBS still `None` when the BLAS provider or the
      link group needs it. */
  function FirstError(f: Facts): Option<ConfigError> {
    if f.buildType.OtherType? then Some(UnknownBuildType(f.buildType.name))
    else if f.compiler.OtherCompiler? then Some(UnsupportedCompiler)
    else PipelineError(f, LibxcVerdict(f), Gate(f))
  }

  /** `configure_step` fails exactly when `FirstError` names an error, and
      then with that error. */
  lemma SynthOutcome(f: Facts)
    ensures ConfigureOptions(f).Ok? <==> FirstError(f).None?
    ensures ConfigureOptions(f).Err? ==> ConfigureOptions(f).error == FirstError(f).value
  {
    if !f.buildType.OtherType? {
      if f.compiler.OtherCompiler? {
        FinishUnknownFamily(f, Prepare(f), Gate(f), Configure(f, Prepare(f), LibxcVerdict(f)));
      } else {
        PipelineOutcome(f, Prepare(f), LibxcVerdict(f), Gate(f));
      }
    }
  }

  /** For a known type and family, the configuration stops for want of MPI-2
      exactly when the toolchain names an MPI family outside the known five,
      or names none and no listed MPI module is loaded. */
  lemma SynthMpi2(f: Facts)
    requires !f.buildType.OtherType? && !f.compiler.OtherCompiler?
    ensures ConfigureOptions(f) == Err(NoMpi2) <==>
      if f.mpiFamily.Some? then f.mpiFamily.value.OtherMpi?
      else forall i :: 0 <= i < |MPI2_MODULES| ==> !Loaded(f, MPI2_MODULES[i])
  {
    SynthOutcome(f);
    if Mpi2Available(f) {
      Mpi2Late(f);
    }
  }

  /** Every error that can follow the MPI-2 check is another error. */
  lemma Mpi2Late(f: Facts)
    requires !f.buildType.OtherType? && !f.compiler.OtherCompiler? && Mpi2Available(f)
    ensures FirstError(f) != Some(NoMpi2)
  {
    var libxc := LibxcLibs(SoftwareVersion(f, Libxc));
    assert libxc.Err? ==> libxc.error != NoMpi2;
    var gate := IntelGate(SoftwareVersion(f, Ifort));
    assert gate.Err? ==> gate.error != NoMpi2;
  }

  /** Without an error due, an Intel build passed the ifort gate. */
  lemma NoErrorPassesGate(f: Facts)
    requires FirstError(f).None? && f.compiler == IntelComp
    ensures Gate(f).Ok?
  {
  }

  /** A successful configuration carries the ifort gate's rules for Intel
      and none for GCC. */
  lemma SynthRules(f: Facts)
    requires Synthesize(f).Ok?
    ensures FirstError(f).None?
    ensures f.compiler == Gcc ==> Synthesize(f).value.rules == ""
    ensures f.compiler == IntelComp ==> Gate(f).Ok? && Synthesize(f).value.rules == Gate(f).value
    ensures f.compiler == IntelComp ==>
      Synthesize(f).value.rules == QS_RULE || Synthesize(f).value.rules == ET_RULE + QS_RULE
  {
    SynthOutcome(f);
    if f.compiler == IntelComp {
      NoErrorPassesGate(f);
    }
  }

  /** DFLAGS of a successful configuration, see `PipelineDflags`. */
  lemma SynthDflags(f: Facts)
    requires ConfigureOptions(f).Ok?
    ensures Lookup(ConfigureOptions(f).value, DFLAGS) == Some(DFLAGS_BASE + Prepare(f).extradflags
      + DefineIf(Loaded(f, LibInt), " -D__LIBINT") + DefineIf(Loaded(f, Libxc), " -D__LIBXC2")
      + FamilyDefine(f.compiler) + ProviderDefines(f) + FftwDefines(f))
  {
    PipelineDflags(f, Prepare(f), LibxcVerdict(f), Gate(f));
  }

  /** FC and LD carry the OpenMP flag exactly for the 'psmp' type. */
  lemma SynthCompilers(f: Facts)
    requires ConfigureOptions(f).Ok?
    ensures var o := ConfigureOptions(f).value;
      && FC in o && LD in o && o[FC] == o[LD]
      && (f.buildType == Psmp ==> o[FC] == EnvText(f, MPIF90) + " " + f.openmpFlag)
      && (f.buildType == Popt ==> o[FC] == EnvText(f, MPIF90) + " ")
  {
    PipelineCompilers(f, Prepare(f), LibxcVerdict(f), Gate(f));
  }

  /** FCFLAGS and FCFLAGS2 name the optimised flags when 'typeopt' is set
      and the unoptimised ones otherwise. */
  lemma SynthFcflags(f: Facts)
    requires ConfigureOptions(f).Ok?
    ensures var o := ConfigureOptions(f).value;
      && FCFLAGS in o && FCFLAGS2 in o
      && (f.typeopt ==> o[FCFLAGS] == "$(FCFLAGSOPT)" && o[FCFLAGS2] == "$(FCFLAGSOPT2)")
      && (!f.typeopt ==> o[FCFLAGS] == "$(FCFLAGSNOOPT)" && o[FCFLAGS2] == "$(FCFLAGSNOOPT)")
  {
    PipelineFcflags(f, Prepare(f), LibxcVerdict(f), Gate(f));
  }

  /** FCFLAGSOPT and FCFLAGSOPT2 are `-O2` and `-O1` with the family's tuning. */
  lemma SynthOpt(f: Facts)
    requires ConfigureOptions(f).Ok?
    ensures Lookup(ConfigureOptions(f).value, FCFLAGSOPT) == Some("-O2 $(FREE) $(SAFE) $(FPIC) $(DEBUG)" + OptTuning(f))
    ensures Lookup(ConfigureOptions(f).value, FCFLAGSOPT2) == Some("-O1 $(FREE) $(SAFE) $(FPIC) $(DEBUG)" + Opt2Tuning(f))
  {
    PipelineOpt(f, Prepare(f), LibxcVerdict(f), Gate(f));
  }

  /** With GCC the optimised flags always end with the stack size limit,
      whatever else is configured. */
  lemma GccStackLimit(f: Facts)
    requires ConfigureOptions(f).Ok? && f.compiler == Gcc
    ensures FCFLAGSOPT in ConfigureOptions(f).value
    ensures EndsWith(ConfigureOptions(f).value[FCFLAGSOPT], STACK_LIMIT)
  {
    SynthOpt(f);
    GccOptEnds(f);
    EndsWithAppend("-O2 $(FREE) $(SAFE) $(FPIC) $(DEBUG)", OptTuning(f), STACK_LIMIT);
  }

  /** CFLAGS is the base value with the provider's include flags. */
  lemma SynthCflags(f: Facts)
    requires ConfigureOptions(f).Ok?
    ensures Lookup(ConfigureOptions(f).value, CFLAGS) == Some(BaseValue(f, Prepare(f), CFLAGS) + ProviderIncludes(f))
  {
    PipelineCflags(f, Prepare(f), LibxcVerdict(f), Gate(f));
  }

  /** LIBS before the link group: the environment's, LibInt's, libxc's, the
      provider's, FFTW's, LAPACK's and ScaLAPACK's libraries in that order. */
  function LibsBeforeGroup(f: Facts): string
    requires LIBS_ENV in f.env
  {
    ProviderLibs(f, Prepare(f), f.env[LIBS_ENV] + LibIntLibs(f) + LibxcLinks(f, LibxcVerdict(f)))
      + FftwLibs(f) + TailLibs(f)
  }

  /** LIBS is the whole library list, with one pass per marker removing the
      old markers, between a start and an end marker; when that pass leaves
      no marker, the result holds exactly one of each. */
  lemma SynthLibs(f: Facts)
    requires ConfigureOptions(f).Ok?
    ensures LIBS_ENV in f.env && LIBS in ConfigureOptions(f).value
    ensures ConfigureOptions(f).value[LIBS] == START + " " + StripOnce(LibsBeforeGroup(f)) + " " + END
    ensures Clean(StripOnce(LibsBeforeGroup(f))) ==>
      Count(ConfigureOptions(f).value[LIBS], START) == 1 && Count(ConfigureOptions(f).value[LIBS], END) == 1
  {
    PipelineLibs(f, Prepare(f), LibxcVerdict(f), Gate(f));
    if Clean(StripOnce(LibsBeforeGroup(f))) {
      AsWrittenAgrees(LibsBeforeGroup(f));
    }
  }

  /** The dictionary holds the common keys, LIBS, LIBINTLIB with LibInt, the
      family's keys, the provider's keys and FFTW's paths, and no other. */
  lemma SynthKeys(f: Facts, k: Key)
    requires ConfigureOptions(f).Ok?
    ensures k in ConfigureOptions(f).value <==>
      k in BASE_KEYS || k == LIBS || (Loaded(f, LibInt) && k == LIBINTLIB)
      || k in FamilyCreated(f.compiler) || k in ProviderCreated(f) || (Loaded(f, FFTW) && k in FFTW_CREATED)
  {
    PipelineKeys(f, Prepare(f), LibxcVerdict(f), Gate(f), k);
  }

  /** MKL's include key is in the configuration exactly when MKL is loaded. */
  lemma MklKey(f: Facts)
    requires ConfigureOptions(f).Ok?
    ensures INTEL_INC in ConfigureOptions(f).value <==> Loaded(f, IMKL)
  {
    SynthKeys(f, INTEL_INC);
    ProviderOwnKey(f, INTEL_INC);
  }

  /** ACML's include key is there exactly when ACML is loaded and MKL is not:
      the first provider found wins. */
  lemma AcmlKey(f: Facts)
    requires ConfigureOptions(f).Ok?
    ensures ACML_INC in ConfigureOptions(f).value <==> !Loaded(f, IMKL) && Loaded(f, ACML)
  {
    SynthKeys(f, ACML_INC);
    ProviderOwnKey(f, ACML_INC);
  }

  /** MKL's own FFTW interface is configured exactly when MKL is loaded and
      no FFTW module is. */
  lemma MklFftKey(f: Facts)
    requires ConfigureOptions(f).Ok?
    ensures INTEL_INCF in ConfigureOptions(f).value <==> Loaded(f, IMKL) && !Loaded(f, FFTW)
  {
    SynthKeys(f, INTEL_INCF);
    ProviderOwnKey(f, INTEL_INCF);
  }

  /** No stage but the provider creates a provider's key. */
  lemma ProviderOwnKey(f: Facts, k: Key)
    requires k == INTEL_INC || k == ACML_INC || k == INTEL_INCF
    ensures k !in BASE_KEYS && k != LIBS && k != LIBINTLIB
    ensures k !in FamilyCreated(f.compiler) && k !in FFTW_CREATED
    ensures k in ProviderCreated(f) <==>
      if k == INTEL_INC then Loaded(f, IMKL)
      else if k == ACML_INC then !Loaded(f, IMKL) && Loaded(f, ACML)
      else Loaded(f, IMKL) && !Loaded(f, FFTW)
  {
  }

  lemma ArchFileReads(f: Facts, order: seq<Key>)
    requires Synthesize(f).Ok? && IsOrder(Synthesize(f).value.options, order)
    requires forall k :: k in Synthesize(f).value.options ==> '\n' !in Synthesize(f).value.options[k]
    ensures var c := Synthesize(f).value;
      ReadLines(Body(c.options, order, c.rules)) == Some(Assignments(c.options, order))
  {
    var c := Synthesize(f).value;
    MakefileRoundTrip(c.options, order, c.rules);
  }
}
