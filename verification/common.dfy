/**
 `configure_common` of the CP2K easyblock: the option fragment every
 toolchain shares, the MPI-2 check, and the LibInt and libxc fragments.
 Also the values `configure_step` derives before it dispatches on the
 compiler family (debug and PIC flags, libsmm defines and archives).
 */
module Common {
  import opened Wrappers
  import opened Strings
  import opened LooseVersion
  import opened BuildFacts
  import opened Options

  
  /** The fixed head of DFLAGS: parallel build with BLACS, ScaLAPACK and the built-in FFT. */
  const DFLAGS_BASE := " -D__parallel -D__BLACS -D__SCALAPACK -D__FFTSG "

  /** Modules whose presence proves an MPI-2 library when the toolchain names no MPI family. */
  const MPI2_MODULES: seq<Package> := [Impi, MVAPICH2, OpenMPI, MPICH2, MPICH]

  /** `LooseVersion('2.0.1')`, the oldest libxc CP2K works with (see `LibxcVersionConstants`). */
  const LIBXC_MIN_VERSION: Version := [Num(2), Num(0), Num(1)]

  /** `LooseVersion('2.2')`, from which libxc ships its Fortran 90 interface library. */
  const LIBXC_F90_VERSION: Version := [Num(2), Num(2)]

  /** The libxc version constants are what `LooseVersion` makes of the
      recipe's literals. */
  lemma LibxcVersionConstants()
    ensures Parse("2.0.1") == LIBXC_MIN_VERSION && Parse("2.2") == LIBXC_F90_VERSION
  {
    LibxcVersionParts();
    ParseThree("2", "0", "1");
    ParseTwo("2", "2");
  }

  lemma LibxcVersionParts()
    ensures "2" + ("." + ("0" + ("." + "1"))) == "2.0.1" && "2" + ("." + "2") == "2.2"
    ensures [Num(DigitsValue("2")), Num(DigitsValue("0")), Num(DigitsValue("1"))] == LIBXC_MIN_VERSION
    ensures [Num(DigitsValue("2")), Num(DigitsValue("2"))] == LIBXC_F90_VERSION
  {
    assert DigitsValue("2") == 10 * DigitsValue("") + DigitValue('2');
    assert DigitsValue("0") == 10 * DigitsValue("") + DigitValue('0');
    assert DigitsValue("1") == 10 * DigitsValue("") + DigitValue('1');
  }

  /** Keys `configure_common` always sets (LIBS and LIBINTLIB only sometimes). */
  const BASE_KEYS: set<Key> := {CC, CPP, FC, LD, AR, CPPFLAGS, FPIC, DEBUG,
    FCFLAGS, FCFLAGS2, CFLAGS, DFLAGS, FCFLAGSNOOPT, FCFLAGSOPT, FCFLAGSOPT2}

  const LIBINT1_ARCHIVES := "$(LIBINTLIB)/libderiv.a $(LIBINTLIB)/libint.a $(LIBINTLIB)/libr12.a"
  const LIBINT2_ARCHIVES := "$(LIBINTLIB)/libint2.a"

  /** Instance state of the easyblock once `configure_step` has reached the
      compiler dispatch. */
  datatype Settings = Settings(
    debug: string,        // '-g' or ''
    fpic: string,         // '-fPIC' or ''
    extradflags: string,  // easyconfig value after the libsmm defines were added
    libsmm: string,       // the libsmm archives, space separated
    openmp: string        // the OpenMP flag for 'psmp', else ''
  )

  /** The preprocessor define for one libsmm archive: its base name without
      extension, with every `lib` replaced by `-D__HAS_`. */
  function SmmDefine(path: string): string {
    ReplaceAll(StripExtension(Basename(path)), "lib", "-D__HAS_")
  }

  function SmmDefines(paths: seq<string>): (r: seq<string>)
    ensures |r| == |paths|
    ensures forall i :: 0 <= i < |paths| ==> r[i] == SmmDefine(paths[i])
  {
    seq(|paths|, i requires 0 <= i < |paths| => SmmDefine(paths[i]))
  }

  /** An archive `<dir>/lib<name>.a`, as the glob of line 147 finds them,
      defines `-D__HAS_<name>`, with any further `lib` inside the name
      replaced as well. */
  lemma SmmDefineOfArchive(dir: string, name: string)
    requires '/' !in name
    ensures SmmDefine(dir + "/lib" + name + ".a") == "-D__HAS_" + ReplaceAll(name, "lib", "-D__HAS_")
    ensures !Contains(name, "lib") ==> SmmDefine(dir + "/lib" + name + ".a") == "-D__HAS_" + name
  {
    ArchiveDefine(dir, name);
    if !Contains(name, "lib") {
      ReplaceAbsent(name, "lib", "-D__HAS_");
    }
  }

  lemma ArchiveDefine(dir: string, name: string)
    requires '/' !in name
    ensures SmmDefine(dir + "/lib" + name + ".a") == ReplaceAll("lib" + name, "lib", "-D__HAS_")
    ensures ReplaceAll("lib" + name, "lib", "-D__HAS_") == "-D__HAS_" + ReplaceAll(name, "lib", "-D__HAS_")
  {
    var stem := "lib" + name;
    var path := dir + "/lib" + name + ".a";
    assert Basename(path) == stem + ".a" by {
      assert path == dir + ['/'] + (stem + ".a");
      ArchiveBasename(dir, stem + ".a");
    }
    ArchiveStem(stem);
    LibPrefix(name);
  }

  lemma ArchiveBasename(dir: string, file: string)
    requires '/' !in file
    ensures Basename(dir + ['/'] + file) == file
  {
    LastIndexBefore(dir, '/', file);
  }

  lemma ArchiveStem(stem: string)
    requires stem != [] && stem[0] != '.'
    ensures StripExtension(stem + ".a") == stem
  {
    assert stem + ".a" == stem + ['.'] + "a";
    LastIndexBefore(stem, '.', "a");
    assert (stem + ".a")[0] != '.';
    assert (stem + ".a")[..|stem|] == stem;
  }

  lemma LibPrefix(name: string)
    ensures ReplaceAll("lib" + name, "lib", "-D__HAS_") == "-D__HAS_" + ReplaceAll(name, "lib", "-D__HAS_")
  {
    var stem := "lib" + name;
    assert stem[..3] == "lib" && stem[3..] == name;
  }

  /** The framework's `cfg.update(key, value)` on a string parameter. */
  function CfgUpdate(prev: string, value: string): string {
    prev + " " + value + " "
  }

  /** Lines 131-152 and 263-264: debug, PIC, libsmm and OpenMP settings. */
  function Prepare(f: Facts): (s: Settings)
    ensures s.debug == (if f.debug then "-g" else "")
    ensures s.fpic == (if f.pic then "-fPIC" else "")
    ensures s.openmp == (if f.buildType == Psmp then f.openmpFlag else "")
    ensures !Loaded(f, Libsmm) ==> s.libsmm == "" && s.extradflags == f.extradflags
    ensures Loaded(f, Libsmm) ==> s.libsmm == JoinSpace(f.libsmmArchives)
    ensures Loaded(f, Libsmm) ==>
      s.extradflags == CfgUpdate(f.extradflags, " " + JoinSpace(SmmDefines(f.libsmmArchives)))
  {
    var debug := if f.debug then "-g" else "";
    var fpic := if f.pic then "-fPIC" else "";
    var openmp := if f.buildType == Psmp then f.openmpFlag else "";
    if Loaded(f, Libsmm) then
      var moredflags := " " + JoinSpace(SmmDefines(f.libsmmArchives));
      Settings(debug, fpic, CfgUpdate(f.extradflags, moredflags), JoinSpace(f.libsmmArchives), openmp)
    else
      Settings(debug, fpic, f.extradflags, "", openmp)
  }

  /** The scan over `MPI2_MODULES`: true as soon as one of them is loaded. */
  function AnyLoaded(f: Facts, names: seq<Package>): (r: bool)
    ensures r <==> exists i :: 0 <= i < |names| && Loaded(f, names[i])
  {
    if names == [] then false
    else if Loaded(f, names[0]) then true
    else
      var r := AnyLoaded(f, names[1..]);
      assert forall i :: 1 <= i < |names| ==> names[i] == names[1..][i - 1];
      r
  }

  /** An MPI-2 capable library: judged by the toolchain's MPI family when it
      declares one, otherwise by the loaded MPI modules. */
  predicate Mpi2Available(f: Facts) {
    match f.mpiFamily
    case Some(fam) => !fam.OtherMpi?
    case None => AnyLoaded(f, MPI2_MODULES)
  }

  /** Lines 302-326: the value `configure_common` gives each key it sets. */
  function BaseValue(f: Facts, s: Settings, k: Key): string {
    match k
    case CC => EnvText(f, MPICC)
    case CPP => ""
    case FC => EnvText(f, MPIF90) + " " + s.openmp
    case LD => EnvText(f, MPIF90) + " " + s.openmp
    case AR => "ar -r"
    case CPPFLAGS => ""
    case FPIC => s.fpic
    case DEBUG => s.debug
    case FCFLAGS => if f.typeopt then "$(FCFLAGSOPT)" else "$(FCFLAGSNOOPT)"
    case FCFLAGS2 => if f.typeopt then "$(FCFLAGSOPT2)" else "$(FCFLAGSNOOPT)"
    case CFLAGS =>
      " " + EnvText(f, EBVARCPPFLAGS) + " " + EnvText(f, EBVARLDFLAGS)
      + " $(FPIC) $(DEBUG) " + f.extracflags + " "
    case DFLAGS => DFLAGS_BASE + s.extradflags
    case LIBS => EnvText(f, LIBS_ENV)
    case FCFLAGSNOOPT => "$(DFLAGS) $(CFLAGS) -O0  $(FREE) $(FPIC) $(DEBUG)"
    case FCFLAGSOPT => "-O2 $(FREE) $(SAFE) $(FPIC) $(DEBUG)"
    case FCFLAGSOPT2 => "-O1 $(FREE) $(SAFE) $(FPIC) $(DEBUG)"
    case _ => ""
  }

  /** The keys of the initial dictionary: LIBS is only there when the
      environment defines it (otherwise its value is `None`). */
  function BaseKeys(f: Facts): set<Key> {
    BASE_KEYS + (if LIBS_ENV in f.env then {LIBS} else {})
  }

  /** Lines 302-326: the option dictionary before any library is considered. */
  function BaseOptions(f: Facts, s: Settings): Options {
    map k | k in BaseKeys(f) :: BaseValue(f, s, k)
  }

  /** The base dictionary holds exactly its keys, each with its value. */
  lemma BaseEntries(f: Facts, s: Settings)
    ensures BaseOptions(f, s).Keys == BaseKeys(f)
    ensures LIBS in BaseOptions(f, s) <==> LIBS_ENV in f.env
    ensures DFLAGS in BaseOptions(f, s) && BaseOptions(f, s)[DFLAGS] == DFLAGS_BASE + s.extradflags
  {
    LibsNotBase();
  }

  /** The base LIBS is the environment's, when it has one. */
  lemma BaseLibs(f: Facts, s: Settings)
    requires LIBS_ENV in f.env
    ensures LIBS in BaseOptions(f, s) && BaseOptions(f, s)[LIBS] == f.env[LIBS_ENV]
  {
  }

  /** LIBS is the one environment-dependent key. */
  lemma LibsNotBase()
    ensures LIBS !in BASE_KEYS && LIBINTLIB !in BASE_KEYS
  {
  }

  /** `get_software_version('LibInt').split('.')[0]`. */
  function LibIntMajor(f: Facts): string {
    BeforeFirstDot(SoftwareVersion(f, LibInt))
  }

  /** The LibInt archives for a major version, if the recipe knows it. */
  function LibIntArchives(major: string): Option<string> {
    if major == "1" then Some(LIBINT1_ARCHIVES)
    else if major == "2" then Some(LIBINT2_ARCHIVES)
    else None
  }

  /** The define a loaded module contributes to DFLAGS. */
  function DefineIf(b: bool, define: string): string {
    if b then define else ""
  }

  /** What the LibInt fragment appends to LIBS. */
  function LibIntLibs(f: Facts): string {
    if !Loaded(f, LibInt) then ""
    else match LibIntArchives(LibIntMajor(f))
      case None => ""
      case Some(archives) => " " + archives + " -lstdc++ "
  }

  /** Lines 328-372: the statements for a loaded LibInt with known archives. */
  function LibIntFragment(f: Facts, archives: string): (r: seq<Edit>)
    ensures Created(r) == {LIBINTLIB} && Extended(r) == {DFLAGS, LIBS}
    ensures Touched(r) == {DFLAGS, LIBINTLIB, LIBS}
    ensures OnlyExtends(r, DFLAGS) && OnlyExtends(r, LIBS)
    ensures Suffixes(r, DFLAGS) == " -D__LIBINT"
    ensures Suffixes(r, LIBS) == " " + archives + " -lstdc++ "
  {
    var e1 := Extend(DFLAGS, " -D__LIBINT");
    var e2 := Assign(LIBINTLIB, Root(f, LibInt) + "/lib");
    var e3 := Extend(LIBS, " " + archives + " -lstdc++ ");
    Summary3(e1, e2, e3);
    [e1, e2, e3]
  }

  /** Lines 328-373: the LibInt fragment (the wrapper for compilers without
      ISO_C_BINDING is never built, see the README). */
  function LibIntEdits(f: Facts): (r: Result<seq<Edit>, ConfigError>)
    ensures r.Err? <==> Loaded(f, LibInt) && LibIntArchives(LibIntMajor(f)).None?
    ensures r.Err? ==> r.error == UnknownLibIntVersion(LibIntMajor(f))
    ensures r.Ok? ==> Created(r.value) == (if Loaded(f, LibInt) then {LIBINTLIB} else {})
    ensures r.Ok? ==> Extended(r.value) == (if Loaded(f, LibInt) then {DFLAGS, LIBS} else {})
    ensures r.Ok? ==> Touched(r.value) == (if Loaded(f, LibInt) then {DFLAGS, LIBINTLIB, LIBS} else {})
    ensures r.Ok? ==> OnlyExtends(r.value, DFLAGS) && OnlyExtends(r.value, LIBS)
    ensures r.Ok? ==> Suffixes(r.value, DFLAGS) == DefineIf(Loaded(f, LibInt), " -D__LIBINT")
    ensures r.Ok? ==> Suffixes(r.value, LIBS) == LibIntLibs(f)
  {
    if !Loaded(f, LibInt) then Ok([])
    else
      match LibIntArchives(LibIntMajor(f))
      case None => Err(UnknownLibIntVersion(LibIntMajor(f)))
      case Some(archives) => Ok(LibIntFragment(f, archives))
  }

  /** Lines 378-386: the libxc version rule. Versions before 2.0.1 are
      fatal, as is an unknown version (comparing `LooseVersion(None)`
      raises); from 2.2 on the Fortran 90 interface is linked too. */
  function LibxcLibs(version: string): (r: Result<string, ConfigError>)
    ensures r.Ok? ==> r.value == " -lxcf90 -lxc" || r.value == " -lxc"
    ensures r == Err(VersionUnknown(Libxc)) <==> version == ""
  {
    if version == "" then Err(VersionUnknown(Libxc))
    else if Less(Parse(version), LIBXC_MIN_VERSION) then Err(LibxcTooOld(version))
    else if AtLeast(Parse(version), LIBXC_F90_VERSION) then Ok(" -lxcf90 -lxc")
    else Ok(" -lxc")
  }

  /** For a dotted numeric version `a.b.c...`: older than 2.0.1 is fatal,
      2.2 and later link the Fortran 90 interface. */
  lemma LibxcNumeric(version: string)
    requires version != "" && Parse(version) != [] && IsNumeric(Parse(version))
    ensures var v := Parse(version);
      var tooOld := v[0].n < 2 || (v[0].n == 2 && (|v| == 1 || (v[1].n == 0 && (|v| == 2 || v[2].n < 1))));
      var f90 := v[0].n > 2 || (v[0].n == 2 && |v| >= 2 && v[1].n >= 2);
      && (tooOld <==> LibxcLibs(version) == Err(LibxcTooOld(version)))
      && (f90 <==> LibxcLibs(version) == Ok(" -lxcf90 -lxc"))
      && (!tooOld && !f90 <==> LibxcLibs(version) == Ok(" -lxc"))
  {
    var v := Parse(version);
    LessThree(v, 2, 0, 1);
    LessTwo(v, 2, 2);
  }

  /** What the libxc fragment appends to LIBS, given the version rule's libraries. */
  function LibxcLinks(f: Facts, libs: Result<string, ConfigError>): string {
    if Loaded(f, Libxc) && libs.Ok? then " -L" + Root(f, Libxc) + "/lib" + libs.value else ""
  }

  /** Lines 376-389: the libxc fragment, given the verdict of the version rule. */
  function LibxcEdits(f: Facts, libs: Result<string, ConfigError>): (r: Result<seq<Edit>, ConfigError>)
    ensures r.Err? <==> Loaded(f, Libxc) && libs.Err?
    ensures r.Err? ==> r.error == libs.error
    ensures r.Ok? ==> Created(r.value) == {}
    ensures r.Ok? ==> Extended(r.value) == Touched(r.value) == (if Loaded(f, Libxc) then {DFLAGS, LIBS} else {})
    ensures r.Ok? ==> OnlyExtends(r.value, DFLAGS) && OnlyExtends(r.value, LIBS)
    ensures r.Ok? ==> Suffixes(r.value, DFLAGS) == DefineIf(Loaded(f, Libxc), " -D__LIBXC2")
    ensures r.Ok? ==> Suffixes(r.value, LIBS) == LibxcLinks(f, libs)
  {
    if !Loaded(f, Libxc) then Ok([])
    else
      match libs
      case Err(e) => Err(e)
      case Ok(l) =>
        var e1 := Extend(DFLAGS, " -D__LIBXC2");
        var e2 := Extend(LIBS, " -L" + Root(f, Libxc) + "/lib" + l);
        Summary2(e1, e2);
        Ok([e1, e2])
  }

  /** `configure_common` (lines 257-391), given the libxc version verdict. */
  function Configure(f: Facts, s: Settings, libxc: Result<string, ConfigError>): (r: Result<Options, ConfigError>)
    ensures !Mpi2Available(f) ==> r == Err(NoMpi2)
    ensures r.Ok? ==> LibIntEdits(f).Ok? && LibxcEdits(f, libxc).Ok?
  {
    if !Mpi2Available(f) then Err(NoMpi2)
    else
      Then(Then(Ok(BaseOptions(f, s)), LibIntEdits(f)), LibxcEdits(f, libxc))
  }

  /** DFLAGS gains one define per optional library, in source order. */
  lemma ConfigureDflags(f: Facts, s: Settings, libxc: Result<string, ConfigError>)
    requires Configure(f, s, libxc).Ok?
    ensures Lookup(Configure(f, s, libxc).value, DFLAGS) == Some(DFLAGS_BASE + s.extradflags
      + DefineIf(Loaded(f, LibInt), " -D__LIBINT") + DefineIf(Loaded(f, Libxc), " -D__LIBXC2"))
  {
    BaseEntries(f, s);
    TwoSteps(Ok(BaseOptions(f, s)), LibIntEdits(f), LibxcEdits(f, libxc), DFLAGS);
  }

  /** LIBS is the environment's value followed by the LibInt archives and the libxc libraries. */
  lemma ConfigureLibs(f: Facts, s: Settings, libxc: Result<string, ConfigError>)
    requires Configure(f, s, libxc).Ok? && LIBS_ENV in f.env
    ensures Lookup(Configure(f, s, libxc).value, LIBS) == Some(f.env[LIBS_ENV] + LibIntLibs(f) + LibxcLinks(f, libxc))
  {
    BaseLibs(f, s);
    TwoSteps(Ok(BaseOptions(f, s)), LibIntEdits(f), LibxcEdits(f, libxc), LIBS);
  }

  /** `configure_common` yields the base keys, plus LIBINTLIB with LibInt. */
  lemma ConfigureKeys(f: Facts, s: Settings, libxc: Result<string, ConfigError>)
    requires Configure(f, s, libxc).Ok?
    ensures Configure(f, s, libxc).value.Keys == BaseKeys(f) + (if Loaded(f, LibInt) then {LIBINTLIB} else {})
  {
    BaseEntries(f, s);
    TwoSteps(Ok(BaseOptions(f, s)), LibIntEdits(f), LibxcEdits(f, libxc), DFLAGS);
  }

  /** The same, one key at a time. */
  lemma ConfigureHas(f: Facts, s: Settings, libxc: Result<string, ConfigError>, k: Key)
    requires Configure(f, s, libxc).Ok?
    ensures k in Configure(f, s, libxc).value <==>
      k in BASE_KEYS || (k == LIBS && LIBS_ENV in f.env) || (k == LIBINTLIB && Loaded(f, LibInt))
  {
    ConfigureKeys(f, s, libxc);
  }

  /** The base values of the compiler keys, of FCFLAGS and FCFLAGS2, and of
      the optimisation flags the families tune. */
  lemma BaseCompilers(f: Facts, s: Settings)
    ensures BaseValue(f, s, FC) == BaseValue(f, s, LD) == EnvText(f, MPIF90) + " " + s.openmp
  {
  }

  lemma BaseFcflags(f: Facts, s: Settings)
    ensures BaseValue(f, s, FCFLAGS) == if f.typeopt then "$(FCFLAGSOPT)" else "$(FCFLAGSNOOPT)"
    ensures BaseValue(f, s, FCFLAGS2) == if f.typeopt then "$(FCFLAGSOPT2)" else "$(FCFLAGSNOOPT)"
  {
  }

  lemma BaseOpt(f: Facts, s: Settings)
    ensures BaseValue(f, s, FCFLAGSOPT) == "-O2 $(FREE) $(SAFE) $(FPIC) $(DEBUG)"
    ensures BaseValue(f, s, FCFLAGSOPT2) == "-O1 $(FREE) $(SAFE) $(FPIC) $(DEBUG)"
  {
  }

  /** Every key but DFLAGS, LIBS and LIBINTLIB keeps its base value. */
  lemma ConfigureFrame(f: Facts, s: Settings, libxc: Result<string, ConfigError>, k: Key)
    requires Configure(f, s, libxc).Ok? && k != DFLAGS && k != LIBS && k != LIBINTLIB
    ensures Lookup(Configure(f, s, libxc).value, k) == Lookup(BaseOptions(f, s), k)
  {
    UntouchedTwice(Ok(BaseOptions(f, s)), LibIntEdits(f), LibxcEdits(f, libxc), {DFLAGS, LIBINTLIB, LIBS}, k);
  }

  /** With LibInt loaded, a configuration that succeeds has a LibInt of
      major version 1 or 2, and LIBS links its archives right after the
      environment's libraries: the three archives of LibInt 1 or the one
      of LibInt 2. */
  lemma LibIntLinks(f: Facts, s: Settings, libxc: Result<string, ConfigError>)
    requires Configure(f, s, libxc).Ok? && Loaded(f, LibInt) && LIBS_ENV in f.env
    ensures LibIntMajor(f) == "1" || LibIntMajor(f) == "2"
    ensures LibIntMajor(f) == "1" ==>
      Lookup(Configure(f, s, libxc).value, LIBS) == Some(f.env[LIBS_ENV] + (" " + LIBINT1_ARCHIVES + " -lstdc++ ") + LibxcLinks(f, libxc))
    ensures LibIntMajor(f) == "2" ==>
      Lookup(Configure(f, s, libxc).value, LIBS) == Some(f.env[LIBS_ENV] + (" " + LIBINT2_ARCHIVES + " -lstdc++ ") + LibxcLinks(f, libxc))
  {
    assert LibIntEdits(f).Ok?;
    ConfigureLibs(f, s, libxc);
  }

  /** The error `configure_common` stops at once MPI-2 is found, in source
      order: an unknown LibInt version, the LibInt `LIBS +=` on `None`, the
      libxc version rule, the libxc `LIBS +=` on `None`. */
  function CommonError(f: Facts, libxc: Result<string, ConfigError>): Option<ConfigError> {
    if Loaded(f, LibInt) && LibIntArchives(LibIntMajor(f)).None? then Some(UnknownLibIntVersion(LibIntMajor(f)))
    else if Loaded(f, LibInt) && LIBS_ENV !in f.env then Some(NoneValue(LIBS))
    else if Loaded(f, Libxc) && libxc.Err? then Some(libxc.error)
    else if Loaded(f, Libxc) && LIBS_ENV !in f.env then Some(NoneValue(LIBS))
    else None
  }

  /** The LibInt step of `configure_common` on a dictionary that has DFLAGS,
      and LIBS exactly when the environment does (the base dictionary). */
  lemma LibIntStep(f: Facts, r0: Result<Options, ConfigError>)
    requires r0.Ok? && DFLAGS in r0.value && (LIBS in r0.value <==> LIBS_ENV in f.env)
    requires LibIntEdits(f).Ok?
    ensures var r1 := Then(r0, LibIntEdits(f));
      && (r1.Ok? <==> !Loaded(f, LibInt) || LIBS_ENV in f.env)
      && (r1.Err? ==> r1.error == NoneValue(LIBS))
      && (r1.Ok? ==> DFLAGS in r1.value && (LIBS in r1.value <==> LIBS_ENV in f.env))
  {
    var r1 := Then(r0, LibIntEdits(f));
    if r1.Ok? {
      ThenKeys(r0, LibIntEdits(f));
    } else {
      ThenErrorKey(r0, LibIntEdits(f));
    }
    if Loaded(f, LibInt) && LIBS_ENV !in f.env {
      ExtendNoneCrashes(r0.value, LibIntEdits(f).value, LIBS);
    } else {
      ThenSafe(r0, LibIntEdits(f));
    }
  }

  /** The libxc step of `configure_common` after a successful LibInt step. */
  lemma LibxcStep(f: Facts, r1: Result<Options, ConfigError>, libxc: Result<string, ConfigError>)
    requires r1.Ok? && DFLAGS in r1.value && (LIBS in r1.value <==> LIBS_ENV in f.env)
    requires LibxcEdits(f, libxc).Ok?
    ensures var r2 := Then(r1, LibxcEdits(f, libxc));
      && (r2.Ok? <==> !Loaded(f, Libxc) || LIBS_ENV in f.env)
      && (r2.Err? ==> r2.error == NoneValue(LIBS))
  {
    var r2 := Then(r1, LibxcEdits(f, libxc));
    if r2.Err? {
      ThenErrorKey(r1, LibxcEdits(f, libxc));
    }
    if Loaded(f, Libxc) && LIBS_ENV !in f.env {
      ExtendNoneCrashes(r1.value, LibxcEdits(f, libxc).value, LIBS);
    } else {
      ThenSafe(r1, LibxcEdits(f, libxc));
    }
  }

  /** `configure_common` fails exactly when the MPI-2 check or one of the
      steps in `CommonError` fails, and with that step's error. */
  lemma ConfigureErrors(f: Facts, s: Settings, libxc: Result<string, ConfigError>)
    requires Mpi2Available(f)
    ensures Configure(f, s, libxc).Ok? <==> CommonError(f, libxc).None?
    ensures Configure(f, s, libxc).Err? ==> Configure(f, s, libxc).error == CommonError(f, libxc).value
  {
    if LibIntEdits(f).Ok? {
      var r0 := Ok(BaseOptions(f, s));
      var r1 := Then(r0, LibIntEdits(f));
      BaseEntries(f, s);
      LibIntStep(f, r0);
      if r1.Ok? && LibxcEdits(f, libxc).Ok? {
        LibxcStep(f, r1, libxc);
      }
    }
  }
}
