/**
 The library stage of `configure_step`: exactly one BLAS provider
 (`configure_MKL`, `configure_ACML` or `configure_BLAS_lib`, the first whose
 module is loaded), then `configure_FFTW`, `configure_LAPACK` and
 `configure_ScaLAPACK` for each of those modules that is loaded.
 */
module Providers {
  import opened Wrappers
  import opened Strings
  import opened BuildFacts
  import opened Options
  import opened Common
  import opened Families

  /** The library that supplies BLAS (lines 173-179). */
  datatype BlasProvider = Mkl | Acml | PlainBlas

  /** The first of IMKL and ACML whose module is loaded, else the toolchain's BLAS. */
  function ChooseProvider(f: Facts): (p: BlasProvider)
    ensures p == Mkl <==> Loaded(f, IMKL)
    ensures p == Acml <==> !Loaded(f, IMKL) && Loaded(f, ACML)
  {
    if Loaded(f, IMKL) then Mkl
    else if Loaded(f, ACML) then Acml
    else PlainBlas
  }

  // ---------------------------------------------------------------- MKL

  /** Lines 505-516: the part of `configure_MKL` that always runs. */
  function MklEdits(f: Facts, s: Settings): (r: seq<Edit>)
    ensures Created(r) == {INTEL_INC}
    ensures Extended(r) == {DFLAGS, CFLAGS, LIBS}
    ensures Touched(r) == {INTEL_INC, DFLAGS, CFLAGS, LIBS} && LIBS in Touched(r)
    ensures OnlyExtends(r, DFLAGS) && OnlyExtends(r, CFLAGS) && OnlyExtends(r, LIBS)
    ensures Suffixes(r, DFLAGS) == " -D__FFTW3"
    ensures Suffixes(r, CFLAGS) == " -I$(INTEL_INC) " + ModIncFlag(f) + " $(FPIC) $(DEBUG)"
    ensures Suffixes(r, LIBS) == MklLinked(f, s)
  {
    var e1 := Assign(INTEL_INC, "$(MKLROOT)/include");
    var e2 := Extend(DFLAGS, " -D__FFTW3");
    var e3 := Extend(CFLAGS, " -I$(INTEL_INC) " + ModIncFlag(f) + " $(FPIC) $(DEBUG)");
    var e4 := Extend(LIBS, MklLinked(f, s));
    Keys4(e1, e2, e3, e4);
    TextAt4(e1, e2, e3, e4, DFLAGS);
    TextAt4(e1, e2, e3, e4, CFLAGS);
    TextAt4(e1, e2, e3, e4, LIBS);
    [e1, e2, e3, e4]
  }

  /** Lines 518-527: MKL's own FFTW interface, used only without an FFTW module. */
  function MklWrapperEdits(): (r: seq<Edit>)
    ensures Created(r) == {INTEL_INCF}
    ensures Extended(r) == {DFLAGS, CFLAGS}
    ensures Touched(r) == {INTEL_INCF, DFLAGS, CFLAGS} && LIBS !in Touched(r)
    ensures OnlyExtends(r, DFLAGS) && OnlyExtends(r, CFLAGS)
    ensures Suffixes(r, DFLAGS) == " -D__FFTMKL"
    ensures Suffixes(r, CFLAGS) == " -I$(INTEL_INCF)"
  {
    var e1 := Assign(INTEL_INCF, "$(INTEL_INC)/fftw");
    var e2 := Extend(DFLAGS, " -D__FFTMKL");
    var e3 := Extend(CFLAGS, " -I$(INTEL_INCF)");
    Keys3(e1, e2, e3);
    TextAt3(e1, e2, e3, DFLAGS);
    TextAt3(e1, e2, e3, CFLAGS);
    [e1, e2, e3]
  }

  /** Lines 502-531: `configure_MKL`. Without an FFTW module MKL's own FFT
      interface is added and the FFT libraries go in front of everything
      linked so far. */
  function MklStage(f: Facts, s: Settings, r: Result<Options, ConfigError>): Result<Options, ConfigError> {
    var core := Then(r, Ok(MklEdits(f, s)));
    if Loaded(f, FFTW) then core
    else Then(Then(core, Ok(MklWrapperEdits())), Ok([Prepend(LIBS, EnvText(f, LIBFFT) + " ")]))
  }

  /** What `configure_MKL` appends to DFLAGS: the FFTW3 interface, and MKL's
      own FFT define when no FFTW module is loaded. */
  function MklDefines(f: Facts): string {
    if Loaded(f, FFTW) then " -D__FFTW3" else " -D__FFTW3" + " -D__FFTMKL"
  }

  /** What `configure_MKL` appends to CFLAGS. */
  function MklIncludes(f: Facts): string {
    var core := " -I$(INTEL_INC) " + ModIncFlag(f) + " $(FPIC) $(DEBUG)";
    if Loaded(f, FFTW) then core else core + " -I$(INTEL_INCF)"
  }

  /** What `configure_MKL` appends to LIBS: libsmm and ScaLAPACK. */
  function MklLinked(f: Facts, s: Settings): string {
    " " + s.libsmm + " " + EnvText(f, LIBSCALAPACK)
  }

  /** LIBS after `configure_MKL`, from LIBS before it: libsmm and ScaLAPACK
      are appended, and without an FFTW module the FFT libraries go in front. */
  function MklLibs(f: Facts, s: Settings, libs: string): string {
    if Loaded(f, FFTW) then libs + MklLinked(f, s)
    else EnvText(f, LIBFFT) + " " + (libs + MklLinked(f, s))
  }

  /** The keys `configure_MKL` adds. */
  function MklCreated(f: Facts): set<Key> {
    if Loaded(f, FFTW) then {INTEL_INC} else {INTEL_INC, INTEL_INCF}
  }

  /** Every key a BLAS provider may write. */
  const PROVIDER_TOUCHED: set<Key> := {INTEL_INC, INTEL_INCF, ACML_INC, DFLAGS, CFLAGS, LIBS}

  // Two fragments and then text put in front of LIBS: the shape of
  // `configure_MKL` without an FFTW module, for any two fragments.

  lemma WrapHas(r: Result<Options, ConfigError>, a: seq<Edit>, b: seq<Edit>, p: string, k: Key)
    requires Then(Then(Then(r, Ok(a)), Ok(b)), Ok([Prepend(LIBS, p)])).Ok?
    ensures r.Ok?
    ensures k in Then(Then(Then(r, Ok(a)), Ok(b)), Ok([Prepend(LIBS, p)])).value
        <==> k in r.value || k in Created(a) || k in Created(b) || k == LIBS
  {
    ThenPrependAfter(Then(r, Ok(a)), b, LIBS, p, k);
    ThenKeys(r, Ok(a));
  }

  lemma WrapExtends(r: Result<Options, ConfigError>, a: seq<Edit>, b: seq<Edit>, p: string, k: Key)
    requires Then(Then(Then(r, Ok(a)), Ok(b)), Ok([Prepend(LIBS, p)])).Ok?
    requires k != LIBS && OnlyExtends(a, k) && OnlyExtends(b, k)
    ensures r.Ok?
    ensures k in r.value ==>
      Lookup(Then(Then(Then(r, Ok(a)), Ok(b)), Ok([Prepend(LIBS, p)])).value, k) == Some(r.value[k] + (Suffixes(a, k) + Suffixes(b, k)))
  {
    ThenPrependAfter(Then(r, Ok(a)), b, LIBS, p, k);
    ThenEffect(r, Ok(a), k);
    if k in r.value {
      Assoc(r.value[k], Suffixes(a, k), Suffixes(b, k));
    }
  }

  /** The first fragment extends LIBS, the second leaves it alone. */
  predicate LinksFirst(a: seq<Edit>, b: seq<Edit>) {
    LIBS in Touched(a) && OnlyExtends(a, LIBS) && LIBS !in Touched(b)
  }

  lemma MklLinksFirst(f: Facts, s: Settings)
    ensures LinksFirst(MklEdits(f, s), MklWrapperEdits())
  {
  }

  lemma WrapLibs(r: Result<Options, ConfigError>, a: seq<Edit>, b: seq<Edit>, p: string)
    requires Then(Then(Then(r, Ok(a)), Ok(b)), Ok([Prepend(LIBS, p)])).Ok?
    requires LinksFirst(a, b)
    ensures r.Ok? && LIBS in r.value
    ensures Lookup(Then(Then(Then(r, Ok(a)), Ok(b)), Ok([Prepend(LIBS, p)])).value, LIBS)
        == Some(p + (r.value[LIBS] + Suffixes(a, LIBS)))
  {
    ThenPrependAfter(Then(r, Ok(a)), b, LIBS, p, LIBS);
    ThenNeeds(r, Ok(a), LIBS);
    ThenEffect(r, Ok(a), LIBS);
  }

  lemma WrapFrame(r: Result<Options, ConfigError>, a: seq<Edit>, b: seq<Edit>, p: string, k: Key)
    requires Then(Then(Then(r, Ok(a)), Ok(b)), Ok([Prepend(LIBS, p)])).Ok?
    requires k != LIBS && k !in Touched(a) && k !in Touched(b)
    ensures r.Ok? && Lookup(Then(Then(Then(r, Ok(a)), Ok(b)), Ok([Prepend(LIBS, p)])).value, k) == Lookup(r.value, k)
  {
    ThenPrependAfter(Then(r, Ok(a)), b, LIBS, p, k);
    ThenKeeps(r, Ok(a), k);
  }

  /** With an FFTW module `configure_MKL` is its core fragment alone. */
  lemma MklDirect(f: Facts, s: Settings, r: Result<Options, ConfigError>)
    requires Loaded(f, FFTW)
    ensures MklStage(f, s, r) == Then(r, Ok(MklEdits(f, s)))
  {
  }

  /** `configure_MKL` needs LIBS. */
  lemma MklNeedsLibs(f: Facts, s: Settings, r: Result<Options, ConfigError>)
    requires MklStage(f, s, r).Ok?
    ensures r.Ok? && LIBS in r.value
  {
    var a := MklEdits(f, s);
    if Loaded(f, FFTW) {
      ThenNeeds(r, Ok(a), LIBS);
    } else {
      MklLinksFirst(f, s);
      WrapLibs(r, a, MklWrapperEdits(), EnvText(f, LIBFFT) + " ");
    }
  }

  /** `configure_MKL` adds INTEL_INC, and INTEL_INCF exactly when no FFTW
      module is loaded. */
  lemma MklHas(f: Facts, s: Settings, r: Result<Options, ConfigError>, k: Key)
    requires MklStage(f, s, r).Ok?
    ensures r.Ok?
    ensures k in MklStage(f, s, r).value <==> k in r.value || k in MklCreated(f)
  {
    var a := MklEdits(f, s);
    if Loaded(f, FFTW) {
      ThenKeys(r, Ok(a));
    } else {
      WrapHas(r, a, MklWrapperEdits(), EnvText(f, LIBFFT) + " ", k);
      MklLinksFirst(f, s);
      WrapLibs(r, a, MklWrapperEdits(), EnvText(f, LIBFFT) + " ");
    }
  }

  lemma MklDflags(f: Facts, s: Settings, r: Result<Options, ConfigError>)
    requires MklStage(f, s, r).Ok?
    ensures r.Ok?
    ensures DFLAGS in r.value ==> Lookup(MklStage(f, s, r).value, DFLAGS) == Some(r.value[DFLAGS] + MklDefines(f))
  {
    var a := MklEdits(f, s);
    if Loaded(f, FFTW) {
      MklDirect(f, s, r);
      ThenEffect(r, Ok(a), DFLAGS);
    } else {
      WrapExtends(r, a, MklWrapperEdits(), EnvText(f, LIBFFT) + " ", DFLAGS);
    }
  }

  lemma MklCflags(f: Facts, s: Settings, r: Result<Options, ConfigError>)
    requires MklStage(f, s, r).Ok?
    ensures r.Ok?
    ensures CFLAGS in r.value ==> Lookup(MklStage(f, s, r).value, CFLAGS) == Some(r.value[CFLAGS] + MklIncludes(f))
  {
    var a := MklEdits(f, s);
    if Loaded(f, FFTW) {
      MklDirect(f, s, r);
      ThenEffect(r, Ok(a), CFLAGS);
    } else {
      WrapExtends(r, a, MklWrapperEdits(), EnvText(f, LIBFFT) + " ", CFLAGS);
    }
  }

  lemma MklLinksDirect(f: Facts, s: Settings, r: Result<Options, ConfigError>)
    requires Loaded(f, FFTW) && MklStage(f, s, r).Ok?
    ensures r.Ok? && LIBS in r.value
    ensures Lookup(MklStage(f, s, r).value, LIBS) == Some(MklLibs(f, s, r.value[LIBS]))
  {
    MklDirect(f, s, r);
    MklLinksFirst(f, s);
    ThenGrows(r, MklEdits(f, s), LIBS);
  }

  lemma MklLinksWrapped(f: Facts, s: Settings, r: Result<Options, ConfigError>)
    requires !Loaded(f, FFTW) && MklStage(f, s, r).Ok?
    ensures r.Ok? && LIBS in r.value
    ensures Lookup(MklStage(f, s, r).value, LIBS) == Some(MklLibs(f, s, r.value[LIBS]))
  {
    MklLinksFirst(f, s);
    WrapLibs(r, MklEdits(f, s), MklWrapperEdits(), EnvText(f, LIBFFT) + " ");
  }

  /** `configure_MKL` needs LIBS, appends libsmm and ScaLAPACK to it, and
      without an FFTW module puts the FFT libraries in front. */
  lemma MklLinks(f: Facts, s: Settings, r: Result<Options, ConfigError>)
    requires MklStage(f, s, r).Ok?
    ensures r.Ok? && LIBS in r.value
    ensures Lookup(MklStage(f, s, r).value, LIBS) == Some(MklLibs(f, s, r.value[LIBS]))
  {
    if Loaded(f, FFTW) {
      MklLinksDirect(f, s, r);
    } else {
      MklLinksWrapped(f, s, r);
    }
  }

  lemma MklFrame(f: Facts, s: Settings, r: Result<Options, ConfigError>, k: Key)
    requires MklStage(f, s, r).Ok? && k !in PROVIDER_TOUCHED
    ensures r.Ok? && Lookup(MklStage(f, s, r).value, k) == Lookup(r.value, k)
  {
    var a := MklEdits(f, s);
    if Loaded(f, FFTW) {
      ThenKeeps(r, Ok(a), k);
    } else {
      WrapFrame(r, a, MklWrapperEdits(), EnvText(f, LIBFFT) + " ", k);
    }
  }

  // ---------------------------------------------------------------- ACML

  /** Lines 481-483: the OpenMP build of ACML lives in `gfortran64_mp`. */
  function AcmlSuffix(s: Settings): string {
    if s.openmp != "" then "_mp" else ""
  }

  /** Lines 485-487: the include path, includes and FFT define. */
  function AcmlEdits(f: Facts, s: Settings): (r: seq<Edit>)
    ensures Created(r) == {ACML_INC}
    ensures Extended(r) == {CFLAGS, DFLAGS}
    ensures Touched(r) == {ACML_INC, CFLAGS, DFLAGS} && LIBS !in Touched(r)
    ensures OnlyExtends(r, DFLAGS) && OnlyExtends(r, CFLAGS)
    ensures Suffixes(r, DFLAGS) == " -D__FFTACML"
    ensures Suffixes(r, CFLAGS) == " -I$(ACML_INC) -I$(FFTW_INC)"
  {
    var e1 := Assign(ACML_INC, Root(f, ACML) + "/gfortran64" + AcmlSuffix(s) + "/include");
    var e2 := Extend(CFLAGS, " -I$(ACML_INC) -I$(FFTW_INC)");
    var e3 := Extend(DFLAGS, " -D__FFTACML");
    Keys3(e1, e2, e3);
    TextAt3(e1, e2, e3, DFLAGS);
    TextAt3(e1, e2, e3, CFLAGS);
    [e1, e2, e3]
  }

  /** Lines 489-490: the BLAS libraries of LIBBLAS, moved to the OpenMP
      build's directory when there is one. */
  function AcmlBlas(f: Facts, s: Settings): string {
    ReplaceAll(EnvText(f, LIBBLAS), "gfortran64", "gfortran64" + AcmlSuffix(s))
  }

  /** Without OpenMP, ACML links LIBBLAS as the environment gives it. */
  lemma AcmlBlasSerial(f: Facts, s: Settings)
    requires s.openmp == ""
    ensures AcmlBlas(f, s) == EnvText(f, LIBBLAS)
  {
    assert "gfortran64" + AcmlSuffix(s) == "gfortran64";
    ReplaceSame(EnvText(f, LIBBLAS), "gfortran64");
  }

  /** What `configure_ACML` appends to LIBS. */
  function AcmlLinked(f: Facts, s: Settings): string {
    " " + s.libsmm + " " + EnvText(f, LIBSCALAPACK) + " " + AcmlBlas(f, s)
  }

  /** Lines 489-491: `os.getenv('LIBBLAS').replace(...)` crashes when
      LIBBLAS is unset, before LIBS is touched. */
  function AcmlLinks(f: Facts, s: Settings): (r: Result<seq<Edit>, ConfigError>)
    ensures r.Err? <==> LIBBLAS !in f.env
    ensures r.Err? ==> r.error == EnvUnset(LIBBLAS)
  {
    if LIBBLAS !in f.env then Err(EnvUnset(LIBBLAS))
    else Ok(Appends(LIBS, AcmlLinked(f, s)))
  }

  /** Lines 478-493: `configure_ACML`. */
  function AcmlStage(f: Facts, s: Settings, r: Result<Options, ConfigError>): Result<Options, ConfigError> {
    Then(Then(r, Ok(AcmlEdits(f, s))), AcmlLinks(f, s))
  }

  /** A successful `configure_ACML` had LIBBLAS and appended to LIBS last. */
  lemma AcmlSplit(f: Facts, s: Settings, r: Result<Options, ConfigError>)
    requires AcmlStage(f, s, r).Ok?
    ensures LIBBLAS in f.env
    ensures AcmlStage(f, s, r) == Then(Then(r, Ok(AcmlEdits(f, s))), Ok(Appends(LIBS, AcmlLinked(f, s))))
  {
  }

  // ---------------------------------------------------------------- BLAS

  /** What `configure_BLAS_lib` appends to LIBS. */
  function BlasLinked(f: Facts, s: Settings): string {
    " " + s.libsmm + " " + EnvText(f, LIBBLAS)
  }

  /** Lines 495-500: `configure_BLAS_lib`. */
  function BlasStage(f: Facts, s: Settings, r: Result<Options, ConfigError>): Result<Options, ConfigError> {
    Then(r, Ok(Appends(LIBS, BlasLinked(f, s))))
  }

  // ------------------------------------------------------------ dispatch

  /** Lines 173-179: the one BLAS provider's configuration. */
  function ProviderStage(f: Facts, s: Settings, r: Result<Options, ConfigError>): Result<Options, ConfigError> {
    match ChooseProvider(f)
    case Mkl => MklStage(f, s, r)
    case Acml => AcmlStage(f, s, r)
    case PlainBlas => BlasStage(f, s, r)
  }

  /** The keys the chosen provider adds. */
  function ProviderCreated(f: Facts): set<Key> {
    match ChooseProvider(f)
    case Mkl => MklCreated(f)
    case Acml => {ACML_INC}
    case PlainBlas => {}
  }

  /** What the chosen provider appends to DFLAGS. */
  function ProviderDefines(f: Facts): string {
    match ChooseProvider(f)
    case Mkl => MklDefines(f)
    case Acml => " -D__FFTACML"
    case PlainBlas => ""
  }

  /** What the chosen provider appends to CFLAGS. */
  function ProviderIncludes(f: Facts): string {
    match ChooseProvider(f)
    case Mkl => MklIncludes(f)
    case Acml => " -I$(ACML_INC) -I$(FFTW_INC)"
    case PlainBlas => ""
  }

  /** LIBS after the chosen provider, from LIBS before it. */
  function ProviderLibs(f: Facts, s: Settings, libs: string): string {
    match ChooseProvider(f)
    case Mkl => MklLibs(f, s, libs)
    case Acml => libs + AcmlLinked(f, s)
    case PlainBlas => libs + BlasLinked(f, s)
  }

  /** Exactly one provider runs, and it adds exactly its own keys. */
  lemma ProviderHas(f: Facts, s: Settings, r: Result<Options, ConfigError>, k: Key)
    requires ProviderStage(f, s, r).Ok?
    ensures r.Ok?
    ensures k in ProviderStage(f, s, r).value <==> k in r.value || k in ProviderCreated(f)
  {
    match ChooseProvider(f)
    case Mkl =>
      MklHas(f, s, r, k);
    case Acml =>
      AcmlSplit(f, s, r);
      ThenAppendsAfter(r, AcmlEdits(f, s), LIBS, AcmlLinked(f, s), k);
    case PlainBlas =>
      ThenAppends(r, LIBS, BlasLinked(f, s), k);
  }

  /** Every provider needs LIBS and appends its libraries to it. */
  lemma ProviderLinks(f: Facts, s: Settings, r: Result<Options, ConfigError>)
    requires ProviderStage(f, s, r).Ok?
    ensures r.Ok? && LIBS in r.value
    ensures Lookup(ProviderStage(f, s, r).value, LIBS) == Some(ProviderLibs(f, s, r.value[LIBS]))
  {
    match ChooseProvider(f)
    case Mkl =>
      MklLinks(f, s, r);
    case Acml =>
      AcmlSplit(f, s, r);
      ThenAppendsAfter(r, AcmlEdits(f, s), LIBS, AcmlLinked(f, s), LIBS);
    case PlainBlas =>
      ThenAppends(r, LIBS, BlasLinked(f, s), LIBS);
  }

  lemma ProviderDflags(f: Facts, s: Settings, r: Result<Options, ConfigError>)
    requires ProviderStage(f, s, r).Ok?
    ensures r.Ok?
    ensures DFLAGS in r.value ==> Lookup(ProviderStage(f, s, r).value, DFLAGS) == Some(r.value[DFLAGS] + ProviderDefines(f))
  {
    match ChooseProvider(f)
    case Mkl =>
      MklDflags(f, s, r);
    case Acml =>
      AcmlSplit(f, s, r);
      ThenAppendsAfter(r, AcmlEdits(f, s), LIBS, AcmlLinked(f, s), DFLAGS);
    case PlainBlas =>
      ThenAppends(r, LIBS, BlasLinked(f, s), DFLAGS);
      if DFLAGS in r.value {
        assert r.value[DFLAGS] + "" == r.value[DFLAGS];
      }
  }

  lemma ProviderCflags(f: Facts, s: Settings, r: Result<Options, ConfigError>)
    requires ProviderStage(f, s, r).Ok?
    ensures r.Ok?
    ensures CFLAGS in r.value ==> Lookup(ProviderStage(f, s, r).value, CFLAGS) == Some(r.value[CFLAGS] + ProviderIncludes(f))
  {
    match ChooseProvider(f)
    case Mkl =>
      MklCflags(f, s, r);
    case Acml =>
      AcmlSplit(f, s, r);
      ThenAppendsAfter(r, AcmlEdits(f, s), LIBS, AcmlLinked(f, s), CFLAGS);
    case PlainBlas =>
      ThenAppends(r, LIBS, BlasLinked(f, s), CFLAGS);
      if CFLAGS in r.value {
        assert r.value[CFLAGS] + "" == r.value[CFLAGS];
      }
  }

  /** No provider writes a key outside PROVIDER_TOUCHED. */
  lemma ProviderFrame(f: Facts, s: Settings, r: Result<Options, ConfigError>, k: Key)
    requires ProviderStage(f, s, r).Ok? && k !in PROVIDER_TOUCHED
    ensures r.Ok? && Lookup(ProviderStage(f, s, r).value, k) == Lookup(r.value, k)
  {
    match ChooseProvider(f)
    case Mkl =>
      MklFrame(f, s, r, k);
    case Acml =>
      AcmlSplit(f, s, r);
      ThenAppendsAfter(r, AcmlEdits(f, s), LIBS, AcmlLinked(f, s), k);
    case PlainBlas =>
      ThenAppends(r, LIBS, BlasLinked(f, s), k);
  }

  /** The dictionary so far holds DFLAGS and CFLAGS, as every compiler
      family's configuration leaves it. */
  predicate HasFlags(r: Result<Options, ConfigError>) {
    r.Ok? && DFLAGS in r.value && CFLAGS in r.value
  }

  /** `configure_MKL` cannot fail once DFLAGS, CFLAGS and LIBS hold values. */
  lemma MklSafe(f: Facts, s: Settings, r: Result<Options, ConfigError>)
    requires HasFlags(r) && LIBS in r.value
    ensures MklStage(f, s, r).Ok?
  {
    var a := MklEdits(f, s);
    var core := Then(r, Ok(a));
    ThenSafe(r, Ok(a));
    if !Loaded(f, FFTW) {
      ThenKeys(r, Ok(a));
      ThenSafe(core, Ok(MklWrapperEdits()));
      ThenPrepend(Then(core, Ok(MklWrapperEdits())), LIBS, EnvText(f, LIBFFT) + " ", LIBS);
    }
  }

  /** Without LIBS, the first `+=` on LIBS in `configure_MKL` crashes. */
  lemma MklCrash(f: Facts, s: Settings, r: Result<Options, ConfigError>)
    requires HasFlags(r) && LIBS !in r.value
    ensures MklStage(f, s, r) == Err(NoneValue(LIBS))
  {
    var a := MklEdits(f, s);
    var core := Then(r, Ok(a));
    if core.Ok? {
      MklLinksFirst(f, s);
      ThenNeeds(r, Ok(a), LIBS);
      assert false;
    }
    ThenErrorKey(r, Ok(a));
    assert core == Err(NoneValue(LIBS));
  }

  /** With DFLAGS and CFLAGS in place, `configure_MKL` fails exactly when
      LIBS is `None`, at its first `+=` on LIBS. */
  lemma MklOutcome(f: Facts, s: Settings, r: Result<Options, ConfigError>)
    requires HasFlags(r)
    ensures MklStage(f, s, r).Ok? <==> LIBS in r.value
    ensures MklStage(f, s, r).Err? ==> MklStage(f, s, r).error == NoneValue(LIBS)
  {
    if LIBS in r.value {
      MklSafe(f, s, r);
    } else {
      MklCrash(f, s, r);
    }
  }

  /** With DFLAGS and CFLAGS in place, `configure_ACML` fails on an unset
      LIBBLAS first, and otherwise exactly when LIBS is `None`. */
  lemma AcmlOutcome(f: Facts, s: Settings, r: Result<Options, ConfigError>)
    requires HasFlags(r)
    ensures AcmlStage(f, s, r).Ok? <==> LIBBLAS in f.env && LIBS in r.value
    ensures AcmlStage(f, s, r).Err? ==>
      AcmlStage(f, s, r).error == (if LIBBLAS !in f.env then EnvUnset(LIBBLAS) else NoneValue(LIBS))
  {
    var a := AcmlEdits(f, s);
    var mid := Then(r, Ok(a));
    ThenSafe(r, Ok(a));
    ThenEffect(r, Ok(a), LIBS);
    if LIBBLAS in f.env {
      var b := Ok(Appends(LIBS, AcmlLinked(f, s)));
      assert AcmlStage(f, s, r) == Then(mid, b);
      if LIBS in r.value {
        ThenSafe(mid, b);
      } else if Then(mid, b).Err? {
        ThenErrorKey(mid, b);
      }
    }
  }

  /** `configure_BLAS_lib` fails exactly when LIBS is `None`. */
  lemma BlasOutcome(f: Facts, s: Settings, r: Result<Options, ConfigError>)
    requires r.Ok?
    ensures BlasStage(f, s, r).Ok? <==> LIBS in r.value
    ensures BlasStage(f, s, r).Err? ==> BlasStage(f, s, r).error == NoneValue(LIBS)
  {
    var b := Ok(Appends(LIBS, BlasLinked(f, s)));
    if LIBS in r.value {
      ThenSafe(r, b);
    } else if Then(r, b).Err? {
      ThenErrorKey(r, b);
    }
  }

  /** With DFLAGS and CFLAGS in place, the provider stage fails exactly when
      ACML finds no LIBBLAS or LIBS is `None`, and names that cause. */
  lemma ProviderOutcome(f: Facts, s: Settings, r: Result<Options, ConfigError>)
    requires HasFlags(r)
    ensures ProviderStage(f, s, r).Ok? <==>
      LIBS in r.value && (ChooseProvider(f) == Acml ==> LIBBLAS in f.env)
    ensures ProviderStage(f, s, r).Err? ==>
      ProviderStage(f, s, r).error == (if ChooseProvider(f) == Acml && LIBBLAS !in f.env then EnvUnset(LIBBLAS) else NoneValue(LIBS))
  {
    match ChooseProvider(f)
    case Mkl => MklOutcome(f, s, r);
    case Acml => AcmlOutcome(f, s, r);
    case PlainBlas => BlasOutcome(f, s, r);
  }
}
