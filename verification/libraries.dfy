/**
 The rest of the library stage of `configure_step`: after the BLAS
 provider, `configure_FFTW`, `configure_LAPACK` and `configure_ScaLAPACK`
 run for each of those modules that is loaded, in that order.
 */
module Libraries {
  import opened Wrappers
  import opened Strings
  import opened BuildFacts
  import opened Options
  import opened Common
  import opened Providers

  // ---------------------------------------------------------------- FFTW

  /** The keys `configure_FFTW` adds. */
  const FFTW_CREATED: set<Key> := {FFTW_INC, FFTW3INC, FFTW3LIB}

  /** Lines 538-544: include and library paths for both compiler families,
      and the FFTW3 define. */
  function FftwEdits(f: Facts): (r: seq<Edit>)
    ensures Created(r) == FFTW_CREATED && Extended(r) == {DFLAGS}
    ensures Touched(r) == {FFTW_INC, FFTW3INC, FFTW3LIB, DFLAGS} && LIBS !in Touched(r)
    ensures OnlyExtends(r, DFLAGS) && Suffixes(r, DFLAGS) == " -D__FFTW3"
  {
    var root := Root(f, FFTW);
    var e1 := Assign(FFTW_INC, root + "/include");
    var e2 := Assign(FFTW3INC, root + "/include");
    var e3 := Assign(FFTW3LIB, root + "/lib");
    var e4 := Extend(DFLAGS, " -D__FFTW3");
    Keys4(e1, e2, e3, e4);
    TextAt4(e1, e2, e3, e4, DFLAGS);
    [e1, e2, e3, e4]
  }

  /** Line 546: the FFTW3 library under the module's `lib` directory.
      EBROOTFFTW is the FFTW module's root. */
  function FftwLinked(f: Facts): string {
    " -L" + PathJoin(Root(f, FFTW), "lib") + " -lfftw3"
  }

  /** Lines 533-548, applied at lines 181-182 when an FFTW module is loaded. */
  function FftwStage(f: Facts, r: Result<Options, ConfigError>): Result<Options, ConfigError> {
    if Loaded(f, FFTW) then Then(Then(r, Ok(FftwEdits(f))), Ok(Appends(LIBS, FftwLinked(f))))
    else r
  }

  /** What the FFTW stage appends to DFLAGS and to LIBS. */
  function FftwDefines(f: Facts): string {
    if Loaded(f, FFTW) then " -D__FFTW3" else ""
  }

  function FftwLibs(f: Facts): string {
    if Loaded(f, FFTW) then FftwLinked(f) else ""
  }

  /** The FFTW stage adds its three paths, extends DFLAGS and LIBS, and
      needs LIBS when it runs. */
  lemma FftwEffect(f: Facts, r: Result<Options, ConfigError>, k: Key)
    requires FftwStage(f, r).Ok?
    ensures r.Ok? && (Loaded(f, FFTW) ==> LIBS in r.value)
    ensures k in FftwStage(f, r).value <==> k in r.value || (Loaded(f, FFTW) && k in FFTW_CREATED)
    ensures LIBS in r.value ==> Lookup(FftwStage(f, r).value, LIBS) == Some(r.value[LIBS] + FftwLibs(f))
    ensures DFLAGS in r.value ==> Lookup(FftwStage(f, r).value, DFLAGS) == Some(r.value[DFLAGS] + FftwDefines(f))
    ensures k !in FFTW_CREATED && k != DFLAGS && k != LIBS ==> Lookup(FftwStage(f, r).value, k) == Lookup(r.value, k)
  {
    if Loaded(f, FFTW) {
      ThenAppendsAfter(r, FftwEdits(f), LIBS, FftwLinked(f), k);
      ThenAppendsAfter(r, FftwEdits(f), LIBS, FftwLinked(f), DFLAGS);
    } else {
      if LIBS in r.value {
        assert r.value[LIBS] + "" == r.value[LIBS];
      }
      if DFLAGS in r.value {
        assert r.value[DFLAGS] + "" == r.value[DFLAGS];
      }
    }
  }

  /** The FFTW stage cannot fail once DFLAGS and LIBS hold values. */
  lemma FftwSafe(f: Facts, r: Result<Options, ConfigError>)
    requires r.Ok? && DFLAGS in r.value && LIBS in r.value
    ensures FftwStage(f, r).Ok?
  {
    if Loaded(f, FFTW) {
      var mid := Then(r, Ok(FftwEdits(f)));
      ThenSafe(r, Ok(FftwEdits(f)));
      ThenEffect(r, Ok(FftwEdits(f)), LIBS);
      ThenSafe(mid, Ok(Appends(LIBS, FftwLinked(f))));
    }
  }

  // ------------------------------------------------------ LAPACK, ScaLAPACK

  /** Lines 550-555 and 557-562, applied at lines 184-188 for each loaded
      module: LAPACK's and ScaLAPACK's libraries are appended to LIBS. */
  function TailStage(f: Facts, r: Result<Options, ConfigError>): Result<Options, ConfigError> {
    var lapack := if Loaded(f, LAPACK) then Then(r, Ok(Appends(LIBS, " " + EnvText(f, LIBLAPACK_MT)))) else r;
    if Loaded(f, ScaLAPACK) then Then(lapack, Ok(Appends(LIBS, " " + EnvText(f, LIBSCALAPACK)))) else lapack
  }

  /** What the two stages append to LIBS. */
  function TailLibs(f: Facts): string {
    (if Loaded(f, LAPACK) then " " + EnvText(f, LIBLAPACK_MT) else "")
    + (if Loaded(f, ScaLAPACK) then " " + EnvText(f, LIBSCALAPACK) else "")
  }

  /** LAPACK and ScaLAPACK touch LIBS alone, and need it when either runs. */
  lemma TailEffect(f: Facts, r: Result<Options, ConfigError>, k: Key)
    requires TailStage(f, r).Ok?
    ensures r.Ok? && (Loaded(f, LAPACK) || Loaded(f, ScaLAPACK) ==> LIBS in r.value)
    ensures k in TailStage(f, r).value <==> k in r.value
    ensures LIBS in r.value ==> Lookup(TailStage(f, r).value, LIBS) == Some(r.value[LIBS] + TailLibs(f))
    ensures k != LIBS ==> Lookup(TailStage(f, r).value, k) == Lookup(r.value, k)
  {
    var a := " " + EnvText(f, LIBLAPACK_MT);
    var b := " " + EnvText(f, LIBSCALAPACK);
    var lapack := if Loaded(f, LAPACK) then Then(r, Ok(Appends(LIBS, a))) else r;
    if Loaded(f, ScaLAPACK) {
      ThenAppends(lapack, LIBS, b, k);
    }
    if Loaded(f, LAPACK) {
      ThenAppends(r, LIBS, a, k);
    }
    if LIBS in r.value {
      var v := r.value[LIBS];
      var x := if Loaded(f, LAPACK) then a else "";
      var y := if Loaded(f, ScaLAPACK) then b else "";
      assert Lookup(lapack.value, LIBS) == Some(v + x) by {
        if !Loaded(f, LAPACK) {
          assert v + "" == v;
        }
      }
      Assoc(v, x, y);
      assert v + x + "" == v + x;
    }
  }

  /** LAPACK and ScaLAPACK cannot fail once LIBS holds a value. */
  lemma TailSafe(f: Facts, r: Result<Options, ConfigError>)
    requires r.Ok? && LIBS in r.value
    ensures TailStage(f, r).Ok?
  {
    var a := " " + EnvText(f, LIBLAPACK_MT);
    var b := " " + EnvText(f, LIBSCALAPACK);
    var lapack := if Loaded(f, LAPACK) then Then(r, Ok(Appends(LIBS, a))) else r;
    if Loaded(f, LAPACK) {
      ThenSafe(r, Ok(Appends(LIBS, a)));
      ThenAppends(r, LIBS, a, LIBS);
    }
    if Loaded(f, ScaLAPACK) {
      ThenSafe(lapack, Ok(Appends(LIBS, b)));
    }
  }

  // ---------------------------------------------------------------- whole

  /** Lines 173-188: the provider, then FFTW, LAPACK and ScaLAPACK. */
  function LibraryStage(f: Facts, s: Settings, r: Result<Options, ConfigError>): Result<Options, ConfigError> {
    TailStage(f, FftwStage(f, ProviderStage(f, s, r)))
  }

  /** Every key the library stage may write. */
  const LIBRARY_TOUCHED: set<Key> := PROVIDER_TOUCHED + FFTW_CREATED

  /** The library stage adds the provider's keys and, with an FFTW module,
      the FFTW paths. */
  lemma LibraryHas(f: Facts, s: Settings, r: Result<Options, ConfigError>, k: Key)
    requires LibraryStage(f, s, r).Ok?
    ensures r.Ok?
    ensures k in LibraryStage(f, s, r).value <==>
      k in r.value || k in ProviderCreated(f) || (Loaded(f, FFTW) && k in FFTW_CREATED)
  {
    var p := ProviderStage(f, s, r);
    TailEffect(f, FftwStage(f, p), k);
    FftwEffect(f, p, k);
    ProviderHas(f, s, r, k);
  }

  /** DFLAGS gains the provider's defines and then FFTW's. */
  lemma LibraryDflags(f: Facts, s: Settings, r: Result<Options, ConfigError>)
    requires LibraryStage(f, s, r).Ok?
    ensures r.Ok?
    ensures DFLAGS in r.value ==>
      Lookup(LibraryStage(f, s, r).value, DFLAGS) == Some(r.value[DFLAGS] + ProviderDefines(f) + FftwDefines(f))
  {
    var p := ProviderStage(f, s, r);
    TailEffect(f, FftwStage(f, p), DFLAGS);
    FftwEffect(f, p, DFLAGS);
    ProviderDflags(f, s, r);
  }

  /** CFLAGS gains the provider's includes only. */
  lemma LibraryCflags(f: Facts, s: Settings, r: Result<Options, ConfigError>)
    requires LibraryStage(f, s, r).Ok?
    ensures r.Ok?
    ensures CFLAGS in r.value ==>
      Lookup(LibraryStage(f, s, r).value, CFLAGS) == Some(r.value[CFLAGS] + ProviderIncludes(f))
  {
    var p := ProviderStage(f, s, r);
    var q := FftwStage(f, p);
    TailEffect(f, q, CFLAGS);
    FftwEffect(f, p, CFLAGS);
    assert CFLAGS !in FFTW_CREATED;
    assert Lookup(q.value, CFLAGS) == Lookup(p.value, CFLAGS);
    ProviderCflags(f, s, r);
  }

  /** LIBS is the provider's libraries, then FFTW's, then LAPACK's and
      ScaLAPACK's. */
  lemma LibraryLibs(f: Facts, s: Settings, r: Result<Options, ConfigError>)
    requires LibraryStage(f, s, r).Ok?
    ensures r.Ok? && LIBS in r.value
    ensures Lookup(LibraryStage(f, s, r).value, LIBS) == Some(ProviderLibs(f, s, r.value[LIBS]) + FftwLibs(f) + TailLibs(f))
  {
    var p := ProviderStage(f, s, r);
    TailEffect(f, FftwStage(f, p), LIBS);
    FftwEffect(f, p, LIBS);
    ProviderLinks(f, s, r);
  }

  /** Keys outside LIBRARY_TOUCHED keep their values. */
  lemma LibraryFrame(f: Facts, s: Settings, r: Result<Options, ConfigError>, k: Key)
    requires LibraryStage(f, s, r).Ok? && k !in LIBRARY_TOUCHED
    ensures r.Ok? && Lookup(LibraryStage(f, s, r).value, k) == Lookup(r.value, k)
  {
    var p := ProviderStage(f, s, r);
    TailEffect(f, FftwStage(f, p), k);
    FftwEffect(f, p, k);
    ProviderFrame(f, s, r, k);
  }

  /** With DFLAGS and CFLAGS in place, the library stage fails exactly when
      the provider does: FFTW, LAPACK and ScaLAPACK find LIBS filled. */
  lemma LibraryOutcome(f: Facts, s: Settings, r: Result<Options, ConfigError>)
    requires HasFlags(r)
    ensures LibraryStage(f, s, r).Ok? <==>
      LIBS in r.value && (ChooseProvider(f) == Acml ==> LIBBLAS in f.env)
    ensures LibraryStage(f, s, r).Err? ==>
      LibraryStage(f, s, r).error == (if ChooseProvider(f) == Acml && LIBBLAS !in f.env then EnvUnset(LIBBLAS) else NoneValue(LIBS))
  {
    var p := ProviderStage(f, s, r);
    ProviderOutcome(f, s, r);
    if p.Ok? {
      ProviderLinks(f, s, r);
      ProviderHas(f, s, r, DFLAGS);
      ProviderHas(f, s, r, LIBS);
      FftwSafe(f, p);
      FftwEffect(f, p, LIBS);
      TailSafe(f, FftwStage(f, p));
    } else {
      LibraryCarries(f, s, r);
    }
  }

  /** A failure before FFTW is the library stage's failure. */
  lemma LibraryCarries(f: Facts, s: Settings, r: Result<Options, ConfigError>)
    requires ProviderStage(f, s, r).Err?
    ensures LibraryStage(f, s, r) == ProviderStage(f, s, r)
  {
  }

  /** The library stage passes an earlier failure on unchanged. */
  lemma LibraryPasses(f: Facts, s: Settings, e: ConfigError)
    ensures LibraryStage(f, s, Err(e)) == Err(e)
  {
  }
}
