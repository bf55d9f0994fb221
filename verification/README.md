# CP2K easyblock: arch-file synthesis and regression summary, in Dafny

This project models two decision procedures of EasyBuild's CP2K easyblock
(`easybuild/easyblocks/c/cp2k.py`) and proves properties about them.

1. **Arch-file synthesis** (`configure_step` and the helpers it calls).
   From the build facts it produces the dictionary of Makefile variables
   and the extra make rules, or the error that stops the build. The build
   facts are the build type, `typeopt`, the toolchain options, the compiler
   and MPI families, the loaded modules with their versions, the environment,
   the module-include path and the libsmm archive names.
2. **Regression-summary analysis** (the end of `test_step`). It scans the
   harness output for the total and for the FAILED, WRONG, NEW and CORRECT
   counts. It classifies each count as information, a warning, or an error
   that stops the installation.

How the model is built:

- Every `self.log.error(...)` aborts the build. So does every Python crash
  on the way, such as `None + str`, `.replace` on `None`, or comparing
  `LooseVersion(None)`. Each becomes a `ConfigError` or `RegtestError` in a
  `Result`.
- The option dictionary is a `map<Key, string>`. A missing key stands for
  Python's `None`. Each recipe statement on it is an `Edit`:
  - `options[k] = v` and `options.update(...)` are `Assign`;
  - `options[k] += v` is `Extend`, which fails on a missing key;
  - `options[k] = v + options[k]` is `Prepend`.
- Each configure helper returns a `Result<seq<Edit>>`, and the stages are
  chained in the recipe's fixed order.
- A module is loaded exactly when its root is non-empty, as Python truth
  testing has it.
- An unset environment variable prints as `None` where the recipe
  formats it with `%s`.
- Python 2 dictionaries iterate in no promised order, so the Makefile's
  key order is a parameter: any sequence listing every key once.
- `LooseVersion` is modelled as Python 2 defines it: digit runs become
  numbers, other runs stay strings, and dots are dropped. Versions compare
  as lists do.

Modules, in dependency order:

- `Wrappers`: `Option`, `Result`.
- `Strings`: `str.replace`, `str.count` and path helpers.
- `LooseVersion`.
- `BuildFacts`: the inputs.
- `Options`: keys, errors and the edit interpreter.
- `Common`: `configure_common` and the libsmm settings.
- `Families`: the Intel and GCC rules, including the ifort release gate.
- `Providers`: MKL, ACML, or generic BLAS.
- `Libraries`: FFTW, LAPACK, ScaLAPACK.
- `LinkGroup`: the `-Wl,--start-group` wrapping of LIBS. The configure pipeline uses the recipe's own single replace pass per marker (`Normalise`, `GroupAsWritten`). The repeated removal (`LinkGroup.LinkGroup`) is only the corrected half of the finding below.
- `Makefile`: `_generate_makefile` and a reader for its output.
- `Synthesis`: `configure_step` end to end.
- `Regtest`: the summary scanner and the verdicts.

## Model

| member | source | states |
|---|---|---|
| Synthesis.SynthOutcome | easybuild/easyblocks/c/cp2k.py:111-205 | `configure_step` yields a dictionary exactly when `FirstError` names no error; otherwise it stops with that error. The errors are checked in the recipe's order: unknown build type, unknown compiler family, no MPI-2, unknown LibInt major version, LIBS unset for LibInt, libxc version, LIBS unset for libxc, ifort release gate, ACML without LIBBLAS, LIBS unset at the BLAS provider's `+=` (lines 491, 498, 516). |
| Synthesis.SynthMpi2 | easybuild/easyblocks/c/cp2k.py:274-300 | For a known type and family, the build stops for want of MPI-2 exactly when the toolchain's MPI family is not one of the five known ones, or the toolchain names no MPI family and none of impi, MVAPICH2, OpenMPI, MPICH2, MPICH is loaded. |
| Synthesis.SynthDflags | easybuild/easyblocks/c/cp2k.py:164-188 | Final DFLAGS is the fixed ` -D__parallel -D__BLACS -D__SCALAPACK -D__FFTSG ` head, then extradflags, then in order: `-D__LIBINT` if LibInt is loaded, `-D__LIBXC2` if libxc is loaded, the family's define, the BLAS provider's defines, and FFTW's define. |
| Synthesis.SynthCompilers | easybuild/easyblocks/c/cp2k.py:305-306 | FC and LD are equal: MPIF90 followed by the OpenMP flag for `psmp`, and by nothing for `popt`. |
| Synthesis.SynthFcflags | easybuild/easyblocks/c/cp2k.py:313-314 | With `typeopt`, FCFLAGS and FCFLAGS2 select the OPT and OPT2 flag sets. Without it, both select NOOPT. |
| Synthesis.SynthOpt | easybuild/easyblocks/c/cp2k.py:324-325 | FCFLAGSOPT and FCFLAGSOPT2 are the `-O2` and `-O1` base lines extended by exactly the family's tuning, and by nothing else. |
| Synthesis.GccStackLimit | easybuild/easyblocks/c/cp2k.py:473 | On GCC, FCFLAGSOPT ends with `-fmax-stack-var-size=32768`, whether or not `optarch` is set. |
| Synthesis.SynthCflags | easybuild/easyblocks/c/cp2k.py:316-318 | CFLAGS is the common value extended only by the BLAS provider's include flags; the family and FFTW stages leave it alone. |
| Synthesis.SynthLibs | easybuild/easyblocks/c/cp2k.py:190-193 | Final LIBS needs the LIBS environment variable. It is the accumulated link list between a start-group and an end-group marker, after one replace pass for start markers and one for end markers. When that pass leaves no marker, the result holds exactly one marker of each kind. |
| Synthesis.SynthKeys | easybuild/easyblocks/c/cp2k.py:302-326 | The dictionary holds exactly these keys: the common keys, LIBS, LIBINTLIB when LibInt is loaded, the family's keys, the provider's keys, and FFTW's keys when FFTW is loaded. |
| Synthesis.MklKey | easybuild/easyblocks/c/cp2k.py:173-179 | INTEL_INC is set exactly when IMKL is loaded: MKL wins the provider choice. |
| Synthesis.AcmlKey | easybuild/easyblocks/c/cp2k.py:173-179 | ACML_INC is set exactly when ACML is loaded and IMKL is not: first match wins. |
| Synthesis.MklFftKey | easybuild/easyblocks/c/cp2k.py:518-529 | MKL's own FFT wrapper key INTEL_INCF is set exactly when IMKL is loaded and FFTW is not. |
| Synthesis.SynthRules | easybuild/easyblocks/c/cp2k.py:429-451 | A successful configuration has no make rules on GCC. On Intel it has the rules the ifort gate granted: the `qs_vxc_atom.o` rule, or the `et_coupling.o` rule followed by it. |
| Synthesis.ArchFileReads | easybuild/easyblocks/c/cp2k.py:103-109 | For any key order, the variable section of the generated arch file reads back as one `NAME = VALUE` line per dictionary key, with its value, provided no value spans lines. |
| Synthesis.ArchFileName | easybuild/easyblocks/c/cp2k.py:196-197 | The arch file name is the `Linux-x86-64-` prefix, then exactly the toolchain name, then `.popt` or `.psmp` as the build type says. |
| Synthesis.ArchFileNameDistinct | easybuild/easyblocks/c/cp2k.py:196-197 | Two builds share an arch file name only when their toolchain names and build types are equal, so the name identifies both. |
| Common.SmmDefineOfArchive | easybuild/easyblocks/c/cp2k.py:145-149 | A libsmm archive `<dir>/lib<name>.a` gives the define `-D__HAS_<name>`, with every further `lib` in the name replaced too. |
| Common.ConfigureErrors | easybuild/easyblocks/c/cp2k.py:328-389 | Once MPI-2 is found, `configure_common` fails exactly when `CommonError` names an error, and then with that error. The order is: unknown LibInt major version, LibInt's `LIBS +=` on an unset LIBS, the libxc version rule, libxc's `LIBS +=` on an unset LIBS. |
| Common.LibIntEdits | easybuild/easyblocks/c/cp2k.py:328-369 | LibInt's fragment fails exactly when LibInt is loaded with a major version other than 1 or 2. Otherwise it creates LIBINTLIB, only extends DFLAGS by ` -D__LIBINT`, and only extends LIBS by the archives and `-lstdc++`. |
| Common.LibIntLinks | easybuild/easyblocks/c/cp2k.py:358-369 | After a successful `configure_common` with LibInt loaded, the major version is 1 or 2. LIBS gains `libderiv.a libint.a libr12.a` for 1 and only `libint2.a` for 2, followed by `-lstdc++` and the libxc links. |
| Common.LibxcNumeric | easybuild/easyblocks/c/cp2k.py:376-386 | For a numeric libxc version: below 2.0.1 is fatal; 2.2 or above gives `-lxcf90 -lxc`; anything in between gives only `-lxc`. The three cases are told apart by the version's components. |
| Common.LibxcLibs | easybuild/easyblocks/c/cp2k.py:376-386 | An unknown libxc version is an error (comparing `LooseVersion(None)` crashes). Any accepted version gives one of the two link lists. |
| Common.LibxcVersionConstants | easybuild/easyblocks/c/cp2k.py:52 | The libxc thresholds are what `LooseVersion` makes of `'2.0.1'` and `'2.2'`. |
| Common.ConfigureDflags | easybuild/easyblocks/c/cp2k.py:319-382 | `configure_common`'s DFLAGS is the fixed head and extradflags, then `-D__LIBINT` and `-D__LIBXC2` exactly when those modules are loaded. |
| Common.ConfigureHas | easybuild/easyblocks/c/cp2k.py:302-368 | `configure_common` sets the fifteen common keys. It sets LIBS exactly when the environment has LIBS, and LIBINTLIB exactly when LibInt is loaded. |
| Families.IntelGate | easybuild/easyblocks/c/cp2k.py:429-451 | The ifort gate fails on an unknown version. Any version it accepts yields either the `qs_vxc_atom.o` rule or the `et_coupling.o` and `qs_vxc_atom.o` rules. |
| Families.IntelGateNumeric | easybuild/easyblocks/c/cp2k.py:429-451 | For a numeric ifort version: 2011.x needs at least 2011.8 and then grants both rules; 11.x needs at least 11.1.072 and grants one rule; 12 up to 2010 and 2012 on grant one rule; below 11 is unsupported. |
| Families.IntelTuning | easybuild/easyblocks/c/cp2k.py:420-427 | The Intel tuning only extends DFLAGS by ` -D__INTEL`, and FCFLAGSOPT and FCFLAGSOPT2 by the same `$(INCFLAGS) … -heap-arrays 64` text. It creates OBJECTS_ARCHITECTURE. |
| Families.GccTuning | easybuild/easyblocks/c/cp2k.py:467-474 | The GCC tuning creates no key. It only extends DFLAGS by ` -D__GFORTRAN`, and FCFLAGSOPT and FCFLAGSOPT2 by the architecture flag, with the stack limit on FCFLAGSOPT alone. |
| Families.FamilyOutcome | easybuild/easyblocks/c/cp2k.py:164-171 | On a common dictionary, the GCC stage always succeeds. The Intel stage succeeds exactly when the ifort gate does, and otherwise fails with the gate's error. |
| Families.FamilyDflags | easybuild/easyblocks/c/cp2k.py:164-171 | The family stage extends DFLAGS by exactly the family's define. |
| Providers.ChooseProvider | easybuild/easyblocks/c/cp2k.py:173-179 | The BLAS provider is MKL exactly when IMKL is loaded, and ACML exactly when IMKL is not and ACML is. Otherwise it is the generic BLAS. |
| Synthesis.LinkGroupFindsLibs | easybuild/easyblocks/c/cp2k.py:173-193 | Whenever the library stage succeeds, LIBS holds a value, so the link group at line 191 never meets `None`: an unset LIBS has already failed at the provider's `+=` (lines 491, 498, 516). |
| Providers.MklWrapperEdits | easybuild/easyblocks/c/cp2k.py:518-529 | MKL's FFT wrapper adds `-D__FFTMKL` and `-I$(INTEL_INCF)`, creates INTEL_INCF, and leaves LIBS to the LIBFFT prepend. |
| Providers.MklLinks | easybuild/easyblocks/c/cp2k.py:502-531 | After the MKL stage, LIBS is the earlier LIBS followed by libsmm and LIBSCALAPACK. LIBFFT is prepended to the whole list exactly when FFTW is not loaded. |
| Providers.AcmlOutcome | easybuild/easyblocks/c/cp2k.py:478-493 | The ACML stage fails exactly when LIBBLAS is unset, since `.replace` runs on `None`, or when LIBS is unset. The error says which. |
| Providers.BlasOutcome | easybuild/easyblocks/c/cp2k.py:495-500 | The generic BLAS stage fails exactly when LIBS is unset. |
| Providers.ProviderOutcome | easybuild/easyblocks/c/cp2k.py:173-179 | Exactly one provider fragment runs. The provider stage fails exactly when LIBS is unset, or when ACML is chosen and LIBBLAS is unset. |
| Libraries.FftwEffect | easybuild/easyblocks/c/cp2k.py:533-548 | The FFTW stage adds FFTW_INC, FFTW3INC and FFTW3LIB only when FFTW is loaded. It extends DFLAGS and LIBS by FFTW's define and links, and leaves every other key as it was. |
| Libraries.TailEffect | easybuild/easyblocks/c/cp2k.py:550-562 | The LAPACK and ScaLAPACK stages add no key and change nothing but LIBS, which they extend by LIBLAPACK_MT and LIBSCALAPACK when those modules are loaded. |
| Libraries.LibraryLibs | easybuild/easyblocks/c/cp2k.py:173-188 | After the library stages, LIBS is the provider's list, then FFTW's links, then the LAPACK and ScaLAPACK links. |
| Libraries.LibraryOutcome | easybuild/easyblocks/c/cp2k.py:173-188 | On a dictionary holding the flags the stages extend, the library stages fail exactly when LIBS is unset, or when ACML is chosen and LIBBLAS is unset. FFTW, LAPACK and ScaLAPACK add no failure of their own. |
| LinkGroup.LinkGroup | easybuild/easyblocks/c/cp2k.py:190-193 | Corrected normalisation, which removes markers until none is left: for every input the result holds exactly one start marker and one end marker. |
| LinkGroup.RenormaliseAsWritten | easybuild/easyblocks/c/cp2k.py:190-193 | With the recipe's single pass, on a list that one pass cleans, normalising twice keeps one start and one end marker around the same list; only the spaces inside the pair double. |
| LinkGroup.Renormalise | easybuild/easyblocks/c/cp2k.py:190-193 | The corrected normalisation applied twice keeps one marker pair around the same marker-free list; only the spaces inside the pair double. |
| LinkGroup.AsWrittenAgrees | easybuild/easyblocks/c/cp2k.py:190-193 | When one replace pass per marker already removes every marker, the recipe's code and the intended normalisation give the same list. |
| LinkGroup.NestedGroup | easybuild/easyblocks/c/cp2k.py:191 | The recipe's one-pass removal leaves two start markers in a list that splices a marker into another. |
| LinkGroup.NormaliseEffect | easybuild/easyblocks/c/cp2k.py:190-193 | Normalisation changes only LIBS. It puts the single-pass result between one start and one end marker, and leaves exactly one marker of each kind when that pass leaves none behind. |
| Makefile.Generate | easybuild/easyblocks/c/cp2k.py:103-109 | The generated text starts with the fixed header line and ends with the make rules verbatim. |
| Makefile.MakefileRoundTrip | easybuild/easyblocks/c/cp2k.py:103-109 | For every order listing each key once, the text between header and rules reads back as each key once, with its value, in that order. |
| Options.Apply | easybuild/easyblocks/c/cp2k.py:369 | A `+=` on a key the dictionary lacks fails; every other statement succeeds and adds exactly its key. |
| Options.RunCrashes | easybuild/easyblocks/c/cp2k.py:369 | A statement sequence fails exactly when some `+=` in it meets a key that neither the dictionary nor an earlier statement provides. |
| LooseVersion.LessTotal | easybuild/easyblocks/c/cp2k.py:432-451 | Two distinct versions are always ordered one way or the other, so each ifort version falls into exactly one branch of the gate. |
| LooseVersion.LessTransitive | easybuild/easyblocks/c/cp2k.py:432-451 | The version order is transitive. |
| LooseVersion.LessThree | easybuild/easyblocks/c/cp2k.py:444 | Against a three-part version such as 11.1.072, a numeric version compares part by part, and a proper prefix is smaller. |
| Regtest.HeadsIff | easybuild/easyblocks/c/cp2k.py:688 | The scanner finds a count at a position exactly when the text there matches `number\s+of\s+<CAT>\s+tests\s+[0-9]` case-insensitively, with the digits starting where the scanner says. |
| Regtest.TotalNeedsTwoSpaces | easybuild/easyblocks/c/cp2k.py:688-691 | Because the total pattern interpolates the empty category, a total match needs two consecutive whitespace characters between `of` and `tests`. |
| Regtest.SearchNone | easybuild/easyblocks/c/cp2k.py:690-697 | The search finds nothing exactly when no position of the text matches the pattern. |
| Regtest.SearchFindsFirst | easybuild/easyblocks/c/cp2k.py:707-714 | When a match exists, the search returns the count of the leftmost one. |
| Regtest.WrongExcessive | easybuild/easyblocks/c/cp2k.py:720 | With Python 2 integer division, `wrong / total > 0.1` holds exactly when wrong is at least total. |
| Regtest.Judge | easybuild/easyblocks/c/cp2k.py:718-729 | A count is fatal exactly when: FAILED is above zero and failures are not ignored; WRONG is at least the total and failures are not ignored; or WRONG is checked against a zero total, which divides by zero. NEW and CORRECT are never fatal. A surviving count warns exactly when it is a non-zero count of a category other than CORRECT. |
| Regtest.ReportsOutcome | easybuild/easyblocks/c/cp2k.py:701-742 | Reporting succeeds exactly when every category's count is found and not fatal, and then reports each in turn. Otherwise the first category that fails decides the error. |
| Regtest.SummariseOutcome | easybuild/easyblocks/c/cp2k.py:680-742 | The analysis succeeds exactly when the run exited with 0, a total was found, and the four categories pass. It then returns the FAILED, WRONG, NEW and CORRECT reports in that order. |
| Regtest.AnalyseEarlyErrors | easybuild/easyblocks/c/cp2k.py:682-697 | A non-zero exit code is fatal first. A text with no total match is fatal next. |
| Regtest.SummariseFirstError | easybuild/easyblocks/c/cp2k.py:733-742 | A failing analysis after a found total reports the first of FAILED, WRONG, NEW and CORRECT that does not pass. |
| Regtest.SummariseIgnore | easybuild/easyblocks/c/cp2k.py:720-725 | With `ignore_regtest_fails` no count is ever too many. An analysis that passes without the flag gives the same reports with it. |

## Behaviour that a reading of the recipe's intent would get wrong

The model follows the code in each of these cases:

- **WRONG threshold.** The test is `cnt / tot_cnt > 0.1` on Python 2
  integers. It holds only when the wrong count reaches the total, so 5
  wrong out of 20 is a warning, not a rejection.
- **Zero total.** A total of zero makes the WRONG test divide by zero,
  which is fatal, even when failures are ignored.
- **Missing categories.** A count that cannot be found is fatal for every
  category, not only for those used in arithmetic. The first fatal
  category ends the analysis, so later categories are not reported.
- **What the ignore flag covers.** `ignore_regtest_fails` downgrades both
  the FAILED and the WRONG rejections to warnings.
- **Total pattern.** The total is searched with the category left empty,
  which leaves `\s+\s+`. At least two whitespace characters must
  therefore separate `of` from `tests`.
- **GCC stack limit.** `-fmax-stack-var-size=32768` is added to
  FCFLAGSOPT whether or not architecture tuning is requested.
- **GCC object file.** The GCC object-architecture entry is
  `machine_gfortran.o`.
- **Repeated normalisation.** Normalising LIBS a second time is not the
  identity: the marker pair stays single, but the spaces inside it grow.
- **Link-group nesting.** One replace pass per marker can leave a marker
  inside the group (see Findings). The configure model keeps that single
  pass.

## Left out

- `prepmodinc` (lines 207-255) creates directories and compiles module files. Its result, the module include path, is an input (`Facts.modincpath`).
- The libint wrapper build (lines 332-356) is not modelled. It runs only when `compilerISO_C_BINDING` is false, and line 71 fixes that to true. The wrapper text appended to LIBS is therefore always empty.
- The `start_dir` correction (lines 121-126) is filesystem work.
- The libsmm `glob` (line 147) is filesystem work. The archives it would find are an input list.
- Writing the arch file and its `IOError` (lines 195-205) are I/O. The model stops at the file name and its text.
- The libxc version comparison crash: with libxc loaded but no version, `LooseVersion(None)` is compared. This crash is modelled as an error and not distinguished further.
- Common.LibIntEdits: a LibInt module with no version crashes in the recipe (`None.split`). The model reports it as an unknown major version `""` instead of a separate crash kind.
- The framework's `cfg.update('extradflags', …)` lives outside this file. It is modelled as appending the value between spaces.
- `build_step`, `install_step` and `sanity_check_step` are Makefile patching, `make` runs, file copying and framework calls.
- The first part of `test_step` (lines 602-680) is left out: locating the reference directories, patching `do_regtest`, writing the test configuration, checking core counts and running the harness. The harness output and its exit code are inputs.
- Logging is left out, beyond the fatal / warning / information class of each regression count. So are the `postmsg` texts.
- LooseVersion.LessThree and the other version lemmas about fixed thresholds: they are stated for numeric versions only. The model's `LooseVersion` does cover alphabetic parts, but no threshold property is claimed for them.
- Python's `\s` and `re.I` are modelled for ASCII: the six whitespace characters, and case folding of `A`-`Z`.

## Findings

| source | as written | input that shows it | evidently intended | confidence | as-written member | corrected member |
|---|---|---|---|---|---|---|
| easybuild/easyblocks/c/cp2k.py:191 | One `str.replace` pass removes the start markers, then one pass removes the end markers. Removing a marker can join its neighbours into a new marker. | LIBS = `--Wl,--start-groupWl,--start-group`. Removing the inner marker leaves `-Wl,--start-group`, so the wrapped list holds two start markers. | No marker left inside the single group ("avoid group nesting"). | low: needs an unusual LIBS; not executed | LinkGroup.NestedGroup | LinkGroup.LinkGroup |
