/**
 The facts a CP2K build configuration is synthesised from: the easyconfig
 parameters, the toolchain's options and families, the loaded modules and
 the process environment. Everything here is read-only input.
 */
module BuildFacts {
  import opened Wrappers

  /** The easyconfig parameter 'type': only 'popt' and 'psmp' are known. */
  datatype BuildType = Popt | Psmp | OtherType(name: string)

  /** `toolchain.comp_family()`: only Intel and GCC have a rule set. */
  datatype CompilerFamily = IntelComp | Gcc | OtherCompiler(name: string)

  /** `toolchain.mpi_family()`. */
  datatype MpiFamily = Mpich | Mpich2 | Mvapich2 | OpenMpi | IntelMpi | OtherMpi(name: string)

  /** The software packages the recipe asks `get_software_root` and
      `get_software_version` about. */
  datatype Package =
    | LibInt | Libxc | Libsmm
    | Impi | MVAPICH2 | OpenMPI | MPICH2 | MPICH
    | IMKL | ACML | FFTW | LAPACK | ScaLAPACK | Ifort

  /** The package's module name. */
  function PackageName(p: Package): string {
    match p
    case LibInt => "LibInt"
    case Libxc => "libxc"
    case Libsmm => "libsmm"
    case Impi => "impi"
    case MVAPICH2 => "MVAPICH2"
    case OpenMPI => "OpenMPI"
    case MPICH2 => "MPICH2"
    case MPICH => "MPICH"
    case IMKL => "IMKL"
    case ACML => "ACML"
    case FFTW => "FFTW"
    case LAPACK => "LAPACK"
    case ScaLAPACK => "ScaLAPACK"
    case Ifort => "ifort"
  }

  /** The environment variables the recipe reads (set by the toolchain). */
  datatype EnvVar =
    | MPICC | MPIF90 | EBVARCPPFLAGS | EBVARLDFLAGS | LIBS_ENV
    | LIBBLAS | LIBSCALAPACK | LIBFFT | LIBLAPACK_MT

  /** The variable's name in the environment. */
  function EnvName(v: EnvVar): string {
    match v
    case MPICC => "MPICC"
    case MPIF90 => "MPIF90"
    case EBVARCPPFLAGS => "EBVARCPPFLAGS"
    case EBVARLDFLAGS => "EBVARLDFLAGS"
    case LIBS_ENV => "LIBS"
    case LIBBLAS => "LIBBLAS"
    case LIBSCALAPACK => "LIBSCALAPACK"
    case LIBFFT => "LIBFFT"
    case LIBLAPACK_MT => "LIBLAPACK_MT"
  }

  /** A loaded module as seen through `get_software_root` and
      `get_software_version`; the empty string stands for Python's `None`. */
  datatype Module = Module(root: string, version: string)

  datatype Facts = Facts(
    buildType: BuildType,        // easyconfig 'type'
    typeopt: bool,               // easyconfig 'typeopt'
    debug: bool,                 // toolchain option 'debug'
    pic: bool,                   // toolchain option 'pic'
    optarch: bool,               // toolchain option 'optarch'
    openmpFlag: string,          // toolchain.get_flag('openmp')
    compiler: CompilerFamily,
    mpiFamily: Option<MpiFamily>, // None when the toolchain declares no MPI family
    modules: map<Package, Module>,
    env: map<EnvVar, string>,
    extracflags: string,         // easyconfig 'extracflags'
    extradflags: string,         // easyconfig 'extradflags'
    modincpath: string,          // path prepared for the MKL module files, or ""
    libsmmArchives: seq<string>  // the libsmm archives found under <libsmm root>/lib
  )

  /** `get_software_root(name)`, with "" for a module that is not loaded. */
  function Root(f: Facts, p: Package): string {
    if p in f.modules then f.modules[p].root else ""
  }

  /** `get_software_version(name)`, with "" for an unknown version. */
  function SoftwareVersion(f: Facts, p: Package): string {
    if p in f.modules then f.modules[p].version else ""
  }

  /** `if get_software_root(name):`, Python truthiness of the root. */
  predicate Loaded(f: Facts, p: Package) {
    Root(f, p) != ""
  }

  /** `'%s' % os.getenv(name)`: an unset variable prints as `None`. */
  function EnvText(f: Facts, v: EnvVar): string {
    if v in f.env then f.env[v] else "None"
  }
}
