/**
 The option dictionary the recipe accumulates, and the reasons a
 configuration run aborts (every `self.log.error` and every Python crash
 on a missing value ends the build).
 */
module Options {
  import opened Wrappers
  import opened BuildFacts
  import opened Strings

  /** The Makefile variables the recipe sets. */
  datatype Key =
    | CC | CPP | FC | LD | AR | CPPFLAGS | FPIC | DEBUG
    | FCFLAGS | FCFLAGS2 | CFLAGS | DFLAGS | FCFLAGSNOOPT | FCFLAGSOPT | FCFLAGSOPT2
    | LIBS | LIBINTLIB
    | FREE | SAFE | INCFLAGS | LDFLAGS | OBJECTS_ARCHITECTURE
    | INTEL_INC | INTEL_INCF | ACML_INC | FFTW_INC | FFTW3INC | FFTW3LIB

  /** The variable's name as written into the Makefile. */
  function Name(k: Key): string {
    match k
    case CC => "CC"
    case CPP => "CPP"
    case FC => "FC"
    case LD => "LD"
    case AR => "AR"
    case CPPFLAGS => "CPPFLAGS"
    case FPIC => "FPIC"
    case DEBUG => "DEBUG"
    case FCFLAGS => "FCFLAGS"
    case FCFLAGS2 => "FCFLAGS2"
    case CFLAGS => "CFLAGS"
    case DFLAGS => "DFLAGS"
    case FCFLAGSNOOPT => "FCFLAGSNOOPT"
    case FCFLAGSOPT => "FCFLAGSOPT"
    case FCFLAGSOPT2 => "FCFLAGSOPT2"
    case LIBS => "LIBS"
    case LIBINTLIB => "LIBINTLIB"
    case FREE => "FREE"
    case SAFE => "SAFE"
    case INCFLAGS => "INCFLAGS"
    case LDFLAGS => "LDFLAGS"
    case OBJECTS_ARCHITECTURE => "OBJECTS_ARCHITECTURE"
    case INTEL_INC => "INTEL_INC"
    case INTEL_INCF => "INTEL_INCF"
    case ACML_INC => "ACML_INC"
    case FFTW_INC => "FFTW_INC"
    case FFTW3INC => "FFTW3INC"
    case FFTW3LIB => "FFTW3LIB"
  }

  /** Variable to value: the recipe's `options` dictionary. A key that is
      absent stands for a value that is Python's `None`. */
  type Options = map<Key, string>

  datatype ConfigError =
    | UnknownBuildType(buildType: string)
    | UnsupportedCompiler
    | NoMpi2
    | UnknownLibIntVersion(major: string)
    | LibxcTooOld(version: string)
    | IntelTooOld(release: string, minimum: string)
    | IntelUnsupported(version: string)
    | VersionUnknown(package: Package)    // comparing `LooseVersion(None)` crashes
    | EnvUnset(variable: EnvVar)          // `os.getenv(name).replace(...)` on an unset variable
    | NoneValue(key: Key)                 // `options[key] += ...` or `.replace` on `None`

  /** One statement of the recipe on the dictionary. */
  datatype Edit =
    | Assign(key: Key, text: string)   // options[key] = text, or options.update({key: text})
    | Extend(key: Key, text: string)   // options[key] += text
    | Prepend(key: Key, text: string)  // options[key] = text + ('%s' % options[key])

  /** The dictionary entry as an optional value. */
  function Lookup(o: Options, k: Key): Option<string> {
    if k in o then Some(o[k]) else None
  }

  /** `'%s' % value`: `None` prints as `None`. */
  function Show(v: Option<string>): string {
    match v
    case Some(t) => t
    case None => "None"
  }

  /** Runs one statement; `+=` on a `None` value is a crash. */
  function Apply(o: Options, e: Edit): (r: Result<Options, ConfigError>)
    ensures r.Err? <==> e.Extend? && e.key !in o
    ensures r.Ok? ==> r.value.Keys == o.Keys + {e.key}
  {
    match e
    case Assign(k, t) => Ok(o[k := t])
    case Extend(k, t) => if k in o then Ok(o[k := o[k] + t]) else Err(NoneValue(k))
    case Prepend(k, t) => Ok(o[k := t + Show(Lookup(o, k))])
  }

  /** The effect of one statement on the value of key `k` alone. */
  function Step(v: Option<string>, e: Edit, k: Key): Option<string> {
    if e.key != k then v
    else match e
      case Assign(_, t) => Some(t)
      case Extend(_, t) => if v.Some? then Some(v.value + t) else None
      case Prepend(_, t) => Some(t + Show(v))
  }

  /** The value key `k` ends with, following only the statements on `k`. */
  function Track(v: Option<string>, es: seq<Edit>, k: Key): Option<string>
    decreases |es|
  {
    if es == [] then v else Track(Step(v, es[0], k), es[1..], k)
  }

  /** The key a statement creates: every statement but `+=` can. */
  function Made(e: Edit): set<Key> {
    if e.Extend? then {} else {e.key}
  }

  /** What a statement appends to `k`. */
  function Part(e: Edit, k: Key): string {
    if e.key == k && e.Extend? then e.text else ""
  }

  /** The key a `+=` statement needs to hold a value. */
  function Grows(e: Edit): set<Key> {
    if e.Extend? then {e.key} else {}
  }

  /** The keys a run of statements extends with `+=`. */
  function Extended(es: seq<Edit>): set<Key>
    decreases |es|
  {
    if es == [] then {} else Grows(es[0]) + Extended(es[1..])
  }

  /** The keys a run of statements creates. */
  function Created(es: seq<Edit>): set<Key>
    decreases |es|
  {
    if es == [] then {} else Made(es[0]) + Created(es[1..])
  }

  /** Statement `i` is a `+=` on a key that is `None` at that point. */
  predicate ExtendsNone(o: Options, es: seq<Edit>, i: int)
    requires 0 <= i < |es|
  {
    es[i].Extend? && es[i].key !in o && es[i].key !in Created(es[..i])
  }

  /** Runs statements in order, stopping at the first crash. */
  function ApplyAll(o: Options, es: seq<Edit>): Result<Options, ConfigError>
    decreases |es|
  {
    if es == [] then Ok(o)
    else
      match Apply(o, es[0])
      case Err(e) => Err(e)
      case Ok(o1) => ApplyAll(o1, es[1..])
  }

  /** A run crashes exactly when some `+=` meets a key that is `None`
      at that point. */
  lemma {:induction false} RunCrashes(o: Options, es: seq<Edit>)
    ensures ApplyAll(o, es).Err? <==> exists i :: 0 <= i < |es| && ExtendsNone(o, es, i)
    decreases |es|
  {
    if es != [] {
      match Apply(o, es[0])
      case Err(_) =>
        assert ExtendsNone(o, es, 0);
      case Ok(o1) =>
        RunCrashes(o1, es[1..]);
        CrashShift(o, o1, es);
    }
  }

  /** A successful run has the old keys and the ones it creates. */
  lemma {:induction false} RunKeys(o: Options, es: seq<Edit>)
    requires ApplyAll(o, es).Ok?
    ensures ApplyAll(o, es).value.Keys == o.Keys + Created(es)
    decreases |es|
  {
    if es != [] {
      var o1 := Apply(o, es[0]).value;
      RunKeys(o1, es[1..]);
      assert es[0].Extend? ==> es[0].key in o;
    }
  }

  /** One statement, seen from key `k`, is `Step`. */
  lemma ApplyStep(o: Options, e: Edit, k: Key)
    requires Apply(o, e).Ok?
    ensures Lookup(Apply(o, e).value, k) == Step(Lookup(o, k), e, k)
  {
  }

  /** Per key, a successful run ends with what the statements on that key
      alone produce. */
  lemma {:induction false} RunTrack(o: Options, es: seq<Edit>, k: Key)
    requires ApplyAll(o, es).Ok?
    ensures Lookup(ApplyAll(o, es).value, k) == Track(Lookup(o, k), es, k)
    decreases |es|
  {
    if es != [] {
      var o1 := Apply(o, es[0]).value;
      ApplyStep(o, es[0], k);
      RunTrack(o1, es[1..], k);
    }
  }

  /** Runs a fragment's statements on the dictionary so far, unless an
      earlier step or computing the fragment failed. */
  function Then(r: Result<Options, ConfigError>, fragment: Result<seq<Edit>, ConfigError>): Result<Options, ConfigError> {
    match r
    case Err(e) => Err(e)
    case Ok(o) =>
      match fragment
      case Err(e) => Err(e)
      case Ok(es) => ApplyAll(o, es)
  }

  /** A successful step had a dictionary and a fragment to run. */
  lemma ThenOk(r: Result<Options, ConfigError>, fragment: Result<seq<Edit>, ConfigError>)
    requires Then(r, fragment).Ok?
    ensures r.Ok? && fragment.Ok? && ApplyAll(r.value, fragment.value).Ok?
    ensures Then(r, fragment) == ApplyAll(r.value, fragment.value)
  {
  }

  /** A crash in the tail of a run is a crash of the whole run, with the
      first statement's key counted as created. */
  lemma {:induction false} CrashShift(o: Options, o1: Options, es: seq<Edit>)
    requires es != [] && Apply(o, es[0]) == Ok(o1)
    ensures (exists i :: 0 <= i < |es| - 1 && ExtendsNone(o1, es[1..], i))
        <==> (exists i :: 0 <= i < |es| && ExtendsNone(o, es, i))
  {
    forall i | 0 <= i < |es| - 1
      ensures ExtendsNone(o1, es[1..], i) <==> ExtendsNone(o, es, i + 1)
    {
      assert es[..i + 1] == [es[0]] + es[1..][..i];
      SummaryAppend([es[0]], es[1..][..i]);
      assert Created([es[0]]) == (if es[0].Extend? then {} else {es[0].key}) by {
        assert [es[0]][1..] == [];
      }
      assert es[1..][i] == es[i + 1];
    }
    assert !ExtendsNone(o, es, 0);
    if exists i :: 0 <= i < |es| && ExtendsNone(o, es, i) {
      var i :| 0 <= i < |es| && ExtendsNone(o, es, i);
      assert 0 <= i - 1 < |es| - 1 && ExtendsNone(o1, es[1..], i - 1);
    }
  }

  /** The keys a run of statements writes. */
  function Touched(es: seq<Edit>): set<Key>
    decreases |es|
  {
    if es == [] then {} else {es[0].key} + Touched(es[1..])
  }

  /** Every statement on `k` is a `+=`. */
  predicate OnlyExtends(es: seq<Edit>, k: Key) {
    forall i :: 0 <= i < |es| && es[i].key == k ==> es[i].Extend?
  }

  /** What the `+=` statements on `k` append, in order. */
  function Suffixes(es: seq<Edit>, k: Key): string
    decreases |es|
  {
    if es == [] then ""
    else Part(es[0], k) + Suffixes(es[1..], k)
  }

  /** A key only ever extended keeps its old value as a prefix and gains the
      suffixes in statement order. */
  lemma {:induction false} TrackExtends(v: string, es: seq<Edit>, k: Key)
    requires OnlyExtends(es, k)
    ensures Track(Some(v), es, k) == Some(v + Suffixes(es, k))
    decreases |es|
  {
    if es != [] {
      assert OnlyExtends(es[1..], k) by {
        forall i | 0 <= i < |es| - 1 && es[1..][i].key == k ensures es[1..][i].Extend? {
          assert es[1..][i] == es[i + 1];
        }
      }
      var t := if es[0].key == k then es[0].text else "";
      if es[0].key == k {
        assert es[0].Extend?;
      } else {
        assert v + t == v;
      }
      assert Step(Some(v), es[0], k) == Some(v + t);
      TrackExtends(v + t, es[1..], k);
      assert (v + t) + Suffixes(es[1..], k) == v + (t + Suffixes(es[1..], k));
      assert Suffixes(es, k) == t + Suffixes(es[1..], k);
      assert Track(Some(v), es, k) == Track(Some(v + t), es[1..], k);
    } else {
      assert v + "" == v;
    }
  }

  /** Untouched keys keep their value, present or not. */
  lemma {:induction false} TrackUntouched(v: Option<string>, es: seq<Edit>, k: Key)
    requires k !in Touched(es)
    ensures Track(v, es, k) == v
    ensures Suffixes(es, k) == ""
    decreases |es|
  {
    if es != [] {
      TrackUntouched(v, es[1..], k);
    }
  }

  /** The key summaries of a run split over its first statement. */
  lemma ConsKeys(e: Edit, es: seq<Edit>)
    ensures Created([e] + es) == Made(e) + Created(es)
    ensures Extended([e] + es) == Grows(e) + Extended(es)
    ensures Touched([e] + es) == {e.key} + Touched(es)
  {
    assert ([e] + es)[0] == e;
    assert ([e] + es)[1..] == es;
  }

  /** The text summaries of a run split over its first statement. */
  lemma ConsTexts(e: Edit, es: seq<Edit>)
    ensures forall k :: Suffixes([e] + es, k) == Part(e, k) + Suffixes(es, k)
    ensures forall k :: OnlyExtends([e] + es, k) <==> (e.key == k ==> e.Extend?) && OnlyExtends(es, k)
  {
    assert ([e] + es)[0] == e;
    assert ([e] + es)[1..] == es;
    forall k ensures OnlyExtends([e] + es, k) <==> (e.key == k ==> e.Extend?) && OnlyExtends(es, k) {
      if OnlyExtends([e] + es, k) {
        forall i | 0 <= i < |es| && es[i].key == k ensures es[i].Extend? {
          assert ([e] + es)[i + 1] == es[i];
        }
      }
      if (e.key == k ==> e.Extend?) && OnlyExtends(es, k) {
        forall i | 0 <= i < |[e] + es| && ([e] + es)[i].key == k ensures ([e] + es)[i].Extend? {
          if i > 0 { assert ([e] + es)[i] == es[i - 1]; }
        }
      }
    }
  }

  /** The summaries of a run split over its first statement. */
  lemma SummaryCons(e: Edit, es: seq<Edit>)
    ensures Created([e] + es) == Made(e) + Created(es)
    ensures Extended([e] + es) == Grows(e) + Extended(es)
    ensures Touched([e] + es) == {e.key} + Touched(es)
    ensures forall k :: Suffixes([e] + es, k) == Part(e, k) + Suffixes(es, k)
    ensures forall k :: OnlyExtends([e] + es, k) <==> (e.key == k ==> e.Extend?) && OnlyExtends(es, k)
  {
    ConsKeys(e, es);
    ConsTexts(e, es);
  }

  lemma Keys2(a: Edit, b: Edit)
    ensures Created([a, b]) == Made(a) + Made(b)
    ensures Extended([a, b]) == Grows(a) + Grows(b)
    ensures Touched([a, b]) == {a.key, b.key}
  {
    ConsKeys(b, []);
    assert [b] + [] == [b];
    ConsKeys(a, [b]);
    assert [a] + [b] == [a, b];
  }

  lemma Texts2(a: Edit, b: Edit)
    ensures forall k :: Suffixes([a, b], k) == Part(a, k) + Part(b, k)
    ensures forall k :: OnlyExtends([a, b], k) <==> (a.key == k ==> a.Extend?) && (b.key == k ==> b.Extend?)
  {
    ConsTexts(b, []);
    assert [b] + [] == [b];
    ConsTexts(a, [b]);
    assert [a] + [b] == [a, b];
    forall k ensures Part(b, k) + Suffixes([], k) == Part(b, k) {
      assert Part(b, k) + "" == Part(b, k);
    }
  }

  /** The summaries of a two-statement run. */
  lemma Summary2(a: Edit, b: Edit)
    ensures Created([a, b]) == Made(a) + Made(b)
    ensures Extended([a, b]) == Grows(a) + Grows(b)
    ensures Touched([a, b]) == {a.key, b.key}
    ensures forall k :: Suffixes([a, b], k) == Part(a, k) + Part(b, k)
    ensures forall k :: OnlyExtends([a, b], k) <==> (a.key == k ==> a.Extend?) && (b.key == k ==> b.Extend?)
  {
    Keys2(a, b);
    Texts2(a, b);
  }

  lemma Keys3(a: Edit, b: Edit, c: Edit)
    ensures Created([a, b, c]) == Made(a) + (Made(b) + Made(c))
    ensures Extended([a, b, c]) == Grows(a) + (Grows(b) + Grows(c))
    ensures Touched([a, b, c]) == {a.key, b.key, c.key}
  {
    Keys2(b, c);
    ConsKeys(a, [b, c]);
    assert [a] + [b, c] == [a, b, c];
  }

  lemma Texts3(a: Edit, b: Edit, c: Edit)
    ensures forall k :: Suffixes([a, b, c], k) == Part(a, k) + Part(b, k) + Part(c, k)
    ensures forall k :: OnlyExtends([a, b, c], k) <==>
      (a.key == k ==> a.Extend?) && (b.key == k ==> b.Extend?) && (c.key == k ==> c.Extend?)
  {
    Texts2(b, c);
    ConsTexts(a, [b, c]);
    assert [a] + [b, c] == [a, b, c];
    forall k ensures Part(a, k) + (Part(b, k) + Part(c, k)) == Part(a, k) + Part(b, k) + Part(c, k) {
      Assoc(Part(a, k), Part(b, k), Part(c, k));
    }
  }

  /** The summaries of a three-statement run. */
  lemma Summary3(a: Edit, b: Edit, c: Edit)
    ensures Created([a, b, c]) == Made(a) + (Made(b) + Made(c))
    ensures Extended([a, b, c]) == Grows(a) + (Grows(b) + Grows(c))
    ensures Touched([a, b, c]) == {a.key, b.key, c.key}
    ensures forall k :: Suffixes([a, b, c], k) == Part(a, k) + Part(b, k) + Part(c, k)
    ensures forall k :: OnlyExtends([a, b, c], k) <==>
      (a.key == k ==> a.Extend?) && (b.key == k ==> b.Extend?) && (c.key == k ==> c.Extend?)
  {
    Keys3(a, b, c);
    Texts3(a, b, c);
  }

  lemma Keys4(a: Edit, b: Edit, c: Edit, d: Edit)
    ensures Created([a, b, c, d]) == Made(a) + (Made(b) + (Made(c) + Made(d)))
    ensures Extended([a, b, c, d]) == Grows(a) + (Grows(b) + (Grows(c) + Grows(d)))
    ensures Touched([a, b, c, d]) == {a.key, b.key, c.key, d.key}
  {
    Keys3(b, c, d);
    ConsKeys(a, [b, c, d]);
    assert [a] + [b, c, d] == [a, b, c, d];
  }

  lemma Texts4(a: Edit, b: Edit, c: Edit, d: Edit)
    ensures forall k :: Suffixes([a, b, c, d], k) == Part(a, k) + Part(b, k) + Part(c, k) + Part(d, k)
    ensures forall k :: OnlyExtends([a, b, c, d], k) <==>
      (a.key == k ==> a.Extend?) && (b.key == k ==> b.Extend?) && (c.key == k ==> c.Extend?)
      && (d.key == k ==> d.Extend?)
  {
    Texts3(b, c, d);
    ConsTexts(a, [b, c, d]);
    assert [a] + [b, c, d] == [a, b, c, d];
    forall k ensures Part(a, k) + (Part(b, k) + Part(c, k) + Part(d, k))
                     == Part(a, k) + Part(b, k) + Part(c, k) + Part(d, k) {
      Assoc(Part(a, k), Part(b, k) + Part(c, k), Part(d, k));
      Assoc(Part(a, k), Part(b, k), Part(c, k));
    }
  }

  /** The text summaries of a three- or four-statement run, for one key. */
  lemma TextAt3(a: Edit, b: Edit, c: Edit, k: Key)
    ensures Suffixes([a, b, c], k) == Part(a, k) + Part(b, k) + Part(c, k)
    ensures OnlyExtends([a, b, c], k) <==>
      (a.key == k ==> a.Extend?) && (b.key == k ==> b.Extend?) && (c.key == k ==> c.Extend?)
  {
    Texts3(a, b, c);
  }

  lemma TextAt4(a: Edit, b: Edit, c: Edit, d: Edit, k: Key)
    ensures Suffixes([a, b, c, d], k) == Part(a, k) + Part(b, k) + Part(c, k) + Part(d, k)
    ensures OnlyExtends([a, b, c, d], k) <==>
      (a.key == k ==> a.Extend?) && (b.key == k ==> b.Extend?) && (c.key == k ==> c.Extend?)
      && (d.key == k ==> d.Extend?)
  {
    Texts4(a, b, c, d);
  }

  /** The summaries of a four-statement run. */
  lemma Summary4(a: Edit, b: Edit, c: Edit, d: Edit)
    ensures Created([a, b, c, d]) == Made(a) + (Made(b) + (Made(c) + Made(d)))
    ensures Extended([a, b, c, d]) == Grows(a) + (Grows(b) + (Grows(c) + Grows(d)))
    ensures Touched([a, b, c, d]) == {a.key, b.key, c.key, d.key}
    ensures forall k :: Suffixes([a, b, c, d], k) == Part(a, k) + Part(b, k) + Part(c, k) + Part(d, k)
    ensures forall k :: OnlyExtends([a, b, c, d], k) <==>
      (a.key == k ==> a.Extend?) && (b.key == k ==> b.Extend?) && (c.key == k ==> c.Extend?)
      && (d.key == k ==> d.Extend?)
  {
    Keys4(a, b, c, d);
    Texts4(a, b, c, d);
  }

  /** The summaries of a run split anywhere. */
  lemma SummaryAppend(a: seq<Edit>, b: seq<Edit>)
    ensures Created(a + b) == Created(a) + Created(b)
    ensures Extended(a + b) == Extended(a) + Extended(b)
    ensures Touched(a + b) == Touched(a) + Touched(b)
    ensures forall k :: Suffixes(a + b, k) == Suffixes(a, k) + Suffixes(b, k)
    ensures forall k :: OnlyExtends(a + b, k) <==> OnlyExtends(a, k) && OnlyExtends(b, k)
  {
    KeysAppend(a, b);
    forall k ensures Suffixes(a + b, k) == Suffixes(a, k) + Suffixes(b, k) {
      SuffixesAppend(a, b, k);
    }
    forall k ensures OnlyExtends(a + b, k) <==> OnlyExtends(a, k) && OnlyExtends(b, k) {
      OnlyExtendsAppend(a, b, k);
    }
  }

  lemma {:induction false} KeysAppend(a: seq<Edit>, b: seq<Edit>)
    ensures Created(a + b) == Created(a) + Created(b)
    ensures Extended(a + b) == Extended(a) + Extended(b)
    ensures Touched(a + b) == Touched(a) + Touched(b)
    decreases |a|
  {
    if a == [] {
      assert a + b == b;
    } else {
      KeysAppend(a[1..], b);
      ConsKeys(a[0], a[1..] + b);
      ConsKeys(a[0], a[1..]);
      assert [a[0]] + (a[1..] + b) == a + b;
      assert [a[0]] + a[1..] == a;
    }
  }

  lemma {:induction false} SuffixesAppend(a: seq<Edit>, b: seq<Edit>, k: Key)
    ensures Suffixes(a + b, k) == Suffixes(a, k) + Suffixes(b, k)
    decreases |a|
  {
    if a == [] {
      assert a + b == b;
      assert "" + Suffixes(b, k) == Suffixes(b, k);
    } else {
      SuffixesAppend(a[1..], b, k);
      assert (a + b)[0] == a[0] && (a + b)[1..] == a[1..] + b;
      assert Part(a[0], k) + (Suffixes(a[1..], k) + Suffixes(b, k))
          == (Part(a[0], k) + Suffixes(a[1..], k)) + Suffixes(b, k);
    }
  }

  lemma OnlyExtendsAppend(a: seq<Edit>, b: seq<Edit>, k: Key)
    ensures OnlyExtends(a + b, k) <==> OnlyExtends(a, k) && OnlyExtends(b, k)
  {
    if OnlyExtends(a + b, k) {
      forall i | 0 <= i < |a| && a[i].key == k ensures a[i].Extend? {
        assert (a + b)[i] == a[i];
      }
      forall i | 0 <= i < |b| && b[i].key == k ensures b[i].Extend? {
        assert (a + b)[|a| + i] == b[i];
      }
    }
  }

  /** A key only ever extended is never created. */
  lemma {:induction false} ExtendedNotCreated(es: seq<Edit>, k: Key)
    requires OnlyExtends(es, k)
    ensures k !in Created(es)
    decreases |es|
  {
    if es != [] {
      SummaryCons(es[0], es[1..]);
      assert [es[0]] + es[1..] == es;
      ExtendedNotCreated(es[1..], k);
    }
  }

  /** A touched key is the key of some statement. */
  lemma {:induction false} TouchedAt(es: seq<Edit>, k: Key) returns (i: nat)
    requires k in Touched(es)
    ensures i < |es| && es[i].key == k
    decreases |es|
  {
    if es[0].key == k {
      i := 0;
    } else {
      var j := TouchedAt(es[1..], k);
      i := j + 1;
    }
  }

  /** After a successful run, an extended key holds its old value followed
      by what was appended; an untouched key is as it was. */
  lemma AfterRun(o: Options, es: seq<Edit>, k: Key)
    requires ApplyAll(o, es).Ok?
    ensures k in o && OnlyExtends(es, k) ==>
      k in ApplyAll(o, es).value && ApplyAll(o, es).value[k] == o[k] + Suffixes(es, k)
    ensures k !in Touched(es) ==> Lookup(ApplyAll(o, es).value, k) == Lookup(o, k)
  {
    RunTrack(o, es, k);
    if k in o && OnlyExtends(es, k) {
      TrackExtends(o[k], es, k);
    }
    if k !in Touched(es) {
      TrackUntouched(Lookup(o, k), es, k);
    }
  }

  /** A successful run leaves every key it does not touch as it was. */
  lemma RunFrame(o: Options, es: seq<Edit>, touched: set<Key>)
    requires ApplyAll(o, es).Ok? && Touched(es) <= touched
    ensures forall k :: k !in touched ==> Lookup(ApplyAll(o, es).value, k) == Lookup(o, k)
  {
    forall k | k !in touched ensures Lookup(ApplyAll(o, es).value, k) == Lookup(o, k) {
      AfterRun(o, es, k);
    }
  }

  /** One successful step of the pipeline: it had a dictionary and a
      fragment, it added the fragment's created keys, an only-extended key
      gained the fragment's suffixes and an untouched key kept its value. */
  lemma ThenEffect(r: Result<Options, ConfigError>, fragment: Result<seq<Edit>, ConfigError>, k: Key)
    requires Then(r, fragment).Ok?
    ensures r.Ok? && fragment.Ok?
    ensures Then(r, fragment).value.Keys == r.value.Keys + Created(fragment.value)
    ensures k in r.value && OnlyExtends(fragment.value, k) ==>
      Lookup(Then(r, fragment).value, k) == Some(r.value[k] + Suffixes(fragment.value, k))
    ensures k !in Touched(fragment.value) ==> Lookup(Then(r, fragment).value, k) == Lookup(r.value, k)
  {
    ThenOk(r, fragment);
    RunKeys(r.value, fragment.value);
    AfterRun(r.value, fragment.value, k);
  }

  /** The key part of `ThenEffect` alone. */
  lemma ThenKeys(r: Result<Options, ConfigError>, fragment: Result<seq<Edit>, ConfigError>)
    requires Then(r, fragment).Ok?
    ensures r.Ok? && fragment.Ok?
    ensures Then(r, fragment).value.Keys == r.value.Keys + Created(fragment.value)
  {
    ThenOk(r, fragment);
    RunKeys(r.value, fragment.value);
  }

  /** The frame part of `ThenEffect` alone, for one key. */
  lemma ThenKeeps(r: Result<Options, ConfigError>, fragment: Result<seq<Edit>, ConfigError>, k: Key)
    requires Then(r, fragment).Ok? && fragment.Ok? && k !in Touched(fragment.value)
    ensures r.Ok? && Lookup(Then(r, fragment).value, k) == Lookup(r.value, k)
  {
    ThenOk(r, fragment);
    AfterRun(r.value, fragment.value, k);
  }

  /** A successful step leaves every key outside `touched` as it was. */
  lemma ThenFrame(r: Result<Options, ConfigError>, fragment: Result<seq<Edit>, ConfigError>, touched: set<Key>)
    requires Then(r, fragment).Ok? && fragment.Ok? && Touched(fragment.value) <= touched
    ensures r.Ok?
    ensures forall k :: k !in touched ==> Lookup(Then(r, fragment).value, k) == Lookup(r.value, k)
  {
    ThenOk(r, fragment);
    RunFrame(r.value, fragment.value, touched);
  }

  /** `+=` on a key that is `None` and that nothing assigns crashes the run. */
  lemma ExtendNoneCrashes(o: Options, es: seq<Edit>, k: Key)
    requires k !in o && k in Touched(es) && OnlyExtends(es, k)
    ensures ApplyAll(o, es).Err?
  {
    var i := TouchedAt(es, k);
    assert OnlyExtends(es[..i], k) by {
      forall j | 0 <= j < i && es[..i][j].key == k ensures es[..i][j].Extend? {
        assert es[..i][j] == es[j];
      }
    }
    ExtendedNotCreated(es[..i], k);
    assert ExtendsNone(o, es, i);
    RunCrashes(o, es);
  }

  /** A run whose every `+=` finds its key holding a value cannot crash. */
  lemma {:induction false} RunSafe(o: Options, es: seq<Edit>)
    requires Extended(es) <= o.Keys
    ensures ApplyAll(o, es).Ok?
    decreases |es|
  {
    if es != [] {
      var o1 := Apply(o, es[0]).value;
      RunSafe(o1, es[1..]);
    }
  }

  /** A successful step found a value in every key it only extends. */
  lemma ThenNeeds(r: Result<Options, ConfigError>, fragment: Result<seq<Edit>, ConfigError>, k: Key)
    requires Then(r, fragment).Ok? && fragment.Ok?
    requires k in Touched(fragment.value) && OnlyExtends(fragment.value, k)
    ensures r.Ok? && k in r.value
  {
    ThenOk(r, fragment);
    if k !in r.value {
      ExtendNoneCrashes(r.value, fragment.value, k);
    }
  }

  /** A fragment that only extends `k`, and does extend it, needs `k` and
      appends its suffixes to it. */
  lemma ThenGrows(r: Result<Options, ConfigError>, es: seq<Edit>, k: Key)
    requires Then(r, Ok(es)).Ok? && k in Touched(es) && OnlyExtends(es, k)
    ensures r.Ok? && k in r.value
    ensures Lookup(Then(r, Ok(es)).value, k) == Some(r.value[k] + Suffixes(es, k))
  {
    ThenNeeds(r, Ok(es), k);
    ThenEffect(r, Ok(es), k);
  }

  /** The one-statement fragment `options[k] += t`. */
  function Appends(k: Key, t: string): (r: seq<Edit>)
    ensures Created(r) == {} && Extended(r) == {k} && Touched(r) == {k}
    ensures OnlyExtends(r, k) && Suffixes(r, k) == t
  {
    var r := [Extend(k, t)];
    assert r[1..] == [];
    r
  }

  /** `options[k] += t` needs `k`, appends `t` to it and changes nothing else. */
  lemma ThenAppends(r: Result<Options, ConfigError>, k: Key, t: string, j: Key)
    requires Then(r, Ok(Appends(k, t))).Ok?
    ensures r.Ok? && k in r.value
    ensures j in Then(r, Ok(Appends(k, t))).value <==> j in r.value
    ensures Lookup(Then(r, Ok(Appends(k, t))).value, k) == Some(r.value[k] + t)
    ensures j != k ==> Lookup(Then(r, Ok(Appends(k, t))).value, j) == Lookup(r.value, j)
  {
    ThenGrows(r, Appends(k, t), k);
    ThenEffect(r, Ok(Appends(k, t)), j);
  }

  /** A fragment that leaves `k` alone, followed by `options[k] += t`. */
  lemma ThenAppendsAfter(r: Result<Options, ConfigError>, es: seq<Edit>, k: Key, t: string, j: Key)
    requires Then(Then(r, Ok(es)), Ok(Appends(k, t))).Ok? && k !in Touched(es)
    ensures r.Ok? && k in r.value
    ensures j in Then(Then(r, Ok(es)), Ok(Appends(k, t))).value <==> j in r.value || j in Created(es)
    ensures Lookup(Then(Then(r, Ok(es)), Ok(Appends(k, t))).value, k) == Some(r.value[k] + t)
    ensures j != k && j in r.value && OnlyExtends(es, j) ==>
      Lookup(Then(Then(r, Ok(es)), Ok(Appends(k, t))).value, j) == Some(r.value[j] + Suffixes(es, j))
    ensures j != k && j !in Touched(es) ==>
      Lookup(Then(Then(r, Ok(es)), Ok(Appends(k, t))).value, j) == Lookup(r.value, j)
  {
    ThenAppends(Then(r, Ok(es)), k, t, j);
    ThenEffect(r, Ok(es), j);
    ThenEffect(r, Ok(es), k);
  }

  /** A crashed run crashed on a `+=` to a key it extends that held no value. */
  lemma {:induction false} RunErrorKey(o: Options, es: seq<Edit>)
    requires ApplyAll(o, es).Err?
    ensures ApplyAll(o, es).error.NoneValue?
    ensures ApplyAll(o, es).error.key in Extended(es) && ApplyAll(o, es).error.key !in o
    decreases |es|
  {
    if Apply(o, es[0]).Ok? {
      var o1 := Apply(o, es[0]).value;
      RunErrorKey(o1, es[1..]);
    }
  }

  /** A step that crashes while running its fragment names the missing key. */
  lemma ThenErrorKey(r: Result<Options, ConfigError>, fragment: Result<seq<Edit>, ConfigError>)
    requires r.Ok? && fragment.Ok? && Then(r, fragment).Err?
    ensures Then(r, fragment).error.NoneValue?
    ensures Then(r, fragment).error.key in Extended(fragment.value)
    ensures Then(r, fragment).error.key !in r.value
  {
    RunErrorKey(r.value, fragment.value);
  }

  /** A one-statement step that puts text in front of `k` (or of `None`);
      every other key `j` keeps its value. */
  lemma ThenPrepend(r: Result<Options, ConfigError>, k: Key, p: string, j: Key)
    requires r.Ok?
    ensures Then(r, Ok([Prepend(k, p)])).Ok?
    ensures Then(r, Ok([Prepend(k, p)])).value.Keys == r.value.Keys + {k}
    ensures Lookup(Then(r, Ok([Prepend(k, p)])).value, k) == Some(p + Show(Lookup(r.value, k)))
    ensures j != k ==> Lookup(Then(r, Ok([Prepend(k, p)])).value, j) == Lookup(r.value, j)
  {
    var es := [Prepend(k, p)];
    var o1 := r.value[k := p + Show(Lookup(r.value, k))];
    assert es[1..] == [];
    assert Apply(r.value, es[0]) == Ok(o1);
    assert ApplyAll(r.value, es) == ApplyAll(o1, []) == Ok(o1);
  }

  /** A fragment followed by a one-statement step that puts `p` in front of `k`. */
  lemma ThenPrependAfter(r: Result<Options, ConfigError>, es: seq<Edit>, k: Key, p: string, j: Key)
    requires Then(Then(r, Ok(es)), Ok([Prepend(k, p)])).Ok?
    ensures r.Ok? && Then(r, Ok(es)).Ok?
    ensures j in Then(Then(r, Ok(es)), Ok([Prepend(k, p)])).value <==> j in r.value || j in Created(es) || j == k
    ensures k !in Touched(es) ==>
      Lookup(Then(Then(r, Ok(es)), Ok([Prepend(k, p)])).value, k) == Some(p + Show(Lookup(r.value, k)))
    ensures j != k && j in r.value && OnlyExtends(es, j) ==>
      Lookup(Then(Then(r, Ok(es)), Ok([Prepend(k, p)])).value, j) == Some(r.value[j] + Suffixes(es, j))
    ensures j != k && j !in Touched(es) ==>
      Lookup(Then(Then(r, Ok(es)), Ok([Prepend(k, p)])).value, j) == Lookup(r.value, j)
  {
    var r1 := Then(r, Ok(es));
    ThenEffect(r, Ok(es), j);
    ThenEffect(r, Ok(es), k);
    ThenPrepend(r1, k, p, j);
  }

  /** Two successful steps in a row: their created keys are added, a key
      both only extend gains both suffixes, a key neither touches is kept. */
  lemma TwoSteps(r: Result<Options, ConfigError>, a: Result<seq<Edit>, ConfigError>,
                 b: Result<seq<Edit>, ConfigError>, k: Key)
    requires Then(Then(r, a), b).Ok?
    ensures r.Ok? && a.Ok? && b.Ok?
    ensures Then(Then(r, a), b).value.Keys == r.value.Keys + Created(a.value) + Created(b.value)
    ensures k in r.value && OnlyExtends(a.value, k) && OnlyExtends(b.value, k) ==>
      Lookup(Then(Then(r, a), b).value, k) == Some(r.value[k] + Suffixes(a.value, k) + Suffixes(b.value, k))
    ensures k in r.value && k !in Touched(a.value) && OnlyExtends(b.value, k) ==>
      Lookup(Then(Then(r, a), b).value, k) == Some(r.value[k] + Suffixes(b.value, k))
    ensures k !in Touched(a.value) && k !in Touched(b.value) ==>
      Lookup(Then(Then(r, a), b).value, k) == Lookup(r.value, k)
  {
    ThenEffect(Then(r, a), b, k);
    ThenEffect(r, a, k);
  }

  /** A step whose fragment is empty changes nothing. */
  lemma ThenEmpty(r: Result<Options, ConfigError>, fragment: Result<seq<Edit>, ConfigError>)
    requires Then(r, fragment).Ok? && (fragment.Ok? ==> fragment.value == [])
    ensures Then(r, fragment) == r
  {
  }

  /** Two successful steps that both leave `k` alone leave it as it was. */
  lemma UntouchedTwice(r: Result<Options, ConfigError>, a: Result<seq<Edit>, ConfigError>,
                       b: Result<seq<Edit>, ConfigError>, touched: set<Key>, k: Key)
    requires Then(Then(r, a), b).Ok? && k !in touched
    requires a.Ok? ==> Touched(a.value) <= touched
    requires b.Ok? ==> Touched(b.value) <= touched
    ensures r.Ok? && Lookup(Then(Then(r, a), b).value, k) == Lookup(r.value, k)
  {
    ThenEffect(Then(r, a), b, k);
    ThenEffect(r, a, k);
  }

  /** A step on a dictionary holding every key the fragment extends cannot crash. */
  lemma ThenSafe(r: Result<Options, ConfigError>, fragment: Result<seq<Edit>, ConfigError>)
    requires r.Ok? && fragment.Ok? && Extended(fragment.value) <= r.value.Keys
    ensures Then(r, fragment).Ok?
  {
    RunSafe(r.value, fragment.value);
  }

  /** Running two runs one after the other is running their concatenation. */
  lemma {:induction false} ApplyAllAppend(o: Options, a: seq<Edit>, b: seq<Edit>)
    ensures ApplyAll(o, a + b) == (match ApplyAll(o, a) case Err(e) => Err(e) case Ok(o1) => ApplyAll(o1, b))
    decreases |a|
  {
    if a == [] {
      assert a + b == b;
    } else {
      assert (a + b)[0] == a[0];
      assert (a + b)[1..] == a[1..] + b;
      match Apply(o, a[0])
      case Err(_) =>
      case Ok(o1) => ApplyAllAppend(o1, a[1..], b);
    }
  }
}
