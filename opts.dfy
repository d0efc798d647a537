/** Loader options (opts.go): each option assigns one field of the loader's configuration. */
module Options {

  /** A callable supplied to a template's function table; opaque here. */
  datatype Func = Func(id: nat)

  /** A `FuncMap`: function names to callables. The nil map of a zero Loader
      reads as the empty map. */
  type FuncMap = map<string, Func>

  /** A `log.Logger`, reduced to the lines it has written. */
  class Logger {
    var lines: seq<string>

    constructor ()
      ensures lines == []
    {
      lines := [];
    }

    /** `Printf` of an already formatted line. */
    method Printf(line: string)
      modifies this
      ensures lines == old(lines) + [line]
    {
      lines := lines + [line];
    }
  }

  /** A `LoaderOpt`: the source's closures, one constructor per `With*` function,
      carrying the value the closure captures. */
  datatype LoaderOpt =
    | WithRootPath(rootPath: string)
    | WithSubjectFuncMap(subjectFuncs: FuncMap)
    | WithHTMLFuncMap(htmlFuncs: FuncMap)
    | WithTextFuncMap(textFuncs: FuncMap)
    | WithLogger(logger: Logger?)

  /** The fields of a `Loader`, as one value. */
  datatype LoaderConfig = LoaderConfig(
    rootPath: string,
    subjectFuncMap: FuncMap,
    htmlFuncMap: FuncMap,
    textFuncMap: FuncMap,
    logger: Logger?)

  /** The names of the Loader's fields. */
  datatype Field = RootPath | SubjectFuncs | HTMLFuncs | TextFuncs | Log

  /** The zero-valued Loader (`&Loader{}`). */
  const Zero: LoaderConfig := LoaderConfig("", map[], map[], map[], null)

  /** The field an option assigns. */
  function FieldOf(opt: LoaderOpt): Field
  {
    match opt
    case WithRootPath(_) => RootPath
    case WithSubjectFuncMap(_) => SubjectFuncs
    case WithHTMLFuncMap(_) => HTMLFuncs
    case WithTextFuncMap(_) => TextFuncs
    case WithLogger(_) => Log
  }

  /** `c` and `d` agree on field `f`. */
  predicate SameAt(c: LoaderConfig, d: LoaderConfig, f: Field)
  {
    match f
    case RootPath => c.rootPath == d.rootPath
    case SubjectFuncs => c.subjectFuncMap == d.subjectFuncMap
    case HTMLFuncs => c.htmlFuncMap == d.htmlFuncMap
    case TextFuncs => c.textFuncMap == d.textFuncMap
    case Log => c.logger == d.logger
  }

  /** The field that `opt` assigns holds the value `opt` carries. */
  predicate Holds(c: LoaderConfig, opt: LoaderOpt)
  {
    match opt
    case WithRootPath(p) => c.rootPath == p
    case WithSubjectFuncMap(fm) => c.subjectFuncMap == fm
    case WithHTMLFuncMap(fm) => c.htmlFuncMap == fm
    case WithTextFuncMap(fm) => c.textFuncMap == fm
    case WithLogger(lg) => c.logger == lg
  }

  /** The configuration after running one option's closure on it. */
  function Applied(c: LoaderConfig, opt: LoaderOpt): (r: LoaderConfig)
    ensures Holds(r, opt)
    ensures forall f :: f != FieldOf(opt) ==> SameAt(r, c, f)
  {
    match opt
    case WithRootPath(p) => c.(rootPath := p)
    case WithSubjectFuncMap(fm) => c.(subjectFuncMap := fm)
    case WithHTMLFuncMap(fm) => c.(htmlFuncMap := fm)
    case WithTextFuncMap(fm) => c.(textFuncMap := fm)
    case WithLogger(lg) => c.(logger := lg)
  }

  /** The configuration `newLoader(opts...)` builds: the zero Loader with the
      options applied in argument order. */
  function Configure(opts: seq<LoaderOpt>): (r: LoaderConfig)
    ensures r.logger != null ==> WithLogger(r.logger) in opts
  {
    if opts == [] then Zero else Applied(Configure(opts[..|opts| - 1]), opts[|opts| - 1])
  }

  /** The last option that assigns a field decides that field. */
  lemma {:induction false} ConfigureLastWins(opts: seq<LoaderOpt>, i: nat)
    requires i < |opts|
    requires forall j :: i < j < |opts| ==> FieldOf(opts[j]) != FieldOf(opts[i])
    ensures Holds(Configure(opts), opts[i])
  {
    var n := |opts|;
    if i < n - 1 {
      var prefix := opts[..n - 1];
      ConfigureLastWins(prefix, i);
      var f := FieldOf(opts[i]);
      assert SameAt(Configure(opts), Configure(prefix), f);
      match opts[i]
      case WithRootPath(_) =>
      case WithSubjectFuncMap(_) =>
      case WithHTMLFuncMap(_) =>
      case WithTextFuncMap(_) =>
      case WithLogger(_) =>
    }
  }

  /** A field that no option assigns keeps its zero value. */
  lemma {:induction false} ConfigureUntouched(opts: seq<LoaderOpt>, f: Field)
    requires forall j :: 0 <= j < |opts| ==> FieldOf(opts[j]) != f
    ensures SameAt(Configure(opts), Zero, f)
  {
    if opts != [] {
      var prefix := opts[..|opts| - 1];
      ConfigureUntouched(prefix, f);
      assert SameAt(Configure(opts), Configure(prefix), f);
      match f
      case RootPath =>
      case SubjectFuncs =>
      case HTMLFuncs =>
      case TextFuncs =>
      case Log =>
    }
  }
}
