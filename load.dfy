/** The loader (load.go): walk a root directory, parse each template directory's
    three files, and fill a Getter all-or-nothing. */
module Loading {
  import opened Results
  import opened FilePaths
  import opened Templates
  import opened Getters
  import opened Options

  /** The file name of the subject template. */
  const SubjectFile: string := "subject.txt"
  /** The file name of the HTML template. */
  const HTMLFile: string := "html.html"
  /** The file name of the text template. */
  const TextFile: string := "text.txt"

  /** Which template package parses a file: `text/template` or `html/template`. */
  datatype Engine = TextEngine | HTMLEngine

  /** The outcome of `New(name).Funcs(fm).ParseFiles(file)`. */
  datatype ParseOutcome = Parsed(handle: Handle) | Failed(err: Error)

  /** The template engines' parsers together with the file system they read,
      left uninterpreted. */
  type Parser = (Engine, FuncMap, string) -> ParseOutcome

  /** One call of the walk callback: the visited path, whether it is a
      directory, and the error the walk passes along with it. */
  datatype WalkEntry = WalkEntry(path: string, isDir: bool, err: Option<Error>)

  // ---------------------------------------------------------------- the walk

  /** The walk callback applied to one entry and the paths collected so far. */
  function Visit(root: string, e: WalkEntry, paths: map<Key, string>): Result<map<Key, string>>
  {
    if e.err.Some? then Err(e.err.value)
    else if e.path == root || !e.isDir then Ok(paths)
    else Ok(paths[Key(Base(e.path)) := e.path])
  }

  /** The walk of `Load`: the callback over the entries in walk order, stopping
      at the first error it returns. */
  function Collect(root: string, entries: seq<WalkEntry>): Result<map<Key, string>>
  {
    if entries == [] then Ok(map[])
    else
      match Collect(root, entries[..|entries| - 1])
      case Err(e) => Err(e)
      case Ok(paths) => Visit(root, entries[|entries| - 1], paths)
  }

  /** The entry is a directory below the root that the callback records at `k`. */
  predicate Records(root: string, e: WalkEntry, k: Key)
  {
    e.err.None? && e.path != root && e.isDir && Key(Base(e.path)) == k
  }

  /** A directory below the root, reached as `name` inside `dir`, is recorded
      under its own name. */
  lemma DirectoryRecordedUnderItsName(root: string, dir: string, name: string, isDir: bool)
    requires name != [] && '/' !in name
    requires isDir && Join(dir, name) != root
    ensures Records(root, WalkEntry(Join(dir, name), isDir, None), Key(name))
  {
    BaseOfJoin(dir, name);
  }

  /** The path of the last entry recorded at `k`, if any. */
  function LastRecorded(root: string, entries: seq<WalkEntry>, k: Key): Option<string>
  {
    if entries == [] then None
    else if Records(root, entries[|entries| - 1], k) then Some(entries[|entries| - 1].path)
    else LastRecorded(root, entries[..|entries| - 1], k)
  }

  /** `LastRecorded` misses exactly when no entry is recorded at `k`. */
  lemma {:induction false} LastRecordedMisses(root: string, entries: seq<WalkEntry>, k: Key)
    ensures LastRecorded(root, entries, k).None? <==>
      forall i :: 0 <= i < |entries| ==> !Records(root, entries[i], k)
  {
    if entries != [] {
      var prefix := entries[..|entries| - 1];
      LastRecordedMisses(root, prefix, k);
      assert forall i :: 0 <= i < |prefix| ==> prefix[i] == entries[i];
    }
  }

  /** When entry `i` is the last one recorded at `k`, its path is the one found. */
  lemma {:induction false} LastRecordedFinds(root: string, entries: seq<WalkEntry>, k: Key, i: nat)
    requires i < |entries| && Records(root, entries[i], k)
    requires forall j :: i < j < |entries| ==> !Records(root, entries[j], k)
    ensures LastRecorded(root, entries, k) == Some(entries[i].path)
  {
    var n := |entries|;
    if i < n - 1 {
      var prefix := entries[..n - 1];
      assert forall j :: 0 <= j < n - 1 ==> prefix[j] == entries[j];
      LastRecordedFinds(root, prefix, k, i);
    }
  }

  /** Once the walk has failed, later entries do not matter: the first error wins. */
  lemma {:induction false} CollectKeepsError(root: string, entries: seq<WalkEntry>, n: nat, e: Error)
    requires n <= |entries| && Collect(root, entries[..n]) == Err(e)
    ensures Collect(root, entries) == Err(e)
  {
    if n < |entries| {
      var prefix := entries[..|entries| - 1];
      assert prefix[..n] == entries[..n];
      CollectKeepsError(root, prefix, n, e);
    } else {
      assert entries[..n] == entries;
    }
  }

  /** The walk fails exactly when some entry carries an error, and then with
      the error of the first such entry. */
  lemma {:induction false} CollectFailsAtFirstError(root: string, entries: seq<WalkEntry>, i: nat)
    requires i < |entries| && entries[i].err.Some?
    requires forall j :: 0 <= j < i ==> entries[j].err.None?
    ensures Collect(root, entries) == Err(entries[i].err.value)
  {
    CollectOkWithoutErrors(root, entries[..i]);
    assert entries[..i + 1][..i] == entries[..i];
    CollectKeepsError(root, entries, i + 1, entries[i].err.value);
  }

  /** Without errors the walk succeeds, and each key maps to the path of the last
      directory below the root whose base name it is. Nested directories are
      recorded too: the walk descends. */
  lemma {:induction false} CollectOkWithoutErrors(root: string, entries: seq<WalkEntry>)
    requires forall j :: 0 <= j < |entries| ==> entries[j].err.None?
    ensures Collect(root, entries).Ok?
    ensures forall k :: Lookup(Collect(root, entries).value, k) == LastRecorded(root, entries, k)
  {
    if entries != [] {
      var prefix := entries[..|entries| - 1];
      CollectOkWithoutErrors(root, prefix);
    }
  }

  // ------------------------------------------------------------ the parts

  /** `loadParts`' decision on the three parse outcomes: subject, then HTML, are
      required; a text file that does not exist is tolerated, any other text
      error is fatal. */
  function Classify(subject: ParseOutcome, html: ParseOutcome, text: ParseOutcome): (r: Result<Template>)
    ensures r.Ok? <==> subject.Parsed? && html.Parsed? && (text.Parsed? || text.err.NotExist?)
    ensures subject.Failed? ==> r == Err(subject.err)
    ensures subject.Parsed? && html.Failed? ==> r == Err(html.err)
    ensures subject.Parsed? && html.Parsed? && text.Failed? && !text.err.NotExist? ==> r == Err(text.err)
    ensures r.Ok? ==> r.value.subject == subject.handle && r.value.html == html.handle
    ensures r.Ok? ==> r.value.text == if text.Parsed? then Some(text.handle) else None
  {
    if subject.Failed? then Err(subject.err)
    else if html.Failed? then Err(html.err)
    else if text.Failed? && !text.err.NotExist? then Err(text.err)
    else Ok(Template(subject.handle, html.handle, if text.Parsed? then Some(text.handle) else None))
  }

  /** Parsing the subject file of the template directory `path`. */
  function ParseSubject(c: LoaderConfig, parse: Parser, path: string): ParseOutcome
  {
    parse(TextEngine, c.subjectFuncMap, Join(path, SubjectFile))
  }

  /** Parsing the HTML file of the template directory `path`. */
  function ParseHTML(c: LoaderConfig, parse: Parser, path: string): ParseOutcome
  {
    parse(HTMLEngine, c.htmlFuncMap, Join(path, HTMLFile))
  }

  /** Parsing the text file of the template directory `path`. */
  function ParseText(c: LoaderConfig, parse: Parser, path: string): ParseOutcome
  {
    parse(TextEngine, c.textFuncMap, Join(path, TextFile))
  }

  /** The template (or error) that `loadParts(path)` yields. */
  function Parts(c: LoaderConfig, parse: Parser, path: string): Result<Template>
  {
    Classify(ParseSubject(c, parse, path), ParseHTML(c, parse, path), ParseText(c, parse, path))
  }

  /** The only path on which `loadParts` writes a warning: both required parts
      parsed and the text file does not exist. */
  predicate TextNotFound(c: LoaderConfig, parse: Parser, path: string)
  {
    && ParseSubject(c, parse, path).Parsed?
    && ParseHTML(c, parse, path).Parsed?
    && ParseText(c, parse, path).Failed?
    && ParseText(c, parse, path).err.NotExist?
  }

  /** The warning line logged for a missing text file. */
  function Warning(e: Error): string
  {
    "warning: text email template not found. error: " + e.message
  }

  // ------------------------------------------------------------- the fill

  /** Every template directory parses. */
  predicate AllParse(c: LoaderConfig, parse: Parser, paths: map<Key, string>)
  {
    forall k :: k in paths ==> Parts(c, parse, paths[k]).Ok?
  }

  /** The registry contents when every directory parses: each key's template. */
  function AllLoaded(c: LoaderConfig, parse: Parser, paths: map<Key, string>): map<Key, Template>
    requires AllParse(c, parse, paths)
  {
    map k | k in paths :: Parts(c, parse, paths[k]).value
  }

  /** The outcomes `load(paths)` may have. Map iteration order is unspecified,
      so when several directories fail, the error of any one of them may be
      the one returned. */
  ghost predicate LoadedFrom(c: LoaderConfig, parse: Parser, paths: map<Key, string>, result: Result<map<Key, Template>>)
  {
    if AllParse(c, parse, paths) then result == Ok(AllLoaded(c, parse, paths))
    else result.Err? && exists k :: k in paths && Parts(c, parse, paths[k]) == Err(result.error)
  }

  /** The map of every directory's template is the successful outcome. */
  lemma LoadedFromSuccess(c: LoaderConfig, parse: Parser, paths: map<Key, string>, m: map<Key, Template>)
    requires forall k :: k in paths ==> Parts(c, parse, paths[k]).Ok?
    requires m.Keys == paths.Keys
    requires forall k :: k in m ==> m[k] == Parts(c, parse, paths[k]).value
    ensures LoadedFrom(c, parse, paths, Ok(m))
  {
    assert m == AllLoaded(c, parse, paths);
  }

  /** On success the registry has one entry per template directory. */
  lemma LoadedSize(c: LoaderConfig, parse: Parser, paths: map<Key, string>)
    requires AllParse(c, parse, paths)
    ensures AllLoaded(c, parse, paths).Keys == paths.Keys
    ensures |AllLoaded(c, parse, paths)| == |paths|
  {
  }

  /** Loading is all-or-nothing, and every failing directory's error is a possible report. */
  lemma LoadedFromFailure(c: LoaderConfig, parse: Parser, paths: map<Key, string>, k: Key)
    requires k in paths && Parts(c, parse, paths[k]).Err?
    ensures LoadedFrom(c, parse, paths, Err(Parts(c, parse, paths[k]).error))
    ensures forall m :: !LoadedFrom(c, parse, paths, Ok(m))
  {
  }

  /** No template directories: an empty registry and no error is the only outcome. */
  lemma LoadedFromNothing(c: LoaderConfig, parse: Parser, result: Result<map<Key, Template>>)
    ensures LoadedFrom(c, parse, map[], result) <==> result == Ok(map[])
  {
    assert AllLoaded(c, parse, map[]) == map[];
  }

  // ------------------------------------------------------------ the Loader

  /** The logger of a configuration, if any: the only object loading writes to. */
  function LoggerFrame(c: LoaderConfig): set<object>
  {
    if c.logger == null then {} else {c.logger}
  }

  /** `Loader`: the configuration that `newLoader` builds from the options. */
  class Loader {
    var rootPath: string
    var subjectFuncMap: FuncMap
    var htmlFuncMap: FuncMap
    var textFuncMap: FuncMap
    var logger: Logger?

    /** The Loader's fields as one value. */
    function Config(): LoaderConfig
      reads this
    {
      LoaderConfig(rootPath, subjectFuncMap, htmlFuncMap, textFuncMap, logger)
    }

    /** `newLoader(opts...)`: a zero Loader with each option applied in order. */
    constructor (opts: seq<LoaderOpt>)
      ensures Config() == Configure(opts)
    {
      rootPath, subjectFuncMap, htmlFuncMap, textFuncMap, logger := "", map[], map[], map[], null;
      new;
      var i := 0;
      while i < |opts|
        invariant i <= |opts|
        invariant Config() == Configure(opts[..i])
      {
        Apply(opts[i]);
        assert opts[..i + 1][..i] == opts[..i];
        i := i + 1;
      }
      assert opts[..|opts|] == opts;
    }

    /** Running one option's closure: it assigns the one field it names. */
    method Apply(opt: LoaderOpt)
      modifies this
      ensures Config() == Applied(old(Config()), opt)
    {
      match opt
      case WithRootPath(p) => rootPath := p;
      case WithSubjectFuncMap(fm) => subjectFuncMap := fm;
      case WithHTMLFuncMap(fm) => htmlFuncMap := fm;
      case WithTextFuncMap(fm) => textFuncMap := fm;
      case WithLogger(lg) => logger := lg;
    }

    /** `loadParts`: parse subject, HTML and text of one template directory,
        returning early on a required part's error, and warning through the
        logger, if there is one, when the text file does not exist. */
    method LoadParts(templatePath: string, parse: Parser) returns (r: Result<Template>)
      modifies LoggerFrame(Config())
      ensures r == Parts(Config(), parse, templatePath)
      ensures logger != null ==>
        logger.lines == old(logger.lines) +
          (if TextNotFound(Config(), parse, templatePath)
           then [Warning(ParseText(Config(), parse, templatePath).err)] else [])
    {
      var st := parse(TextEngine, subjectFuncMap, Join(templatePath, SubjectFile));
      if st.Failed? {
        return Err(st.err);
      }
      var ht := parse(HTMLEngine, htmlFuncMap, Join(templatePath, HTMLFile));
      if ht.Failed? {
        return Err(ht.err);
      }
      var tt := parse(TextEngine, textFuncMap, Join(templatePath, TextFile));
      if tt.Failed? && tt.err.NotExist? {
        if logger != null {
          logger.Printf(Warning(tt.err));
        }
      } else if tt.Failed? {
        return Err(tt.err);
      }
      return Ok(Template(st.handle, ht.handle, if tt.Parsed? then Some(tt.handle) else None));
    }

    /** `load`: a fresh Getter filled with every directory's template, in an
        arbitrary key order, or nil and the first error met. */
    method LoadPaths(templatePaths: map<Key, string>, parse: Parser) returns (g: Getter?, err: Option<Error>)
      modifies LoggerFrame(Config())
      ensures g == null <==> err.Some?
      ensures g != null ==> fresh(g) && g.Valid()
      ensures g != null ==> LoadedFrom(Config(), parse, templatePaths, Ok(g.m))
      ensures err.Some? ==> LoadedFrom(Config(), parse, templatePaths, Err(err.value))
      ensures logger != null ==> old(logger.lines) <= logger.lines
    {
      ghost var c := Config();
      g := new Getter();
      var remaining := templatePaths.Keys;
      ghost var done: set<Key> := {};
      while remaining != {}
        invariant remaining <= templatePaths.Keys && done == templatePaths.Keys - remaining
        invariant Config() == c
        invariant fresh(g) && g.Valid()
        invariant forall k :: k in done ==> Parts(c, parse, templatePaths[k]).Ok?
        invariant g.m.Keys == done
        invariant forall k :: k in done ==> g.m[k] == Parts(c, parse, templatePaths[k]).value
        invariant logger != null ==> old(logger.lines) <= logger.lines
        decreases remaining
      {
        var k :| k in remaining;
        var t := LoadParts(templatePaths[k], parse);
        if t.Err? {
          LoadedFromFailure(c, parse, templatePaths, k);
          return null, Some(t.error);
        }
        g.Set(k, t.value);
        remaining := remaining - {k};
        done := done + {k};
      }
      LoadedFromSuccess(c, parse, templatePaths, g.m);
      err := None;
    }
  }

  /** `Load`: build the Loader, walk its root path collecting template
      directories, then fill a Getter from them. The file system's answer for
      the root is the `walk` parameter. */
  method Load(opts: seq<LoaderOpt>, walk: string -> seq<WalkEntry>, parse: Parser) returns (g: Getter?, err: Option<Error>)
    modifies LoggerFrame(Configure(opts))
    ensures g == null <==> err.Some?
    ensures g != null ==> fresh(g) && g.Valid()
    ensures var c := Configure(opts);
      match Collect(c.rootPath, walk(c.rootPath))
      case Err(e) => g == null && err == Some(e)
      case Ok(paths) => LoadedFrom(c, parse, paths, if g == null then Err(err.value) else Ok(g.m))
    ensures Configure(opts).logger != null ==>
      old(Configure(opts).logger.lines) <= Configure(opts).logger.lines
  {
    ghost var c := Configure(opts);
    assert c.logger != null ==> WithLogger(c.logger) in opts;
    ghost var before := if c.logger == null then [] else c.logger.lines;
    var l := new Loader(opts);
    var entries := walk(l.rootPath);
    var templatePaths: map<Key, string> := map[];
    var i := 0;
    while i < |entries|
      invariant i <= |entries|
      invariant Collect(l.rootPath, entries[..i]) == Ok(templatePaths)
      invariant l.Config() == c
      invariant c.logger != null ==> c.logger.lines == before
    {
      var e := entries[i];
      assert entries[..i + 1][..i] == entries[..i];
      if e.err.Some? {
        CollectKeepsError(l.rootPath, entries, i + 1, e.err.value);
        return null, e.err;
      }
      if e.path != l.rootPath && e.isDir {
        templatePaths := templatePaths[Key(Base(e.path)) := e.path];
      }
      i := i + 1;
    }
    assert entries[..|entries|] == entries;
    g, err := l.LoadPaths(templatePaths, parse);
    assert l.Config() == c;
  }
}
