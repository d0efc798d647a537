# emailtemplate, modelled in Dafny

This project models the core of `emailtemplate`, a Go package. The package loads a directory tree of email templates into a registry keyed by name. Each template directory holds a subject, an HTML body and an optional plain-text body. The package then renders one entry against caller data into three buffers. The template engines (`text/template`, `html/template`), the file system and the logger are outside the model. They enter as parameters or small stand-ins:

- parsing is an uninterpreted `Parser` from an engine, a function table and a file path to `Parsed(handle)` or `Failed(error)`;
- rendering is an uninterpreted `Renderer` from a parsed handle and the data to the output written plus an optional error;
- the directory walk is a function from the root path to the sequence of callback calls `(path, isDir, err)` that `filepath.Walk` makes;
- an error is `NotExist(msg)` or `Other(msg)`, because `os.IsNotExist` is the only question the code asks of one;
- the logger is a class that keeps the lines written to it.

Modules, one per source file, plus two helpers:

- `Results` (results.dfy): the error type, `Option`, `Result`, and map lookup.
- `FilePaths` (filepaths.dfy): `filepath.Base` and `filepath.Join`.
- `Templates` (templates.dfy, for template.go): `Template` has required subject and HTML handles and an optional text handle. `Execute` allocates three `Buffer`s and renders in order with early returns. `Executed` is its specification.
- `Getters` (getter.go): `Getter` is a class with the map field `m` that `Set` updates in place. A ghost `history` records every `set`, and `Valid()` ties `m` to `Replay(history)`.
- `Options` (opts.go): each `With*` closure becomes a constructor of `LoaderOpt`. `Applied` says what one closure does to the Loader's fields. `Configure` is `newLoader`'s fold over the options.
- `Loading` (load.go): the file-name constants `subject.txt`, `html.html` and `text.txt`; the walk filter `Collect`; the classification `Classify`; the `Loader` class with `newLoader` as its constructor, `Apply`, `LoadParts` and `LoadPaths` (the source's `load`); and `Load`.

Two facts about the Go code shape the model:

- The walk is recursive. The callback never returns `filepath.SkipDir`, so nested directories also become keys. A later directory with the same base name replaces an earlier one.
- `load` ranges over a Go map, so its order is unspecified. `LoadPaths` picks the next key arbitrarily (`:|`). When several directories fail, which one's error is returned is unspecified: `LoadedFrom` allows any of them.

## Model

| member | source | states |
|---|---|---|
| Getters.Getter.constructor | getter.go:19-21 | `newGetter` gives an empty table with an empty set history, so `Len` is 0 and every `Get` misses |
| Getters.Getter.Get | getter.go:24-29 | `ok` holds exactly when `k` is in the table; the result is `Some(m[k])` or `None`, and it equals the template of the last `set` at `k` |
| Getters.Getter.Set | getter.go:32-36 | the table becomes `old(m)[k := t]`: `k` is overwritten and every other entry is unchanged; the history gains `(k, t)` |
| Getters.Getter.Len | getter.go:39-47 | 0 for a nil Getter; otherwise the table's size, which is the number of distinct keys ever set |
| Getters.ReplayIsLastSet | getter.go:24-36 | in the table built by a sequence of `set` calls, a lookup of `k` gives the last template set at `k`, or nothing if `k` was never set |
| Getters.ReplayKeys | getter.go:43-46 | the table built by a sequence of `set` calls holds exactly the keys that were set |
| Getters.ReplaySize | getter.go:32-46 | one more `set` adds 1 to `len` for a new key and leaves it unchanged for a key already present |
| Templates.Executed | template.go:23-40 | the returned subject is the subject render. A subject error returns at once with empty HTML and text. An HTML error keeps the subject and leaves text empty. An absent text part is skipped without error. A text error puts the text output in both the HTML and the text slot. With no error, each slot holds its own part's render |
| Templates.Execute | template.go:23-40 | three fresh buffers, the subject buffer distinct from the other two; the returned contents and error are `Executed`'s; the HTML and text results are the same buffer exactly when the text part failed |
| Templates.ExecutedAsIntended | template.go:35-37 | the corrected result: it agrees with `Executed` except that on a text failure the HTML slot keeps the HTML render |
| Templates.TextFailureHidesHtml | template.go:35-37 | as written, a failing text part whose output differs from the HTML render hides that render from the caller, and the corrected result does not |
| Templates.TextFailureExample | template.go:35-37 | a concrete case: the subject renders "hello JANE" and the HTML "<p>dear JANE</p>", the text part writes "dear " and fails; the caller's HTML slot reads "dear " |
| Options.Applied | opts.go:12-48 | running one option sets the field that option names to the value it carries, and every other Loader field keeps its value |
| Options.Configure | load.go:29-35 | the Loader that `newLoader` builds has no logger, or the logger of one of its options |
| Options.ConfigureLastWins | load.go:29-35 | options apply in argument order: when several options set one field, the last one decides it |
| Options.ConfigureUntouched | load.go:29-35 | a field that no option sets keeps the zero Loader's value, so no options give a zero-valued Loader |
| Loading.Loader.constructor | load.go:29-35 | `newLoader(opts...)` builds the Loader whose fields are `Configure(opts)` |
| Loading.Loader.Apply | opts.go:10-48 | calling an option's closure on the Loader changes its fields as `Applied` says |
| FilePaths.Base | load.go:53 | the key's base name is never empty; it is "/" or free of separators; an empty path gives "." |
| FilePaths.BaseOfJoin | load.go:53 | the base name of `dir` joined with a separator-free name is that name |
| Loading.CollectKeepsError | load.go:43-46 | once a walk callback has returned an error, later entries do not change the outcome |
| Loading.CollectFailsAtFirstError | load.go:43-58 | the walk fails with the error of the first entry that carries one |
| Loading.CollectOkWithoutErrors | load.go:43-55 | without errors the walk succeeds. A lookup of each key gives the path of the last directory entry whose base name is that key, other than the root itself and non-directories, at any depth |
| Loading.DirectoryRecordedUnderItsName | load.go:47-54 | a directory other than the root, reached as `name` inside its parent, is recorded under the key `name` |
| Loading.LastRecordedMisses | load.go:47-54 | no path is recorded at a key exactly when no visited directory other than the root has that base name |
| Loading.LastRecordedFinds | load.go:47-54 | when several directories share a base name, the last one visited is the one recorded |
| Loading.Classify | load.go:85-117 | a template results exactly when subject and HTML parsed and the text file parsed or does not exist. A subject error is reported before an HTML error, which is reported before a fatal text error. The result carries the parsed handles, with text absent when its file does not exist |
| Loading.Loader.LoadParts | load.go:85-117 | parses `subject.txt`, `html.html` and `text.txt` under the directory with the matching function tables, and returns `Classify` of the outcomes. With a logger, it logs one warning line exactly when the text file is missing and the required parts parsed; otherwise the log is unchanged |
| Loading.LoadedFromSuccess | load.go:65-76 | a table holding every directory's template at its key is the successful outcome of `load` |
| Loading.LoadedSize | load.go:66-76 | on success the registry has exactly the keys of the path map, so its `len` is the number of keys |
| Loading.LoadedFromFailure | load.go:68-72 | if any directory fails, `load` cannot succeed, and the error of each failing directory is a possible result |
| Loading.LoadedFromNothing | load.go:65-76 | with no template paths the only outcome is an empty registry and no error |
| Loading.Loader.LoadPaths | load.go:65-77 | returns nil with an error or a fresh valid Getter without one. The outcome is one that `LoadedFrom` allows: all-or-nothing, every key mapped to its directory's template, any failing directory's error. The log only grows |
| Loading.Load | load.go:37-61 | builds the Loader from the options and walks its root path. A walk error returns nil and that error. Otherwise the result is `load` of the collected paths. The configured logger's log only grows |

## Left out

- Concurrency: the `sync.RWMutex` in `Getter` only orders concurrent calls; the model is sequential.
- Template syntax, parsing, HTML escaping and function-table invocation belong to Go's template packages; parse and render are uninterpreted parameters, and rendering is pure, so the render order is visible only through the early returns.
- The file system: `filepath.Walk`'s traversal order, stat and read errors and their message texts are the `walk` and `parse` parameters; `os.IsNotExist` is the `NotExist` error case.
- FilePaths.Join: does not apply `filepath.Clean` (`..`, `.` and repeated separators); the loader only joins a directory path with a fixed file name.
- Log formatting: the logger's prefix, flags and time stamp are not modelled; a warning line is the fixed text followed by the error's message.
- Loading.Loader.LoadPaths: states that the log only grows, not how many warnings it gains or in which order, since that depends on the map iteration order.
- Loading.Load: states only that the configured logger's log grows, for the same reason as `LoadPaths`.
- Panics: a nil `LoaderOpt` panics at `opt(l)` in `newLoader`, and `Get` or `set` on a nil `*Getter` (what `Load` returns on every error) panics at the lock. Neither can be expressed here: options are the five `With*` constructors, and `Get` and `Set` take a non-null receiver. A caller's own option closure is not modelled either. Because the `Loader` fields are unexported, such a closure can only have the effect of a sequence of `With*` options.
- Templates are stored as values rather than `*Template` pointers, so two things cannot be expressed. First, a caller assigning to the exported `Subject`, `HTML` or `Text` field of a Template returned by `Get`, which in the source changes what every later `Get` of that key returns. Second, `Execute` on the nil `*Template` that a missed `Get` returns, which panics in the source. Within the package nothing mutates a Template after `loadParts` builds it.
- `Classify` receives all three parse outcomes, while the source does not parse later files after a required one fails; parsing is pure here, so only which error is reported matters, and that follows the source's order.
- example_test.go is documentation that depends on a directory not present; it is not part of this model.

## Findings

| source | as written | input that shows it | evidently intended | confidence | as-written member | corrected member |
|---|---|---|---|---|---|---|
| template.go:36 | on a text render error `Execute` returns `subject, text, text, err`, so the HTML slot holds the text buffer | subject and HTML render, and the text part writes "dear " and then fails: the HTML slot reads "dear " instead of "<p>dear JANE</p>" (`Templates.TextFailureExample`) | return `subject, html, text, err`, keeping the HTML render, as the other two error paths keep what was already rendered | high; not executed | Templates.Executed | Templates.ExecutedAsIntended |
