/** The two `path/filepath` helpers the loader uses, on '/'-separated paths. */
module FilePaths {

  /** `path` without its run of trailing separators. */
  function TrimTrailingSlashes(path: string): (r: string)
    ensures r <= path
    ensures r == [] || r[|r| - 1] != '/'
    ensures forall i :: |r| <= i < |path| ==> path[i] == '/'
  {
    if path != [] && path[|path| - 1] == '/' then TrimTrailingSlashes(path[..|path| - 1]) else path
  }

  /** The characters after the last separator of `path` (all of it if there is none). */
  function LastSegment(path: string): (r: string)
    ensures '/' !in r
    ensures |r| <= |path| && r == path[|path| - |r|..]
    ensures |r| < |path| ==> path[|path| - |r| - 1] == '/'
  {
    if path == [] || path[|path| - 1] == '/' then []
    else LastSegment(path[..|path| - 1]) + [path[|path| - 1]]
  }

  /** `filepath.Base`: the last element of `path` after trailing separators are
      removed; "." for the empty path and "/" for a path of separators only. */
  function Base(path: string): (r: string)
    ensures r != []
    ensures r == "/" || '/' !in r
    ensures path == [] ==> r == "."
  {
    if path == [] then "."
    else
      var trimmed := TrimTrailingSlashes(path);
      if trimmed == [] then "/"
      else
        var last := LastSegment(trimmed);
        if last == [] then "/" else last
  }

  /** `filepath.Join` of a directory and a file name, for the clean paths the
      loader builds (no `Clean` of `..` or repeated separators). */
  function Join(dir: string, name: string): string
  {
    if dir == [] then name else dir + "/" + name
  }

  /** The base of a joined path is the name that was joined on. */
  lemma {:induction false} BaseOfJoin(dir: string, name: string)
    requires name != [] && '/' !in name
    ensures Base(Join(dir, name)) == name
  {
    var p := Join(dir, name);
    assert p[|p| - |name|..] == name;
    assert TrimTrailingSlashes(p) == p by {
      assert p[|p| - 1] == name[|name| - 1];
    }
    LastSegmentOfSuffix(p, name);
  }

  /** A separator-free suffix that follows a separator (or starts the path) is the last segment. */
  lemma LastSegmentOfSuffix(path: string, name: string)
    requires '/' !in name && |name| <= |path| && path[|path| - |name|..] == name
    requires |name| < |path| ==> path[|path| - |name| - 1] == '/'
    ensures LastSegment(path) == name
  {
  }
}
