/**
 * The final-segment lookup the project name is taken from (`Path::file_name`
 * on a '/'-separated path). Repeated and trailing separators are ignored, a
 * "." segment is skipped, and a path whose last segment is "..", the root
 * or the empty path has no file name.
 */
module Paths {
  import opened Wrappers

  /** A segment `file_name` can return: non-empty, not "." or "..", no separator. */
  predicate IsNormalSegment(s: string) {
    s != "" && s != "." && s != ".." && '/' !in s
  }

  /** `s` with every trailing '/' removed. */
  function TrimTrailingSlashes(s: string): (r: string)
    ensures r <= s
    ensures r == [] || r[|r| - 1] != '/'
    ensures forall k :: |r| <= k < |s| ==> s[k] == '/'
  {
    if s != [] && s[|s| - 1] == '/' then TrimTrailingSlashes(s[..|s| - 1]) else s
  }

  /** The index just after the last '/' in `s`, or 0 when there is none. */
  function LastSegmentStart(s: string): (k: nat)
    ensures k <= |s|
    ensures '/' !in s[k..]
    ensures k > 0 ==> s[k - 1] == '/'
  {
    if s == [] || s[|s| - 1] == '/' then |s|
    else
      var k := LastSegmentStart(s[..|s| - 1]);
      assert s[k..] == s[..|s| - 1][k..] + [s[|s| - 1]];
      k
  }

  /** The last path component of `path`, if it is a normal one. */
  function FileName(path: string): (r: Option<string>)
    ensures r.Some? ==> IsNormalSegment(r.value)
    decreases |path|
  {
    var trimmed := TrimTrailingSlashes(path);
    var k := LastSegmentStart(trimmed);
    var last := trimmed[k..];
    if last == "" || last == ".." then None
    else if last == "." then FileName(trimmed[..k])
    else Some(last)
  }

  /** The '/'-separated segments of `path`, empty ones included. */
  function Split(path: string): (segments: seq<string>)
    ensures |segments| > 0
    ensures forall i :: 0 <= i < |segments| ==> '/' !in segments[i]
    ensures Join(segments) == path
    decreases |path|
  {
    var k := LastSegmentStart(path);
    if k == 0 then [path]
    else
      var segments := Split(path[..k - 1]) + [path[k..]];
      assert segments[..|segments| - 1] == Split(path[..k - 1]);
      assert path == path[..k - 1] + "/" + path[k..];
      segments
  }

  /** The segments separated by '/'. */
  function Join(segments: seq<string>): string
    requires |segments| > 0
  {
    if |segments| == 1 then segments[0]
    else Join(segments[..|segments| - 1]) + "/" + segments[|segments| - 1]
  }

  /** The path components: the segments that are neither empty nor ".". */
  function Components(segments: seq<string>): (components: seq<string>)
    ensures forall i :: 0 <= i < |components| ==> components[i] != "" && components[i] != "."
  {
    if segments == [] then []
    else
      var last := segments[|segments| - 1];
      var components := Components(segments[..|segments| - 1]);
      if last == "" || last == "." then components else components + [last]
  }

  /** The file name as the last component, when that component is a normal one. */
  function LastNormalComponent(path: string): Option<string> {
    var components := Components(Split(path));
    if components == [] || components[|components| - 1] == ".." then None
    else Some(components[|components| - 1])
  }

  /** Cutting at the last separator peels the last segment off the split. */
  lemma SplitAtLastSeparator(path: string)
    requires LastSegmentStart(path) > 0
    ensures var k := LastSegmentStart(path);
      Components(Split(path)) == Components(Split(path[..k - 1]) + [path[k..]])
  {
  }

  lemma ComponentsOfSnoc(segments: seq<string>, last: string)
    ensures Components(segments + [last]) ==
      if last == "" || last == "." then Components(segments) else Components(segments) + [last]
  {
    assert (segments + [last])[..|segments|] == segments;
  }

  /** A trailing separator adds an empty segment, which is no component. */
  lemma TrailingSlashAddsNoComponent(prefix: string)
    ensures Components(Split(prefix + "/")) == Components(Split(prefix))
  {
    var path := prefix + "/";
    assert path[..|path| - 1] == prefix;
    assert LastSegmentStart(path) == |path|;
    SplitAtLastSeparator(path);
    ComponentsOfSnoc(Split(prefix), "");
  }

  lemma {:induction false} TrailingSlashesAddNoComponent(path: string)
    ensures Components(Split(path)) == Components(Split(TrimTrailingSlashes(path)))
    decreases |path|
  {
    if path != [] && path[|path| - 1] == '/' {
      var prefix := path[..|path| - 1];
      assert path == prefix + "/";
      TrailingSlashAddsNoComponent(prefix);
      TrailingSlashesAddNoComponent(prefix);
    }
  }

  /** The components of a path with no trailing separator end with its last segment, if that one counts. */
  lemma LastSegmentComponents(trimmed: string)
    requires trimmed == [] || trimmed[|trimmed| - 1] != '/'
    ensures var k := LastSegmentStart(trimmed); var last := trimmed[k..];
      && (last == "" ==> Components(Split(trimmed)) == [])
      && (last == "." ==> Components(Split(trimmed)) == Components(Split(trimmed[..k])))
      && (last != "" && last != "." ==> Components(Split(trimmed)) == Components(Split(trimmed[..k])) + [last])
  {
    var k := LastSegmentStart(trimmed);
    var last := trimmed[k..];
    if k == 0 {
      assert Split(trimmed) == [] + [trimmed];
      ComponentsOfSnoc([], trimmed);
      assert trimmed[..k] == [];
      assert Split(trimmed[..k]) == [""];
      ComponentsOfSnoc([], "");
    } else {
      var prefix := trimmed[..k - 1];
      SplitAtLastSeparator(trimmed);
      ComponentsOfSnoc(Split(prefix), last);
      assert trimmed[..k] == prefix + "/";
      TrailingSlashAddsNoComponent(prefix);
    }
  }

  /** `FileName` returns the last component of the path, if it is a normal one. */
  lemma {:induction false} FileNameIsLastComponent(path: string)
    ensures FileName(path) == LastNormalComponent(path)
    decreases |path|
  {
    var trimmed := TrimTrailingSlashes(path);
    var k := LastSegmentStart(trimmed);
    var last := trimmed[k..];
    var components := Components(Split(path));
    TrailingSlashesAddNoComponent(path);
    LastSegmentComponents(trimmed);
    if last == "" {
      assert components == [];
    } else if last == "." {
      assert components == Components(Split(trimmed[..k]));
      FileNameIsLastComponent(trimmed[..k]);
    } else {
      assert components == Components(Split(trimmed[..k])) + [last];
      assert components[|components| - 1] == last;
    }
  }

  /** A bare normal segment is its own file name. */
  lemma FileNameOfSegment(name: string)
    requires IsNormalSegment(name)
    ensures FileName(name) == Some(name)
  {
    assert name[|name| - 1] in name;
    assert TrimTrailingSlashes(name) == name;
  }

  /** Trailing separators and "." segments do not change the file name; a ".." tail has none. */
  lemma FileNameOfTails(path: string)
    ensures FileName(path + "/") == FileName(path)
    ensures FileName(path + "/.") == FileName(path)
    ensures FileName(path + "/..") == None
  {
    var s := path + "/";
    assert s[..|s| - 1] == path;
    var dot := path + "/.";
    assert dot == path + "/" + ".";
    assert TrimTrailingSlashes(dot) == dot;
    LastSegmentStartAfterSeparator(path, ".");
    assert dot[|path| + 1..] == "." && dot[..|path| + 1] == s;
    var dotdot := path + "/..";
    assert dotdot == path + "/" + "..";
    assert TrimTrailingSlashes(dotdot) == dotdot;
    LastSegmentStartAfterSeparator(path, "..");
    assert dotdot[|path| + 1..] == "..";
  }

  /** A path made of separators only (the root, or the empty path) has no file name. */
  lemma {:induction false} FileNameOfRoot(path: string)
    requires forall i :: 0 <= i < |path| ==> path[i] == '/'
    ensures FileName(path) == None
  {
    assert TrimTrailingSlashes(path) == [];
  }

  lemma {:induction false} LastSegmentStartAfterSeparator(dir: string, name: string)
    requires '/' !in name
    ensures LastSegmentStart(dir + "/" + name) == |dir| + 1
    decreases |name|
  {
    var s := dir + "/" + name;
    if name == [] {
      assert s[|s| - 1] == '/';
    } else {
      var name' := name[..|name| - 1];
      assert name[|name| - 1] in name;
      assert s[..|s| - 1] == dir + "/" + name';
      LastSegmentStartAfterSeparator(dir, name');
    }
  }

  /** Joining a directory and a normal segment, then taking the file name, gives the segment back. */
  lemma {:induction false} FileNameOfJoin(dir: string, name: string)
    requires IsNormalSegment(name)
    ensures FileName(dir + "/" + name) == Some(name)
  {
    var s := dir + "/" + name;
    assert name[|name| - 1] in name;
    assert s[|s| - 1] == name[|name| - 1];
    assert TrimTrailingSlashes(s) == s;
    LastSegmentStartAfterSeparator(dir, name);
    assert s[|dir| + 1..] == name;
  }
}
