/**
 * The `std::path::Path` operations the core uses, on `/`-separated strings.
 * Component normalisation (repeated separators, `.` components) is not modelled.
 */
module Paths {
  import opened Wrappers
  import opened Strings

  predicate IsAbsolute(p: string) {
    StartsWith(p, "/")
  }

  /** `Path::join`: an absolute argument replaces the base, otherwise one separator goes between. */
  function Join(dir: string, name: string): string {
    if IsAbsolute(name) then name
    else if dir == [] || dir[|dir| - 1] == '/' then dir + name
    else dir + "/" + name
  }

  /**
   * `Path::strip_prefix`: the rest of `path` after the directory `dir`, when `dir` is a
   * whole-component prefix of it.
   */
  function StripPrefix(path: string, dir: string): Option<string> {
    if dir == [] then Some(path)
    else if dir[|dir| - 1] == '/' then (if StartsWith(path, dir) then Some(path[|dir|..]) else None)
    else if path == dir then Some([])
    else if StartsWith(path, dir + "/") then Some(path[|dir| + 1..])
    else None
  }

  /** Stripping a directory from a path built by joining onto it gives back the joined part. */
  lemma StripJoin(dir: string, rel: string)
    requires !IsAbsolute(rel)
    ensures StripPrefix(Join(dir, rel), dir) == Some(rel)
  {
    var p := Join(dir, rel);
    if dir != [] && dir[|dir| - 1] != '/' {
      assert p == dir + "/" + rel;
      assert p[..|dir + "/"|] == dir + "/";
      assert p != dir;
    } else if dir != [] {
      assert p == dir + rel;
      assert p[..|dir|] == dir;
      assert p[|dir|..] == rel;
    } else {
      assert p == [] + rel == rel;
    }
  }

  /** Joining back what was stripped rebuilds the path. */
  lemma JoinStrip(path: string, dir: string, rel: string)
    requires StripPrefix(path, dir) == Some(rel)
    requires rel != [] && !IsAbsolute(rel)
    ensures Join(dir, rel) == path
  {
    if dir == [] {
    } else if dir[|dir| - 1] == '/' {
      assert path == path[..|dir|] + path[|dir|..];
    } else {
      assert path == path[..|dir| + 1] + path[|dir| + 1..];
    }
  }

  /** `Path::parent`: everything before the last separator. */
  function Parent(p: string): Option<string> {
    match LastIndexOfChar(p, '/')
    case None => if p == [] then None else Some([])
    case Some(k) => if k == 0 then (if |p| == 1 then None else Some("/")) else Some(p[..k])
  }

  /** A single path component: what a directory listing yields as an entry name. */
  predicate IsComponent(name: string) {
    name != [] && name != "." && name != ".." && '/' !in name
  }

  /** `Path::file_name`: the last component, if it is a normal one. */
  function FileName(p: string): Option<string> {
    var name := match LastIndexOfChar(p, '/') case None => p case Some(k) => p[k + 1..];
    if name == [] || name == ".." then None else Some(name)
  }

  lemma {:induction false} LastIndexAfterSeparator(a: string, b: string, c: char)
    requires |a| > 0 && a[|a| - 1] == c && c !in b
    ensures LastIndexOfChar(a + b, c) == Some(|a| - 1)
    decreases |b|
  {
    if b == [] {
      assert a + b == a;
    } else {
      assert (a + b)[..|a + b| - 1] == a + b[..|b| - 1];
      assert (a + b)[|a + b| - 1] == b[|b| - 1];
      LastIndexAfterSeparator(a, b[..|b| - 1], c);
    }
  }

  lemma FileNameOfJoin(dir: string, name: string)
    requires IsComponent(name)
    ensures FileName(Join(dir, name)) == Some(name)
  {
    assert !IsAbsolute(name) by { assert name[0] != '/'; }
    if dir == [] {
      assert Join(dir, name) == name;
    } else {
      var base := if dir[|dir| - 1] == '/' then dir else dir + "/";
      assert Join(dir, name) == base + name;
      LastIndexAfterSeparator(base, name, '/');
      assert (base + name)[|base|..] == name;
    }
  }

  /**
   * `Path::extension` of a file name: the text after the last `.`, unless the name has no
   * `.`, starts with its only `.`, or is `..`.
   */
  function Extension(name: string): Option<string> {
    if name == ".." then None
    else match LastIndexOfChar(name, '.')
      case None => None
      case Some(k) => if k == 0 then None else Some(name[k + 1..])
  }
}
