/** Unix path strings as `std::path` treats them (join, parent, file name), and
    the `~` expansion of src/utils/paths.rs. The home directory and
    `shellexpand::full` are parameters: they are foreign calls. */
module Paths {
  import opened Common
  import opened Text

  /** `PathBuf::push` / `Path::join` on Unix: an absolute `p` replaces `base`;
      otherwise one separator is inserted unless `base` is empty or already ends in '/'. */
  function Join(base: string, p: string): (r: string)
    ensures StartsWith(p, "/") ==> r == p
    ensures !StartsWith(p, "/") && base != [] && base[|base| - 1] != '/' ==> r == base + "/" + p
    ensures !StartsWith(p, "/") && (base == [] || base[|base| - 1] == '/') ==> r == base + p
  {
    if |p| > 0 && p[0] == '/' then p
    else if base == [] || base[|base| - 1] == '/' then base + p
    else base + "/" + p
  }

  /** Drops trailing separators and trailing "." components, as the `Components`
      iterator of `std::path` does; a lone root "/" and a leading "." are kept. */
  function TrimRight(s: string): (r: string)
    ensures |r| <= |s| && r == s[..|r|]
    ensures s != [] ==> r != []
    ensures |r| >= 2 ==> r[|r| - 1] != '/' && !(r[|r| - 1] == '.' && r[|r| - 2] == '/')
  {
    if |s| >= 2 && s[|s| - 1] == '/' then TrimRight(s[..|s| - 1])
    else if |s| >= 2 && s[|s| - 1] == '.' && s[|s| - 2] == '/' then TrimRight(s[..|s| - 1])
    else s
  }

  /** Index of the last '/' in `s`. */
  function LastSlash(s: string): (r: Option<nat>)
    ensures r.Some? ==> r.value < |s| && s[r.value] == '/'
    ensures r.Some? ==> forall j :: r.value < j < |s| ==> s[j] != '/'
    ensures r.None? ==> forall j :: 0 <= j < |s| ==> s[j] != '/'
  {
    if s == [] then None
    else if s[|s| - 1] == '/' then Some(|s| - 1)
    else LastSlash(s[..|s| - 1])
  }

  /** `Path::parent` on Unix: the path without its final component; `None` for
      the empty path and for the root. */
  function Parent(p: string): (r: Option<string>)
    ensures r.Some? ==> |r.value| < |p|
    ensures p == [] || p == "/" ==> r.None?
  {
    var t := TrimRight(p);
    if t == [] || t == "/" then None
    else
      match LastSlash(t)
      case None => Some("")
      case Some(i) => if i == 0 then Some("/") else Some(TrimRight(t[..i]))
  }

  /** `Path::file_name` on Unix: the final component, unless it is "..", or the
      path is empty or the root. */
  function FileName(p: string): (r: Option<string>)
    ensures r.Some? ==> r.value != [] && forall j :: 0 <= j < |r.value| ==> r.value[j] != '/'
  {
    var t := TrimRight(p);
    if t == [] || t == "/" then None
    else
      var seg := match LastSlash(t)
        case None => t
        case Some(i) => t[i + 1..];
      if seg == "." || seg == ".." then None else Some(seg)
  }

  /** A normal component: non-empty, no separator, not "." or "..". */
  predicate IsNormalName(name: string)
  {
    name != [] && name != "." && name != ".." && forall j :: 0 <= j < |name| ==> name[j] != '/'
  }

  /** The final component is all that `FileName` looks at: whatever directory a
      normal name sits in, the name is returned. */
  lemma FileNameOfJoin(dir: string, name: string)
    requires IsNormalName(name)
    ensures FileName(dir + "/" + name) == Some(name)
  {
    var p := dir + "/" + name;
    assert p[|p| - 1] == name[|name| - 1];
    assert |name| >= 2 ==> p[|p| - 2] == name[|name| - 2];
    assert |name| == 1 ==> p[|p| - 2] == '/' && name[0] != '.';
    assert TrimRight(p) == p;
    LastSlashOfJoin(dir, name);
    assert p[|dir| + 1..] == name;
  }

  lemma {:induction false} LastSlashOfJoin(dir: string, name: string)
    requires forall j :: 0 <= j < |name| ==> name[j] != '/'
    ensures LastSlash(dir + "/" + name) == Some(|dir|)
    decreases |name|
  {
    var p := dir + "/" + name;
    if name == [] {
      assert p[|p| - 1] == '/';
    } else {
      assert p[|p| - 1] == name[|name| - 1];
      assert p[..|p| - 1] == dir + "/" + name[..|name| - 1];
      LastSlashOfJoin(dir, name[..|name| - 1]);
    }
  }

  /** The proper ancestors of `p`, nearest first: `p.parent()`, its parent, and
      so on until `parent()` returns `None`. */
  function Ancestors(p: string): (r: seq<string>)
    decreases |p|
    ensures forall k :: 0 <= k < |r| ==> |r[k]| < |p|
  {
    match Parent(p)
    case None => []
    case Some(q) => [q] + Ancestors(q)
  }

  /** Each ancestor is strictly shorter than the one before it, so no path repeats. */
  lemma {:induction false} AncestorsShrink(p: string)
    ensures forall i, j :: 0 <= i < j < |Ancestors(p)| ==> |Ancestors(p)[j]| < |Ancestors(p)[i]|
    decreases |p|
  {
    match Parent(p)
    case None =>
    case Some(q) =>
      AncestorsShrink(q);
      var r := Ancestors(p);
      assert r == [q] + Ancestors(q);
      forall i, j | 0 <= i < j < |r| ensures |r[j]| < |r[i]| {
        if i > 0 {
          assert r[i] == Ancestors(q)[i - 1] && r[j] == Ancestors(q)[j - 1];
        }
      }
  }

  /** `expand_path`: "~/rest" and "~" resolve against the home directory when it
      is known; every other input, and those two when it is not, goes through
      `shellexpand::full`, falling back to the input itself on failure. */
  function ExpandPath(path: string, home: Option<string>, shellexpand: string -> Option<string>): (r: string)
    ensures home.Some? && StartsWith(path, "~/") ==> r == Join(home.value, path[2..])
    ensures home.Some? && path == "~" ==> r == home.value
    ensures home.None? || !(StartsWith(path, "~/") || path == "~") ==> r == shellexpand(path).GetOr(path)
  {
    if StartsWith(path, "~/") && home.Some? then Join(home.value, path[2..])
    else if path == "~" && home.Some? then home.value
    else shellexpand(path).GetOr(path)
  }

  /** `expand_paths`: element-wise expansion, same length and order. */
  function ExpandPaths(paths: seq<string>, home: Option<string>, shellexpand: string -> Option<string>): (r: seq<string>)
    ensures |r| == |paths|
    ensures forall i :: 0 <= i < |paths| ==> r[i] == ExpandPath(paths[i], home, shellexpand)
  {
    if paths == [] then []
    else [ExpandPath(paths[0], home, shellexpand)] + ExpandPaths(paths[1..], home, shellexpand)
  }

  /** With a known home, "~/x" lands inside the home directory. */
  lemma ExpandTildeInHome(home: string, rest: string, shellexpand: string -> Option<string>)
    requires home != [] && home[|home| - 1] != '/'
    requires !StartsWith(rest, "/")
    ensures ExpandPath("~/" + rest, Some(home), shellexpand) == home + "/" + rest
  {
    var path := "~/" + rest;
    assert StartsWith(path, "~/");
    assert path[2..] == rest;
  }
}
