/**
 * Path handling of internal/helpers.go (ResolvePath, ShrinkPath) together with
 * the pieces of Go's `path/filepath` it builds on. Paths are strings; the
 * home directory is a parameter instead of a call to os.UserHomeDir.
 */
module Paths {
  import opened Wrappers
  import opened GoStrings

  type Path = string

  /** filepath.IsAbs on Unix. */
  predicate IsAbs(p: Path) {
    |p| > 0 && p[0] == '/'
  }

  /** A home directory as os.UserHomeDir reports it: absolute, no trailing separator. */
  predicate CleanHome(home: Path) {
    IsAbs(home) && home[|home| - 1] != '/'
  }

  /** An absolute path with no empty component and no trailing separator. */
  predicate CleanAbs(p: Path) {
    && IsAbs(p)
    && (p == "/" || p[|p| - 1] != '/')
    && forall i :: 0 <= i < |p| - 1 ==> !EmptyElementAt(p, i)
  }

  /** Two separators in a row at index `i`. */
  predicate EmptyElementAt(p: Path, i: nat)
    requires i + 1 < |p|
  {
    p[i] == '/' && p[i + 1] == '/'
  }

  function DropLeadingSlashes(s: string): (r: string)
    ensures |r| <= |s| && r == s[|s| - |r|..]
    ensures r == [] || r[0] != '/'
    ensures s != [] && s[0] != '/' ==> r == s
  {
    if s != [] && s[0] == '/' then DropLeadingSlashes(s[1..]) else s
  }

  function DropTrailingSlashes(s: string): (r: string)
    ensures |r| <= |s| && r == s[..|r|]
    ensures r == [] || r[|r| - 1] != '/'
    ensures s != [] && s[|s| - 1] != '/' ==> r == s
    ensures r != [] ==> r[0] == s[0]
  {
    if s != [] && s[|s| - 1] == '/' then DropTrailingSlashes(s[..|s| - 1]) else s
  }

  /** The index of the last separator in `s`, if any. */
  function LastSlash(s: string): (r: Option<nat>)
    ensures r.Some? ==> r.value < |s| && s[r.value] == '/' && '/' !in s[r.value + 1..]
    ensures r.None? ==> '/' !in s
  {
    if s == [] then None
    else if s[|s| - 1] == '/' then Some(|s| - 1)
    else
      var r := LastSlash(s[..|s| - 1]);
      assert s == s[..|s| - 1] + [s[|s| - 1]];
      r
  }

  /**
   * filepath.Join(dir, name) with exactly one separator between the two parts.
   * Lexical cleaning of "." and ".." is not modelled.
   */
  function Join(dir: Path, name: Path): (r: Path)
    ensures IsAbs(dir) ==> IsAbs(r)
  {
    var tail := DropLeadingSlashes(name);
    if dir == "" then name
    else if tail == "" then dir
    else DropTrailingSlashes(dir) + "/" + tail
  }

  /** filepath.Base: the last element, "." for the empty path, "/" for the root. */
  function Base(p: Path): (r: Path)
    ensures r != ""
    ensures r == "/" || '/' !in r
  {
    if p == "" then "."
    else
      var t := DropTrailingSlashes(p);
      if t == "" then "/"
      else
        match LastSlash(t)
        case None => t
        case Some(i) => t[i + 1..]
  }

  /** filepath.Dir: everything before the last element, "." when there is no separator. */
  function Dir(p: Path): (r: Path)
    ensures r != ""
  {
    match LastSlash(p)
    case None => "."
    case Some(i) =>
      var d := DropTrailingSlashes(p[..i + 1]);
      if d == "" then "/" else d
  }

  /** filepath.Abs against the process working directory `cwd`. */
  function Abs(cwd: Path, p: Path): (r: Path)
    ensures IsAbs(p) ==> r == p
    ensures IsAbs(cwd) ==> IsAbs(r)
  {
    if IsAbs(p) then p else Join(cwd, p)
  }

  /**
   * ResolvePath (internal/helpers.go): "~" followed by anything is that rest
   * joined under home; an absolute path stays as it is; any other path is
   * joined under home. The Go function never returns an error, so the model
   * is total.
   */
  function ResolvePath(home: Path, input: Path): (r: Path)
    ensures IsAbs(home) ==> IsAbs(r)
    ensures IsAbs(input) ==> r == input
  {
    if HasPrefix(input, "~") then Join(home, input[1..])
    else if IsAbs(input) then input
    else Join(home, input)
  }

  /** Resolving a resolved path changes nothing (the status check resolves twice). */
  lemma ResolvePathIdempotent(home: Path, input: Path)
    requires IsAbs(home)
    ensures ResolvePath(home, ResolvePath(home, input)) == ResolvePath(home, input)
  {
  }

  /** The expansions the program's tests expect: "~", "~/rel" and "rel" under a clean home. */
  lemma ResolvePathUnderHome(home: Path, rel: Path)
    requires CleanHome(home)
    requires rel != [] && rel[0] != '/'
    ensures ResolvePath(home, "~") == home
    ensures ResolvePath(home, "~/" + rel) == home + "/" + rel
    ensures rel[0] != '~' ==> ResolvePath(home, rel) == home + "/" + rel
  {
    assert ("~/" + rel)[1..] == "/" + rel;
    assert DropLeadingSlashes("/" + rel) == DropLeadingSlashes(rel) by {
      assert ("/" + rel)[1..] == rel;
    }
  }

  /**
   * ShrinkPath (internal/helpers.go) as written: when `p` starts with the
   * home directory, that first occurrence is replaced by "~". The test is
   * on characters, not on path elements. An empty home stands for
   * os.UserHomeDir failing, in which case the path is returned unchanged.
   */
  function ShrinkPath(home: Path, p: Path): (r: Path)
    ensures r == p || (home != "" && HasPrefix(p, home) && r == "~" + p[|home|..])
    ensures home != "" && HasPrefix(p, home) ==> HasPrefix(r, "~") && |r| == |p| - |home| + 1
  {
    if home == "" then p
    else if HasPrefix(p, home) then "~" + p[|home|..]
    else p
  }

  /** Shrinking then resolving gives the path back when it is home itself or below home. */
  lemma ShrinkPathRoundTrip(home: Path, p: Path)
    requires CleanHome(home) && CleanAbs(p)
    requires p == home || HasPrefix(p, home + "/")
    ensures ResolvePath(home, ShrinkPath(home, p)) == p
  {
    if p != home {
      RoundTripBelowHome(home, p);
    }
  }

  /**
   * ShrinkPath also shrinks a sibling of home whose name merely starts with
   * home's name, and the result resolves to a different path.
   */
  lemma ShrinkPathSiblingBreaksRoundTrip()
    ensures ShrinkPath("/home/al", "/home/alice/.zshrc") == "~ice/.zshrc"
    ensures ResolvePath("/home/al", "~ice/.zshrc") == "/home/al/ice/.zshrc"
  {
    var home, rest := "/home/al", "ice/.zshrc";
    assert home + rest == "/home/alice/.zshrc";
    assert "~" + rest == "~ice/.zshrc";
    assert home + "/" + rest == "/home/al/ice/.zshrc";
    ShrinkSibling(home, rest);
  }

  /**
   * The same for every such sibling: `home` followed directly by more of
   * a name shrinks to "~" and that rest, which resolves one level below
   * home instead.
   */
  lemma ShrinkSibling(home: Path, rest: Path)
    requires home != [] && home[|home| - 1] != '/'
    requires rest != [] && rest[0] != '/'
    ensures ShrinkPath(home, home + rest) == "~" + rest
    ensures ResolvePath(home, "~" + rest) == home + "/" + rest != home + rest
  {
    assert (home + rest)[..|home|] == home;
    assert (home + rest)[|home|..] == rest;
    assert ("~" + rest)[1..] == rest;
    assert (home + "/" + rest)[|home|] == '/' != (home + rest)[|home|];
  }

  /** ShrinkPath with the home prefix tested on whole path elements. */
  function ShrinkPathWithinHome(home: Path, p: Path): (r: Path)
    ensures r == p || HasPrefix(r, "~")
  {
    if home == "" then p
    else if p == home then "~"
    else if HasPrefix(p, home + "/") then "~" + p[|home|..]
    else p
  }

  /** For every clean absolute path, shrinking within home and resolving gives it back. */
  lemma ShrinkPathWithinHomeRoundTrip(home: Path, p: Path)
    requires CleanHome(home) && CleanAbs(p)
    ensures ResolvePath(home, ShrinkPathWithinHome(home, p)) == p
  {
    if p != home && HasPrefix(p, home + "/") {
      RoundTripBelowHome(home, p);
    }
  }

  lemma RoundTripBelowHome(home: Path, p: Path)
    requires CleanHome(home) && CleanAbs(p)
    requires HasPrefix(p, home + "/")
    ensures ShrinkPath(home, p) == ShrinkPathWithinHome(home, p) == "~/" + p[|home| + 1..]
    ensures ResolvePath(home, "~/" + p[|home| + 1..]) == p
  {
    var n := |home|;
    var rel := p[n + 1..];
    assert p[n] == '/' by {
      assert (home + "/")[n] == '/';
    }
    assert HasPrefix(p, home) by {
      assert p[..n] == (home + "/")[..n] == home;
    }
    assert |p| > n + 1;
    assert rel[0] != '/' by {
      assert !EmptyElementAt(p, n);
    }
    assert p == home + "/" + rel by {
      assert p == p[..n + 1] + rel;
    }
    assert p[n..] == "/" + rel;
    ResolvePathUnderHome(home, rel);
  }

  /** Appending characters other than the separator leaves the last separator where it was. */
  lemma {:induction false} LastSlashAppend(s: string, t: string)
    requires '/' !in t
    ensures LastSlash(s + t) == LastSlash(s)
  {
    if t == [] {
      assert s + t == s;
    } else {
      var u := t[..|t| - 1];
      var st := s + t;
      assert st[..|st| - 1] == s + u;
      assert st[|st| - 1] == t[|t| - 1];
      assert t[|t| - 1] in t;
      assert st != [] && st[|st| - 1] != '/';
      assert LastSlash(st) == LastSlash(st[..|st| - 1]);
      LastSlashAppend(s, u);
    }
  }

  /** Joining a base name under a folder gives a path whose directory is that folder. */
  lemma DirOfJoin(folder: Path, name: Path)
    requires folder != [] && folder[|folder| - 1] != '/'
    requires name != [] && '/' !in name
    ensures Join(folder, name) == folder + "/" + name
    ensures Dir(Join(folder, name)) == folder
    ensures Base(Join(folder, name)) == name
  {
    JoinPlain(folder, name);
    DirOfSlashed(folder, name);
    BaseOfSlashed(folder, name);
  }

  /** Neither side has a slash to drop, so joining is plain concatenation. */
  lemma JoinPlain(folder: Path, name: Path)
    requires folder != [] && folder[|folder| - 1] != '/'
    requires name != [] && '/' !in name
    ensures Join(folder, name) == folder + "/" + name
  {
    assert name[0] in name;
    assert DropLeadingSlashes(name) == name;
    assert DropTrailingSlashes(folder) == folder;
  }

  /** The directory of `folder/name` is the folder. */
  lemma DirOfSlashed(folder: Path, name: Path)
    requires folder != [] && folder[|folder| - 1] != '/'
    requires '/' !in name
    ensures Dir(folder + "/" + name) == folder
  {
    var n := |folder|;
    var q := folder + "/";
    var p := q + name;
    assert LastSlash(p) == Some(n) by {
      LastSlashAppend(q, name);
      assert LastSlash(q) == Some(n);
    }
    assert p[..n + 1] == q;
    assert q[..|q| - 1] == folder;
    assert DropTrailingSlashes(q) == DropTrailingSlashes(folder);
    assert DropTrailingSlashes(folder) == folder;
  }

  /** The last element of `folder/name` is the name. */
  lemma BaseOfSlashed(folder: Path, name: Path)
    requires name != [] && '/' !in name
    ensures Base(folder + "/" + name) == name
  {
    var n := |folder|;
    var q := folder + "/";
    var p := q + name;
    assert LastSlash(p) == Some(n) by {
      LastSlashAppend(q, name);
      assert LastSlash(q) == Some(n);
    }
    assert name[|name| - 1] in name;
    assert p[|p| - 1] == name[|name| - 1];
    assert DropTrailingSlashes(p) == p;
    assert p[n + 1..] == name;
  }
}
