/**
 * The manifest of internal/files/json_files.go: the record kept for every
 * managed dotfile, keyed by file id.
 */
module Entries {
  import opened Paths

  /**
   * FileInfo: where the link lives (`symlink`), where the managed copy
   * lives (`path`), the last verdict and the problems found.
   */
  datatype FileInfo = FileInfo(symlink: Path, path: Path, status: string, errors: seq<string>)

  type Manifest = map<string, FileInfo>

  /** The entry with both of its paths passed through ResolvePath. */
  function ResolveEntry(home: Path, info: FileInfo): (r: FileInfo)
    ensures r.status == info.status && r.errors == info.errors
    ensures IsAbs(home) ==> IsAbs(r.path) && IsAbs(r.symlink)
    ensures IsAbs(info.path) ==> r.path == info.path
    ensures IsAbs(info.symlink) ==> r.symlink == info.symlink
  {
    info.(path := ResolvePath(home, info.path), symlink := ResolvePath(home, info.symlink))
  }

  /** Every entry resolved, keys untouched. */
  function ResolveAll(home: Path, m: Manifest): (r: Manifest)
    ensures r.Keys == m.Keys
    ensures forall k :: k in m ==> r[k] == ResolveEntry(home, m[k])
  {
    map k | k in m :: ResolveEntry(home, m[k])
  }

  /** Entries whose paths are already absolute are left exactly as they are. */
  predicate Resolved(m: Manifest) {
    forall k :: k in m ==> IsAbs(m[k].path) && IsAbs(m[k].symlink)
  }

  /** Resolving produces a resolved manifest, which resolving again leaves alone. */
  lemma ResolveAllIdempotent(home: Path, m: Manifest)
    requires IsAbs(home)
    ensures Resolved(ResolveAll(home, m))
    ensures ResolveAll(home, ResolveAll(home, m)) == ResolveAll(home, m)
  {
  }
}
