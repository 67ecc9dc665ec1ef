/**
 * internal/files/json_files.go: the manifest file on disk, read with every
 * path resolved, saved as given, merged into and deleted from.
 */
module Manifests {
  import opened Wrappers
  import opened Paths
  import opened Entries
  import opened FileSystem

  /** What ReadFile yields for the manifest at `path` (taken from the working directory `cwd`). */
  function Load(t: Tree, home: Path, cwd: Path, path: Path): (r: Result<Manifest>)
    ensures r.Ok? ==>
              && ReadChange(t, Abs(cwd, path)).Fetched?
              && ReadChange(t, Abs(cwd, path)).content.Document?
              && r.value == ResolveAll(home, ReadChange(t, Abs(cwd, path)).content.manifest)
    ensures !FileExist(t, Abs(cwd, path)) ==> r.Err?
  {
    match ReadChange(t, Abs(cwd, path))
    case NotFetched(e) => Err("could not read the file: open " + path + ": " + ErrorText(e))
    case Fetched(Text(_)) => Err("could not unmarshal data: invalid JSON document")
    case Fetched(Document(m)) => Ok(ResolveAll(home, m))
  }

  /**
   * ReadFile: the stored manifest, with each entry's Path and Symlink
   * replaced by their ResolvePath forms one key at a time.
   */
  method ReadFile(disk: Disk, home: Path, cwd: Path, path: Path) returns (data: Manifest, err: Option<string>)
    ensures var r := Load(disk.tree, home, cwd, path);
      && (r.Ok? ==> data == r.value && err == None)
      && (r.Err? ==> data == map[] && err == Some(r.message))
  {
    var fetched := ReadChange(disk.tree, Abs(cwd, path));
    if fetched.NotFetched? {
      return map[], Some("could not read the file: open " + path + ": " + ErrorText(fetched.error));
    }
    if fetched.content.Text? {
      return map[], Some("could not unmarshal data: invalid JSON document");
    }
    var stored := fetched.content.manifest;
    data := stored;
    var todo := stored.Keys;
    while todo != {}
      invariant todo <= stored.Keys && data.Keys == stored.Keys
      invariant forall k :: k in data ==> data[k] == if k in todo then stored[k] else ResolveEntry(home, stored[k])
      decreases |todo|
    {
      var fileName :| fileName in todo;
      var info := data[fileName];
      info := info.(path := ResolvePath(home, info.path), symlink := ResolvePath(home, info.symlink));
      data := data[fileName := info];
      todo := todo - {fileName};
    }
    err := None;
  }

  /** The outcome of a call that may write the manifest, and the tree after it. */
  datatype Stored = Stored(outcome: Outcome, tree: Tree)

  /** SaveStatus: the manifest written exactly as given (paths are not shrunk). */
  function SaveEffect(t: Tree, faults: Faults, cwd: Path, path: Path, m: Manifest): (s: Stored)
    ensures s.outcome.Fail? ==> s.tree == t
  {
    match WriteChange(t, faults, Abs(cwd, path), Document(m))
    case Changed(t2) => Stored(Pass, t2)
    case Refused(e) => Stored(Fail("failed to write to disk: open " + path + ": " + ErrorText(e)), t)
  }

  /** AddFiles: the stored entries with `info` copied over them, written back. */
  function AddFilesEffect(t: Tree, faults: Faults, home: Path, cwd: Path, path: Path, info: Manifest): (s: Stored)
    ensures Load(t, home, cwd, path).Err? ==> s == Stored(Fail(Load(t, home, cwd, path).message), t)
  {
    match Load(t, home, cwd, path)
    case Err(msg) => Stored(Fail(msg), t)
    case Ok(loaded) => SaveEffect(t, faults, cwd, path, loaded + info)
  }

  /** RemoveFiles: the stored entries without `fileName`, written back even when it was absent. */
  function RemoveFilesEffect(t: Tree, faults: Faults, home: Path, cwd: Path, path: Path, fileName: string): (s: Stored)
    ensures Load(t, home, cwd, path).Err? ==> s == Stored(Fail(Load(t, home, cwd, path).message), t)
  {
    match Load(t, home, cwd, path)
    case Err(msg) => Stored(Fail(msg), t)
    case Ok(loaded) => SaveEffect(t, faults, cwd, path, loaded - {fileName})
  }

  method SaveStatus(disk: Disk, cwd: Path, path: Path, info: Manifest) returns (r: Outcome)
    modifies disk
    ensures var s := SaveEffect(old(disk.tree), disk.faults, cwd, path, info);
      r == s.outcome && disk.tree == s.tree
  {
    var err := disk.WriteFile(Abs(cwd, path), Document(info));
    if err.Some? {
      return Fail("failed to write to disk: open " + path + ": " + ErrorText(err.value));
    }
    return Pass;
  }

  method AddFiles(disk: Disk, home: Path, cwd: Path, path: Path, info: Manifest) returns (r: Outcome)
    modifies disk
    ensures var s := AddFilesEffect(old(disk.tree), disk.faults, home, cwd, path, info);
      r == s.outcome && disk.tree == s.tree
  {
    var local, err := ReadFile(disk, home, cwd, path);
    if err.Some? {
      return Fail(err.value);
    }
    local := local + info;
    r := SaveStatus(disk, cwd, path, local);
  }

  method RemoveFiles(disk: Disk, home: Path, cwd: Path, path: Path, fileName: string) returns (r: Outcome)
    modifies disk
    ensures var s := RemoveFilesEffect(old(disk.tree), disk.faults, home, cwd, path, fileName);
      r == s.outcome && disk.tree == s.tree
  {
    var local, err := ReadFile(disk, home, cwd, path);
    if err.Some? {
      return Fail(err.value);
    }
    local := local - {fileName};
    r := SaveStatus(disk, cwd, path, local);
  }

  /**
   * Round trip: what SaveStatus wrote reads back with every path resolved;
   * a manifest whose paths are already absolute reads back unchanged.
   */
  lemma SaveThenLoad(t: Tree, faults: Faults, home: Path, cwd: Path, path: Path, m: Manifest)
    requires SaveEffect(t, faults, cwd, path, m).outcome.Pass?
    ensures Load(SaveEffect(t, faults, cwd, path, m).tree, home, cwd, path) == Ok(ResolveAll(home, m))
    ensures Resolved(m) ==> Load(SaveEffect(t, faults, cwd, path, m).tree, home, cwd, path) == Ok(m)
  {
    WriteThenRead(t, faults, Abs(cwd, path), Document(m));
    if Resolved(m) {
      assert ResolveAll(home, m) == m;
    }
  }

  /** Resolving commutes with overriding entries and with deleting one. */
  lemma ResolveAllDistributes(home: Path, a: Manifest, b: Manifest, k: string)
    ensures ResolveAll(home, a + b) == ResolveAll(home, a) + ResolveAll(home, b)
    ensures ResolveAll(home, a - {k}) == ResolveAll(home, a) - {k}
  {
    var merged, parts := ResolveAll(home, a + b), ResolveAll(home, a) + ResolveAll(home, b);
    assert merged.Keys == parts.Keys;
    forall key | key in merged
      ensures merged[key] == parts[key]
    {
    }
    var pruned, removed := ResolveAll(home, a - {k}), ResolveAll(home, a) - {k};
    assert pruned.Keys == removed.Keys;
    forall key | key in pruned
      ensures pruned[key] == removed[key]
    {
    }
  }

  /**
   * After AddFiles the manifest holds the new entries, and every stored
   * entry not overridden by one of them, as before. What is written is the
   * stored entries in resolved form with the new ones copied over them as
   * given.
   */
  lemma AddFilesMerges(t: Tree, faults: Faults, home: Path, cwd: Path, path: Path, info: Manifest)
    requires IsAbs(home)
    requires AddFilesEffect(t, faults, home, cwd, path, info).outcome.Pass?
    ensures Load(t, home, cwd, path).Ok?
    ensures var after := Load(AddFilesEffect(t, faults, home, cwd, path, info).tree, home, cwd, path);
      var before := Load(t, home, cwd, path).value;
      && after == Ok(before + ResolveAll(home, info))
      && after.value.Keys == before.Keys + info.Keys
      && (forall k :: k in before && k !in info ==> after.value[k] == before[k])
    ensures var before := Load(t, home, cwd, path).value;
      && ReadChange(AddFilesEffect(t, faults, home, cwd, path, info).tree, Abs(cwd, path)) == Fetched(Document(before + info))
      && Resolved(before)
  {
    var before := Load(t, home, cwd, path).value;
    WriteThenRead(t, faults, Abs(cwd, path), Document(before + info));
    SaveThenLoad(t, faults, home, cwd, path, before + info);
    ResolveAllDistributes(home, before, info, "");
    ResolveAllIdempotent(home, ReadChange(t, Abs(cwd, path)).content.manifest);
  }

  /**
   * After RemoveFiles the manifest holds exactly the other stored entries;
   * the file is rewritten with them in resolved form.
   */
  lemma RemoveFilesDeletes(t: Tree, faults: Faults, home: Path, cwd: Path, path: Path, fileName: string)
    requires IsAbs(home)
    requires RemoveFilesEffect(t, faults, home, cwd, path, fileName).outcome.Pass?
    ensures Load(t, home, cwd, path).Ok?
    ensures Load(RemoveFilesEffect(t, faults, home, cwd, path, fileName).tree, home, cwd, path)
         == Ok(Load(t, home, cwd, path).value - {fileName})
    ensures var before := Load(t, home, cwd, path).value;
      && ReadChange(RemoveFilesEffect(t, faults, home, cwd, path, fileName).tree, Abs(cwd, path))
           == Fetched(Document(before - {fileName}))
      && Resolved(before - {fileName})
  {
    var before := Load(t, home, cwd, path).value;
    WriteThenRead(t, faults, Abs(cwd, path), Document(before - {fileName}));
    SaveThenLoad(t, faults, home, cwd, path, before - {fileName});
    ResolveAllIdempotent(home, ReadChange(t, Abs(cwd, path)).content.manifest);
    ResolveAllDistributes(home, before, map[], fileName);
  }
}
