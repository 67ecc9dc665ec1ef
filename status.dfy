/**
 * internal/manager/status.go: every manifest entry is checked against the
 * disk (the link location exists and is a link, the managed copy exists,
 * the link points at the copy), its problems are recorded and the whole
 * manifest is written back.
 */
module Status {
  import opened Wrappers
  import opened Paths
  import opened Entries
  import opened FileSystem
  import opened Manifests

  /** A problem found with one entry. */
  datatype Diagnostic =
    | SymlinkMissing(path: Path)
    | LstatFailed(path: Path, cause: string)
    | FileMissing(path: Path)
    | ReadlinkFailed(cause: string)
    | Mismatch(target: Path, expected: Path)
    | NotASymlink(path: Path)

  /** The text recorded in the entry's Errors. */
  function Message(d: Diagnostic): string {
    match d
    case SymlinkMissing(p) => "symlink file " + p + " does not exist"
    case LstatFailed(p, cause) => "file " + p + " is not a symlink: " + cause
    case FileMissing(p) => "file " + p + " does not exist"
    case ReadlinkFailed(cause) => cause
    case Mismatch(target, expected) => "following symlink (" + target + ") does not match filepath (" + expected + ")"
    case NotASymlink(p) => "file " + p + " is not a symlink"
  }

  function Messages(ds: seq<Diagnostic>): (r: seq<string>)
    ensures |r| == |ds|
    ensures forall i :: 0 <= i < |ds| ==> r[i] == Message(ds[i])
  {
    seq(|ds|, i requires 0 <= i < |ds| => Message(ds[i]))
  }

  /** The (bool, error) pair every check returns. */
  datatype Check = Check(ok: bool, problem: Option<Diagnostic>)

  function Problems(c: Check): seq<Diagnostic> {
    if c.problem.Some? then [c.problem.value] else []
  }

  /**
   * checkSymlink: the resolved link location must exist (following links);
   * then it is ok when Lstat shows a link there, and silently not ok when
   * something else is there.
   */
  function CheckSymlink(t: Tree, home: Path, symlink: Path): (c: Check)
    ensures c.ok ==> c.problem.None?
    ensures var p := ResolvePath(home, symlink);
      && (c.ok <==> FileExist(t, p) && t[p].Symlink?)
      && (c.problem.Some? <==> !FileExist(t, p))
  {
    var path := ResolvePath(home, symlink);
    if !FileExist(t, path) then Check(false, Some(SymlinkMissing(path)))
    else match IsSymlink(t, path)
      case Err(cause) => Check(false, Some(LstatFailed(path, cause)))
      case Ok(isSym) => Check(isSym, None)
  }

  /** checkPath: the resolved managed copy must exist. */
  function CheckPath(t: Tree, home: Path, path: Path): (c: Check)
    ensures c.ok <==> c.problem.None?
    ensures c.ok <==> FileExist(t, ResolvePath(home, path))
  {
    var absPath := ResolvePath(home, path);
    if !FileExist(t, absPath) then Check(false, Some(FileMissing(absPath)))
    else Check(true, None)
  }

  /** checkSamePath: the stored link target must equal the resolved managed path, as strings. */
  function CheckSamePath(t: Tree, home: Path, symlink: Path, path: Path): (c: Check)
    ensures c.ok <==> c.problem.None?
    ensures var s := ResolvePath(home, symlink);
      c.ok <==> s in t && t[s].Symlink? && t[s].target == ResolvePath(home, path)
  {
    var symPath := ResolvePath(home, symlink);
    var filePath := ResolvePath(home, path);
    match FollowSymlink(t, symPath)
    case Err(cause) => Check(false, Some(ReadlinkFailed(cause)))
    case Ok(sp) =>
      if sp != filePath then Check(false, Some(Mismatch(sp, filePath)))
      else Check(true, None)
  }

  /** The problems recorded for one entry, in the order the checks run. */
  function Diagnose(t: Tree, home: Path, info: FileInfo): (ds: seq<Diagnostic>)
    ensures |ds| <= 2
    ensures ds == [] ==> FileExist(t, ResolvePath(home, info.symlink)) && FileExist(t, ResolvePath(home, info.path))
  {
    var sym := CheckSymlink(t, home, info.symlink);
    var file := CheckPath(t, home, info.path);
    var same := if sym.ok && file.ok then CheckSamePath(t, home, info.symlink, info.path) else Check(true, None);
    Problems(sym) + Problems(file) + Problems(same)
  }

  /**
   * Which entries pass: both locations exist, and if a link is at the link
   * location it points at the managed path. Anything else at the link
   * location passes too.
   */
  lemma DiagnoseMeaning(t: Tree, home: Path, info: FileInfo)
    ensures var s, p := ResolvePath(home, info.symlink), ResolvePath(home, info.path);
      Diagnose(t, home, info) == [] <==> FileExist(t, s) && FileExist(t, p) && (t[s].Symlink? ==> t[s].target == p)
    ensures |Diagnose(t, home, info)| <= 2
    ensures forall i :: 0 <= i < |Diagnose(t, home, info)| && Diagnose(t, home, info)[i].Mismatch? ==> |Diagnose(t, home, info)| == 1
  {
  }

  /** A link whose destination is gone is reported as a missing link location. */
  lemma DanglingLinkReported(t: Tree, home: Path, info: FileInfo)
    requires var s := ResolvePath(home, info.symlink);
      s in t && t[s].Symlink? && LinkDestination(s, t[s].target) !in t
    ensures Diagnose(t, home, info)[0] == SymlinkMissing(ResolvePath(home, info.symlink))
  {
  }

  /**
   * The loop body of CheckStatus for one entry: old errors cleared, each
   * problem appended, status "Nok" when there is one; otherwise the status
   * is left as it was.
   */
  function CheckEntry(t: Tree, home: Path, info: FileInfo): (r: FileInfo)
    ensures r.symlink == info.symlink && r.path == info.path
    ensures r.status == info.status || r.status == "Nok"
  {
    var ds := Diagnose(t, home, info);
    info.(errors := Messages(ds), status := if ds == [] then info.status else "Nok")
  }

  /**
   * The check touches only the verdict: Symlink and Path stay; a failing
   * entry becomes "Nok"; a passing one keeps its status, so no status is
   * ever turned into "ok"; checking again changes nothing.
   */
  lemma CheckEntryVerdict(t: Tree, home: Path, info: FileInfo)
    ensures CheckEntry(t, home, info).symlink == info.symlink && CheckEntry(t, home, info).path == info.path
    ensures |CheckEntry(t, home, info).errors| <= 2
    ensures Diagnose(t, home, info) != [] <==> CheckEntry(t, home, info).errors != []
    ensures Diagnose(t, home, info) != [] ==> CheckEntry(t, home, info).status == "Nok"
    ensures Diagnose(t, home, info) == [] ==> CheckEntry(t, home, info).status == info.status
    ensures CheckEntry(t, home, info).status == "ok" ==> info.status == "ok"
    ensures CheckEntry(t, home, CheckEntry(t, home, info)) == CheckEntry(t, home, info)
  {
    DiagnoseMeaning(t, home, info);
  }

  /** An entry marked "Nok" stays "Nok" after its problem is repaired. */
  lemma RepairedEntryStaysNok(t: Tree, home: Path, info: FileInfo)
    requires info.status == "Nok"
    requires var s, p := ResolvePath(home, info.symlink), ResolvePath(home, info.path);
      FileExist(t, s) && t[s] == Symlink(p) && FileExist(t, p)
    ensures CheckEntry(t, home, info).errors == []
    ensures CheckEntry(t, home, info).status == "Nok"
  {
    DiagnoseMeaning(t, home, info);
  }

  /** A regular file sitting where the link should be passes with no error. */
  lemma RegularFileAtLinkPasses(t: Tree, home: Path, info: FileInfo, data: Content)
    requires var s, p := ResolvePath(home, info.symlink), ResolvePath(home, info.path);
      s in t && t[s] == File(data) && FileExist(t, p)
    ensures Diagnose(t, home, info) == []
    ensures CheckEntry(t, home, info).status == info.status
  {
    DiagnoseMeaning(t, home, info);
  }

  /** What the check is evidently meant to report: anything but a link at the link location is a problem. */
  function DiagnoseIntended(t: Tree, home: Path, info: FileInfo): seq<Diagnostic> {
    var sym := CheckSymlink(t, home, info.symlink);
    var s := ResolvePath(home, info.symlink);
    var symProblems := if sym.problem.None? && !sym.ok then [NotASymlink(s)] else Problems(sym);
    var file := CheckPath(t, home, info.path);
    var same := if sym.ok && file.ok then CheckSamePath(t, home, info.symlink, info.path) else Check(true, None);
    symProblems + Problems(file) + Problems(same)
  }

  /** The verdict the header comment of status.go describes: "Ok" or "Nok". */
  function CheckEntryIntended(t: Tree, home: Path, info: FileInfo): FileInfo {
    var ds := DiagnoseIntended(t, home, info);
    info.(errors := Messages(ds), status := if ds == [] then "Ok" else "Nok")
  }

  /**
   * With the two corrections an entry is "Ok" exactly when a link sits at
   * the link location, points at the managed path and that path exists,
   * and "Nok" otherwise, whatever the previous status was.
   */
  lemma CheckEntryIntendedVerdict(t: Tree, home: Path, info: FileInfo)
    ensures var s, p := ResolvePath(home, info.symlink), ResolvePath(home, info.path);
      CheckEntryIntended(t, home, info).status == "Ok" <==>
        FileExist(t, s) && t[s] == Symlink(p) && FileExist(t, p)
    ensures CheckEntryIntended(t, home, info).status in {"Ok", "Nok"}
    ensures CheckEntryIntended(t, home, info).status == "Ok" <==> CheckEntryIntended(t, home, info).errors == []
    ensures CheckEntryIntended(t, home, info).symlink == info.symlink && CheckEntryIntended(t, home, info).path == info.path
  {
  }

  /** The manifest after the loop: every entry checked, the keys unchanged. */
  function CheckAll(t: Tree, home: Path, m: Manifest): (r: Manifest)
    ensures r.Keys == m.Keys
  {
    map k | k in m :: CheckEntry(t, home, m[k])
  }

  /** CheckStatus: fails without writing when the manifest is missing or unreadable. */
  function CheckStatusEffect(t: Tree, faults: Faults, home: Path, cwd: Path, filePath: Path): (s: Stored)
    ensures s.outcome.Fail? ==> s.tree == t
    ensures !FileExist(t, Abs(cwd, filePath)) ==> s.outcome == Fail("could not find the file " + filePath)
  {
    if !FileExist(t, Abs(cwd, filePath)) then Stored(Fail("could not find the file " + filePath), t)
    else match Load(t, home, cwd, filePath)
      case Err(msg) => Stored(Fail(msg), t)
      case Ok(loaded) =>
        var saved := SaveEffect(t, faults, cwd, filePath, CheckAll(t, home, loaded));
        if saved.outcome.Fail? then
          Stored(Fail("could not save file " + filePath + " due to error: " + saved.outcome.message), t)
        else saved
  }

  /**
   * CheckStatus succeeds exactly when the manifest can be read and written
   * back; the file then holds every stored entry checked, with resolved
   * absolute paths, and reads back as such, keys, Symlink and Path
   * unchanged; on failure the disk is untouched.
   */
  lemma CheckStatusWritesBack(t: Tree, faults: Faults, home: Path, cwd: Path, filePath: Path)
    requires IsAbs(home)
    ensures CheckStatusEffect(t, faults, home, cwd, filePath).outcome.Fail? ==>
      CheckStatusEffect(t, faults, home, cwd, filePath).tree == t
    ensures !FileExist(t, Abs(cwd, filePath)) ==> CheckStatusEffect(t, faults, home, cwd, filePath).outcome.Fail?
    ensures CheckStatusEffect(t, faults, home, cwd, filePath).outcome.Pass? ==>
      && Load(t, home, cwd, filePath).Ok?
      && var before := Load(t, home, cwd, filePath).value;
         var after := Load(CheckStatusEffect(t, faults, home, cwd, filePath).tree, home, cwd, filePath);
         && ReadChange(CheckStatusEffect(t, faults, home, cwd, filePath).tree, Abs(cwd, filePath))
              == Fetched(Document(CheckAll(t, home, before)))
         && Resolved(CheckAll(t, home, before))
         && after == Ok(CheckAll(t, home, before))
         && after.value.Keys == before.Keys
         && (forall k :: k in before ==> after.value[k].symlink == before[k].symlink && after.value[k].path == before[k].path)
  {
    if CheckStatusEffect(t, faults, home, cwd, filePath).outcome.Pass? {
      var before := Load(t, home, cwd, filePath).value;
      var checked := CheckAll(t, home, before);
      ResolveAllIdempotent(home, ReadChange(t, Abs(cwd, filePath)).content.manifest);
      assert Resolved(checked);
      assert WriteChange(t, faults, Abs(cwd, filePath), Document(checked)).Changed?;
      WriteThenRead(t, faults, Abs(cwd, filePath), Document(checked));
      SaveThenLoad(t, faults, home, cwd, filePath, checked);
    }
  }

  /** The loop body of CheckStatus: clears the errors, runs the checks and records each problem. */
  method CheckOne(t: Tree, home: Path, entry: FileInfo) returns (info: FileInfo)
    ensures info == CheckEntry(t, home, entry)
  {
    info := entry;
    if |info.errors| > 0 {
      info := info.(errors := []);
    }
    ghost var found: seq<Diagnostic> := [];
    assert Recorded(info, entry, found);
    var sym := CheckSymlink(t, home, info.symlink);
    if sym.problem.Some? {
      info := Record(info, found, sym.problem.value);
      found := found + [sym.problem.value];
    }
    assert Recorded(info, entry, found) && found == Problems(sym);
    var file := CheckPath(t, home, info.path);
    if file.problem.Some? {
      info := Record(info, found, file.problem.value);
      found := found + [file.problem.value];
    }
    assert Recorded(info, entry, found) && found == Problems(sym) + Problems(file);
    if sym.ok && file.ok {
      var same := CheckSamePath(t, home, info.symlink, info.path);
      if same.problem.Some? {
        info := Record(info, found, same.problem.value);
        found := found + [same.problem.value];
      }
      assert found == Problems(sym) + Problems(file) + Problems(same);
    }
    assert found == Diagnose(t, home, entry);
  }

  /** `info` is `entry` with the problems in `found` recorded. */
  ghost predicate Recorded(info: FileInfo, entry: FileInfo, found: seq<Diagnostic>) {
    info == entry.(errors := Messages(found), status := if found == [] then entry.status else "Nok")
  }

  /** One failed check: the entry becomes "Nok" and the problem's message is appended. */
  method Record(info: FileInfo, ghost found: seq<Diagnostic>, d: Diagnostic) returns (r: FileInfo)
    requires info.errors == Messages(found)
    ensures r == info.(status := "Nok", errors := Messages(found + [d]))
    ensures forall entry :: Recorded(info, entry, found) ==> Recorded(r, entry, found + [d])
  {
    r := info.(status := "Nok", errors := info.errors + [Message(d)]);
    assert Messages(found + [d]) == Messages(found) + [Message(d)];
  }

  /** CheckStatus: checks every entry of the manifest at `filePath` and saves the result. */
  method CheckStatus(disk: Disk, home: Path, cwd: Path, filePath: Path) returns (r: Outcome)
    modifies disk
    ensures var s := CheckStatusEffect(old(disk.tree), disk.faults, home, cwd, filePath);
      r == s.outcome && disk.tree == s.tree
  {
    if !FileExist(disk.tree, Abs(cwd, filePath)) {
      return Fail("could not find the file " + filePath);
    }
    var fileInfo, err := ReadFile(disk, home, cwd, filePath);
    if err.Some? {
      return Fail(err.value);
    }
    assert Load(disk.tree, home, cwd, filePath) == Ok(fileInfo);
    fileInfo := CheckEntries(disk.tree, home, fileInfo);
    var saved := SaveStatus(disk, cwd, filePath, fileInfo);
    if saved.Fail? {
      return Fail("could not save file " + filePath + " due to error: " + saved.message);
    }
    return Pass;
  }

  /**
   * The manifest part way through the loop: the entries in `todo` are as
   * in `m`, the others as in `done`, the fully checked manifest.
   */
  ghost function PartlyChecked(m: Manifest, done: Manifest, todo: set<string>): Manifest
    requires m.Keys == done.Keys
  {
    map k | k in m :: if k in todo then m[k] else done[k]
  }

  /** Before the loop nothing is checked; after it everything is. */
  lemma PartlyCheckedEnds(m: Manifest, done: Manifest)
    requires m.Keys == done.Keys
    ensures PartlyChecked(m, done, m.Keys) == m
    ensures PartlyChecked(m, done, {}) == done
  {
  }

  /** Checking one more entry of the loop. */
  lemma PartlyCheckedStep(m: Manifest, done: Manifest, todo: set<string>, k: string)
    requires m.Keys == done.Keys && k in todo && k in m
    ensures PartlyChecked(m, done, todo)[k] == m[k]
    ensures PartlyChecked(m, done, todo - {k}) == PartlyChecked(m, done, todo)[k := done[k]]
  {
  }

  /** The loop of CheckStatus: every entry of the manifest, checked one by one. */
  method CheckEntries(t: Tree, home: Path, m: Manifest) returns (checked: Manifest)
    ensures checked == CheckAll(t, home, m)
  {
    ghost var done := CheckAll(t, home, m);
    PartlyCheckedEnds(m, done);
    checked := m;
    var todo := m.Keys;
    while todo != {}
      invariant todo <= m.Keys
      invariant checked == PartlyChecked(m, done, todo)
      decreases |todo|
    {
      var filename :| filename in todo;
      PartlyCheckedStep(m, done, todo, filename);
      var info := CheckOne(t, home, checked[filename]);
      assert info == done[filename];
      checked := checked[filename := info];
      todo := todo - {filename};
    }
  }
}
