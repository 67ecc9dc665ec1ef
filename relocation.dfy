/**
 * internal/manager/add.go and internal/manager/remove.go: a dotfile is
 * moved into the repository folder with a link left behind, and a link is
 * replaced by the file it points at.
 */
module Relocation {
  import opened Wrappers
  import opened Paths
  import opened FileSystem
  import opened UserInput
  import opened Manifests

  /** The outcome, the tree afterwards and the answers the user has not given yet. */
  datatype Effect = Effect(outcome: Outcome, tree: Tree, pending: seq<string>)

  function MkdirFailed(folderPath: Path, e: OsError): Outcome {
    Fail("could not create folder: failed to create repo directory: mkdir " + folderPath + ": " + ErrorText(e))
  }

  function MoveFailed(from: Path, to: Path, e: OsError): Outcome {
    Fail("failed to move file: rename " + from + " " + to + ": " + ErrorText(e))
  }

  function LinkFailed(target: Path, link: Path, e: OsError): Outcome {
    Fail("failed to create symlink: symlink " + target + " " + link + ": " + ErrorText(e))
  }

  /** The second half of AddFile: refuse an occupied destination, move the file, link back. */
  function MoveAndLink(t: Tree, faults: Faults, cwd: Path, filePath: Path, destPath: Path, pending: seq<string>): (e: Effect)
    ensures e.pending == pending
    ensures e.outcome.Pass? ==> Abs(cwd, filePath) in e.tree && e.tree[Abs(cwd, filePath)] == Symlink(destPath)
  {
    var src, dst := Abs(cwd, filePath), Abs(cwd, destPath);
    if FileExist(t, dst) then Effect(Fail("file already exists"), t, pending)
    else match RenameChange(t, faults, src, dst)
      case Refused(err) => Effect(MoveFailed(filePath, destPath, err), t, pending)
      case Changed(t1) =>
        match SymlinkChange(t1, faults, destPath, src)
        case Refused(err) => Effect(LinkFailed(destPath, filePath, err), t1, pending)
        case Changed(t2) => Effect(Pass, t2, pending)
  }

  /**
   * AddFile: the destination is Base(filePath) inside folderPath; a missing
   * folder is created only when the user agrees, and the move is tried
   * either way.
   */
  function AddFileEffect(t: Tree, faults: Faults, pending: seq<string>, cwd: Path, filePath: Path, folderPath: Path): (e: Effect)
    ensures e.outcome.Pass? ==>
      Abs(cwd, filePath) in e.tree && e.tree[Abs(cwd, filePath)] == Symlink(Join(folderPath, Base(filePath)))
  {
    var folder := FolderEffect(t, faults, pending, cwd, folderPath);
    if folder.outcome.Fail? then folder
    else MoveAndLink(folder.tree, faults, cwd, filePath, Join(folderPath, Base(filePath)), folder.pending)
  }

  /** The first half of AddFile: a missing folder is created when the user agrees; Pass means "go on". */
  function FolderEffect(t: Tree, faults: Faults, pending: seq<string>, cwd: Path, folderPath: Path): (e: Effect)
    ensures e.outcome.Fail? ==> e.tree == t
  {
    var folder := Abs(cwd, folderPath);
    if Stat(t, folder).Missing? then
      var c := Confirm(pending);
      if c.yes then
        match MkdirAllChange(t, faults, folder)
        case Refused(err) => Effect(MkdirFailed(folderPath, err), t, c.rest)
        case Changed(t1) => Effect(Pass, t1, c.rest)
      else Effect(Pass, t, c.rest)
    else Effect(Pass, t, pending)
  }

  /** AddFile moves a file into the repository and leaves a link to it behind. */
  method AddFile(disk: Disk, user: MockUserInput, cwd: Path, filePath: Path, folderPath: Path) returns (r: Outcome)
    requires user.Valid()
    modifies disk, user
    ensures user.Valid()
    ensures var e := AddFileEffect(old(disk.tree), disk.faults, old(user.Pending()), cwd, filePath, folderPath);
      r == e.outcome && disk.tree == e.tree && user.Pending() == e.pending
  {
    var fileName := Base(filePath);
    var destPath := Join(folderPath, fileName);
    r := CreateFolder(disk, user, cwd, folderPath);
    if r.Fail? {
      return;
    }
    r := MoveFileAndLink(disk, cwd, filePath, destPath, user.Pending());
  }

  /** The first half of AddFile over the disk and the user. */
  method CreateFolder(disk: Disk, user: MockUserInput, cwd: Path, folderPath: Path) returns (r: Outcome)
    requires user.Valid()
    modifies disk, user
    ensures user.Valid()
    ensures var e := FolderEffect(old(disk.tree), disk.faults, old(user.Pending()), cwd, folderPath);
      r == e.outcome && disk.tree == e.tree && user.Pending() == e.pending
  {
    ghost var t := disk.tree;
    ghost var pending := user.Pending();
    r := Pass;
    if Stat(disk.tree, Abs(cwd, folderPath)).Missing? {
      var yes := ConfirmWithUser(user);
      ghost var c := Confirm(pending);
      if yes {
        var err := disk.MkdirAll(Abs(cwd, folderPath));
        if err.Some? {
          r := MkdirFailed(folderPath, err.value);
          assert FolderEffect(t, disk.faults, pending, cwd, folderPath) == Effect(r, disk.tree, c.rest);
          return;
        }
      }
      assert FolderEffect(t, disk.faults, pending, cwd, folderPath) == Effect(Pass, disk.tree, c.rest);
    }
  }

  /** The second half of AddFile over the disk. */
  method MoveFileAndLink(disk: Disk, cwd: Path, filePath: Path, destPath: Path, ghost pending: seq<string>) returns (r: Outcome)
    modifies disk
    ensures var e := MoveAndLink(old(disk.tree), disk.faults, cwd, filePath, destPath, pending);
      r == e.outcome && disk.tree == e.tree
  {
    if FileExist(disk.tree, Abs(cwd, destPath)) {
      return Fail("file already exists");
    }
    var err := disk.Rename(Abs(cwd, filePath), Abs(cwd, destPath));
    if err.Some? {
      return MoveFailed(filePath, destPath, err.value);
    }
    err := disk.Symlink(destPath, Abs(cwd, filePath));
    if err.Some? {
      return LinkFailed(destPath, filePath, err.value);
    }
    return Pass;
  }

  /** The folder is there: an occupied destination is refused before anything changes, and the user is not asked. */
  lemma AddFileDestinationTaken(t: Tree, faults: Faults, pending: seq<string>, cwd: Path, filePath: Path, folderPath: Path)
    requires !Stat(t, Abs(cwd, folderPath)).Missing?
    requires FileExist(t, Abs(cwd, Join(folderPath, Base(filePath))))
    ensures AddFileEffect(t, faults, pending, cwd, filePath, folderPath) == Effect(Fail("file already exists"), t, pending)
  {
  }

  /**
   * The folder is missing and the user declines: nothing is created, the
   * answer is consumed, and the move into the missing folder fails without
   * changing anything.
   */
  lemma AddFileFolderDeclined(t: Tree, faults: Faults, pending: seq<string>, cwd: Path, filePath: Path, folderPath: Path)
    requires IsAbs(folderPath) && folderPath[|folderPath| - 1] != '/'
    requires Base(filePath) != "/"
    requires Stat(t, folderPath).Missing? && !Confirm(pending).yes
    requires Join(folderPath, Base(filePath)) !in t
    ensures var e := AddFileEffect(t, faults, pending, cwd, filePath, folderPath);
      e.outcome.Fail? && e.tree == t && e.pending == Confirm(pending).rest
  {
    var dst := Join(folderPath, Base(filePath));
    FolderDeclined(t, faults, pending, cwd, folderPath);
    JoinUnderMissingFolder(t, folderPath, Base(filePath));
    MoveWithoutParent(t, faults, cwd, filePath, dst, Confirm(pending).rest);
  }

  /** A missing folder the user does not want: nothing changes and the answer is consumed. */
  lemma FolderDeclined(t: Tree, faults: Faults, pending: seq<string>, cwd: Path, folderPath: Path)
    requires Stat(t, Abs(cwd, folderPath)).Missing? && !Confirm(pending).yes
    ensures FolderEffect(t, faults, pending, cwd, folderPath) == Effect(Pass, t, Confirm(pending).rest)
  {
  }

  /** A name joined under a folder that is missing has no parent directory and is not in the tree. */
  lemma JoinUnderMissingFolder(t: Tree, folderPath: Path, name: Path)
    requires IsAbs(folderPath) && folderPath[|folderPath| - 1] != '/'
    requires name != [] && '/' !in name && Stat(t, folderPath).Missing?
    requires Join(folderPath, name) !in t
    ensures IsAbs(Join(folderPath, name)) && !ParentIsDir(t, Join(folderPath, name))
  {
    DirOfJoin(folderPath, name);
    assert folderPath != "/";
  }

  /** A destination whose folder is not there: the move is refused and nothing changes. */
  lemma MoveWithoutParent(t: Tree, faults: Faults, cwd: Path, filePath: Path, dst: Path, pending: seq<string>)
    requires IsAbs(dst) && dst !in t && !ParentIsDir(t, dst)
    ensures var e := MoveAndLink(t, faults, cwd, filePath, dst, pending);
      e.outcome.Fail? && e.tree == t
  {
    assert Abs(cwd, dst) == dst;
    assert !FileExist(t, dst);
    assert RenameChange(t, faults, Abs(cwd, filePath), dst).Refused?;
  }

  /** A source that is not there makes the move fail, and nothing changes. */
  lemma AddFileMissingSource(t: Tree, faults: Faults, pending: seq<string>, cwd: Path, filePath: Path, folderPath: Path)
    requires !Stat(t, Abs(cwd, folderPath)).Missing?
    requires Abs(cwd, filePath) !in t
    ensures var e := AddFileEffect(t, faults, pending, cwd, filePath, folderPath);
      e.outcome.Fail? && e.tree == t && e.pending == pending
  {
  }

  /** `d` is a directory held directly in the tree, or the root. */
  predicate DirectDir(t: Tree, d: Path) {
    d == "/" || (d in t && t[d].Directory?)
  }

  /**
   * With the folder in place, the destination free, the source a regular
   * file and no refusals, AddFile succeeds: the file now lives at the
   * destination, its old place holds a link to the destination path as
   * given, the link reads back the original content, and nothing else
   * changes.
   */
  lemma AddFileSucceeds(t: Tree, faults: Faults, pending: seq<string>, cwd: Path, filePath: Path, folderPath: Path)
    requires IsAbs(folderPath) && folderPath[|folderPath| - 1] != '/' && FolderExist(t, folderPath)
    requires Base(filePath) != "/"
    requires var src, dst := Abs(cwd, filePath), Join(folderPath, Base(filePath));
      && src in t && t[src].File? && !FileExist(t, dst) && src != dst
      && DirectDir(t, Dir(src)) && Dir(src) != src && Dir(src) != dst
      && (RenameOp, src) !in faults && (SymlinkOp, src) !in faults
    ensures var src, dst := Abs(cwd, filePath), Join(folderPath, Base(filePath));
      var e := AddFileEffect(t, faults, pending, cwd, filePath, folderPath);
      && e == Effect(Pass, (t - {src} + map[dst := t[src]])[src := Symlink(dst)], pending)
      && FollowSymlink(e.tree, src) == Ok(dst)
      && ReadChange(e.tree, src) == Fetched(t[src].content)
  {
    var src, dst := Abs(cwd, filePath), Join(folderPath, Base(filePath));
    DirOfJoin(folderPath, Base(filePath));
    assert Abs(cwd, folderPath) == folderPath;
    MoveAndLinkSucceeds(t, faults, cwd, filePath, dst, pending);
    LinkReadsThrough((t - {src} + map[dst := t[src]])[src := Symlink(dst)], src, dst);
  }

  /** The move and the link both go through: the file sits at `dst` and a link to `dst` at its old place. */
  lemma MoveAndLinkSucceeds(t: Tree, faults: Faults, cwd: Path, filePath: Path, dst: Path, pending: seq<string>)
    requires IsAbs(dst) && ParentIsDir(t, dst)
    requires var src := Abs(cwd, filePath);
      && src in t && t[src].File? && !FileExist(t, dst) && src != dst
      && DirectDir(t, Dir(src)) && Dir(src) != src && Dir(src) != dst
      && (RenameOp, src) !in faults && (SymlinkOp, src) !in faults
    ensures var src := Abs(cwd, filePath);
      MoveAndLink(t, faults, cwd, filePath, dst, pending) == Effect(Pass, (t - {src} + map[dst := t[src]])[src := Symlink(dst)], pending)
  {
    var src := Abs(cwd, filePath);
    var t1 := t - {src} + map[dst := t[src]];
    assert Abs(cwd, dst) == dst;
    assert RenameChange(t, faults, src, dst) == Changed(t1);
    ParentKept(t, t1, src);
    assert SymlinkChange(t1, faults, dst, src) == Changed(t1[src := Symlink(dst)]);
  }

  /**
   * Every AddFile that succeeds, whether or not the folder had to be made:
   * the folder step only added directories, the file's node now sits at
   * the destination, its old place holds a link to the destination path
   * as given, and nothing else changed.
   */
  lemma AddFileMoves(t: Tree, faults: Faults, pending: seq<string>, cwd: Path, filePath: Path, folderPath: Path)
    ensures var f := FolderEffect(t, faults, pending, cwd, folderPath);
      var destPath := Join(folderPath, Base(filePath));
      var src, dst := Abs(cwd, filePath), Abs(cwd, destPath);
      var e := AddFileEffect(t, faults, pending, cwd, filePath, folderPath);
      e.outcome.Pass? ==>
        && OnlyAddsDirs(t, f.tree) && src in f.tree && src != dst
        && e.tree == (f.tree - {src} + map[dst := f.tree[src]])[src := Symlink(destPath)]
  {
    var f := FolderEffect(t, faults, pending, cwd, folderPath);
    var destPath := Join(folderPath, Base(filePath));
    if f.outcome.Pass? {
      assert OnlyAddsDirs(t, t);
      MkdirAllOnlyAddsDirs(t, faults, Abs(cwd, folderPath));
      MoveAndLinkPasses(f.tree, faults, cwd, filePath, destPath, f.pending);
    }
  }

  /** A move and link that pass renamed the file to a different place and linked its old place. */
  lemma MoveAndLinkPasses(t: Tree, faults: Faults, cwd: Path, filePath: Path, destPath: Path, pending: seq<string>)
    ensures var src, dst := Abs(cwd, filePath), Abs(cwd, destPath);
      MoveAndLink(t, faults, cwd, filePath, destPath, pending).outcome.Pass? ==>
        && src in t && src != dst
        && MoveAndLink(t, faults, cwd, filePath, destPath, pending).tree == (t - {src} + map[dst := t[src]])[src := Symlink(destPath)]
  {
    var src, dst := Abs(cwd, filePath), Abs(cwd, destPath);
    if MoveAndLink(t, faults, cwd, filePath, destPath, pending).outcome.Pass? {
      var c := RenameChange(t, faults, src, dst);
      assert c.Changed?;
      assert SymlinkChange(c.tree, faults, destPath, src).Changed?;
      assert src != dst;
    }
  }

  /** The move succeeds but the link cannot be made: the file stays moved and no link is left behind. */
  lemma AddFileLinkFailsAfterMove(t: Tree, faults: Faults, pending: seq<string>, cwd: Path, filePath: Path, folderPath: Path)
    requires !Stat(t, Abs(cwd, folderPath)).Missing?
    requires var src, dst := Abs(cwd, filePath), Abs(cwd, Join(folderPath, Base(filePath)));
      && !FileExist(t, dst) && src != dst
      && RenameChange(t, faults, src, dst).Changed?
      && SymlinkChange(RenameChange(t, faults, src, dst).tree, faults, Join(folderPath, Base(filePath)), src).Refused?
    ensures var src, dst := Abs(cwd, filePath), Abs(cwd, Join(folderPath, Base(filePath)));
      var e := AddFileEffect(t, faults, pending, cwd, filePath, folderPath);
      && e.outcome.Fail?
      && e.tree == t - {src} + map[dst := t[src]]
      && src !in e.tree && e.tree[dst] == t[src]
  {
    FolderPresent(t, faults, pending, cwd, folderPath);
    var destPath := Join(folderPath, Base(filePath));
    assert AddFileEffect(t, faults, pending, cwd, filePath, folderPath) == MoveAndLink(t, faults, cwd, filePath, destPath, pending);
    LinkFailsAfterMove(t, faults, cwd, filePath, destPath, pending);
  }

  /** A folder that is there is left alone and the user is not asked. */
  lemma FolderPresent(t: Tree, faults: Faults, pending: seq<string>, cwd: Path, folderPath: Path)
    requires !Stat(t, Abs(cwd, folderPath)).Missing?
    ensures FolderEffect(t, faults, pending, cwd, folderPath) == Effect(Pass, t, pending)
  {
  }

  /** The move goes through and the link is refused: MoveAndLink fails with the file moved. */
  lemma LinkFailsAfterMove(t: Tree, faults: Faults, cwd: Path, filePath: Path, destPath: Path, pending: seq<string>)
    requires var src, dst := Abs(cwd, filePath), Abs(cwd, destPath);
      && !FileExist(t, dst) && src != dst
      && RenameChange(t, faults, src, dst).Changed?
      && SymlinkChange(RenameChange(t, faults, src, dst).tree, faults, destPath, src).Refused?
    ensures var src, dst := Abs(cwd, filePath), Abs(cwd, destPath);
      var e := MoveAndLink(t, faults, cwd, filePath, destPath, pending);
      e.outcome.Fail? && e.tree == t - {src} + map[dst := t[src]] && src !in e.tree && e.tree[dst] == t[src]
  {
  }

  /**
   * RemoveFile: the path must be a link (not followed) whose target, taken
   * as written, exists; the link is deleted and the target moved into its
   * place. Reading the link cannot fail once Lstat has shown a link.
   */
  function RemoveFileEffect(t: Tree, faults: Faults, cwd: Path, file: Path): (s: Stored)
    ensures s.outcome.Pass? ==> var p := Abs(cwd, file);
      && p in t && t[p].Symlink? && var repo := Abs(cwd, t[p].target);
         repo in t && repo !in s.tree && p in s.tree && s.tree[p] == t[repo]
    ensures s.outcome.Fail? && s.tree != t ==> s.tree == t - {Abs(cwd, file)}
  {
    var absPath := Abs(cwd, file);
    match LinkTarget(t, absPath)
    case Err(msg) => Stored(Fail(msg), t)
    case Ok(repoPath) =>
      if !FileExist(t, Abs(cwd, repoPath)) then Stored(Fail("symlink target " + repoPath + " does not exist"), t)
      else MoveBack(t, faults, absPath, repoPath, Abs(cwd, repoPath))
  }

  /** Lstat and Readlink: the target stored in the link at `absPath`, or why there is none. */
  function LinkTarget(t: Tree, absPath: Path): (r: Result<Path>)
    ensures r.Ok? <==> absPath in t && t[absPath].Symlink?
    ensures r.Ok? ==> r.value == t[absPath].target
    ensures absPath in t && !t[absPath].Symlink? ==> r == Err("file is not a symlink")
  {
    match IsSymlink(t, absPath)
    case Err(msg) => Err(msg)
    case Ok(isLink) => if !isLink then Err("file is not a symlink") else Ok(FollowSymlink(t, absPath).value)
  }

  /**
   * The second half of RemoveFile: the link is deleted and the target
   * (`repoPath` as written, `repo` resolved) moved into its place.
   */
  function MoveBack(t: Tree, faults: Faults, absPath: Path, repoPath: Path, repo: Path): (s: Stored)
    ensures s.outcome.Pass? ==> absPath in t && repo in t && repo != absPath && s.tree == (t - {absPath, repo})[absPath := t[repo]]
    ensures s.outcome.Fail? && s.tree != t ==> s.tree == t - {absPath}
  {
    match RemoveChange(t, faults, absPath)
    case Refused(err) => Stored(Fail("could not remove the file: remove " + absPath + ": " + ErrorText(err)), t)
    case Changed(t1) =>
      match RenameChange(t1, faults, repo, absPath)
      case Refused(err) => Stored(Fail("could not move the file: rename " + repoPath + " " + absPath + ": " + ErrorText(err)), t1)
      case Changed(t2) =>
        assert t2 == (t - {absPath, repo})[absPath := t[repo]] by {
          assert t2 == (t - {absPath}) - {repo} + map[absPath := t[repo]];
        }
        Stored(Pass, t2)
  }

  /** RemoveFile puts the managed file back where its link was. */
  method RemoveFile(disk: Disk, cwd: Path, file: Path) returns (r: Outcome)
    modifies disk
    ensures var s := RemoveFileEffect(old(disk.tree), disk.faults, cwd, file);
      r == s.outcome && disk.tree == s.tree
  {
    var absPath := Abs(cwd, file);
    var isLink := IsSymlink(disk.tree, absPath);
    if isLink.Err? {
      return Fail(isLink.message);
    }
    if !isLink.value {
      return Fail("file is not a symlink");
    }
    var repoPath := FollowSymlink(disk.tree, absPath);
    assert repoPath.Ok?;
    if !FileExist(disk.tree, Abs(cwd, repoPath.value)) {
      return Fail("symlink target " + repoPath.value + " does not exist");
    }
    r := MoveBackSteps(disk, absPath, repoPath.value, Abs(cwd, repoPath.value));
  }

  /** The second half of RemoveFile over the disk. */
  method MoveBackSteps(disk: Disk, absPath: Path, repoPath: Path, repo: Path) returns (r: Outcome)
    modifies disk
    ensures var s := MoveBack(old(disk.tree), disk.faults, absPath, repoPath, repo);
      r == s.outcome && disk.tree == s.tree
  {
    var err := disk.Remove(absPath);
    if err.Some? {
      return Fail("could not remove the file: remove " + absPath + ": " + ErrorText(err.value));
    }
    err := disk.Rename(repo, absPath);
    if err.Some? {
      return Fail("could not move the file: rename " + repoPath + " " + absPath + ": " + ErrorText(err.value));
    }
    return Pass;
  }

  /**
   * The checks before any change: a missing path, something that is not a
   * link, and a link whose target does not exist are refused with nothing
   * changed.
   */
  lemma RemoveFileRejects(t: Tree, faults: Faults, cwd: Path, file: Path)
    requires var p := Abs(cwd, file);
      p !in t || !t[p].Symlink? || !FileExist(t, Abs(cwd, t[p].target))
    ensures RemoveFileEffect(t, faults, cwd, file).outcome.Fail?
    ensures RemoveFileEffect(t, faults, cwd, file).tree == t
    ensures var p := Abs(cwd, file);
      p in t && !t[p].Symlink? ==> RemoveFileEffect(t, faults, cwd, file).outcome == Fail("file is not a symlink")
  {
  }

  /**
   * On success the link is gone, its place holds what was at the target,
   * and the target path is empty; if the move fails after the link was
   * deleted, the link stays deleted.
   */
  lemma RemoveFileResult(t: Tree, faults: Faults, cwd: Path, file: Path)
    ensures var p := Abs(cwd, file);
      var s := RemoveFileEffect(t, faults, cwd, file);
      s.outcome.Pass? ==>
        && p in t && t[p].Symlink?
        && var repo := Abs(cwd, t[p].target);
           && repo != p && repo in t
           && s.tree == (t - {p, repo})[p := t[repo]]
    ensures var p := Abs(cwd, file);
      var s := RemoveFileEffect(t, faults, cwd, file);
      s.outcome.Fail? && s.tree != t ==> s.tree == t - {p}
  {
  }

  /**
   * Adding a regular file and then removing the link left behind restores
   * the file, with its content, where it was; the managed copy is gone and
   * everything else is as before.
   */
  lemma AddThenRemove(t: Tree, faults: Faults, pending: seq<string>, cwd: Path, filePath: Path, folderPath: Path)
    requires IsAbs(folderPath) && folderPath[|folderPath| - 1] != '/' && FolderExist(t, folderPath)
    requires Base(filePath) != "/"
    requires var src, dst := Abs(cwd, filePath), Join(folderPath, Base(filePath));
      && src in t && t[src].File? && !FileExist(t, dst) && src != dst
      && DirectDir(t, Dir(src)) && Dir(src) != src && Dir(src) != dst
      && (RenameOp, src) !in faults && (SymlinkOp, src) !in faults
      && (RemoveOp, src) !in faults && (RenameOp, dst) !in faults
    ensures var added := AddFileEffect(t, faults, pending, cwd, filePath, folderPath);
      && added.outcome == Pass
      && RemoveFileEffect(added.tree, faults, cwd, filePath) == Stored(Pass, t - {Join(folderPath, Base(filePath))})
  {
    var src, dst := Abs(cwd, filePath), Join(folderPath, Base(filePath));
    AddFileSucceeds(t, faults, pending, cwd, filePath, folderPath);
    DirOfJoin(folderPath, Base(filePath));
    RemoveRestores(t, faults, cwd, filePath, dst);
  }

  /** Removing the link AddFile left behind moves the file back and empties `dst`. */
  lemma RemoveRestores(t: Tree, faults: Faults, cwd: Path, filePath: Path, dst: Path)
    requires IsAbs(dst)
    requires var src := Abs(cwd, filePath);
      && src in t && t[src].File? && src != dst
      && DirectDir(t, Dir(src)) && Dir(src) != src && Dir(src) != dst
      && (RemoveOp, src) !in faults && (RenameOp, dst) !in faults
    ensures var src := Abs(cwd, filePath);
      RemoveFileEffect((t - {src} + map[dst := t[src]])[src := Symlink(dst)], faults, cwd, filePath) == Stored(Pass, t - {dst})
  {
    var src := Abs(cwd, filePath);
    var t3 := t - {src} + map[dst := t[src]];
    var t2 := t3[src := Symlink(dst)];
    assert Abs(cwd, dst) == dst;
    assert LinkTarget(t2, src) == Ok(dst);
    assert FileExist(t2, dst) by {
      LinkReadsThrough(t2, src, dst);
    }
    assert MoveBack(t2, faults, src, dst, dst) == Stored(Pass, t - {dst}) by {
      MoveBackAlgebra(t, src, dst);
      assert RemoveChange(t2, faults, src) == Changed(t3);
      ParentKept(t, t3, src);
      assert src !in t3;
      assert RenameChange(t3, faults, dst, src) == Changed(t - {dst});
    }
  }

  /** The trees met on the way there and back. */
  lemma MoveBackAlgebra(t: Tree, src: Path, dst: Path)
    requires src in t && src != dst
    ensures var t3 := t - {src} + map[dst := t[src]];
      && t3[src := Symlink(dst)] - {src} == t3
      && t3 - {dst} + map[src := t[src]] == t - {dst}
  {
    var t3 := t - {src} + map[dst := t[src]];
    var t4 := t3 - {dst} + map[src := t[src]];
    assert t4.Keys == (t - {dst}).Keys;
    forall k | k in t4
      ensures t4[k] == t[k]
    {
    }
  }

  /** A directory held directly in the tree that survives a change still holds `p`. */
  lemma ParentKept(t: Tree, t2: Tree, p: Path)
    requires DirectDir(t, Dir(p))
    requires Dir(p) in t ==> Dir(p) in t2 && t2[Dir(p)] == t[Dir(p)]
    ensures ParentIsDir(t2, p)
  {
  }
}
