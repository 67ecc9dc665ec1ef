/**
 * The part of the operating system the program touches: a tree of files,
 * symbolic links and directories, the queries of internal/helpers.go over
 * it, and the system calls of package os as functions that either change
 * the tree or refuse with an error.
 */
module FileSystem {
  import opened Wrappers
  import opened Paths
  import opened Entries

  /** What a regular file holds: arbitrary text, or a JSON manifest document. */
  datatype Content = Text(text: string) | Document(manifest: Manifest)

  datatype Node = File(content: Content) | Symlink(target: Path) | Directory

  /** Absolute path to node; a symbolic link is stored, not followed. */
  type Tree = map<Path, Node>

  /** The system calls that the environment can refuse (permissions, full disk, ...). */
  datatype FsOp = MkdirOp | RenameOp | SymlinkOp | RemoveOp | WriteOp

  /** The refusals an environment imposes: the call `op` on that path fails. */
  type Faults = set<(FsOp, Path)>

  datatype OsError = NotExist | Exists | NotDir | IsDirectory | TooManyLinks | Invalid | Refusal(op: FsOp)

  function ErrorText(e: OsError): string {
    match e
    case NotExist => "no such file or directory"
    case Exists => "file exists"
    case NotDir => "not a directory"
    case IsDirectory => "is a directory"
    case TooManyLinks => "too many levels of symbolic links"
    case Invalid => "invalid argument"
    case Refusal(_) => "permission denied"
  }

  /** The outcome of a system call that changes the tree. */
  datatype Change = Changed(tree: Tree) | Refused(error: OsError)

  /** Linux gives up resolving a path after this many symbolic links (MAXSYMLINKS). */
  const MaxHops: nat := 40

  /** Where a link stored at `at` points: a relative target is taken from the link's directory. */
  function LinkDestination(at: Path, target: Path): (r: Path)
    ensures IsAbs(target) ==> r == target
  {
    if IsAbs(target) then target else Join(Dir(at), target)
  }

  datatype Lookup = Found(path: Path, node: Node) | Missing(path: Path) | Looping

  /** Path resolution that follows at most `hops` more links. */
  function Walk(t: Tree, p: Path, hops: nat): (r: Lookup)
    ensures r.Found? ==> r.path in t && t[r.path] == r.node && !r.node.Symlink?
    ensures r.Missing? ==> r.path !in t
    ensures p !in t ==> r == Missing(p)
    ensures p in t && !t[p].Symlink? ==> r == Found(p, t[p])
    decreases hops
  {
    if p !in t then Missing(p)
    else match t[p]
      case Symlink(target) => if hops == 0 then Looping else Walk(t, LinkDestination(p, target), hops - 1)
      case _ => Found(p, t[p])
  }

  /** os.Stat: resolve every link on the way. */
  function Stat(t: Tree, p: Path): Lookup {
    Walk(t, p, MaxHops)
  }

  /**
   * FileExist: anything but "does not exist" counts as existing, so a
   * dangling link does not exist and a link cycle does.
   */
  function FileExist(t: Tree, p: Path): (r: bool)
    ensures r ==> p in t
    ensures p in t && !t[p].Symlink? ==> r
  {
    !Stat(t, p).Missing?
  }

  /**
   * FolderExist: the path resolves to a directory. A directory stored at
   * `p` is a folder, and a regular file there is not.
   */
  function FolderExist(t: Tree, p: Path): (r: bool)
    ensures r ==> FileExist(t, p)
    ensures p in t && !t[p].Symlink? ==> (r <==> t[p].Directory?)
  {
    Stat(t, p).Found? && Stat(t, p).node.Directory?
  }

  /** IsSymlink: os.Lstat, which does not follow a link at `p` itself. */
  function IsSymlink(t: Tree, p: Path): (r: Result<bool>)
    ensures r.Err? <==> p !in t
    ensures r.Ok? ==> (r.value <==> t[p].Symlink?)
  {
    if p !in t then Err("file does not exist: lstat " + p + ": " + ErrorText(NotExist))
    else Ok(t[p].Symlink?)
  }

  /** FollowSymlink: os.Readlink, the stored target as written. */
  function FollowSymlink(t: Tree, p: Path): (r: Result<Path>)
    ensures r.Ok? <==> p in t && t[p].Symlink?
    ensures r.Ok? ==> r.value == t[p].target
  {
    if p !in t then Err("failed to read symlink: readlink " + p + ": " + ErrorText(NotExist))
    else if !t[p].Symlink? then Err("failed to read symlink: readlink " + p + ": " + ErrorText(Invalid))
    else Ok(t[p].target)
  }

  /** The directory that would hold `p` exists (the root always does). */
  predicate ParentIsDir(t: Tree, p: Path) {
    var d := Dir(p);
    d == "/" || FolderExist(t, d)
  }

  /** mkdir of one directory whose parent must exist. */
  function MkdirChange(t: Tree, faults: Faults, p: Path): (c: Change)
    ensures c.Changed? ==> c.tree == t || (p !in t && c.tree == t[p := Directory])
  {
    if p in t then Refused(Exists)
    else if !ParentIsDir(t, p) then Refused(NotExist)
    else if (MkdirOp, p) in faults then Refused(Refusal(MkdirOp))
    else Changed(t[p := Directory])
  }

  /**
   * os.MkdirAll: nothing to do for an existing directory, "not a directory"
   * for anything else there, otherwise the parent first and then `p`
   * (a directory that appears at `p` meanwhile also counts as success).
   */
  function MkdirAllChange(t: Tree, faults: Faults, p: Path): (c: Change)
    ensures FolderExist(t, p) ==> c == Changed(t)
    ensures c.Changed? ==> FolderExist(c.tree, p)
    decreases |p|
  {
    match Stat(t, p)
    case Found(_, Directory) => Changed(t)
    case Found(_, _) => Refused(NotDir)
    case _ =>
      var parent := Dir(p);
      var up := if parent != "/" && |parent| < |p| then MkdirAllChange(t, faults, parent) else Changed(t);
      match up
      case Refused(e) => Refused(e)
      case Changed(t1) =>
        if p in t1 && t1[p].Directory? then Changed(t1) else MkdirChange(t1, faults, p)
  }

  /** The nodes already in `t` are in `t2`, unchanged, and every new node is a directory. */
  predicate OnlyAddsDirs(t: Tree, t2: Tree) {
    && (forall q :: q in t ==> q in t2 && t2[q] == t[q])
    && (forall q :: q in t2 && q !in t ==> t2[q] == Directory)
  }

  /** MkdirAll adds directories and nothing else, and afterwards `p` is a folder. */
  lemma {:induction false} MkdirAllOnlyAddsDirs(t: Tree, faults: Faults, p: Path)
    ensures MkdirAllChange(t, faults, p).Changed? ==> OnlyAddsDirs(t, MkdirAllChange(t, faults, p).tree)
    ensures MkdirAllChange(t, faults, p).Changed? ==> FolderExist(MkdirAllChange(t, faults, p).tree, p)
    decreases |p|
  {
    match Stat(t, p)
    case Found(_, Directory) =>
    case Found(_, _) =>
    case _ =>
      var parent := Dir(p);
      var up := if parent != "/" && |parent| < |p| then MkdirAllChange(t, faults, parent) else Changed(t);
      if parent != "/" && |parent| < |p| {
        MkdirAllOnlyAddsDirs(t, faults, parent);
      }
      if up.Changed? {
        var t1 := up.tree;
        assert OnlyAddsDirs(t, t1);
        if !(p in t1 && t1[p].Directory?) {
          var c := MkdirChange(t1, faults, p);
          assert MkdirAllChange(t, faults, p) == c;
          if c.Changed? {
            AddDirKeepsOnlyDirs(t, t1, p);
          }
        }
      }
  }

  /** Adding one missing directory keeps "only directories were added". */
  lemma AddDirKeepsOnlyDirs(t: Tree, t1: Tree, p: Path)
    requires OnlyAddsDirs(t, t1) && p !in t1
    ensures OnlyAddsDirs(t, t1[p := Directory])
  {
    assert p !in t;
  }

  /**
   * os.Rename: the node (a link is moved as a link) leaves `from` and
   * replaces whatever was at `to`. Go refuses an existing directory at
   * `to` with "file exists" before renaming, and a directory never
   * replaces a non-directory.
   */
  function RenameChange(t: Tree, faults: Faults, from: Path, to: Path): (c: Change)
    ensures c.Changed? ==> from in t
    ensures c.Changed? && from != to ==> c.tree == t - {from} + map[to := t[from]]
    ensures c.Changed? && from == to ==> c.tree == t
  {
    if from !in t then Refused(NotExist)
    else if to in t && t[to].Directory? then Refused(Exists)
    else if !ParentIsDir(t, to) then Refused(NotExist)
    else if (RenameOp, from) in faults then Refused(Refusal(RenameOp))
    else if to in t && !t[to].Directory? && t[from].Directory? then Refused(NotDir)
    else if from == to then Changed(t)
    else Changed(t - {from} + map[to := t[from]])
  }

  /** Go's os.Rename checks the destination first: an existing directory there is "file exists". */
  lemma RenameOntoDirectory(t: Tree, faults: Faults, from: Path, to: Path)
    requires from in t && to in t && t[to].Directory?
    ensures RenameChange(t, faults, from, to) == Refused(Exists)
  {
  }

  /** os.Symlink(target, link): a new link holding `target` verbatim. */
  function SymlinkChange(t: Tree, faults: Faults, target: Path, link: Path): (c: Change)
    ensures c.Changed? ==> link !in t && c.tree == t[link := Symlink(target)]
    ensures link in t ==> c == Refused(Exists)
  {
    if link in t then Refused(Exists)
    else if !ParentIsDir(t, link) then Refused(NotExist)
    else if (SymlinkOp, link) in faults then Refused(Refusal(SymlinkOp))
    else Changed(t[link := Symlink(target)])
  }

  /** os.Remove: the node at `p` itself (a link, not its target) is deleted. */
  function RemoveChange(t: Tree, faults: Faults, p: Path): (c: Change)
    ensures c.Changed? ==> p in t && c.tree == t - {p}
    ensures p !in t ==> c == Refused(NotExist)
  {
    if p !in t then Refused(NotExist)
    else if (RemoveOp, p) in faults then Refused(Refusal(RemoveOp))
    else Changed(t - {p})
  }

  /**
   * os.WriteFile: follows links; replaces the contents of the file found,
   * or creates the file where the resolution ended when nothing is there.
   */
  function WriteChange(t: Tree, faults: Faults, p: Path, content: Content): (c: Change)
    ensures FolderExist(t, p) ==> c == Refused(IsDirectory)
    ensures Stat(t, p).Looping? ==> c == Refused(TooManyLinks)
    ensures c.Changed? ==> !Stat(t, p).Looping? && c.tree == t[Stat(t, p).path := File(content)]
  {
    match Stat(t, p)
    case Looping => Refused(TooManyLinks)
    case Found(q, node) =>
      if node.Directory? then Refused(IsDirectory)
      else if (WriteOp, q) in faults then Refused(Refusal(WriteOp))
      else Changed(t[q := File(content)])
    case Missing(q) =>
      if !ParentIsDir(t, q) then Refused(NotExist)
      else if (WriteOp, q) in faults then Refused(Refusal(WriteOp))
      else Changed(t[q := File(content)])
  }

  datatype Fetched = Fetched(content: Content) | NotFetched(error: OsError)

  /** os.ReadFile: follows links to a regular file. */
  function ReadChange(t: Tree, p: Path): (r: Fetched)
    ensures r.Fetched? ==> FileExist(t, p)
    ensures !FileExist(t, p) ==> r == NotFetched(NotExist)
  {
    match Stat(t, p)
    case Looping => NotFetched(TooManyLinks)
    case Missing(_) => NotFetched(NotExist)
    case Found(_, node) =>
      match node
      case File(content) => Fetched(content)
      case _ => NotFetched(IsDirectory)
  }

  /** Giving the node where a resolution ends a new non-link value makes the resolution end there. */
  lemma {:induction false} WalkToUpdated(t: Tree, p: Path, hops: nat, q: Path, n: Node)
    requires Walk(t, p, hops) == Missing(q) || (Walk(t, p, hops).Found? && Walk(t, p, hops).path == q)
    requires !n.Symlink?
    ensures Walk(t[q := n], p, hops) == Found(q, n)
    decreases hops
  {
    if p != q {
      WalkPassesLink(t, p, hops, q);
      var next := LinkDestination(p, t[p].target);
      WalkToUpdated(t, next, hops - 1, q, n);
      WalkThroughLink(t[q := n], p, hops);
    }
  }

  /** A resolution that ends somewhere other than where it started went through a link there. */
  lemma WalkPassesLink(t: Tree, p: Path, hops: nat, q: Path)
    requires Walk(t, p, hops) == Missing(q) || (Walk(t, p, hops).Found? && Walk(t, p, hops).path == q)
    requires p != q
    ensures p in t && t[p].Symlink? && hops > 0
    ensures Walk(t, p, hops) == Walk(t, LinkDestination(p, t[p].target), hops - 1)
  {
  }

  /** A resolution that meets a link goes on from the link's destination with one hop fewer. */
  lemma WalkThroughLink(t: Tree, p: Path, hops: nat)
    requires p in t && t[p].Symlink? && hops > 0
    ensures Walk(t, p, hops) == Walk(t, LinkDestination(p, t[p].target), hops - 1)
  {
  }

  /** Reading a file right after writing it gives back what was written. */
  lemma WriteThenRead(t: Tree, faults: Faults, p: Path, content: Content)
    requires WriteChange(t, faults, p, content).Changed?
    ensures ReadChange(WriteChange(t, faults, p, content).tree, p) == Fetched(content)
  {
    match Stat(t, p)
    case Found(q, _) => WalkToUpdated(t, p, MaxHops, q, File(content));
    case Missing(q) => WalkToUpdated(t, p, MaxHops, q, File(content));
  }

  /** A link holding the absolute path of a regular file reads as that file. */
  lemma LinkReadsThrough(t: Tree, link: Path, target: Path)
    requires IsAbs(target) && link in t && t[link] == Symlink(target)
    requires target in t && t[target].File?
    ensures FollowSymlink(t, link) == Ok(target)
    ensures ReadChange(t, link) == Fetched(t[target].content)
  {
    assert Walk(t, target, MaxHops - 1) == Found(target, t[target]);
  }

  /** A link whose chain of targets ends at nothing does not exist for FileExist. */
  lemma DanglingLinkDoesNotExist(t: Tree, link: Path, target: Path)
    requires link in t && t[link] == Symlink(target)
    requires LinkDestination(link, target) !in t
    ensures !FileExist(t, link)
  {
  }

  /** The disk the program runs against; `faults` are the calls the environment refuses. */
  class Disk {
    var tree: Tree
    const faults: Faults

    constructor (tree: Tree, faults: Faults)
      ensures this.tree == tree && this.faults == faults
    {
      this.tree := tree;
      this.faults := faults;
    }

    /** A refused call leaves the tree alone and reports the error. */
    method Apply(c: Change) returns (err: Option<OsError>)
      modifies this
      ensures c.Changed? ==> tree == c.tree && err == None
      ensures c.Refused? ==> tree == old(tree) && err == Some(c.error)
    {
      if c.Changed? {
        tree := c.tree;
        err := None;
      } else {
        err := Some(c.error);
      }
    }

    /** CreateFolder: os.MkdirAll. */
    method MkdirAll(p: Path) returns (err: Option<OsError>)
      modifies this
      ensures var c := MkdirAllChange(old(tree), faults, p);
        && (c.Changed? ==> tree == c.tree && err == None)
        && (c.Refused? ==> tree == old(tree) && err == Some(c.error))
    {
      err := Apply(MkdirAllChange(tree, faults, p));
    }

    method Rename(from: Path, to: Path) returns (err: Option<OsError>)
      modifies this
      ensures var c := RenameChange(old(tree), faults, from, to);
        && (c.Changed? ==> tree == c.tree && err == None)
        && (c.Refused? ==> tree == old(tree) && err == Some(c.error))
    {
      err := Apply(RenameChange(tree, faults, from, to));
    }

    method Symlink(target: Path, link: Path) returns (err: Option<OsError>)
      modifies this
      ensures var c := SymlinkChange(old(tree), faults, target, link);
        && (c.Changed? ==> tree == c.tree && err == None)
        && (c.Refused? ==> tree == old(tree) && err == Some(c.error))
    {
      err := Apply(SymlinkChange(tree, faults, target, link));
    }

    method Remove(p: Path) returns (err: Option<OsError>)
      modifies this
      ensures var c := RemoveChange(old(tree), faults, p);
        && (c.Changed? ==> tree == c.tree && err == None)
        && (c.Refused? ==> tree == old(tree) && err == Some(c.error))
    {
      err := Apply(RemoveChange(tree, faults, p));
    }

    method WriteFile(p: Path, content: Content) returns (err: Option<OsError>)
      modifies this
      ensures var c := WriteChange(old(tree), faults, p, content);
        && (c.Changed? ==> tree == c.tree && err == None)
        && (c.Refused? ==> tree == old(tree) && err == Some(c.error))
    {
      err := Apply(WriteChange(tree, faults, p, content));
    }

    /**
     * What another process (git, run by the program) writes meanwhile: each
     * node of `put` replaces whatever was at its path.
     */
    method Absorb(put: Tree)
      modifies this
      ensures tree == old(tree) + put
    {
      tree := tree + put;
    }
  }
}
