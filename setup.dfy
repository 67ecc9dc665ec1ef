/**
 * internal/manager/init.go: Init prepares the repository folder, makes it a
 * git work tree with the requested remote (or reconciles the remote it
 * already has), and links every file listed in the folder's info.json back
 * to where it belongs.
 */
module Setup {
  import opened Wrappers
  import opened GoStrings
  import opened Paths
  import opened Entries
  import opened FileSystem
  import opened Git
  import opened UserInput
  import opened Remotes
  import opened Manifests
  import Sync
  import Relocation

  /** The file inside the repository folder that lists the managed dotfiles. */
  const InfoFile := "info.json"

  // ----- checkRemote -------------------------------------------------------

  /** The remote URL (or the error), the commands run, the unused script and the unanswered responses. */
  datatype Remote = Remote(urls: Result<string>, commands: seq<Command>, script: seq<Reply>, pending: seq<string>)

  /**
   * checkRemote: the URL of origin; when there is none the user may add
   * `repository` as origin, after which the URL is asked for again.
   * Declining is not an error: the URL is then empty.
   */
  function CheckRemotePlan(repository: string, script: seq<Reply>, pending: seq<string>): (r: Remote)
    ensures r.commands != [] && r.commands[0] == GetUrl
    ensures r.script == After(script, |r.commands|)
    ensures Answered(pending, r.pending)
  {
    var first := RemoteLookup(NextReply(script));
    if first.Ok? then Remote(first, [GetUrl], RestOf(script), pending)
    else
      var offer := OfferRemote(repository, RestOf(script), pending);
      offer.(commands := [GetUrl] + offer.commands)
  }

  /** No origin: the user is asked whether to add `repository` as origin. */
  function OfferRemote(repository: string, script: seq<Reply>, pending: seq<string>): (r: Remote)
    ensures r.script == After(script, |r.commands|)
    ensures Answered(pending, r.pending)
  {
    var c := Confirm(pending);
    if !c.yes then Remote(Ok(""), [], script, c.rest)
    else AddRemotePlan(repository, script, c.rest)
  }

  /** `remote add origin`, then the URL asked for again. */
  function AddRemotePlan(repository: string, script: seq<Reply>, pending: seq<string>): (r: Remote)
    ensures r.commands == [AddRemote(repository)] || r.commands == [AddRemote(repository), GetUrl]
    ensures r.script == After(script, |r.commands|) && r.pending == pending
  {
    var add := NextReply(script);
    var s1 := RestOf(script);
    if add.code != 0 then
      Remote(Err("could not add origin to the repository: " + ExitText(add)), [AddRemote(repository)], s1, pending)
    else
      var second := RemoteLookup(NextReply(s1));
      Remote(if second.Ok? then second else Err("could not find remote urls: " + second.message),
             [AddRemote(repository), GetUrl], RestOf(s1), pending)
  }

  /**
   * The URL of an existing origin is used as it is, with no question
   * asked; a declined offer to add one yields the empty URL and is not an
   * error.
   */
  lemma CheckRemoteMeaning(repository: string, script: seq<Reply>, pending: seq<string>)
    ensures var r := CheckRemotePlan(repository, script, pending);
      && (NextReply(script).code == 0 ==>
            r == Remote(Ok(TrimSpace(NextReply(script).output)), [GetUrl], RestOf(script), pending))
      && (NextReply(script).code != 0 && !Confirm(pending).yes ==>
            r == Remote(Ok(""), [GetUrl], RestOf(script), Confirm(pending).rest))
  {
  }

  /**
   * checkRemote asks git first; origin is added, and only ever as
   * `repository`, exactly when there was none and the user agreed.
   */
  lemma CheckRemoteAdds(repository: string, script: seq<Reply>, pending: seq<string>)
    ensures var r := CheckRemotePlan(repository, script, pending);
      && (AddRemote(repository) in r.commands <==> NextReply(script).code != 0 && Confirm(pending).yes)
      && (forall u :: AddRemote(u) in r.commands ==> u == repository)
      && r.commands != [] && r.commands[0] == GetUrl
  {
    var r := CheckRemotePlan(repository, script, pending);
    if NextReply(script).code == 0 {
      assert r.commands == [GetUrl];
    } else {
      var offer := OfferRemote(repository, RestOf(script), pending);
      assert r.commands == [GetUrl] + offer.commands;
      if Confirm(pending).yes {
        assert offer.commands == [AddRemote(repository)] || offer.commands == [AddRemote(repository), GetUrl];
      } else {
        assert offer.commands == [];
      }
    }
  }

  // ----- the fresh repository ----------------------------------------------

  /** fetch origin, check out `branch` tracking origin's, pull; each step only after the one before succeeded. */
  function FetchCheckoutPullPlan(branch: string, script: seq<Reply>, pending: seq<string>): (r: Sync.Run)
    ensures r.script == After(script, |r.commands|) && r.pending == pending
  {
    var fetch := NextReply(script);
    var s1 := RestOf(script);
    assert After(script, 3) == RestOf(RestOf(s1));
    if fetch.code != 0 then Sync.Run(Fail("could not fetch Origin: " + ExitText(fetch)), [FetchOrigin], s1, pending)
    else
      var checkout := NextReply(s1);
      var s2 := RestOf(s1);
      if checkout.code != 0 then
        Sync.Run(Fail("could not checkout: " + ExitText(checkout)), [FetchOrigin, CheckoutTrack(branch)], s2, pending)
      else
        var pull := NextReply(s2);
        Sync.Run(if pull.code != 0 then Fail("could not pull from repository: " + ExitText(pull)) else Pass,
                 [FetchOrigin, CheckoutTrack(branch), Pull], RestOf(s2), pending)
  }

  /** The three steps run in order and stop at the first failure; success means all three exited 0. */
  lemma FetchCheckoutPullInOrder(branch: string, script: seq<Reply>, pending: seq<string>)
    ensures var r := FetchCheckoutPullPlan(branch, script, pending);
      && r.commands in [[FetchOrigin], [FetchOrigin, CheckoutTrack(branch)], [FetchOrigin, CheckoutTrack(branch), Pull]]
      && (r.outcome.Pass? <==>
            NextReply(script).code == 0 && NextReply(RestOf(script)).code == 0 && NextReply(RestOf(RestOf(script))).code == 0)
      && (r.outcome.Pass? ==> r.commands == [FetchOrigin, CheckoutTrack(branch), Pull])
      && r.pending == pending
  {
  }

  /**
   * The branch for a folder that is not a work tree (rev-parse exited 128):
   * `git init` if the user agrees, checkRemote, and, when a remote URL is
   * known and the user agrees, fetch, checkout and pull.
   */
  function FreshRepoPlan(repository: string, branch: string, script: seq<Reply>, pending: seq<string>): (r: Sync.Run)
    ensures r.commands != [] && |r.script| <= |script|
    ensures Answered(pending, r.pending)
    ensures PullLast(r.commands, branch)
  {
    var c := Confirm(pending);
    var init := NextReply(script);
    assert Answered(pending, c.rest);
    if c.yes && init.code != 0 then
      Sync.Run(Fail("could not initialize repository: " + ExitText(init)), [InitRepo], RestOf(script), c.rest)
    else
      var done := if c.yes then [InitRepo] else [];
      var s1 := if c.yes then RestOf(script) else script;
      var rem := CheckRemotePlan(repository, s1, c.rest);
      AnsweredTrans(pending, c.rest, rem.pending);
      var r := AfterRemote(done, rem, branch);
      assert |r.script| <= |rem.script| <= |s1| <= |script|;
      AnsweredTrans(pending, rem.pending, r.pending);
      PullLastAfterRemote(repository, branch, done, s1, c.rest);
      r
  }

  /** What follows checkRemote on a fresh repository: download only when a URL is known and the user agrees. */
  function AfterRemote(done: seq<Command>, rem: Remote, branch: string): (r: Sync.Run)
    ensures |done| + |rem.commands| <= |r.commands|
    ensures r.script == After(rem.script, |r.commands| - |done| - |rem.commands|)
    ensures Answered(rem.pending, r.pending)
  {
    var d := DownloadTail(rem, branch);
    var r := d.(commands := done + rem.commands + d.commands);
    assert |r.commands| - |done| - |rem.commands| == |d.commands|;
    r
  }

  /** The commands run after checkRemote on a fresh repository, alone. */
  function DownloadTail(rem: Remote, branch: string): (r: Sync.Run)
    ensures r.script == After(rem.script, |r.commands|)
    ensures Answered(rem.pending, r.pending)
  {
    assert After(rem.script, 0) == rem.script;
    if rem.urls.Err? then Sync.Run(Fail(rem.urls.message), [], rem.script, rem.pending)
    else if rem.urls.value == "" then Sync.Run(Pass, [], rem.script, rem.pending)
    else
      var c := Confirm(rem.pending);
      if !c.yes then Sync.Run(Pass, [], rem.script, c.rest)
      else FetchCheckoutPullPlan(branch, rem.script, c.rest)
  }

  /** What checkRemote can run: only `get-url` and `remote add`. */
  predicate RemoteCommandsOnly(commands: seq<Command>) {
    forall c :: c in commands ==> c == GetUrl || c.AddRemote?
  }

  lemma CheckRemoteCommands(repository: string, script: seq<Reply>, pending: seq<string>)
    ensures RemoteCommandsOnly(CheckRemotePlan(repository, script, pending).commands)
  {
  }

  /**
   * After checkRemote: the commands before it stay first, nothing is
   * fetched unless it produced a non-empty URL and the user agreed, and a
   * pull is always the last of fetch, checkout, pull.
   */
  lemma {:induction false} AfterRemoteMeaning(done: seq<Command>, rem: Remote, branch: string)
    requires RemoteCommandsOnly(rem.commands)
    requires forall c :: c in done ==> c == InitRepo
    ensures var r := AfterRemote(done, rem, branch);
      && |done| <= |r.commands| && r.commands[..|done|] == done
      && (InitRepo in r.commands <==> InitRepo in done)
      && (FetchOrigin in r.commands ==> rem.urls.Ok? && rem.urls.value != "" && Confirm(rem.pending).yes)
      && PullLast(r.commands, branch)
  {
    var r := AfterRemote(done, rem, branch);
    var front := done + rem.commands;
    assert InitRepo !in rem.commands && FetchOrigin !in rem.commands && Pull !in rem.commands;
    assert FetchOrigin !in done && Pull !in done;
    assert InitRepo in front <==> InitRepo in done;
    assert FetchOrigin !in front && Pull !in front;
    assert front[..|done|] == done;
    if rem.urls.Ok? && rem.urls.value != "" && Confirm(rem.pending).yes {
      var c := Confirm(rem.pending);
      var d := FetchCheckoutPullPlan(branch, rem.script, c.rest);
      FetchCheckoutPullInOrder(branch, rem.script, c.rest);
      assert r.commands == front + d.commands;
      DownloadAfterFront(front, d.commands, done, branch);
    } else {
      assert r.commands == front;
    }
  }

  /** A pull, when there is one, is the last of fetch, checkout, pull. */
  predicate PullLast(commands: seq<Command>, branch: string) {
    Pull in commands ==> |commands| >= 3 && commands[|commands| - 3..] == [FetchOrigin, CheckoutTrack(branch), Pull]
  }

  /** The download commands come after everything before them, and a pull closes them. */
  lemma DownloadAfterFront(front: seq<Command>, tail: seq<Command>, done: seq<Command>, branch: string)
    requires Pull !in front && |done| <= |front| && front[..|done|] == done
    requires tail in [[FetchOrigin], [FetchOrigin, CheckoutTrack(branch)], [FetchOrigin, CheckoutTrack(branch), Pull]]
    ensures (front + tail)[..|done|] == done
    ensures InitRepo in front + tail <==> InitRepo in front
    ensures PullLast(front + tail, branch)
  {
    var all := front + tail;
    assert all[..|done|] == front[..|done|];
    assert InitRepo !in tail;
    if Pull in all {
      assert Pull in tail;
      assert all[|all| - 3..] == tail;
    }
  }

  /** `git init` runs exactly when the user agrees to it, and then comes first. */
  lemma FreshRepoInitNeedsConsent(repository: string, branch: string, script: seq<Reply>, pending: seq<string>)
    ensures var r := FreshRepoPlan(repository, branch, script, pending);
      && (InitRepo in r.commands <==> Confirm(pending).yes)
      && (Confirm(pending).yes ==> r.commands != [] && r.commands[0] == InitRepo)
  {
    var c := Confirm(pending);
    FreshRepoSteps(repository, branch, script, pending);
    if !(c.yes && NextReply(script).code != 0) {
      var rem := CheckRemotePlan(repository, if c.yes then RestOf(script) else script, c.rest);
      var done := if c.yes then [InitRepo] else [];
      CheckRemoteCommands(repository, if c.yes then RestOf(script) else script, c.rest);
      AfterRemoteMeaning(done, rem, branch);
    }
  }

  /** After `git init` (or without it) a pull is always the last of fetch, checkout, pull. */
  lemma PullLastAfterRemote(repository: string, branch: string, done: seq<Command>, script: seq<Reply>, pending: seq<string>)
    requires done == [] || done == [InitRepo]
    ensures var r := AfterRemote(done, CheckRemotePlan(repository, script, pending), branch);
      PullLast(r.commands, branch)
  {
    CheckRemoteCommands(repository, script, pending);
    AfterRemoteMeaning(done, CheckRemotePlan(repository, script, pending), branch);
  }

  /** A failed `git init` ends the branch; otherwise it continues with AfterRemote. */
  lemma FreshRepoSteps(repository: string, branch: string, script: seq<Reply>, pending: seq<string>)
    ensures var c := Confirm(pending);
      && (c.yes && NextReply(script).code != 0 ==>
            FreshRepoPlan(repository, branch, script, pending)
            == Sync.Run(Fail("could not initialize repository: " + ExitText(NextReply(script))), [InitRepo], RestOf(script), c.rest))
      && (!(c.yes && NextReply(script).code != 0) ==>
            FreshRepoPlan(repository, branch, script, pending)
            == AfterRemote(if c.yes then [InitRepo] else [], CheckRemotePlan(repository, if c.yes then RestOf(script) else script, c.rest), branch))
  {
  }

  // ----- reconciling an existing remote ------------------------------------

  /**
   * The URL Init compares with `repository` when the two do not start
   * alike: the current URL in GitHub's other form, with its ".git" suffix
   * toggled unless SameSuffix holds.
   */
  function Candidate(current: string, repository: string): (r: string)
    ensures SameSuffix(NormaliseRepoURL(current), repository) ==> r == NormaliseRepoURL(current)
    ensures !HasSuffix(NormaliseRepoURL(current), ".git") ==> r == NormaliseRepoURL(current) + ".git"
  {
    var normalised := NormaliseRepoURL(current);
    if SameSuffix(normalised, repository) then normalised else NormaliseRepoSuffix(normalised)
  }

  /**
   * The branch for a work tree (rev-parse exited 0): checkRemote, then,
   * when the URLs do not share a first character, `set-url` to
   * `repository` if the candidate equals it, `force` is set and the user
   * agrees; equal URLs need nothing; any other pair is an error.
   */
  function ReconcilePlan(repository: string, force: bool, script: seq<Reply>, pending: seq<string>): (r: Sync.Run)
    ensures r.commands != [] && r.commands[0] == GetUrl && |r.script| <= |script|
    ensures Answered(pending, r.pending)
  {
    var rem := CheckRemotePlan(repository, script, pending);
    if rem.urls.Err? then Sync.Run(Fail(rem.urls.message), rem.commands, rem.script, rem.pending)
    else
      var cmp := CompareUrls(rem.urls.value, repository, force, rem.script, rem.pending);
      AnsweredTrans(pending, rem.pending, cmp.pending);
      cmp.(commands := rem.commands + cmp.commands)
  }

  /** The comparison of the current origin URL with `repository`, once checkRemote has found one. */
  function CompareUrls(current: string, repository: string, force: bool, script: seq<Reply>, pending: seq<string>): (r: Sync.Run)
    ensures r.commands == if CommonPrefixLength(current, repository) == 0 && Candidate(current, repository) == repository
                             && force && Confirm(pending).yes then [SetUrl(repository)] else []
    ensures r.script == After(script, |r.commands|)
    ensures Answered(pending, r.pending)
  {
    if CommonPrefixLength(current, repository) == 0 then
      if Candidate(current, repository) == repository && force then
        var c := Confirm(pending);
        if !c.yes then Sync.Run(Pass, [], script, c.rest)
        else
          var change := NextReply(script);
          Sync.Run(if change.code != 0 then Fail("error changing remote: " + ExitText(change)) else Pass,
                   [SetUrl(repository)], RestOf(script), c.rest)
      else Sync.Run(Pass, [], script, pending)
    else if current == repository then Sync.Run(Pass, [], script, pending)
    else Sync.Run(Fail("unknown error when checking Repository"), [], script, pending)
  }

  /**
   * The remote is rewritten, and only ever to `repository`, exactly when
   * the URLs differ from the first character on, the candidate equals
   * `repository`, `force` is set and the user agrees.
   */
  lemma ReconcileSetsOnlyRepository(repository: string, force: bool, script: seq<Reply>, pending: seq<string>)
    ensures var r := ReconcilePlan(repository, force, script, pending);
      var rem := CheckRemotePlan(repository, script, pending);
      && (forall u :: SetUrl(u) in r.commands ==> u == repository)
      && (SetUrl(repository) in r.commands <==>
            && rem.urls.Ok? && CommonPrefixLength(rem.urls.value, repository) == 0
            && Candidate(rem.urls.value, repository) == repository && force && Confirm(rem.pending).yes)
  {
    var rem := CheckRemotePlan(repository, script, pending);
    CheckRemoteCommands(repository, script, pending);
    var r := ReconcilePlan(repository, force, script, pending);
    if rem.urls.Ok? && CommonPrefixLength(rem.urls.value, repository) == 0
       && Candidate(rem.urls.value, repository) == repository && force && Confirm(rem.pending).yes {
      assert r.commands == rem.commands + [SetUrl(repository)];
    } else {
      assert r.commands == rem.commands;
    }
  }

  /** An origin that already is `repository` is left alone without a question; one that only starts alike is reported. */
  lemma ReconcileComparesUrls(repository: string, force: bool, script: seq<Reply>, pending: seq<string>)
    ensures var r := ReconcilePlan(repository, force, script, pending);
      var rem := CheckRemotePlan(repository, script, pending);
      && (rem.urls == Ok(repository) && repository != "" ==> r == Sync.Run(Pass, rem.commands, rem.script, rem.pending))
      && (rem.urls.Ok? && rem.urls.value != repository && CommonPrefixLength(rem.urls.value, repository) > 0 ==>
            r.outcome == Fail("unknown error when checking Repository"))
  {
    var rem := CheckRemotePlan(repository, script, pending);
    if rem.urls == Ok(repository) && repository != "" {
      assert CommonPrefixLength(repository, repository) > 0;
    }
  }

  // ----- the ".git" suffix and SameSuffix ----------------------------------

  /** `name`, with ".git" appended when `git` holds. */
  function WithSuffix(name: string, git: bool): (r: string)
    ensures git ==> HasSuffix(r, ".git") && r[..|r| - 4] == name
  {
    if git then name + ".git" else name
  }

  /** Behind a prefix ending in ':' or '/', a name ends in ".git" exactly when the whole does. */
  lemma SuffixBehindPrefix(prefix: string, name: string)
    requires prefix != [] && prefix[|prefix| - 1] in {':', '/'}
    ensures HasSuffix(prefix + name, ".git") <==> HasSuffix(name, ".git")
  {
    var s := prefix + name;
    if |name| >= 4 {
      assert s[|s| - 4..] == name[|name| - 4..];
    } else {
      assert |s| >= 4 ==> s[|s| - 4..][3 - |name|] == prefix[|prefix| - 1];
    }
  }

  /** The two GitHub forms of `name`, each with or without ".git". */
  lemma GitHubForms(name: string, git: bool)
    ensures NormaliseRepoURL(SshGitHub + WithSuffix(name, git)) == HttpsGitHub + WithSuffix(name, git)
    ensures NormaliseRepoURL(HttpsGitHub + WithSuffix(name, git)) == SshGitHub + WithSuffix(name, git)
    ensures HasSuffix(SshGitHub + WithSuffix(name, git), ".git") <==> git || HasSuffix(name, ".git")
    ensures HasSuffix(HttpsGitHub + WithSuffix(name, git), ".git") <==> git || HasSuffix(name, ".git")
  {
    assert SshGitHub + WithSuffix(name, git) == "git@" + "github.com" + ":" + WithSuffix(name, git);
    NormaliseSshUrl("github.com", WithSuffix(name, git));
    NormaliseHttpsUrl(WithSuffix(name, git));
    SuffixBehindPrefix(SshGitHub, WithSuffix(name, git));
    SuffixBehindPrefix(HttpsGitHub, WithSuffix(name, git));
    if !git {
      assert WithSuffix(name, git) == name;
    }
  }

  /**
   * As written, the candidate for a GitHub repository given in the other
   * form matches unless neither URL carries ".git": SameSuffix is false for
   * two bare URLs as well, so ".git" is appended to a URL that needed
   * nothing.
   */
  lemma CandidateAsWritten(name: string, current: bool, wanted: bool)
    requires !HasSuffix(name, ".git")
    ensures (Candidate(SshGitHub + WithSuffix(name, current), HttpsGitHub + WithSuffix(name, wanted))
             == HttpsGitHub + WithSuffix(name, wanted)) <==> current || wanted
    ensures (Candidate(HttpsGitHub + WithSuffix(name, current), SshGitHub + WithSuffix(name, wanted))
             == SshGitHub + WithSuffix(name, wanted)) <==> current || wanted
  {
    GitHubForms(name, current);
    GitHubForms(name, wanted);
    SuffixBehindPrefix(HttpsGitHub, name);
    SuffixBehindPrefix(SshGitHub, name);
    AsWrittenToggle(HttpsGitHub, name, current, wanted);
    AsWrittenToggle(SshGitHub, name, current, wanted);
  }

  /** Toggling ".git" on `prefix + name` unless both flags hold yields the wanted form unless both flags fail. */
  lemma AsWrittenToggle(prefix: string, name: string, current: bool, wanted: bool)
    requires !HasSuffix(prefix + name, ".git")
    ensures ((if current && wanted then prefix + WithSuffix(name, current)
              else NormaliseRepoSuffix(prefix + WithSuffix(name, current))) == prefix + WithSuffix(name, wanted))
            <==> current || wanted
  {
    if current != wanted {
      IntendedToggle(prefix, name, current, wanted);
    } else if !current {
      assert prefix + WithSuffix(name, false) == prefix + name;
      assert |NormaliseRepoSuffix(prefix + name)| == |prefix + name| + 4;
    }
  }

  /** The concrete case: "git@github.com:u/r" is not recognised as "https://github.com/u/r". */
  lemma CandidateMissesBareUrls()
    ensures Candidate(SshGitHub + "u/r", HttpsGitHub + "u/r") == HttpsGitHub + "u/r.git"
    ensures Candidate(SshGitHub + "u/r", HttpsGitHub + "u/r") != HttpsGitHub + "u/r"
  {
    GitHubForms("u/r", false);
    assert WithSuffix("u/r", false) == "u/r";
    SuffixBehindPrefix(HttpsGitHub, "u/r");
    var normalised := HttpsGitHub + "u/r";
    assert !SameSuffix(normalised, normalised);
    assert normalised + ".git" == HttpsGitHub + "u/r.git";
    assert |HttpsGitHub + "u/r.git"| != |normalised|;
  }

  /** The suffix is toggled only when exactly one of the two URLs ends in ".git". */
  function CandidateIntended(current: string, repository: string): string {
    var normalised := NormaliseRepoURL(current);
    if HasSuffix(normalised, ".git") == HasSuffix(repository, ".git") then normalised
    else NormaliseRepoSuffix(normalised)
  }

  /** With that test, a GitHub repository given in the other form always matches. */
  lemma CandidateIntendedMatches(name: string, current: bool, wanted: bool)
    requires !HasSuffix(name, ".git")
    ensures CandidateIntended(SshGitHub + WithSuffix(name, current), HttpsGitHub + WithSuffix(name, wanted))
            == HttpsGitHub + WithSuffix(name, wanted)
    ensures CandidateIntended(HttpsGitHub + WithSuffix(name, current), SshGitHub + WithSuffix(name, wanted))
            == SshGitHub + WithSuffix(name, wanted)
  {
    GitHubForms(name, current);
    GitHubForms(name, wanted);
    SuffixBehindPrefix(HttpsGitHub, name);
    SuffixBehindPrefix(SshGitHub, name);
    IntendedToggle(HttpsGitHub, name, current, wanted);
    IntendedToggle(SshGitHub, name, current, wanted);
  }

  /** Toggling ".git" on `prefix + name` exactly when the two flags differ yields the wanted form. */
  lemma IntendedToggle(prefix: string, name: string, current: bool, wanted: bool)
    requires !HasSuffix(prefix + name, ".git")
    ensures (if current == wanted then prefix + WithSuffix(name, current)
             else NormaliseRepoSuffix(prefix + WithSuffix(name, current))) == prefix + WithSuffix(name, wanted)
  {
    var bare := prefix + name;
    var suffixed := bare + ".git";
    assert prefix + WithSuffix(name, true) == suffixed;
    assert prefix + WithSuffix(name, false) == bare;
    if current && !wanted {
      assert suffixed[|suffixed| - 4..] == ".git";
      assert suffixed[..|suffixed| - 4] == bare;
    }
  }

  // ----- addSymlinks -------------------------------------------------------

  /** How far the walk over the manifest got: an abort message, the tree, and the failed links by location. */
  datatype Progress = Progress(abort: Option<string>, tree: Tree, failed: map<Path, string>)

  /** One entry: its file must exist; then a link to it is created where it belongs, a failure being noted. */
  function LinkOne(p: Progress, faults: Faults, cwd: Path, f: FileInfo): (r: Progress)
    ensures forall q :: q in p.tree ==> q in r.tree && r.tree[q] == p.tree[q]
    ensures forall q :: q in r.tree && q !in p.tree ==> q == Abs(cwd, f.symlink) && r.tree[q] == Symlink(f.path)
    ensures p.failed != map[] ==> r.failed != map[]
    ensures r.abort.None? && r.failed == map[] ==>
              Abs(cwd, f.symlink) in r.tree && r.tree[Abs(cwd, f.symlink)] == Symlink(f.path)
    ensures r.abort.Some? <==> p.abort.Some? || !FileExist(p.tree, Abs(cwd, f.path))
    ensures !FileExist(p.tree, Abs(cwd, f.path)) ==>
              r.abort == Some("file " + f.path + " does not exist") && r.tree == p.tree && r.failed == p.failed
    ensures FileExist(p.tree, Abs(cwd, f.path)) ==> r.abort == p.abort
    ensures FileExist(p.tree, Abs(cwd, f.path)) && SymlinkChange(p.tree, faults, f.path, Abs(cwd, f.symlink)).Refused? ==>
              && r.tree == p.tree
              && r.failed == p.failed[f.symlink := LinkError(f, SymlinkChange(p.tree, faults, f.path, Abs(cwd, f.symlink)).error)]
    ensures FileExist(p.tree, Abs(cwd, f.path)) && SymlinkChange(p.tree, faults, f.path, Abs(cwd, f.symlink)).Changed? ==>
              r.failed == p.failed && r.tree == p.tree[Abs(cwd, f.symlink) := Symlink(f.path)]
  {
    if !FileExist(p.tree, Abs(cwd, f.path)) then p.(abort := Some("file " + f.path + " does not exist"))
    else match SymlinkChange(p.tree, faults, f.path, Abs(cwd, f.symlink))
      case Refused(e) =>
        var failed := p.failed[f.symlink := LinkError(f, e)];
        assert f.symlink in failed;
        p.(failed := failed)
      case Changed(t1) => p.(tree := t1)
  }

  /** The message kept for a link that could not be created. */
  function LinkError(f: FileInfo, e: OsError): string {
    "failed to create symlink: symlink " + f.path + " " + f.symlink + ": " + ErrorText(e)
  }

  /** The walk after the entries named in `done`, in that order; the first missing file stops it. */
  function LinkSteps(t: Tree, faults: Faults, cwd: Path, m: Manifest, done: seq<string>): (r: Progress)
    ensures forall q :: q in t ==> q in r.tree && r.tree[q] == t[q]
    decreases |done|
  {
    if done == [] then Progress(None, t, map[])
    else
      var p := LinkSteps(t, faults, cwd, m, done[..|done| - 1]);
      var k := done[|done| - 1];
      if p.abort.Some? || k !in m then p else LinkOne(p, faults, cwd, m[k])
  }

  /** The walk's result: the abort, else one error for all failed links, else success. */
  function LinkOutcome(p: Progress): (r: Outcome)
    ensures r.Pass? <==> p.abort.None? && p.failed == map[]
    ensures p.abort.Some? ==> r == Fail(p.abort.value)
    ensures p.abort.None? && p.failed != map[] ==> r == Fail("could not create symlinks")
  {
    if p.abort.Some? then Fail(p.abort.value)
    else if p.failed != map[] then Fail("could not create symlinks")
    else Pass
  }

  /** addSymlinks, visiting the manifest's entries in the order `order`. */
  function LinkPlan(t: Tree, faults: Faults, home: Path, cwd: Path, folderPath: Path, order: seq<string>): (r: Stored)
    ensures Load(t, home, cwd, Join(folderPath, InfoFile)).Err? ==> r.outcome.Fail? && r.tree == t
    ensures forall q :: q in t ==> q in r.tree && r.tree[q] == t[q]
  {
    match Load(t, home, cwd, Join(folderPath, InfoFile))
    case Err(message) => Stored(Fail("could not read files: " + message), t)
    case Ok(m) =>
      var p := LinkSteps(t, faults, cwd, m, order);
      Stored(LinkOutcome(p), p.tree)
  }

  predicate Distinct(order: seq<string>) {
    forall i, j :: 0 <= i < j < |order| ==> order[i] != order[j]
  }

  /** A visiting order: each entry at most once, and every entry unless the walk stopped early. */
  predicate Scheduled(t: Tree, faults: Faults, cwd: Path, m: Manifest, order: seq<string>) {
    && Distinct(order)
    && (forall k :: k in order ==> k in m)
    && (LinkSteps(t, faults, cwd, m, order).abort.None? ==> forall k :: k in m ==> k in order)
    && (LinkSteps(t, faults, cwd, m, order).abort.Some? ==> order != [] && MissingAt(t, faults, cwd, m, order, |order| - 1))
  }

  /** The `i`-th entry of `done` was reached, and its file was missing. */
  predicate MissingAt(t: Tree, faults: Faults, cwd: Path, m: Manifest, done: seq<string>, i: int)
    requires 0 <= i < |done|
  {
    var pre := LinkSteps(t, faults, cwd, m, done[..i]);
    done[i] in m && pre.abort.None? && !FileExist(pre.tree, Abs(cwd, m[done[i]].path))
  }

  /** The `i`-th entry of `done` was reached, its file was there, and its link was refused. */
  predicate RefusedAt(t: Tree, faults: Faults, cwd: Path, m: Manifest, done: seq<string>, i: int)
    requires 0 <= i < |done|
  {
    var pre := LinkSteps(t, faults, cwd, m, done[..i]);
    && done[i] in m && pre.abort.None? && FileExist(pre.tree, Abs(cwd, m[done[i]].path))
    && SymlinkChange(pre.tree, faults, m[done[i]].path, Abs(cwd, m[done[i]].symlink)).Refused?
  }

  /** Before the last entry, a walk and the walk one entry longer reach the same entries in the same state. */
  lemma PrefixAgrees(t: Tree, faults: Faults, cwd: Path, m: Manifest, done: seq<string>)
    requires done != []
    ensures forall i :: 0 <= i < |done| - 1 ==>
      && (MissingAt(t, faults, cwd, m, done, i) <==> MissingAt(t, faults, cwd, m, done[..|done| - 1], i))
      && (RefusedAt(t, faults, cwd, m, done, i) <==> RefusedAt(t, faults, cwd, m, done[..|done| - 1], i))
      && done[i] == done[..|done| - 1][i]
  {
    var prefix := done[..|done| - 1];
    forall i | 0 <= i < |prefix|
      ensures done[..i] == prefix[..i]
    {
    }
  }

  /**
   * The walk stops exactly at an entry whose file is missing, and with
   * that file's message; a refused link never stops it.
   */
  lemma {:induction false} LinkStepsStops(t: Tree, faults: Faults, cwd: Path, m: Manifest, done: seq<string>)
    ensures var p := LinkSteps(t, faults, cwd, m, done);
      && (p.abort.Some? <==> exists i :: 0 <= i < |done| && MissingAt(t, faults, cwd, m, done, i))
      && (forall i :: 0 <= i < |done| && MissingAt(t, faults, cwd, m, done, i) ==>
            p.abort == Some("file " + m[done[i]].path + " does not exist"))
    decreases |done|
  {
    if done != [] {
      var prefix := done[..|done| - 1];
      var k := done[|done| - 1];
      LinkStepsStops(t, faults, cwd, m, prefix);
      PrefixAgrees(t, faults, cwd, m, done);
      var before := LinkSteps(t, faults, cwd, m, prefix);
      var p := LinkSteps(t, faults, cwd, m, done);
      var last := |prefix|;
      assert done[..last] == prefix;
      if before.abort.Some? || k !in m {
        assert p == before;
        assert !MissingAt(t, faults, cwd, m, done, last);
      } else {
        assert p == LinkOne(before, faults, cwd, m[k]);
        assert MissingAt(t, faults, cwd, m, done, last) <==> !FileExist(before.tree, Abs(cwd, m[k].path));
      }
    }
  }

  /** The locations of the links refused on the walk over `done`. */
  function RefusedLinks(t: Tree, faults: Faults, cwd: Path, m: Manifest, done: seq<string>): set<string> {
    set i | 0 <= i < |done| && RefusedAt(t, faults, cwd, m, done, i) :: m[done[i]].symlink
  }

  /** One more entry adds its link location exactly when that link is refused. */
  lemma RefusedLinksSnoc(t: Tree, faults: Faults, cwd: Path, m: Manifest, done: seq<string>)
    requires done != []
    ensures var last := |done| - 1;
      RefusedLinks(t, faults, cwd, m, done)
        == RefusedLinks(t, faults, cwd, m, done[..last])
           + (if RefusedAt(t, faults, cwd, m, done, last) then {m[done[last]].symlink} else {})
  {
    var last := |done| - 1;
    var prefix := done[..last];
    PrefixAgrees(t, faults, cwd, m, done);
    forall s | s in RefusedLinks(t, faults, cwd, m, prefix)
      ensures s in RefusedLinks(t, faults, cwd, m, done)
    {
      var i :| 0 <= i < |prefix| && RefusedAt(t, faults, cwd, m, prefix, i) && m[prefix[i]].symlink == s;
      assert RefusedAt(t, faults, cwd, m, done, i);
    }
    if RefusedAt(t, faults, cwd, m, done, last) {
      assert m[done[last]].symlink in RefusedLinks(t, faults, cwd, m, done);
    }
    forall s | s in RefusedLinks(t, faults, cwd, m, done)
      ensures s in RefusedLinks(t, faults, cwd, m, prefix) || (RefusedAt(t, faults, cwd, m, done, last) && s == m[done[last]].symlink)
    {
      var i :| 0 <= i < |done| && RefusedAt(t, faults, cwd, m, done, i) && m[done[i]].symlink == s;
      if i < last {
        assert RefusedAt(t, faults, cwd, m, prefix, i) && prefix[i] == done[i];
      }
    }
  }

  /** The failures reported at the end are exactly the links refused on the way, by location. */
  lemma {:induction false} LinkStepsFailures(t: Tree, faults: Faults, cwd: Path, m: Manifest, done: seq<string>)
    ensures LinkSteps(t, faults, cwd, m, done).failed.Keys == RefusedLinks(t, faults, cwd, m, done)
    decreases |done|
  {
    if done != [] {
      var prefix := done[..|done| - 1];
      var k := done[|done| - 1];
      LinkStepsFailures(t, faults, cwd, m, prefix);
      RefusedLinksSnoc(t, faults, cwd, m, done);
      var before := LinkSteps(t, faults, cwd, m, prefix);
      var p := LinkSteps(t, faults, cwd, m, done);
      var last := |prefix|;
      assert done[..last] == prefix;
      if before.abort.Some? || k !in m {
        assert p == before;
        assert !RefusedAt(t, faults, cwd, m, done, last);
      } else {
        assert p == LinkOne(before, faults, cwd, m[k]);
        if RefusedAt(t, faults, cwd, m, done, last) {
          assert p.failed.Keys == before.failed.Keys + {m[k].symlink};
        } else {
          assert p.failed == before.failed;
        }
      }
    }
  }

  /**
   * addSymlinks succeeds exactly when no visited file was missing and no
   * link was refused; it reports "could not create symlinks" exactly when
   * no file was missing but some link was refused.
   */
  lemma LinkWalkOutcome(t: Tree, faults: Faults, cwd: Path, m: Manifest, done: seq<string>)
    ensures var r := LinkOutcome(LinkSteps(t, faults, cwd, m, done));
      var missing := exists i :: 0 <= i < |done| && MissingAt(t, faults, cwd, m, done, i);
      && (r.Pass? <==> !missing && RefusedLinks(t, faults, cwd, m, done) == {})
      && (r == Fail("could not create symlinks") <==> !missing && RefusedLinks(t, faults, cwd, m, done) != {})
  {
    var p := LinkSteps(t, faults, cwd, m, done);
    LinkStepsStops(t, faults, cwd, m, done);
    LinkStepsFailures(t, faults, cwd, m, done);
    if p.failed.Keys == {} {
      assert p.failed == map[];
    }
    if p.abort.Some? {
      var i :| 0 <= i < |done| && MissingAt(t, faults, cwd, m, done, i);
      var message := "file " + m[done[i]].path + " does not exist";
      assert p.abort.value == message && message[0] == 'f';
    }
  }

  /** The entry `k` of `m` has its link, to its file, in `tree`. */
  predicate HasLink(tree: Tree, cwd: Path, m: Manifest, k: string)
    requires k in m
  {
    Abs(cwd, m[k].symlink) in tree && tree[Abs(cwd, m[k].symlink)] == Symlink(m[k].path)
  }

  /**
   * The walk never changes or removes a node; everything it adds is the
   * link of a visited entry; and when it ends in success every visited
   * entry has its link.
   */
  lemma {:induction false} LinkStepsMeaning(t: Tree, faults: Faults, cwd: Path, m: Manifest, done: seq<string>)
    ensures var p := LinkSteps(t, faults, cwd, m, done);
      && (forall q :: q in t ==> q in p.tree && p.tree[q] == t[q])
      && (forall q :: q in p.tree && q !in t ==> exists k :: k in done && k in m && q == Abs(cwd, m[k].symlink) && p.tree[q] == Symlink(m[k].path))
      && (LinkOutcome(p).Pass? ==> forall k :: k in done && k in m ==> HasLink(p.tree, cwd, m, k))
    decreases |done|
  {
    if done != [] {
      var prefix := done[..|done| - 1];
      var k := done[|done| - 1];
      assert done == prefix + [k];
      LinkStepsMeaning(t, faults, cwd, m, prefix);
      var before := LinkSteps(t, faults, cwd, m, prefix);
      var p := LinkSteps(t, faults, cwd, m, done);
      if !(before.abort.Some? || k !in m) {
        assert p == LinkOne(before, faults, cwd, m[k]);
        forall q | q in p.tree && q !in t
          ensures exists j :: j in done && j in m && q == Abs(cwd, m[j].symlink) && p.tree[q] == Symlink(m[j].path)
        {
          if q in before.tree {
            var j :| j in prefix && j in m && q == Abs(cwd, m[j].symlink) && before.tree[q] == Symlink(m[j].path);
            assert j in done;
          } else {
            assert k in done;
          }
        }
        if LinkOutcome(p).Pass? {
          assert before.failed == map[];
          forall j | j in done && j in m
            ensures HasLink(p.tree, cwd, m, j)
          {
            if j != k {
              assert j in prefix;
              assert HasLink(before.tree, cwd, m, j);
            }
          }
        }
      } else {
        forall q | q in p.tree && q !in t
          ensures exists j :: j in done && j in m && q == Abs(cwd, m[j].symlink) && p.tree[q] == Symlink(m[j].path)
        {
          var j :| j in prefix && j in m && q == Abs(cwd, m[j].symlink) && before.tree[q] == Symlink(m[j].path);
          assert j in done;
        }
        if LinkOutcome(p).Pass? {
          forall j | j in done && j in m
            ensures HasLink(p.tree, cwd, m, j)
          {
            assert j != k;
            assert j in prefix;
          }
        }
      }
    }
  }

  /** One turn of addSymlinks' loop. */
  method LinkEntry(disk: Disk, cwd: Path, file: FileInfo, failed: map<Path, string>)
    returns (abort: Option<string>, failedAfter: map<Path, string>)
    modifies disk
    ensures LinkOne(Progress(None, old(disk.tree), failed), disk.faults, cwd, file) == Progress(abort, disk.tree, failedAfter)
  {
    failedAfter := failed;
    if !FileExist(disk.tree, Abs(cwd, file.path)) {
      return Some("file " + file.path + " does not exist"), failedAfter;
    }
    var e := disk.Symlink(file.path, Abs(cwd, file.symlink));
    if e.Some? {
      failedAfter := failed[file.symlink := LinkError(file, e.value)];
    }
    abort := None;
  }

  /** addSymlinks: the manifest's entries in the order the map yields them, which the model leaves open. */
  method AddSymlinks(disk: Disk, home: Path, cwd: Path, folderPath: Path) returns (r: Outcome, ghost order: seq<string>)
    modifies disk
    ensures var plan := LinkPlan(old(disk.tree), disk.faults, home, cwd, folderPath, order);
      r == plan.outcome && disk.tree == plan.tree
    ensures var l := Load(old(disk.tree), home, cwd, Join(folderPath, InfoFile));
      l.Ok? ==> Scheduled(old(disk.tree), disk.faults, cwd, l.value, order)
  {
    order := [];
    var files, err := ReadFile(disk, home, cwd, Join(folderPath, InfoFile));
    if err.Some? {
      return Fail("could not read files: " + err.value), order;
    }
    r, order := LinkAll(disk, cwd, files);
  }

  /** LinkSteps over one more entry. */
  lemma LinkStepsSnoc(t: Tree, faults: Faults, cwd: Path, m: Manifest, done: seq<string>, k: string)
    requires k in m && LinkSteps(t, faults, cwd, m, done).abort.None?
    ensures LinkSteps(t, faults, cwd, m, done + [k]) == LinkOne(LinkSteps(t, faults, cwd, m, done), faults, cwd, m[k])
  {
    assert (done + [k])[..|done|] == done;
  }

  /** A walk that stops at the entry it just added stops at a missing file. */
  lemma StopsAtLast(t: Tree, faults: Faults, cwd: Path, m: Manifest, done: seq<string>, k: string)
    requires k in m && LinkSteps(t, faults, cwd, m, done).abort.None?
    ensures LinkSteps(t, faults, cwd, m, done + [k]).abort.Some? ==> MissingAt(t, faults, cwd, m, done + [k], |done|)
  {
    assert (done + [k])[..|done|] == done;
  }

  /** The loop of addSymlinks over the entries read from the manifest. */
  method LinkAll(disk: Disk, cwd: Path, files: Manifest) returns (r: Outcome, ghost order: seq<string>)
    modifies disk
    ensures var p := LinkSteps(old(disk.tree), disk.faults, cwd, files, order);
      r == LinkOutcome(p) && disk.tree == p.tree
    ensures Scheduled(old(disk.tree), disk.faults, cwd, files, order)
  {
    order := [];
    var failed: map<Path, string> := map[];
    var todo := files.Keys;
    while todo != {}
      invariant todo <= files.Keys
      invariant forall k :: k in order ==> k in files && k !in todo
      invariant forall k :: k in files ==> k in order || k in todo
      invariant Distinct(order)
      invariant LinkSteps(old(disk.tree), disk.faults, cwd, files, order) == Progress(None, disk.tree, failed)
      decreases |todo|
    {
      var key :| key in todo;
      LinkStepsSnoc(old(disk.tree), disk.faults, cwd, files, order, key);
      StopsAtLast(old(disk.tree), disk.faults, cwd, files, order, key);
      order := order + [key];
      todo := todo - {key};
      var abort;
      abort, failed := LinkEntry(disk, cwd, files[key], failed);
      if abort.Some? {
        return Fail(abort.value), order;
      }
    }
    if failed != map[] {
      r := Fail("could not create symlinks");
    } else {
      r := Pass;
    }
  }

  // ----- the methods of the git side --------------------------------------

  /** checkRemote over a scripted git and a scripted user. */
  method CheckRemote(port: GitPort, user: MockUserInput, repository: string) returns (urls: string, err: Option<string>)
    requires user.Valid()
    modifies port, user
    ensures user.Valid()
    ensures var plan := CheckRemotePlan(repository, old(port.script), old(user.Pending()));
      && (plan.urls.Ok? ==> urls == plan.urls.value && err == None)
      && (plan.urls.Err? ==> urls == "" && err == Some(plan.urls.message))
      && port.trace == old(port.trace) + plan.commands && port.script == plan.script && user.Pending() == plan.pending
  {
    urls, err := GetRemoteURL(port);
    if err.Some? {
      ghost var offer := OfferRemote(repository, port.script, user.Pending());
      urls, err := OfferRemoteSteps(port, user, repository);
      Sync.AppendAssoc(old(port.trace), [GetUrl], offer.commands);
    }
  }

  /** The offer to add origin, over a scripted git and a scripted user. */
  method OfferRemoteSteps(port: GitPort, user: MockUserInput, repository: string) returns (urls: string, err: Option<string>)
    requires user.Valid()
    modifies port, user
    ensures user.Valid()
    ensures var plan := OfferRemote(repository, old(port.script), old(user.Pending()));
      && (plan.urls.Ok? ==> urls == plan.urls.value && err == None)
      && (plan.urls.Err? ==> urls == "" && err == Some(plan.urls.message))
      && port.trace == old(port.trace) + plan.commands && port.script == plan.script && user.Pending() == plan.pending
  {
    ghost var script := port.script;
    ghost var c := Confirm(user.Pending());
    var yes := ConfirmWithUser(user);
    if !yes {
      assert OfferRemote(repository, script, old(user.Pending())) == Remote(Ok(""), [], script, c.rest);
      return "", None;
    }
    assert OfferRemote(repository, script, old(user.Pending())) == AddRemotePlan(repository, script, c.rest);
    urls, err := AddRemoteSteps(port, repository, user.Pending());
  }

  /** `remote add origin` and the second lookup, over a scripted git. */
  method AddRemoteSteps(port: GitPort, repository: string, ghost pending: seq<string>) returns (urls: string, err: Option<string>)
    modifies port
    ensures var plan := AddRemotePlan(repository, old(port.script), pending);
      && (plan.urls.Ok? ==> urls == plan.urls.value && err == None)
      && (plan.urls.Err? ==> urls == "" && err == Some(plan.urls.message))
      && port.trace == old(port.trace) + plan.commands && port.script == plan.script
  {
    var add := port.Run(AddRemote(repository));
    if add.code != 0 {
      return "", Some("could not add origin to the repository: " + ExitText(add));
    }
    urls, err := GetRemoteURL(port);
    if err.Some? {
      return "", Some("could not find remote urls: " + err.value);
    }
  }

  /** fetch, checkout and pull over a scripted git. */
  method FetchCheckoutPull(port: GitPort, branch: string) returns (r: Outcome)
    modifies port
    ensures var plan := FetchCheckoutPullPlan(branch, old(port.script), []);
      r == plan.outcome && port.trace == old(port.trace) + plan.commands && port.script == plan.script
  {
    var fetch := port.Run(FetchOrigin);
    if fetch.code != 0 {
      return Fail("could not fetch Origin: " + ExitText(fetch));
    }
    var checkout := port.Run(CheckoutTrack(branch));
    if checkout.code != 0 {
      return Fail("could not checkout: " + ExitText(checkout));
    }
    var pull := port.Run(Pull);
    if pull.code != 0 {
      return Fail("could not pull from repository: " + ExitText(pull));
    }
    return Pass;
  }

  /** The branch of Init for a folder that is not a work tree. */
  method FreshRepo(port: GitPort, user: MockUserInput, repository: string, branch: string) returns (r: Outcome)
    requires user.Valid()
    modifies port, user
    ensures user.Valid()
    ensures var plan := FreshRepoPlan(repository, branch, old(port.script), old(user.Pending()));
      && r == plan.outcome && port.trace == old(port.trace) + plan.commands && port.script == plan.script
      && user.Pending() == plan.pending
  {
    FreshRepoSteps(repository, branch, port.script, user.Pending());
    var yes := ConfirmWithUser(user);
    ghost var done: seq<Command> := [];
    if yes {
      var init := port.Run(InitRepo);
      if init.code != 0 {
        return Fail("could not initialize repository: " + ExitText(init));
      }
      done := [InitRepo];
    }
    ghost var rem := CheckRemotePlan(repository, port.script, user.Pending());
    ghost var mid := port.trace;
    assert mid == old(port.trace) + done;
    var urls, err := CheckRemote(port, user, repository);
    assert port.trace == mid + rem.commands;
    assert port.script == rem.script && user.Pending() == rem.pending;
    assert rem.urls.Ok? ==> urls == rem.urls.value && err == None;
    assert rem.urls.Err? ==> urls == "" && err == Some(rem.urls.message);
    r := AfterRemoteSteps(port, user, branch, urls, err, old(port.trace), done, rem);
  }

  /** The rest of the fresh-repository branch, once checkRemote has answered as `rem` says. */
  method AfterRemoteSteps(port: GitPort, user: MockUserInput, branch: string, urls: string, err: Option<string>,
                          ghost before: seq<Command>, ghost done: seq<Command>, ghost rem: Remote)
    returns (r: Outcome)
    requires user.Valid()
    requires port.script == rem.script && user.Pending() == rem.pending && port.trace == before + done + rem.commands
    requires rem.urls.Ok? ==> urls == rem.urls.value && err == None
    requires rem.urls.Err? ==> urls == "" && err == Some(rem.urls.message)
    modifies port, user
    ensures user.Valid()
    ensures var plan := AfterRemote(done, rem, branch);
      && r == plan.outcome && port.trace == before + plan.commands && port.script == plan.script
      && user.Pending() == plan.pending
  {
    if err.Some? {
      return Fail(err.value);
    }
    if urls == "" {
      return Pass;
    }
    var download := ConfirmWithUser(user);
    if !download {
      return Pass;
    }
    r := FetchCheckoutPull(port, branch);
    Sync.AppendRegroup(before, done, rem.commands, FetchCheckoutPullPlan(branch, rem.script, []).commands);
  }

  /** The branch of Init for a work tree. */
  method Reconcile(port: GitPort, user: MockUserInput, repository: string, force: bool) returns (r: Outcome)
    requires user.Valid()
    modifies port, user
    ensures user.Valid()
    ensures var plan := ReconcilePlan(repository, force, old(port.script), old(user.Pending()));
      && r == plan.outcome && port.trace == old(port.trace) + plan.commands && port.script == plan.script
      && user.Pending() == plan.pending
  {
    ghost var rem := CheckRemotePlan(repository, port.script, user.Pending());
    var current, err := CheckRemote(port, user, repository);
    if err.Some? {
      return Fail(err.value);
    }
    ghost var cmp := CompareUrls(current, repository, force, port.script, user.Pending());
    r := CompareRemote(port, user, current, repository, force);
    Sync.AppendAssoc(old(port.trace), rem.commands, cmp.commands);
  }

  /** The comparison step of the work-tree branch, over a scripted git and a scripted user. */
  method CompareRemote(port: GitPort, user: MockUserInput, current: string, repository: string, force: bool) returns (r: Outcome)
    requires user.Valid()
    modifies port, user
    ensures user.Valid()
    ensures var plan := CompareUrls(current, repository, force, old(port.script), old(user.Pending()));
      && r == plan.outcome && port.trace == old(port.trace) + plan.commands && port.script == plan.script
      && user.Pending() == plan.pending
  {
    ghost var plan := CompareUrls(current, repository, force, port.script, user.Pending());
    ghost var c := Confirm(user.Pending());
    var alike := SamePrefix(current, repository);
    if !alike {
      var candidate := NormaliseRepoURL(current);
      if !SameSuffix(candidate, repository) {
        candidate := NormaliseRepoSuffix(candidate);
      }
      assert candidate == Candidate(current, repository);
      if candidate == repository && force {
        var yes := ConfirmWithUser(user);
        if yes {
          var change := port.Run(SetUrl(repository));
          assert plan == Sync.Run(if change.code != 0 then Fail("error changing remote: " + ExitText(change)) else Pass,
                                  [SetUrl(repository)], port.script, c.rest);
          if change.code != 0 {
            return Fail("error changing remote: " + ExitText(change));
          }
          return Pass;
        }
        assert plan == Sync.Run(Pass, [], port.script, c.rest);
        return Pass;
      }
      assert plan == Sync.Run(Pass, [], port.script, user.Pending());
      return Pass;
    } else if current == repository {
      return Pass;
    } else {
      return Fail("unknown error when checking Repository");
    }
  }

  // ----- Init ---------------------------------------------------------------

  /** The first step of Init: a missing folder is created only when the user agrees. */
  function FolderPlan(t: Tree, faults: Faults, cwd: Path, folderPath: Path, pending: seq<string>): (r: Relocation.Effect)
    ensures FolderExist(t, Abs(cwd, folderPath)) ==> r == Relocation.Effect(Pass, t, pending)
    ensures r.outcome.Fail? || r.tree != t ==> Confirm(pending).yes
    ensures r.outcome.Fail? ==> r.tree == t
    ensures Answered(pending, r.pending)
  {
    MakeFolder(t, faults, Abs(cwd, folderPath), folderPath, pending)
  }

  /** The folder step once `folderPath` is resolved to `folder`. */
  function MakeFolder(t: Tree, faults: Faults, folder: Path, folderPath: Path, pending: seq<string>): (r: Relocation.Effect)
    ensures FolderExist(t, folder) ==> r == Relocation.Effect(Pass, t, pending)
    ensures r.outcome.Fail? || r.tree != t ==> !FolderExist(t, folder) && Confirm(pending).yes
    ensures r.outcome.Fail? ==> r.tree == t
    ensures Answered(pending, r.pending)
  {
    if FolderExist(t, folder) then Relocation.Effect(Pass, t, pending)
    else
      var c := Confirm(pending);
      if !c.yes then Relocation.Effect(Pass, t, c.rest)
      else match MkdirAllChange(t, faults, folder)
        case Refused(e) =>
          Relocation.Effect(Fail("error creating folder failed to create repo directory: mkdir " + folderPath + ": " + ErrorText(e)), t, c.rest)
        case Changed(t1) => Relocation.Effect(Pass, t1, c.rest)
  }

  /**
   * An existing folder is used without a question; otherwise the tree
   * changes only with the user's yes, only by gaining directories, and
   * after a yes that succeeds the folder exists.
   */
  lemma FolderPlanMeaning(t: Tree, faults: Faults, cwd: Path, folderPath: Path, pending: seq<string>)
    ensures var f := FolderPlan(t, faults, cwd, folderPath, pending);
      && (FolderExist(t, Abs(cwd, folderPath)) ==> f == Relocation.Effect(Pass, t, pending))
      && OnlyAddsDirs(t, f.tree)
      && (f.tree != t ==> Confirm(pending).yes)
      && (f.outcome.Pass? && (FolderExist(t, Abs(cwd, folderPath)) || Confirm(pending).yes) ==> FolderExist(f.tree, Abs(cwd, folderPath)))
  {
    MakeFolderMeaning(t, faults, Abs(cwd, folderPath), folderPath, pending);
  }

  lemma MakeFolderMeaning(t: Tree, faults: Faults, folder: Path, folderPath: Path, pending: seq<string>)
    ensures var f := MakeFolder(t, faults, folder, folderPath, pending);
      && (FolderExist(t, folder) ==> f == Relocation.Effect(Pass, t, pending))
      && OnlyAddsDirs(t, f.tree)
      && (f.tree != t ==> Confirm(pending).yes)
      && (f.outcome.Pass? && (FolderExist(t, folder) || Confirm(pending).yes) ==> FolderExist(f.tree, folder))
  {
    var f := MakeFolder(t, faults, folder, folderPath, pending);
    var c := Confirm(pending);
    assert OnlyAddsDirs(t, t);
    if !FolderExist(t, folder) && c.yes {
      MkdirAllOnlyAddsDirs(t, faults, folder);
      match MkdirAllChange(t, faults, folder)
      case Refused(_) =>
        assert f.tree == t;
      case Changed(t1) =>
        assert f == Relocation.Effect(Pass, t1, c.rest);
    } else {
      assert f.tree == t;
    }
  }

  /** rev-parse, then the fresh-repository branch on 128, the reconciling branch on 0, and nothing otherwise. */
  function ProbePlan(repository: string, branch: string, force: bool, script: seq<Reply>, pending: seq<string>): (r: Sync.Run)
    ensures r.commands != [] && r.commands[0] == RevParse
    ensures NextReply(script).code != 128 && NextReply(script).code != 0 ==> r == Sync.Run(Pass, [RevParse], RestOf(script), pending)
    ensures |r.script| <= |RestOf(script)|
    ensures Answered(pending, r.pending)
  {
    var g := BranchPlan(NextReply(script).code, repository, branch, force, RestOf(script), pending);
    g.(commands := [RevParse] + g.commands)
  }

  /** The branch rev-parse's exit code selects. */
  function BranchPlan(code: int, repository: string, branch: string, force: bool, script: seq<Reply>, pending: seq<string>): (r: Sync.Run)
    ensures code == 0 ==> r.commands != [] && r.commands[0] == GetUrl
    ensures code == 128 ==> r.commands != []
    ensures code != 128 && code != 0 ==> r == Sync.Run(Pass, [], script, pending)
    ensures |r.script| <= |script|
    ensures Answered(pending, r.pending)
  {
    if code == 128 then FreshRepoPlan(repository, branch, script, pending)
    else if code == 0 then ReconcilePlan(repository, force, script, pending)
    else Sync.Run(Pass, [], script, pending)
  }

  /** The outcome, the tree, the git commands run, the unused script and the unanswered responses. */
  datatype InitRun = InitRun(outcome: Outcome, tree: Tree, commands: seq<Command>, script: seq<Reply>, pending: seq<string>)

  /**
   * What git wrote into the folder during Init: nothing when the folder
   * step failed or no repository was given, otherwise whatever the
   * probe's branch (init, fetch, checkout, pull, remote) brought in.
   */
  function GitWrites(t: Tree, faults: Faults, cwd: Path, folderPath: Path, repository: string, branch: string,
                     force: bool, script: seq<Reply>, pending: seq<string>): (w: Tree)
    ensures repository == "" ==> w == map[]
  {
    var f := FolderPlan(t, faults, cwd, folderPath, pending);
    if f.outcome.Fail? || repository == "" then map[]
    else Written(script, |ProbePlan(repository, branch, force, script, f.pending).commands|)
  }

  /** The tree the link step of Init starts from: the folder step's tree with git's writes on top. */
  function LinkStart(t: Tree, faults: Faults, cwd: Path, folderPath: Path, repository: string, branch: string,
                     force: bool, script: seq<Reply>, pending: seq<string>): Tree
  {
    FolderPlan(t, faults, cwd, folderPath, pending).tree + GitWrites(t, faults, cwd, folderPath, repository, branch, force, script, pending)
  }

  /**
   * Init: the folder step; an empty `repository` is an error before any
   * git command; the probe and its branch, with what git writes into the
   * folder; then, if the user agrees, the links of info.json as it is
   * now, visited in `order`.
   */
  function InitPlan(t: Tree, faults: Faults, home: Path, cwd: Path, folderPath: Path, repository: string, branch: string,
                    force: bool, script: seq<Reply>, pending: seq<string>, order: seq<string>): (r: InitRun)
    ensures repository == "" ==> r.outcome.Fail? && r.commands == [] && r.script == script
    ensures r.commands == [] || r.commands[0] == RevParse
  {
    var f := FolderPlan(t, faults, cwd, folderPath, pending);
    if f.outcome.Fail? then InitRun(f.outcome, f.tree, [], script, f.pending)
    else if repository == "" then InitRun(Fail("repository is empty"), f.tree, [], script, f.pending)
    else
      var g := ProbePlan(repository, branch, force, script, f.pending);
      var fetched := f.tree + Written(script, |g.commands|);
      if g.outcome.Fail? then InitRun(g.outcome, fetched, g.commands, g.script, g.pending)
      else
        var c := Confirm(g.pending);
        if !c.yes then InitRun(Pass, fetched, g.commands, g.script, c.rest)
        else
          var l := LinkPlan(fetched, faults, home, cwd, folderPath, order);
          InitRun(if l.outcome.Fail? then Fail("could not add symlinks: " + l.outcome.message) else Pass,
                  l.tree, g.commands, g.script, c.rest)
  }

  /** Init gets to the link step: the folder step passed, a repository was given, the probe passed and the user agreed. */
  predicate ReachesLinks(t: Tree, faults: Faults, cwd: Path, folderPath: Path, repository: string, branch: string,
                         force: bool, script: seq<Reply>, pending: seq<string>)
  {
    var f := FolderPlan(t, faults, cwd, folderPath, pending);
    && f.outcome.Pass? && repository != ""
    && var g := ProbePlan(repository, branch, force, script, f.pending);
       g.outcome.Pass? && Confirm(g.pending).yes
  }

  /** An empty repository argument is an error, and no git command runs. */
  lemma InitEmptyRepository(t: Tree, faults: Faults, home: Path, cwd: Path, folderPath: Path, branch: string,
                            force: bool, script: seq<Reply>, pending: seq<string>, order: seq<string>)
    ensures var r := InitPlan(t, faults, home, cwd, folderPath, "", branch, force, script, pending, order);
      && r.outcome.Fail? && r.commands == [] && r.script == script
      && (FolderPlan(t, faults, cwd, folderPath, pending).outcome.Pass? ==> r.outcome == Fail("repository is empty"))
  {
  }

  /** Past the folder step and with a repository, Init runs exactly the probe's commands. */
  lemma InitRunsProbe(t: Tree, faults: Faults, home: Path, cwd: Path, folderPath: Path, repository: string, branch: string,
                      force: bool, script: seq<Reply>, pending: seq<string>, order: seq<string>)
    requires repository != ""
    requires FolderPlan(t, faults, cwd, folderPath, pending).outcome.Pass?
    ensures InitPlan(t, faults, home, cwd, folderPath, repository, branch, force, script, pending, order).commands
         == ProbePlan(repository, branch, force, script, FolderPlan(t, faults, cwd, folderPath, pending).pending).commands
  {
    var f := FolderPlan(t, faults, cwd, folderPath, pending);
    var g := ProbePlan(repository, branch, force, script, f.pending);
    var r := InitPlan(t, faults, home, cwd, folderPath, repository, branch, force, script, pending, order);
    var fetched := f.tree + Written(script, |g.commands|);
    if g.outcome.Fail? {
      assert r == InitRun(g.outcome, fetched, g.commands, g.script, g.pending);
    } else {
      assert r.commands == g.commands;
    }
  }

  /**
   * With a repository, the first git command is rev-parse; exit code 128
   * leads to the fresh-repository branch, 0 to reconciling, and any other
   * code (git could not be started included) to neither.
   */
  lemma ProbeDecides(repository: string, branch: string, force: bool, script: seq<Reply>, pending: seq<string>)
    ensures var r := ProbePlan(repository, branch, force, script, pending);
      var code := NextReply(script).code;
      && (code == 128 ==> r == FreshRepoPlan(repository, branch, RestOf(script), pending).(commands := r.commands)
                           && r.commands == [RevParse] + FreshRepoPlan(repository, branch, RestOf(script), pending).commands)
      && (code == 0 ==> r == ReconcilePlan(repository, force, RestOf(script), pending).(commands := r.commands)
                         && r.commands == [RevParse] + ReconcilePlan(repository, force, RestOf(script), pending).commands)
      && (code != 128 && code != 0 ==> r == Sync.Run(Pass, [RevParse], RestOf(script), pending))
  {
  }

  /**
   * Init's tree is the folder step's with git's writes on top, and, when
   * Init gets to the link step, what the links made of that.
   */
  lemma InitTree(t: Tree, faults: Faults, home: Path, cwd: Path, folderPath: Path, repository: string, branch: string,
                 force: bool, script: seq<Reply>, pending: seq<string>, order: seq<string>)
    ensures var start := LinkStart(t, faults, cwd, folderPath, repository, branch, force, script, pending);
      var r := InitPlan(t, faults, home, cwd, folderPath, repository, branch, force, script, pending, order);
      && (ReachesLinks(t, faults, cwd, folderPath, repository, branch, force, script, pending) ==>
            r.tree == LinkPlan(start, faults, home, cwd, folderPath, order).tree)
      && (!ReachesLinks(t, faults, cwd, folderPath, repository, branch, force, script, pending) ==> r.tree == start)
  {
    var f := FolderPlan(t, faults, cwd, folderPath, pending);
    var r := InitPlan(t, faults, home, cwd, folderPath, repository, branch, force, script, pending, order);
    if f.outcome.Fail? || repository == "" {
      assert f.tree + map[] == f.tree;
      assert r.tree == f.tree;
    } else {
      var g := ProbePlan(repository, branch, force, script, f.pending);
      var start := f.tree + Written(script, |g.commands|);
      if g.outcome.Pass? && Confirm(g.pending).yes {
        assert r.tree == LinkPlan(start, faults, home, cwd, folderPath, order).tree;
      } else {
        assert r.tree == start;
      }
    }
  }

  /**
   * Apart from what git writes, Init never changes or removes a node:
   * git's writes stay as written, and the other nodes Init adds are
   * directories on the way to the folder and links to the files info.json
   * lists.
   */
  lemma InitChanges(t: Tree, faults: Faults, home: Path, cwd: Path, folderPath: Path, repository: string, branch: string,
                    force: bool, script: seq<Reply>, pending: seq<string>, order: seq<string>)
    ensures var r := InitPlan(t, faults, home, cwd, folderPath, repository, branch, force, script, pending, order);
      var w := GitWrites(t, faults, cwd, folderPath, repository, branch, force, script, pending);
      && (forall q :: q in t && q !in w ==> q in r.tree && r.tree[q] == t[q])
      && (forall q :: q in w ==> q in r.tree && r.tree[q] == w[q])
      && (forall q :: q in r.tree && q !in t && q !in w ==> r.tree[q] == Directory || r.tree[q].Symlink?)
  {
    var f := FolderPlan(t, faults, cwd, folderPath, pending);
    FolderPlanMeaning(t, faults, cwd, folderPath, pending);
    InitTree(t, faults, home, cwd, folderPath, repository, branch, force, script, pending, order);
    var start := LinkStart(t, faults, cwd, folderPath, repository, branch, force, script, pending);
    LinkPlanOnlyAddsLinks(start, faults, home, cwd, folderPath, order);
  }

  /**
   * The manifest git brought into the folder is the one Init links: when
   * git wrote info.json, the link step reads exactly those entries (with
   * resolved paths), and Init's tree and verdict are those of linking them.
   */
  lemma InitLinksWhatGitWrote(t: Tree, faults: Faults, home: Path, cwd: Path, folderPath: Path, repository: string,
                              branch: string, force: bool, script: seq<Reply>, pending: seq<string>, order: seq<string>,
                              m: Manifest)
    requires ReachesLinks(t, faults, cwd, folderPath, repository, branch, force, script, pending)
    requires var w := GitWrites(t, faults, cwd, folderPath, repository, branch, force, script, pending);
      Abs(cwd, Join(folderPath, InfoFile)) in w && w[Abs(cwd, Join(folderPath, InfoFile))] == File(Document(m))
    ensures var start := LinkStart(t, faults, cwd, folderPath, repository, branch, force, script, pending);
      Load(start, home, cwd, Join(folderPath, InfoFile)) == Ok(ResolveAll(home, m))
    ensures var start := LinkStart(t, faults, cwd, folderPath, repository, branch, force, script, pending);
      var r := InitPlan(t, faults, home, cwd, folderPath, repository, branch, force, script, pending, order);
      var p := LinkSteps(start, faults, cwd, ResolveAll(home, m), order);
      r.tree == p.tree && (r.outcome.Pass? <==> LinkOutcome(p).Pass?)
  {
    var start := LinkStart(t, faults, cwd, folderPath, repository, branch, force, script, pending);
    var info := Abs(cwd, Join(folderPath, InfoFile));
    assert start[info] == File(Document(m));
    assert Stat(start, info) == Found(info, File(Document(m)));
    InitTree(t, faults, home, cwd, folderPath, repository, branch, force, script, pending, order);
  }

  /** The link step keeps every node and adds only links. */
  lemma LinkPlanOnlyAddsLinks(t: Tree, faults: Faults, home: Path, cwd: Path, folderPath: Path, order: seq<string>)
    ensures var l := LinkPlan(t, faults, home, cwd, folderPath, order);
      && (forall q :: q in t ==> q in l.tree && l.tree[q] == t[q])
      && (forall q :: q in l.tree && q !in t ==> l.tree[q].Symlink?)
  {
    match Load(t, home, cwd, Join(folderPath, InfoFile))
    case Err(_) =>
    case Ok(m) =>
      LinkStepsMeaning(t, faults, cwd, m, order);
      var p := LinkSteps(t, faults, cwd, m, order);
      forall q | q in p.tree && q !in t
        ensures p.tree[q].Symlink?
      {
        var k :| k in order && k in m && q == Abs(cwd, m[k].symlink) && p.tree[q] == Symlink(m[k].path);
      }
  }

  /** The folder step of Init. */
  method PrepareFolder(disk: Disk, user: MockUserInput, cwd: Path, folderPath: Path) returns (r: Outcome)
    requires user.Valid()
    modifies disk, user
    ensures user.Valid()
    ensures var plan := FolderPlan(old(disk.tree), disk.faults, cwd, folderPath, old(user.Pending()));
      r == plan.outcome && disk.tree == plan.tree && user.Pending() == plan.pending
  {
    var folder := Abs(cwd, folderPath);
    ghost var plan := MakeFolder(disk.tree, disk.faults, folder, folderPath, user.Pending());
    ghost var c := Confirm(user.Pending());
    if FolderExist(disk.tree, folder) {
      return Pass;
    }
    var yes := ConfirmWithUser(user);
    if yes {
      var err := disk.MkdirAll(folder);
      if err.Some? {
        r := Fail("error creating folder failed to create repo directory: mkdir " + folderPath + ": " + ErrorText(err.value));
        assert plan == Relocation.Effect(r, disk.tree, c.rest);
        return;
      }
    }
    assert plan == Relocation.Effect(Pass, disk.tree, c.rest);
    return Pass;
  }

  /** The probe and its branch. */
  method Probe(port: GitPort, user: MockUserInput, repository: string, branch: string, force: bool) returns (r: Outcome)
    requires user.Valid()
    modifies port, user
    ensures user.Valid()
    ensures var plan := ProbePlan(repository, branch, force, old(port.script), old(user.Pending()));
      && r == plan.outcome && port.trace == old(port.trace) + plan.commands && port.script == plan.script
      && user.Pending() == plan.pending
  {
    var probe := port.Run(RevParse);
    ghost var g := BranchPlan(probe.code, repository, branch, force, port.script, user.Pending());
    r := Branch(port, user, probe.code, repository, branch, force);
    Sync.AppendAssoc(old(port.trace), [RevParse], g.commands);
  }

  /** The branch of Init that rev-parse's exit code selects. */
  method Branch(port: GitPort, user: MockUserInput, code: int, repository: string, branch: string, force: bool) returns (r: Outcome)
    requires user.Valid()
    modifies port, user
    ensures user.Valid()
    ensures var plan := BranchPlan(code, repository, branch, force, old(port.script), old(user.Pending()));
      && r == plan.outcome && port.trace == old(port.trace) + plan.commands && port.script == plan.script
      && user.Pending() == plan.pending
  {
    if code == 128 {
      r := FreshRepo(port, user, repository, branch);
    } else if code == 0 {
      r := Reconcile(port, user, repository, force);
    } else {
      r := Pass;
    }
  }

  /** Init over a disk, a scripted git and a scripted user; `order` is the order the links were visited in. */
  method Init(disk: Disk, port: GitPort, user: MockUserInput, home: Path, cwd: Path, folderPath: Path,
              repository: string, branch: string, force: bool)
    returns (r: Outcome, ghost order: seq<string>)
    requires user.Valid()
    modifies disk, port, user
    ensures user.Valid()
    ensures var plan := InitPlan(old(disk.tree), disk.faults, home, cwd, folderPath, repository, branch, force,
                                 old(port.script), old(user.Pending()), order);
      && r == plan.outcome && disk.tree == plan.tree && port.trace == old(port.trace) + plan.commands
      && port.script == plan.script && user.Pending() == plan.pending
    ensures var start := LinkStart(old(disk.tree), disk.faults, cwd, folderPath, repository, branch, force,
                                   old(port.script), old(user.Pending()));
      var l := Load(start, home, cwd, Join(folderPath, InfoFile));
      (ReachesLinks(old(disk.tree), disk.faults, cwd, folderPath, repository, branch, force, old(port.script), old(user.Pending()))
       && l.Ok?) ==> Scheduled(start, disk.faults, cwd, l.value, order)
    ensures !ReachesLinks(old(disk.tree), disk.faults, cwd, folderPath, repository, branch, force, old(port.script), old(user.Pending()))
      ==> order == []
  {
    order := [];
    ghost var plan := InitPlan(disk.tree, disk.faults, home, cwd, folderPath, repository, branch, force,
                               port.script, user.Pending(), order);
    ghost var f := FolderPlan(disk.tree, disk.faults, cwd, folderPath, user.Pending());
    ghost var start := LinkStart(disk.tree, disk.faults, cwd, folderPath, repository, branch, force,
                                 port.script, user.Pending());
    r := PrepareFolder(disk, user, cwd, folderPath);
    if r.Fail? {
      return;
    }
    if repository == "" {
      return Fail("repository is empty"), order;
    }
    var script := port.script;
    var traced := |port.trace|;
    ghost var g := ProbePlan(repository, branch, force, script, f.pending);
    r := Probe(port, user, repository, branch, force);
    assert |port.trace| - traced == |g.commands|;
    disk.Absorb(Written(script, |port.trace| - traced));
    assert disk.tree == start;
    if r.Fail? {
      assert plan == InitRun(g.outcome, start, g.commands, g.script, g.pending);
      assert !ReachesLinks(old(disk.tree), disk.faults, cwd, folderPath, repository, branch, force, old(port.script), old(user.Pending()));
      return;
    }
    var yes := ConfirmWithUser(user);
    if yes {
      ghost var pending := user.Pending();
      var linked;
      linked, order := AddSymlinks(disk, home, cwd, folderPath);
      ghost var manifest := Load(start, home, cwd, Join(folderPath, InfoFile));
      assert manifest.Ok? ==> Scheduled(start, disk.faults, cwd, manifest.value, order);
      if linked.Fail? {
        r := Fail("could not add symlinks: " + linked.message);
      }
      ghost var l := LinkPlan(start, disk.faults, home, cwd, folderPath, order);
      assert InitPlan(old(disk.tree), disk.faults, home, cwd, folderPath, repository, branch, force,
                      old(port.script), old(user.Pending()), order)
          == InitRun(r, l.tree, g.commands, g.script, pending);
    } else {
      assert plan == InitRun(Pass, start, g.commands, g.script, user.Pending());
      assert !ReachesLinks(old(disk.tree), disk.faults, cwd, folderPath, repository, branch, force, old(port.script), old(user.Pending()));
    }
  }
}
