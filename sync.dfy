/**
 * internal/manager/sync.go: SyncRepo checks that the folder is a work tree,
 * looks for local changes, optionally uploads them (stage, commit when
 * something is staged, push) and optionally downloads (pull, after asking
 * when the tree is dirty).
 */
module Sync {
  import opened Wrappers
  import opened GoStrings
  import opened Git
  import opened UserInput

  /** The outcome, the git commands run in order, the unused script and the unanswered responses. */
  datatype Run = Run(outcome: Outcome, commands: seq<Command>, script: seq<Reply>, pending: seq<string>)

  const SyncMessage := "dotman sync"

  /** The push at the end of the upload step. */
  function PushPlan(done: seq<Command>, script: seq<Reply>, pending: seq<string>): (r: Run)
    ensures r.script == After(script, 1) && r.pending == pending
  {
    var push := NextReply(script);
    if push.code != 0 then Run(Fail("could not push changes: " + ExitText(push)), done + [Push], RestOf(script), pending)
    else Run(Pass, done + [Push], RestOf(script), pending)
  }

  /**
   * The upload step: stage everything; `diff --cached --quiet` exits 1
   * when something is staged (commit it), 0 when nothing is, anything
   * else is an error; then push.
   */
  function UploadPlan(script: seq<Reply>, pending: seq<string>): (r: Run)
    ensures r.pending == pending
    ensures r.script == After(script, |r.commands|)
  {
    var add := NextReply(script);
    var s1 := RestOf(script);
    if add.code != 0 then Run(Fail("could not stage repo folder: " + ExitText(add)), [AddAll], s1, pending)
    else
      var diff := NextReply(s1);
      var s2 := RestOf(s1);
      assert After(script, 2) == s2 && After(script, 3) == RestOf(s2);
      assert After(script, 4) == After(RestOf(s2), 1);
      if diff.code == 1 then
        var commit := NextReply(s2);
        if commit.code != 0 then
          Run(Fail("could not commit changes: " + ExitText(commit)), [AddAll, DiffCached, Commit(SyncMessage)], RestOf(s2), pending)
        else PushPlan([AddAll, DiffCached, Commit(SyncMessage)], RestOf(s2), pending)
      else if diff.code != 0 then
        Run(Fail("git diff failed with exit code " + IntToString(diff.code)), [AddAll, DiffCached], s2, pending)
      else PushPlan([AddAll, DiffCached], s2, pending)
  }

  /** The download step: status again; a dirty tree needs the user's yes; then pull. */
  function DownloadPlan(script: seq<Reply>, pending: seq<string>): (r: Run)
    ensures r.script == After(script, |r.commands|)
    ensures Answered(pending, r.pending)
    ensures r.outcome.Pass? ==> r.commands == [StatusPorcelain, Pull]
  {
    var status := NextReply(script);
    var s1 := RestOf(script);
    if status.code != 0 then Run(Fail("failed to collect status: " + ExitText(status)), [StatusPorcelain], s1, pending)
    else
      var dirty := !Blank(status.output);
      var c := if dirty then Confirm(pending) else Confirmation(true, pending);
      if !c.yes then Run(Fail("aborting downloading changes from git"), [StatusPorcelain], s1, c.rest)
      else
        var pull := NextReply(s1);
        if pull.code != 0 then Run(Fail("could not pull changes: " + ExitText(pull)), [StatusPorcelain, Pull], RestOf(s1), c.rest)
        else Run(Pass, [StatusPorcelain, Pull], RestOf(s1), c.rest)
  }

  /**
   * SyncRepo as a whole. A status counts as clean when trimming its white
   * space leaves nothing, which is `Blank` (see GoStrings.TrimSpace).
   */
  function SyncPlan(folder: string, dryrun: bool, download: bool, upload: bool, script: seq<Reply>, pending: seq<string>): (r: Run)
    ensures r.commands != [] && r.commands[0] == RevParse
    ensures r.script == After(script, |r.commands|)
    ensures Answered(pending, r.pending)
  {
    var probe := NextReply(script);
    if probe.code != 0 then Run(Fail("not a git repository: " + folder), [RevParse], RestOf(script), pending)
    else
      var rest := StatusPlan(dryrun, download, upload, RestOf(script), pending);
      rest.(commands := [RevParse] + rest.commands)
  }

  /** Everything after a successful probe: the status, then the exchange unless it is a dry run. */
  function StatusPlan(dryrun: bool, download: bool, upload: bool, script: seq<Reply>, pending: seq<string>): (r: Run)
    ensures r.commands != [] && r.commands[0] == StatusPorcelain
    ensures dryrun || NextReply(script).code != 0 || Blank(NextReply(script).output) ==> r.commands == [StatusPorcelain]
    ensures r.script == After(script, |r.commands|)
    ensures Answered(pending, r.pending)
  {
    var status := NextReply(script);
    var s1 := RestOf(script);
    if status.code != 0 then Run(Fail("failed to collect status: " + ExitText(status)), [StatusPorcelain], s1, pending)
    else if Blank(status.output) then
      Run(Fail(if dryrun then "[dry-run] no changes detected" else "no changes detected"), [StatusPorcelain], s1, pending)
    else if dryrun then Run(Pass, [StatusPorcelain], s1, pending)
    else
      var x := ExchangePlan(download, upload, s1, pending);
      x.(commands := [StatusPorcelain] + x.commands)
  }

  /** Upload when asked to, then download when asked to and the upload did not fail. */
  function ExchangePlan(download: bool, upload: bool, script: seq<Reply>, pending: seq<string>): (r: Run)
    ensures r.script == After(script, |r.commands|)
    ensures Answered(pending, r.pending)
  {
    if !upload then
      if download then DownloadPlan(script, pending) else Run(Pass, [], script, pending)
    else
      var up := UploadPlan(script, pending);
      if up.outcome.Fail? || !download then up
      else
        var down := DownloadPlan(up.script, pending);
        Chain(script, up.commands, down.commands);
        down.(commands := up.commands + down.commands)
  }

  /** A failed or unstartable probe ends the run after that one command. */
  lemma SyncNotARepository(folder: string, dryrun: bool, download: bool, upload: bool, script: seq<Reply>, pending: seq<string>)
    requires NextReply(script).code != 0
    ensures SyncPlan(folder, dryrun, download, upload, script, pending)
         == Run(Fail("not a git repository: " + folder), [RevParse], RestOf(script), pending)
  {
  }

  /**
   * A status that is only white space ends the run with "no changes
   * detected" before anything is staged or pulled, whatever the flags.
   */
  lemma SyncCleanTree(folder: string, dryrun: bool, download: bool, upload: bool, script: seq<Reply>, pending: seq<string>)
    requires NextReply(script).code == 0
    requires NextReply(RestOf(script)).code == 0 && Blank(NextReply(RestOf(script)).output)
    ensures var r := SyncPlan(folder, dryrun, download, upload, script, pending);
      && r.outcome == Fail(if dryrun then "[dry-run] no changes detected" else "no changes detected")
      && r.commands == [RevParse, StatusPorcelain]
      && r.pending == pending
  {
  }

  /** A dry run only ever probes and reads the status, and never asks the user anything. */
  lemma SyncDryRunIsPure(folder: string, download: bool, upload: bool, script: seq<Reply>, pending: seq<string>)
    ensures var r := SyncPlan(folder, true, download, upload, script, pending);
      && r.commands <= [RevParse, StatusPorcelain]
      && r.pending == pending
      && ((r.commands == [RevParse, StatusPorcelain] && !Blank(NextReply(RestOf(script)).output)
           && NextReply(RestOf(script)).code == 0) ==> r.outcome == Pass)
  {
  }

  /** Without either flag a dirty tree is reported as success after the probe and the status. */
  lemma SyncWithoutFlags(folder: string, script: seq<Reply>, pending: seq<string>)
    requires NextReply(script).code == 0
    requires NextReply(RestOf(script)).code == 0 && !Blank(NextReply(RestOf(script)).output)
    ensures SyncPlan(folder, false, false, false, script, pending)
         == Run(Pass, [RevParse, StatusPorcelain], RestOf(RestOf(script)), pending)
  {
  }

  /**
   * The exit code of `git diff --cached --quiet` decides the upload: 1
   * commits once with message "dotman sync" before pushing, 0 pushes
   * without committing, anything else fails before any push.
   */
  lemma UploadFollowsDiffCode(script: seq<Reply>, pending: seq<string>)
    requires NextReply(script).code == 0
    ensures var code := NextReply(RestOf(script)).code;
      var r := UploadPlan(script, pending);
      && (code == 1 ==> r.commands[..3] == [AddAll, DiffCached, Commit(SyncMessage)])
      && (code == 0 ==> r.commands == [AddAll, DiffCached, Push])
      && (code != 0 && code != 1 ==>
            r.outcome == Fail("git diff failed with exit code " + IntToString(code)) && r.commands == [AddAll, DiffCached])
  {
  }

  /** The command sequences an upload step can leave. */
  predicate UploadShape(u: seq<Command>) {
    || u == []
    || u == [AddAll]
    || u == [AddAll, DiffCached]
    || u == [AddAll, DiffCached, Commit(SyncMessage)]
    || u == [AddAll, DiffCached, Push]
    || u == [AddAll, DiffCached, Commit(SyncMessage), Push]
  }

  /** The command sequences a download step can leave. */
  predicate DownloadShape(d: seq<Command>) {
    d == [] || d == [StatusPorcelain] || d == [StatusPorcelain, Pull]
  }

  /**
   * An upload part and a download part as the flags allow them: each empty
   * unless its flag is set, and a download only after a complete upload.
   */
  predicate ExchangeShape(u: seq<Command>, d: seq<Command>, upload: bool, download: bool) {
    && UploadShape(u) && DownloadShape(d)
    && (!upload ==> u == []) && (!download ==> d == [])
    && (d != [] ==> u == [] || u[|u| - 1] == Push)
  }

  /**
   * Every run is the probe, then the status, then an upload part, then a
   * download part; the upload part is empty unless `upload` is set and
   * the download part unless `download` is; a download only starts after
   * a complete upload; at most one commit, one push and one pull are run.
   */
  lemma SyncTraceOrder(folder: string, dryrun: bool, download: bool, upload: bool, script: seq<Reply>, pending: seq<string>)
    ensures var r := SyncPlan(folder, dryrun, download, upload, script, pending);
      || r.commands == [RevParse]
      || exists u, d :: ExchangeShape(u, d, upload, download) && r.commands == [RevParse, StatusPorcelain] + u + d
  {
    var r := SyncPlan(folder, dryrun, download, upload, script, pending);
    if NextReply(script).code != 0 {
      assert r.commands == [RevParse];
    } else {
      var rest := StatusPlan(dryrun, download, upload, RestOf(script), pending);
      assert r.commands == [RevParse] + rest.commands;
      var u, d := StatusParts(dryrun, download, upload, RestOf(script), pending);
      assert r.commands == [RevParse, StatusPorcelain] + u + d;
    }
  }

  /** After the probe: the status, then an upload part and a download part of the expected shapes. */
  lemma StatusParts(dryrun: bool, download: bool, upload: bool, script: seq<Reply>, pending: seq<string>)
    returns (u: seq<Command>, d: seq<Command>)
    ensures StatusPlan(dryrun, download, upload, script, pending).commands == [StatusPorcelain] + u + d
    ensures ExchangeShape(u, d, upload, download)
  {
    var rest := StatusPlan(dryrun, download, upload, script, pending);
    if dryrun || NextReply(script).code != 0 || Blank(NextReply(script).output) {
      u, d := [], [];
      assert rest.commands == [StatusPorcelain];
      assert UploadShape(u) && DownloadShape(d);
    } else {
      var s1 := RestOf(script);
      var x := ExchangePlan(download, upload, s1, pending);
      assert rest == x.(commands := [StatusPorcelain] + x.commands);
      u, d := ExchangeParts(download, upload, s1, pending);
      assert [StatusPorcelain] + (u + d) == [StatusPorcelain] + u + d;
    }
  }

  /** The exchange splits into an upload part and a download part of the expected shapes. */
  lemma ExchangeParts(download: bool, upload: bool, script: seq<Reply>, pending: seq<string>) returns (u: seq<Command>, d: seq<Command>)
    ensures ExchangePlan(download, upload, script, pending).commands == u + d
    ensures ExchangeShape(u, d, upload, download)
  {
    if !upload {
      u, d := [], if download then DownloadPlan(script, pending).commands else [];
      DownloadShapes(script, pending);
    } else {
      var up := UploadPlan(script, pending);
      UploadShapes(script, pending);
      if up.outcome.Fail? || !download {
        u, d := up.commands, [];
      } else {
        DownloadShapes(up.script, pending);
        u, d := up.commands, DownloadPlan(up.script, pending).commands;
      }
    }
  }

  /** The upload step leaves one of the six shapes, and a successful one ends with the push. */
  lemma UploadShapes(script: seq<Reply>, pending: seq<string>)
    ensures var up := UploadPlan(script, pending);
      && UploadShape(up.commands)
      && (up.outcome.Pass? ==> up.commands[|up.commands| - 1] == Push)
  {
    var add := NextReply(script);
    var s1 := RestOf(script);
    if add.code == 0 {
      var diff := NextReply(s1);
      var s2 := RestOf(s1);
      if diff.code == 1 {
        if NextReply(s2).code == 0 {
          PushShape([AddAll, DiffCached, Commit(SyncMessage)], RestOf(s2), pending);
        }
      } else if diff.code == 0 {
        PushShape([AddAll, DiffCached], s2, pending);
      }
    }
  }

  /** The download step leaves one of its three shapes, whatever the user answers. */
  lemma DownloadShapes(script: seq<Reply>, pending: seq<string>)
    ensures DownloadShape(DownloadPlan(script, pending).commands)
  {
    var status := NextReply(script);
    if status.code == 0 {
      var c := if !Blank(status.output) then Confirm(pending) else Confirmation(true, pending);
      assert DownloadPlan(script, pending).commands == if c.yes then [StatusPorcelain, Pull] else [StatusPorcelain];
    }
  }

  /** The push appends itself to the commands run so far. */
  lemma PushShape(done: seq<Command>, script: seq<Reply>, pending: seq<string>)
    ensures PushPlan(done, script, pending).commands == done + [Push]
  {
  }

  /** The upload step never consults the user. */
  lemma UploadIgnoresUser(script: seq<Reply>, pending: seq<string>)
    ensures UploadPlan(script, pending) == UploadPlan(script, []).(pending := pending)
  {
  }

  /** A dirty tree at download time and a no from the user: no pull. */
  lemma DownloadDeclined(script: seq<Reply>, pending: seq<string>)
    requires NextReply(script).code == 0 && !Blank(NextReply(script).output)
    requires !Confirm(pending).yes
    ensures DownloadPlan(script, pending)
         == Run(Fail("aborting downloading changes from git"), [StatusPorcelain], RestOf(script), Confirm(pending).rest)
  {
  }

  /** A failed upload step ends the run: nothing of the download step runs. */
  lemma UploadFailureStopsDownload(folder: string, download: bool, script: seq<Reply>, pending: seq<string>)
    requires NextReply(script).code == 0
    requires NextReply(RestOf(script)).code == 0 && !Blank(NextReply(RestOf(script)).output)
    requires UploadPlan(RestOf(RestOf(script)), pending).outcome.Fail?
    ensures var r := SyncPlan(folder, false, download, true, script, pending);
      && r.outcome == UploadPlan(RestOf(RestOf(script)), pending).outcome
      && Pull !in r.commands && r.pending == pending
  {
    var up := UploadPlan(RestOf(RestOf(script)), pending);
    assert Pull !in up.commands;
  }

  /** The upload step of SyncRepo. */
  method Upload(port: GitPort) returns (r: Outcome)
    modifies port
    ensures var plan := UploadPlan(old(port.script), []);
      && r == plan.outcome && port.trace == old(port.trace) + plan.commands && port.script == plan.script
  {
    var add := port.Run(AddAll);
    if add.code != 0 {
      return Fail("could not stage repo folder: " + ExitText(add));
    }
    var diff := port.Run(DiffCached);
    if diff.code == 1 {
      var commit := port.Run(Commit(SyncMessage));
      if commit.code != 0 {
        return Fail("could not commit changes: " + ExitText(commit));
      }
    } else if diff.code != 0 {
      return Fail("git diff failed with exit code " + IntToString(diff.code));
    }
    var push := port.Run(Push);
    if push.code != 0 {
      return Fail("could not push changes: " + ExitText(push));
    }
    return Pass;
  }

  /** The download step of SyncRepo. */
  method Download(port: GitPort, user: MockUserInput) returns (r: Outcome)
    requires user.Valid()
    modifies port, user
    ensures user.Valid()
    ensures var plan := DownloadPlan(old(port.script), old(user.Pending()));
      && r == plan.outcome && port.trace == old(port.trace) + plan.commands && port.script == plan.script
      && user.Pending() == plan.pending
  {
    var status := port.Run(StatusPorcelain);
    if status.code != 0 {
      return Fail("failed to collect status: " + ExitText(status));
    }
    if !Blank(status.output) {
      var yes := ConfirmWithUser(user);
      if !yes {
        return Fail("aborting downloading changes from git");
      }
    }
    var pull := port.Run(Pull);
    if pull.code != 0 {
      return Fail("could not pull changes: " + ExitText(pull));
    }
    return Pass;
  }

  /** SyncRepo over a scripted git and a scripted user. */
  method SyncRepo(port: GitPort, user: MockUserInput, folder: string, dryrun: bool, download: bool, upload: bool)
    returns (r: Outcome)
    requires user.Valid()
    modifies port, user
    ensures user.Valid()
    ensures var plan := SyncPlan(folder, dryrun, download, upload, old(port.script), old(user.Pending()));
      && r == plan.outcome && port.trace == old(port.trace) + plan.commands && port.script == plan.script
      && user.Pending() == plan.pending
  {
    var probe := port.Run(RevParse);
    if probe.code != 0 {
      return Fail("not a git repository: " + folder);
    }
    ghost var rest := StatusPlan(dryrun, download, upload, port.script, user.Pending());
    r := CheckStatus(port, user, dryrun, download, upload);
    AppendAssoc(old(port.trace), [RevParse], rest.commands);
  }

  /** SyncRepo after the probe. */
  method CheckStatus(port: GitPort, user: MockUserInput, dryrun: bool, download: bool, upload: bool) returns (r: Outcome)
    requires user.Valid()
    modifies port, user
    ensures user.Valid()
    ensures var plan := StatusPlan(dryrun, download, upload, old(port.script), old(user.Pending()));
      && r == plan.outcome && port.trace == old(port.trace) + plan.commands && port.script == plan.script
      && user.Pending() == plan.pending
  {
    var status := port.Run(StatusPorcelain);
    if status.code != 0 {
      return Fail("failed to collect status: " + ExitText(status));
    }
    if Blank(status.output) {
      if dryrun {
        return Fail("[dry-run] no changes detected");
      } else {
        return Fail("no changes detected");
      }
    }
    if dryrun {
      return Pass;
    }
    ghost var x := ExchangePlan(download, upload, port.script, user.Pending());
    r := Exchange(port, user, download, upload);
    AppendAssoc(old(port.trace), [StatusPorcelain], x.commands);
  }

  /** The upload and download steps of SyncRepo. */
  method Exchange(port: GitPort, user: MockUserInput, download: bool, upload: bool) returns (r: Outcome)
    requires user.Valid()
    modifies port, user
    ensures user.Valid()
    ensures var plan := ExchangePlan(download, upload, old(port.script), old(user.Pending()));
      && r == plan.outcome && port.trace == old(port.trace) + plan.commands && port.script == plan.script
      && user.Pending() == plan.pending
  {
    ghost var pending := user.Pending();
    ghost var up := if upload then UploadPlan(port.script, pending) else Run(Pass, [], port.script, pending);
    r := Pass;
    if upload {
      r := Upload(port);
      UploadIgnoresUser(old(port.script), pending);
    }
    assert r == up.outcome && port.trace == old(port.trace) + up.commands && port.script == up.script;
    if r.Fail? || !download {
      return r;
    }
    ghost var down := DownloadPlan(up.script, pending);
    assert ExchangePlan(download, upload, old(port.script), pending) == down.(commands := up.commands + down.commands);
    r := Download(port, user);
    AppendAssoc(old(port.trace), up.commands, down.commands);
  }

  /** Regrouping the trace: the commands before the run, then the run's two parts. */
  lemma AppendAssoc<T>(before: seq<T>, a: seq<T>, b: seq<T>)
    ensures before + (a + b) == before + a + b
  {
  }

  /** Regrouping the trace: the commands before the run, then the run's three parts. */
  lemma AppendRegroup<T>(before: seq<T>, a: seq<T>, b: seq<T>, c: seq<T>)
    ensures before + (a + b + c) == before + a + b + c
  {
  }
}
