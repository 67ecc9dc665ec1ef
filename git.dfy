/**
 * internal/git/git.go: the git commands the program runs, a scripted git
 * that answers them, the porcelain-status line filter and the remote URL
 * lookup.
 */
module Git {
  import opened Wrappers
  import opened GoStrings
  import FileSystem

  /** Every git command the program issues; each runs as `git -C <folder> ...`. */
  datatype Command =
    | RevParse
    | DiffCached
    | StatusPorcelain
    | SetUrl(url: string)
    | AddRemote(url: string)
    | FetchOrigin
    | CheckoutTrack(branch: string)
    | GetUrl
    | AddAll
    | Commit(message: string)
    | Push
    | Pull
    | InitRepo

  /** The command line of each command. */
  function Args(folder: string, c: Command): (r: seq<string>)
    ensures |r| > 3 && r[..3] == ["git", "-C", folder]
  {
    ["git", "-C", folder] +
    match c
    case RevParse => ["rev-parse", "--is-inside-work-tree"]
    case DiffCached => ["diff", "--cached", "--quiet"]
    case StatusPorcelain => ["status", "--porcelain"]
    case SetUrl(url) => ["remote", "set-url", "origin", url]
    case AddRemote(url) => ["remote", "add", "origin", url]
    case FetchOrigin => ["fetch", "origin"]
    case CheckoutTrack(branch) => ["checkout", "-b", branch, "--track", "origin/" + branch]
    case GetUrl => ["remote", "get-url", "origin"]
    case AddAll => ["add", "-A"]
    case Commit(message) => ["commit", "-m", message]
    case Push => ["push"]
    case Pull => ["pull", "--ff-only"]
    case InitRepo => ["init"]
  }

  /**
   * Exit code and standard output of one run, and the nodes git wrote into
   * the work tree meanwhile (what a fetch, checkout or pull brings in). A
   * run fails exactly when the code is not 0; -1 stands for git not
   * starting at all.
   */
  datatype Reply = Reply(code: int, output: string, writes: FileSystem.Tree)

  /** The answer to the next command: the next scripted reply, or a failed start once the script is used up. */
  function NextReply(script: seq<Reply>): (r: Reply)
    ensures script != [] ==> r == script[0]
    ensures script == [] ==> r.code != 0
  {
    if script == [] then Reply(-1, "", map[]) else script[0]
  }

  function RestOf(script: seq<Reply>): (r: seq<Reply>)
    ensures script != [] ==> r == script[1..]
    ensures script == [] ==> r == []
  {
    if script == [] then [] else script[1..]
  }

  /** The script left once `n` more commands have each taken their reply; a used-up script stays empty. */
  function After(script: seq<Reply>, n: nat): (r: seq<Reply>)
    ensures |r| <= |script|
    decreases n
  {
    if n == 0 then script else After(RestOf(script), n - 1)
  }

  /**
   * What git wrote into the work tree while answering the next `n`
   * commands; a later write to a path replaces an earlier one.
   */
  function Written(script: seq<Reply>, n: nat): (w: FileSystem.Tree)
    ensures n == 0 ==> w == map[]
    ensures script != [] && n > 0 ==> script[0].writes.Keys <= w.Keys
    decreases n
  {
    if n == 0 then map[] else NextReply(script).writes + Written(RestOf(script), n - 1)
  }

  /** Running `a` commands and then `b` more takes `a + b` replies. */
  lemma {:induction false} AfterAfter(script: seq<Reply>, a: nat, b: nat)
    ensures After(After(script, a), b) == After(script, a + b)
    decreases a
  {
    if a > 0 {
      AfterAfter(RestOf(script), a - 1, b);
    }
  }

  /** Two runs one after the other take the replies of both, in that order. */
  lemma Chain(script: seq<Reply>, first: seq<Command>, second: seq<Command>)
    ensures After(After(script, |first|), |second|) == After(script, |first + second|)
  {
    AfterAfter(script, |first|, |second|);
  }

  /** The error text of a failed run. */
  function ExitText(reply: Reply): string {
    if reply.code == -1 then "exec: git could not be started"
    else "exit status " + IntToString(reply.code)
  }

  /** git as the program sees it: replies follow the script; every command is recorded. */
  class GitPort {
    var script: seq<Reply>
    var trace: seq<Command>

    constructor (script: seq<Reply>)
      ensures this.script == script && trace == []
    {
      this.script := script;
      trace := [];
    }

    /** internal.Run / internal.RunOutput of one command. */
    method Run(c: Command) returns (reply: Reply)
      modifies this
      ensures reply == NextReply(old(script)) && script == RestOf(old(script))
      ensures trace == old(trace) + [c]
    {
      reply := NextReply(script);
      script := RestOf(script);
      trace := trace + [c];
    }
  }

  /** The pieces that are not white space only, in their order. */
  function NonBlank(pieces: seq<string>): seq<string>
  {
    if pieces == [] then []
    else
      var last := pieces[|pieces| - 1];
      NonBlank(pieces[..|pieces| - 1]) + (if Blank(last) then [] else [last])
  }

  /** Filtering distributes over concatenation, so the kept lines keep their order. */
  lemma {:induction false} NonBlankConcat(a: seq<string>, b: seq<string>)
    ensures NonBlank(a + b) == NonBlank(a) + NonBlank(b)
    decreases |b|
  {
    if b == [] {
      assert a + b == a;
    } else {
      var b' := b[..|b| - 1];
      assert (a + b)[..|a + b| - 1] == a + b';
      NonBlankConcat(a, b');
    }
  }

  /**
   * What is kept: every element is one of the pieces, verbatim, with
   * something other than white space; every such piece is kept; there are
   * never more lines than pieces.
   */
  lemma {:induction false} NonBlankKeeps(pieces: seq<string>)
    ensures |NonBlank(pieces)| <= |pieces|
    ensures forall x :: x in NonBlank(pieces) <==> x in pieces && !Blank(x)
    ensures NonBlank(pieces) == [] <==> forall k :: 0 <= k < |pieces| ==> Blank(pieces[k])
  {
    if pieces != [] {
      var init := pieces[..|pieces| - 1];
      NonBlankKeeps(init);
      assert pieces == init + [pieces[|pieces| - 1]];
      forall k | 0 <= k < |init|
        ensures init[k] == pieces[k]
      {
      }
    }
  }

  /** A string glued from parts with a white-space separator is blank exactly when every part is. */
  lemma {:induction false} BlankJoin(parts: seq<string>, sep: char)
    requires IsSpace(sep)
    ensures Blank(JoinWith(parts, sep)) <==> forall k :: 0 <= k < |parts| ==> Blank(parts[k])
  {
    if |parts| > 1 {
      BlankJoin(parts[1..], sep);
      var rest := JoinWith(parts[1..], sep);
      var whole := parts[0] + [sep] + rest;
      assert Blank(whole) <==> Blank(parts[0]) && Blank(rest) by {
        if Blank(parts[0]) && Blank(rest) {
          forall i | 0 <= i < |whole|
            ensures IsSpace(whole[i])
          {
            if i > |parts[0]| { assert whole[i] == rest[i - |parts[0]| - 1]; }
          }
        }
        if Blank(whole) {
          forall i | 0 <= i < |rest|
            ensures IsSpace(rest[i])
          {
            assert whole[i + |parts[0]| + 1] == rest[i];
          }
          forall i | 0 <= i < |parts[0]|
            ensures IsSpace(parts[0][i])
          {
            assert whole[i] == parts[0][i];
          }
        }
      }
      forall k | 0 <= k < |parts| - 1
        ensures parts[1..][k] == parts[k + 1]
      {
      }
    }
  }

  /**
   * ListChanges: the lines of `input` that hold something other than
   * white space, untrimmed and in order.
   */
  method ListChanges(input: string) returns (lines: seq<string>)
    ensures lines == NonBlank(Split(input, '\n'))
  {
    var pieces := Split(input, '\n');
    lines := [];
    for i := 0 to |pieces|
      invariant lines == NonBlank(pieces[..i])
    {
      assert pieces[..i + 1][..i] == pieces[..i];
      if TrimSpace(pieces[i]) == "" {
        continue;
      }
      lines := lines + [pieces[i]];
    }
    assert pieces[..|pieces|] == pieces;
  }

  /**
   * The status listing is empty exactly when the whole output is white
   * space, the test SyncRepo applies before listing; every line has
   * content and no line break; there are never more lines than pieces.
   */
  lemma ListChangesMeaning(input: string)
    ensures NonBlank(Split(input, '\n')) == [] <==> TrimSpace(input) == ""
    ensures |NonBlank(Split(input, '\n'))| <= Count(input, '\n') + 1
    ensures forall x :: x in NonBlank(Split(input, '\n')) ==> !Blank(x) && '\n' !in x
  {
    var pieces := Split(input, '\n');
    NonBlankKeeps(pieces);
    BlankJoin(pieces, '\n');
  }

  /** The URL lookup: the output without surrounding white space, or the failure. */
  function RemoteLookup(reply: Reply): (r: Result<string>)
    ensures r.Ok? <==> reply.code == 0
    ensures r.Ok? ==> r.value == TrimSpace(reply.output)
  {
    if reply.code != 0 then Err("failed to get remote URL " + ExitText(reply))
    else Ok(TrimSpace(reply.output))
  }

  /** GetRemoteURL: asks git for the URL of origin. */
  method GetRemoteURL(port: GitPort) returns (url: string, err: Option<string>)
    modifies port
    ensures port.script == RestOf(old(port.script)) && port.trace == old(port.trace) + [GetUrl]
    ensures var r := RemoteLookup(NextReply(old(port.script)));
      && (r.Ok? ==> url == r.value && err == None)
      && (r.Err? ==> url == "" && err == Some(r.message))
  {
    var reply := port.Run(GetUrl);
    if reply.code != 0 {
      return "", Some("failed to get remote URL " + ExitText(reply));
    }
    return TrimSpace(reply.output), None;
  }
}
