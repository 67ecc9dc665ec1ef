/**
 * Remote-URL helpers of internal/helpers.go: the rewriting between GitHub's
 * SSH and HTTPS forms, the ".git" suffix toggle, and the two comparisons
 * Init uses to decide whether the configured remote already matches.
 */
module Remotes {
  import opened Wrappers
  import opened GoStrings

  const SshGitHub := "git@github.com:"
  const HttpsGitHub := "https://github.com/"

  /**
   * NormaliseRepoURL: a "git@" URL becomes "https://github.com/" followed by
   * what comes after its first colon; an "https:" URL that contains
   * "https://github.com/" becomes "git@github.com:" followed by what comes
   * after that occurrence; everything else is returned unchanged.
   */
  function NormaliseRepoURL(url: string): (r: string)
    ensures r == url || HasPrefix(r, HttpsGitHub) || HasPrefix(r, SshGitHub)
    ensures !HasPrefix(url, "git@") && !HasPrefix(url, "https:") ==> r == url
  {
    if HasPrefix(url, "git@") then
      match AfterFirst(url, ":")
      case Some(rest) => HttpsGitHub + rest
      case None => url
    else if HasPrefix(url, "https:") then
      match AfterFirst(url, HttpsGitHub)
      case Some(rest) => SshGitHub + rest
      case None => url
    else url
  }

  /** Any SSH URL "git@HOST:REPO" is rewritten to GitHub's HTTPS form of REPO. */
  lemma NormaliseSshUrl(host: string, repo: string)
    requires ':' !in host
    ensures NormaliseRepoURL("git@" + host + ":" + repo) == HttpsGitHub + repo
  {
    var url := "git@" + host + ":" + repo;
    var k := 4 + |host|;
    assert OccursAt(url, ":", k);
    forall j | 0 <= j < k
      ensures !OccursAt(url, ":", j)
    {
      assert url[j..j + 1] == [url[j]];
      if j >= 4 { assert url[j] == host[j - 4]; }
    }
    IndexOfIs(url, ":", k);
    assert url[k + 1..] == repo;
  }

  /** GitHub's HTTPS form of REPO is rewritten to its SSH form. */
  lemma NormaliseHttpsUrl(repo: string)
    ensures NormaliseRepoURL(HttpsGitHub + repo) == SshGitHub + repo
  {
    var url := HttpsGitHub + repo;
    assert url[0] == 'h' && "https:" <= url;
    assert OccursAt(url, HttpsGitHub, 0);
    IndexOfIs(url, HttpsGitHub, 0);
    assert url[|HttpsGitHub|..] == repo;
  }

  /** On GitHub's two forms of a repository, normalising twice gives the URL back. */
  lemma {:induction false} NormaliseRepoURLInvolution(repo: string)
    ensures NormaliseRepoURL(NormaliseRepoURL(SshGitHub + repo)) == SshGitHub + repo
    ensures NormaliseRepoURL(NormaliseRepoURL(HttpsGitHub + repo)) == HttpsGitHub + repo
  {
    assert SshGitHub + repo == "git@" + "github.com" + ":" + repo;
    NormaliseSshUrl("github.com", repo);
    NormaliseHttpsUrl(repo);
  }

  /**
   * URLs that are left alone: neither prefix, a "git@" URL without a colon,
   * and an "https:" URL that does not contain "https://github.com/".
   */
  lemma NormaliseRepoURLUnchanged(url: string)
    requires || (!HasPrefix(url, "git@") && !HasPrefix(url, "https:"))
             || (HasPrefix(url, "git@") && ':' !in url)
             || (HasPrefix(url, "https:") && forall j :: 0 <= j ==> !OccursAt(url, HttpsGitHub, j))
    ensures NormaliseRepoURL(url) == url
  {
    if HasPrefix(url, "https:") {
      assert url[0] == 'h';
      assert !HasPrefix(url, "git@");
    } else if HasPrefix(url, "git@") {
      forall j | 0 <= j
        ensures !OccursAt(url, ":", j)
      {
        if j < |url| {
          assert url[j..j + 1] == [url[j]];
        }
      }
    }
  }

  /** NormaliseRepoSuffix: strips one trailing ".git", or appends ".git" when there is none. */
  function NormaliseRepoSuffix(url: string): (r: string)
    ensures HasSuffix(url, ".git") ==> r + ".git" == url
    ensures !HasSuffix(url, ".git") ==> r == url + ".git" && HasSuffix(r, ".git")
  {
    if HasSuffix(url, ".git") then url[..|url| - 4] else url + ".git"
  }

  /**
   * Toggling the suffix twice gives the URL back exactly when it does not
   * end in ".git.git" (so always when it does not end in ".git").
   */
  lemma NormaliseRepoSuffixTwice(url: string)
    ensures NormaliseRepoSuffix(NormaliseRepoSuffix(url)) == url <==> !HasSuffix(url, ".git.git")
  {
    var once := NormaliseRepoSuffix(url);
    if HasSuffix(url, ".git") {
      assert url == once + ".git";
      if HasSuffix(url, ".git.git") {
        assert HasSuffix(once, ".git") by {
          assert once[|once| - 4..] == url[|url| - 8..|url| - 4];
        }
        assert |NormaliseRepoSuffix(once)| < |url|;
      }
    } else {
      assert once[..|once| - 4] == url;
    }
  }

  /** SameSuffix: both URLs end in ".git". */
  predicate SameSuffix(s1: string, s2: string)
    ensures SameSuffix(s1, s2) ==> |s1| >= 4 && |s2| >= 4 && s1[|s1| - 4..] == s2[|s2| - 4..]
    ensures !HasSuffix(s1, ".git") && !HasSuffix(s2, ".git") ==> !SameSuffix(s1, s2)
  {
    HasSuffix(s1, ".git") && HasSuffix(s2, ".git")
  }

  /** The length of the longest common prefix of two strings. */
  function CommonPrefixLength(s1: string, s2: string): (n: nat)
    ensures n <= |s1| && n <= |s2|
    ensures s1[..n] == s2[..n]
    ensures n < |s1| && n < |s2| ==> s1[n] != s2[n]
  {
    if s1 != [] && s2 != [] && s1[0] == s2[0] then
      var n := 1 + CommonPrefixLength(s1[1..], s2[1..]);
      assert s1[..n] == [s1[0]] + s1[1..][..n - 1];
      assert s2[..n] == [s2[0]] + s2[1..][..n - 1];
      n
    else 0
  }

  /** The common prefix does not depend on the order of the two strings. */
  lemma {:induction false} CommonPrefixLengthSymmetric(s1: string, s2: string)
    ensures CommonPrefixLength(s1, s2) == CommonPrefixLength(s2, s1)
  {
    if s1 != [] && s2 != [] && s1[0] == s2[0] {
      CommonPrefixLengthSymmetric(s1[1..], s2[1..]);
    }
  }

  /**
   * SamePrefix: advances over the common prefix of the two strings and
   * reports whether it is non-empty, that is, whether both strings are
   * non-empty and start with the same character.
   */
  method SamePrefix(s1: string, s2: string) returns (r: bool)
    ensures r <==> CommonPrefixLength(s1, s2) > 0
    ensures r <==> s1 != [] && s2 != [] && s1[0] == s2[0]
  {
    var i := 0;
    while i < |s1| && i < |s2| && s1[i] == s2[i]
      invariant i <= CommonPrefixLength(s1, s2)
    {
      i := i + 1;
    }
    assert i == CommonPrefixLength(s1, s2);
    r := i > 0;
  }
}
