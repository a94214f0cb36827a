/** Turning one repository's history into self-contained commit records. */
module Commits {
  import opened Wrappers
  import opened Text

  /** pydriller's `ModificationType`. */
  datatype ChangeType = Add | Copy | Rename | Delete | Modify | Unknown

  /** One changed file of a commit: its kind, and its path and full text before and after
      (absent for a file that did not exist on that side). The same fields make up the
      traversal's modification and the record's copy of it. */
  datatype Modification = Modification(
    changeType: ChangeType,
    oldSrc: Option<string>, oldPath: Option<string>,
    newSrc: Option<string>, newPath: Option<string>)

  /** A commit as the history traversal yields it. */
  datatype TraversedCommit = TraversedCommit(hash: string, msg: string, parents: seq<string>, modifications: seq<Modification>)

  /** The `repo` part of a commit record. */
  datatype RepoRef = RepoRef(name: string, path: string, url: string)

  /** The record `_extract_commits` builds for a commit. */
  datatype CommitRecord = CommitRecord(num: nat, hash: string, msg: string, modifications: seq<Modification>, repo: RepoRef)

  /** `_get_repo_url`: the output of `git config --get remote.origin.url` with its leading
      and trailing whitespace cut off (the trailing newline of `git` among it). */
  function RepoUrl(gitOutput: string): (url: string)
    ensures url == [] || (!IsSpace(url[0]) && !IsSpace(url[|url| - 1]))
    ensures var a := |gitOutput| - |StripLeading(gitOutput)|;
              0 <= a <= |gitOutput| - |url| && url == gitOutput[a..a + |url|]
              && (forall k :: 0 <= k < a ==> IsSpace(gitOutput[k]))
              && (forall k :: a + |url| <= k < |gitOutput| ==> IsSpace(gitOutput[k]))
  {
    Strip(gitOutput)
  }

  /** The commits that have at least one parent, in traversal order. */
  function NonRoot(history: seq<TraversedCommit>): (r: seq<TraversedCommit>)
    ensures |r| <= |history|
    ensures forall c :: c in r <==> c in history && |c.parents| > 0
  {
    if history == [] then []
    else
      var last := history[|history| - 1];
      assert history == history[..|history| - 1] + [last];
      NonRoot(history[..|history| - 1]) + if |last.parents| > 0 then [last] else []
  }

  /** The records for a history: one per non-root commit, numbered from 1 in order. */
  function Materialise(history: seq<TraversedCommit>, repo: RepoRef): seq<CommitRecord> {
    var kept := NonRoot(history);
    seq(|kept|, k requires 0 <= k < |kept| => CommitRecord(k + 1, kept[k].hash, kept[k].msg, kept[k].modifications, repo))
  }

  lemma MaterialiseExtend(history: seq<TraversedCommit>, i: nat, repo: RepoRef)
    requires i < |history|
    ensures var c := history[i];
            Materialise(history[..i + 1], repo) == Materialise(history[..i], repo)
              + if |c.parents| > 0
                then [CommitRecord(|Materialise(history[..i], repo)| + 1, c.hash, c.msg, c.modifications, repo)]
                else []
  {
    var c := history[i];
    var before, after := NonRoot(history[..i]), NonRoot(history[..i + 1]);
    assert after == before + if |c.parents| > 0 then [c] else [] by {
      assert history[..i + 1][..i] == history[..i];
    }
    var m, m' := Materialise(history[..i], repo), Materialise(history[..i + 1], repo);
    var tail := if |c.parents| > 0 then [CommitRecord(|m| + 1, c.hash, c.msg, c.modifications, repo)] else [];
    assert |m'| == |m + tail|;
    forall k | 0 <= k < |m'|
      ensures m'[k] == (m + tail)[k]
    {
      if k < |before| {
        assert after[k] == before[k];
      }
    }
    assert m' == m + tail;
  }

  /** The records of a history are numbered 1, 2, ...; record `i` carries the hash, the
      message and the modifications of the `i`-th non-root commit and the repository's
      name, path and URL. */
  lemma MaterialiseFacts(history: seq<TraversedCommit>, repo: RepoRef)
    ensures |Materialise(history, repo)| == |NonRoot(history)|
    ensures forall i :: 0 <= i < |Materialise(history, repo)| ==> Materialise(history, repo)[i].num == i + 1
    ensures forall i :: 0 <= i < |Materialise(history, repo)| ==>
              && Materialise(history, repo)[i].repo == repo
              && Materialise(history, repo)[i].hash == NonRoot(history)[i].hash
              && Materialise(history, repo)[i].msg == NonRoot(history)[i].msg
              && Materialise(history, repo)[i].modifications == NonRoot(history)[i].modifications
    ensures forall c :: c in Materialise(history, repo) ==>
              exists h :: h in history && |h.parents| > 0 && h.hash == c.hash && h.modifications == c.modifications
  {
    var r := Materialise(history, repo);
    forall c | c in r
      ensures exists h :: h in history && |h.parents| > 0 && h.hash == c.hash && h.modifications == c.modifications
    {
      var k :| 0 <= k < |r| && r[k] == c;
      assert NonRoot(history)[k] in NonRoot(history);
    }
  }

  /** The inner loop of `_extract_commits`: appends each modification to the record's list. */
  method CopyModifications(source: seq<Modification>) returns (mods: seq<Modification>)
    ensures mods == source
  {
    mods := [];
    for j := 0 to |source|
      invariant mods == source[..j]
    {
      mods := mods + [source[j]];
    }
  }

  /** `_extract_commits`: walks the history, skips root commits, and builds for each other
      commit a record numbered one past the records so far, copying its modifications one
      by one. The repository's path and remote URL are computed once, up front. */
  method ExtractCommits(repoName: string, reposDir: string, gitOutput: string, history: seq<TraversedCommit>)
    returns (commits: seq<CommitRecord>)
    ensures commits == Materialise(history, RepoRef(repoName, PathJoin(reposDir, repoName), RepoUrl(gitOutput)))
    ensures |commits| == |NonRoot(history)|
    ensures forall i :: 0 <= i < |commits| ==> commits[i].num == i + 1
    ensures forall c :: c in commits ==>
              exists h :: h in history && |h.parents| > 0 && h.hash == c.hash && h.modifications == c.modifications
  {
    var repo := RepoRef(repoName, PathJoin(reposDir, repoName), RepoUrl(gitOutput));
    commits := [];
    for i := 0 to |history|
      invariant commits == Materialise(history[..i], repo)
    {
      var commit := history[i];
      MaterialiseExtend(history, i, repo);
      if |commit.parents| > 0 {
        var mods := CopyModifications(commit.modifications);
        var cut := CommitRecord(|commits| + 1, commit.hash, commit.msg, mods, repo);
        commits := commits + [cut];
      }
    }
    assert history[..|history|] == history;
    MaterialiseFacts(history, repo);
  }
}
