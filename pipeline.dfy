/** The per-commit work of the miner: choosing the modifications and method pairs worth a
    change graph, calling the builder, and batching its graphs; and, around it, the choice
    of repositories and the walk over their commits. */
module Pipeline {
  import opened Wrappers
  import opened Text
  import opened Syntax
  import opened Visitor
  import opened Matching
  import opened Batching
  import opened Commits

  /** The metadata passed to the builder with a pair (`RepoInfo`). */
  datatype RepoInfo = RepoInfo(
    repoName: string, repoPath: string, repoUrl: string, commitHash: string,
    oldMethod: MethodView, newMethod: MethodView)

  /** One call of `changegraph.build_from_files`: the texts written to the two temporary
      files, and the metadata. */
  datatype BuildRequest = BuildRequest(oldSrc: string, newSrc: string, info: RepoInfo)

  /** The modification filter: only modifications of kind MODIFY whose old and new paths
      both end in `.py` are looked at. */
  predicate IsPythonModify(mod: Modification) {
    && mod.changeType == Modify
    && mod.oldPath.Some? && EndsWith(mod.oldPath.value, ".py")
    && mod.newPath.Some? && EndsWith(mod.newPath.value, ".py")
  }

  /** A modification is looked at exactly when it is a MODIFY and both its paths are some
      file name followed by `.py`. */
  lemma PythonModifyPaths(mod: Modification)
    ensures IsPythonModify(mod) <==>
              && mod.changeType == Modify && mod.oldPath.Some? && mod.newPath.Some?
              && (exists stem :: mod.oldPath.value == stem + ".py")
              && (exists stem :: mod.newPath.value == stem + ".py")
  {
    if mod.oldPath.Some? {
      EndsWithStem(mod.oldPath.value, ".py");
    }
    if mod.newPath.Some? {
      EndsWithStem(mod.newPath.value, ".py");
    }
  }

  /** Python's truth value of a `str` or `None`: false for `None` and for the empty string. */
  predicate Truthy(s: Option<string>) {
    s.Some? && s.value != ""
  }

  /** The pair filter: both method texts were found, neither is empty, and they differ.
      This is the negation of the skip test `not all([old, new]) or old == new`. */
  predicate WorthBuilding(oldSrc: Option<string>, newSrc: Option<string>)
    ensures WorthBuilding(oldSrc, newSrc) <==> !(!(Truthy(oldSrc) && Truthy(newSrc)) || oldSrc == newSrc)
  {
    oldSrc.Some? && newSrc.Some? && oldSrc.value != "" && newSrc.value != "" && oldSrc.value != newSrc.value
  }

  function NamesOf(ms: seq<MethodView>): (r: seq<string>)
    ensures |r| == |ms| && forall i :: 0 <= i < |ms| ==> r[i] == ms[i].fullName
  {
    seq(|ms|, i requires 0 <= i < |ms| => ms[i].fullName)
  }

  /** The builder call one matched pair leads to, if it passes the pair filter. */
  function PairRequest(commit: CommitRecord, o: MethodView, n: MethodView, segment: (string, Stmt) -> Option<string>)
    : seq<BuildRequest>
  {
    var oldSrc := segment(o.src, o.node);
    var newSrc := segment(n.src, n.node);
    if WorthBuilding(oldSrc, newSrc) then
      [BuildRequest(oldSrc.value, newSrc.value, RepoInfo(commit.repo.name, commit.repo.path, commit.repo.url, commit.hash, o, n))]
    else []
  }

  /** The builder calls for a list of matched index pairs, in order. Every call has two
      non-empty, different texts and carries the matched pair. */
  function PairRequests(commit: CommitRecord, olds: seq<MethodView>, news: seq<MethodView>, pairs: seq<(nat, nat)>,
                        segment: (string, Stmt) -> Option<string>): (r: seq<BuildRequest>)
    requires forall t :: 0 <= t < |pairs| ==> pairs[t].0 < |olds| && pairs[t].1 < |news|
    ensures forall q :: q in r ==> q.oldSrc != "" && q.newSrc != "" && q.oldSrc != q.newSrc
    ensures forall q :: q in r ==> (q.info.repoName == commit.repo.name && q.info.repoPath == commit.repo.path
                                 && q.info.repoUrl == commit.repo.url && q.info.commitHash == commit.hash)
    ensures forall q :: q in r ==> exists t :: 0 <= t < |pairs| && q.info.oldMethod == olds[pairs[t].0] && q.info.newMethod == news[pairs[t].1]
  {
    if pairs == [] then []
    else
      var p := pairs[|pairs| - 1];
      var prev := PairRequests(commit, olds, news, pairs[..|pairs| - 1], segment);
      assert forall t :: 0 <= t < |pairs| - 1 ==> pairs[..|pairs| - 1][t] == pairs[t];
      prev + PairRequest(commit, olds[p.0], news[p.1], segment)
  }

  /** The builder calls for one modification: none unless it passes the modification
      filter; otherwise one per matched method pair that passes the pair filter. */
  function ModRequests(commit: CommitRecord, mod: Modification, parse: string -> Option<Module>,
                       segment: (string, Stmt) -> Option<string>): seq<BuildRequest>
  {
    if !IsPythonModify(mod) then []
    else
      var olds := ExtractedViews(mod.oldPath.value, mod.oldSrc, parse);
      var news := ExtractedViews(mod.newPath.value, mod.newSrc, parse);
      PairRequests(commit, olds, news, MatchIndices(NamesOf(olds), NamesOf(news)), segment)
  }

  /** The builder calls for a list of modifications, in order. */
  function Requests(commit: CommitRecord, mods: seq<Modification>, parse: string -> Option<Module>,
                    segment: (string, Stmt) -> Option<string>): seq<BuildRequest>
  {
    if mods == [] then []
    else Requests(commit, mods[..|mods| - 1], parse, segment) + ModRequests(commit, mods[|mods| - 1], parse, segment)
  }

  /** All builder calls one commit leads to. */
  function CommitRequests(commit: CommitRecord, parse: string -> Option<Module>,
                          segment: (string, Stmt) -> Option<string>): seq<BuildRequest>
  {
    Requests(commit, commit.modifications, parse, segment)
  }

  /** The graphs a list of builder calls yields: one per call that succeeds, in order; a
      failed call is skipped. */
  function Built<G>(reqs: seq<BuildRequest>, build: (string, string, RepoInfo) -> Result<G, string>): seq<G> {
    if reqs == [] then []
    else
      var q := reqs[|reqs| - 1];
      Built(reqs[..|reqs| - 1], build) + match build(q.oldSrc, q.newSrc, q.info)
                                        case Ok(g) => [g]
                                        case Err(_) => []
  }

  /** Building is done call by call: the graphs of two runs of calls are the graphs of each. */
  lemma {:induction false} BuiltAppend<G>(a: seq<BuildRequest>, b: seq<BuildRequest>, build: (string, string, RepoInfo) -> Result<G, string>)
    ensures Built(a + b, build) == Built(a, build) + Built(b, build)
    decreases |b|
  {
    if b != [] {
      var n := |b| - 1;
      assert (a + b)[..|a + b| - 1] == a + b[..n];
      assert (a + b)[|a + b| - 1] == b[n];
      BuiltAppend(a, b[..n], build);
      var tail := match build(b[n].oldSrc, b[n].newSrc, b[n].info) case Ok(g) => [g] case Err(_) => [];
      assert Built(a + b, build) == Built(a + b[..n], build) + tail;
      assert Built(b, build) == Built(b[..n], build) + tail;
    } else {
      assert a + b == a;
    }
  }

  /** A failing builder call loses only its own pair: the calls before and after it still
      yield all their graphs. */
  lemma BuildFailureSkipsOnlyThatPair<G>(before: seq<BuildRequest>, q: BuildRequest, after: seq<BuildRequest>,
                                         build: (string, string, RepoInfo) -> Result<G, string>)
    requires build(q.oldSrc, q.newSrc, q.info).Err?
    ensures Built(before + [q] + after, build) == Built(before, build) + Built(after, build)
  {
    BuiltAppend(before + [q], after, build);
    assert (before + [q])[..|before|] == before;
  }

  /** Every graph comes from a builder call that returned it, and when every call raises
      there are no graphs. */
  lemma {:induction false} BuiltFromCalls<G>(reqs: seq<BuildRequest>, build: (string, string, RepoInfo) -> Result<G, string>)
    ensures forall g :: g in Built(reqs, build) ==> exists q :: q in reqs && build(q.oldSrc, q.newSrc, q.info) == Ok(g)
    ensures (forall q :: q in reqs ==> build(q.oldSrc, q.newSrc, q.info).Err?) ==> Built(reqs, build) == []
  {
    if reqs != [] {
      var n := |reqs| - 1;
      BuiltFromCalls(reqs[..n], build);
      assert forall q :: q in reqs[..n] ==> q in reqs;
    }
  }

  /** At most one graph per builder call. */
  lemma {:induction false} BuiltAtMostOnePerCall<G>(reqs: seq<BuildRequest>, build: (string, string, RepoInfo) -> Result<G, string>)
    ensures |Built(reqs, build)| <= |reqs|
  {
    if reqs != [] {
      BuiltAtMostOnePerCall(reqs[..|reqs| - 1], build);
    }
  }

  lemma PairRequestsExtend(commit: CommitRecord, olds: seq<MethodView>, news: seq<MethodView>, pairs: seq<(nat, nat)>,
                           t: nat, segment: (string, Stmt) -> Option<string>)
    requires t < |pairs| && forall u :: 0 <= u < |pairs| ==> pairs[u].0 < |olds| && pairs[u].1 < |news|
    ensures PairRequests(commit, olds, news, pairs[..t + 1], segment)
         == PairRequests(commit, olds, news, pairs[..t], segment) + PairRequest(commit, olds[pairs[t].0], news[pairs[t].1], segment)
  {
    assert pairs[..t + 1][..t] == pairs[..t];
  }

  lemma BuiltOne<G>(reqs: seq<BuildRequest>, q: seq<BuildRequest>, build: (string, string, RepoInfo) -> Result<G, string>)
    requires |q| <= 1
    ensures Built(reqs + q, build) == Built(reqs, build)
              + if q == [] then [] else match build(q[0].oldSrc, q[0].newSrc, q[0].info) case Ok(g) => [g] case Err(_) => []
  {
    if q == [] {
      assert reqs + q == reqs;
    } else {
      assert (reqs + q)[..|reqs|] == reqs;
    }
  }

  /** The body of the loop over the mapping's items, for one pair: if it passes the pair
      filter it is sent to the builder; a graph built is appended to the buffer, a failure
      is skipped. */
  method BuildPair<G>(commit: CommitRecord, oldMethod: Method, newMethod: Method, buffer: GraphBuffer<G>,
                      segment: (string, Stmt) -> Option<string>, build: (string, string, RepoInfo) -> Result<G, string>)
    requires buffer.Valid()
    modifies buffer
    ensures buffer.Valid()
    ensures Concat(buffer.stored) + buffer.graphs
         == Concat(old(buffer.stored)) + old(buffer.graphs)
            + Built(PairRequest(commit, oldMethod.View(), newMethod.View(), segment), build)
  {
    var oldSrc := oldMethod.GetSource(segment);
    var newSrc := newMethod.GetSource(segment);
    BuiltOne([], PairRequest(commit, oldMethod.View(), newMethod.View(), segment), build);
    if WorthBuilding(oldSrc, newSrc) {
      var info := RepoInfo(commit.repo.name, commit.repo.path, commit.repo.url, commit.hash, oldMethod.View(), newMethod.View());
      var result := build(oldSrc.value, newSrc.value, info);
      if result.Ok? {
        buffer.Append(result.value);
      }
    }
  }

  /** Building pair `t` of the mapping, after the pairs before it, adds the graphs of the
      `t`-th matched pair. */
  lemma PairsStep<G>(commit: CommitRecord, ov: seq<MethodView>, nv: seq<MethodView>, mi: seq<(nat, nat)>, t: nat,
                     segment: (string, Stmt) -> Option<string>, build: (string, string, RepoInfo) -> Result<G, string>,
                     start: seq<G>)
    requires t < |mi| && forall u :: 0 <= u < |mi| ==> mi[u].0 < |ov| && mi[u].1 < |nv|
    ensures start + Built(PairRequests(commit, ov, nv, mi[..t + 1], segment), build)
         == start + Built(PairRequests(commit, ov, nv, mi[..t], segment), build)
            + Built(PairRequest(commit, ov[mi[t].0], nv[mi[t].1], segment), build)
  {
    var pre, last := PairRequests(commit, ov, nv, mi[..t], segment), PairRequest(commit, ov[mi[t].0], nv[mi[t].1], segment);
    assert PairRequests(commit, ov, nv, mi[..t + 1], segment) == pre + last by {
      PairRequestsExtend(commit, ov, nv, mi, t, segment);
    }
    BuiltAppend(pre, last, build);
  }

  /** The body of the loop over the mapping's items, for its `t`-th item. */
  method BuildItem<G>(commit: CommitRecord, olds: seq<Method>, news: seq<Method>, mapping: Dict<Method, Method>,
                      ghost ov: seq<MethodView>, ghost nv: seq<MethodView>, ghost mi: seq<(nat, nat)>, t: nat,
                      buffer: GraphBuffer<G>, segment: (string, Stmt) -> Option<string>,
                      build: (string, string, RepoInfo) -> Result<G, string>)
    requires buffer.Valid() && Views(olds) == ov && Views(news) == nv
    requires t < |mi| && forall u :: 0 <= u < |mi| ==> mi[u].0 < |olds| && mi[u].1 < |news|
    requires ItemsFollow(olds, news, mapping, mi)
    modifies buffer
    ensures buffer.Valid()
    ensures Concat(buffer.stored) + buffer.graphs
         == Concat(old(buffer.stored)) + old(buffer.graphs) + Built(PairRequest(commit, ov[mi[t].0], nv[mi[t].1], segment), build)
  {
    var oldMethod := mapping.keys[t];
    var newMethod := mapping.entries[oldMethod];
    BuildPair(commit, oldMethod, newMethod, buffer, segment, build);
  }

  /** The loop over the mapping's items, in the dict's order, for the index pairs `mi`
      the items stand for. */
  method BuildPairs<G>(commit: CommitRecord, olds: seq<Method>, news: seq<Method>, mapping: Dict<Method, Method>,
                       ghost ov: seq<MethodView>, ghost nv: seq<MethodView>, ghost mi: seq<(nat, nat)>,
                       buffer: GraphBuffer<G>, segment: (string, Stmt) -> Option<string>,
                       build: (string, string, RepoInfo) -> Result<G, string>)
    requires buffer.Valid() && Views(olds) == ov && Views(news) == nv
    requires forall u :: 0 <= u < |mi| ==> mi[u].0 < |olds| && mi[u].1 < |news|
    requires ItemsFollow(olds, news, mapping, mi)
    modifies buffer
    ensures buffer.Valid()
    ensures Concat(buffer.stored) + buffer.graphs
         == Concat(old(buffer.stored)) + old(buffer.graphs) + Built(PairRequests(commit, ov, nv, mi, segment), build)
  {
    ghost var start := Concat(buffer.stored) + buffer.graphs;
    for t := 0 to |mapping.keys|
      invariant buffer.Valid()
      invariant Concat(buffer.stored) + buffer.graphs == start + Built(PairRequests(commit, ov, nv, mi[..t], segment), build)
    {
      PairsStep(commit, ov, nv, mi, t, segment, build, start);
      BuildItem(commit, olds, news, mapping, ov, nv, mi, t, buffer, segment, build);
    }
    assert mi[..|mapping.keys|] == mi;
  }

  /** The mapping's items follow the matched index pairs, whether the names are read off
      the method objects or off their values. */
  lemma MappingFollowsViews(olds: seq<Method>, news: seq<Method>, mapping: Dict<Method, Method>,
                            ov: seq<MethodView>, nv: seq<MethodView>)
    requires Views(olds) == ov && Views(news) == nv
    requires ItemsFollow(olds, news, mapping, MatchIndices(FullNames(olds), FullNames(news)))
    ensures forall u :: 0 <= u < |MatchIndices(NamesOf(ov), NamesOf(nv))| ==>
              MatchIndices(NamesOf(ov), NamesOf(nv))[u].0 < |olds| && MatchIndices(NamesOf(ov), NamesOf(nv))[u].1 < |news|
    ensures ItemsFollow(olds, news, mapping, MatchIndices(NamesOf(ov), NamesOf(nv)))
  {
    assert NamesOf(ov) == FullNames(olds);
    assert NamesOf(nv) == FullNames(news);
  }

  /** The body of the loop over a commit's modifications, for one modification: skipped
      unless it is a MODIFY of a `.py` file; otherwise the methods of both versions are
      extracted and matched, and the matched pairs are built. */
  method BuildModification<G>(commit: CommitRecord, mod: Modification, buffer: GraphBuffer<G>,
                              parse: string -> Option<Module>, segment: (string, Stmt) -> Option<string>,
                              build: (string, string, RepoInfo) -> Result<G, string>)
    requires buffer.Valid()
    modifies buffer
    ensures buffer.Valid()
    ensures Concat(buffer.stored) + buffer.graphs
         == Concat(old(buffer.stored)) + old(buffer.graphs) + Built(ModRequests(commit, mod, parse, segment), build)
  {
    if mod.changeType != Modify {
      assert ModRequests(commit, mod, parse, segment) == [];
      return;
    }
    if !(mod.oldPath.Some? && EndsWith(mod.oldPath.value, ".py") && mod.newPath.Some? && EndsWith(mod.newPath.value, ".py")) {
      assert ModRequests(commit, mod, parse, segment) == [];
      return;
    }
    ghost var ov := ExtractedViews(mod.oldPath.value, mod.oldSrc, parse);
    ghost var nv := ExtractedViews(mod.newPath.value, mod.newSrc, parse);
    assert ModRequests(commit, mod, parse, segment) == PairRequests(commit, ov, nv, MatchIndices(NamesOf(ov), NamesOf(nv)), segment);
    var olds := ExtractMethods(mod.oldPath.value, mod.oldSrc, parse);
    var news := ExtractMethods(mod.newPath.value, mod.newSrc, parse);
    var mapping := MethodsMapping(olds, news);
    MappingFollowsViews(olds, news, mapping, ov, nv);
    BuildPairs(commit, olds, news, mapping, ov, nv, MatchIndices(NamesOf(ov), NamesOf(nv)), buffer, segment, build);
  }

  /** The modifications up to `i`, then modification `i`, make the modifications up to `i + 1`. */
  lemma RequestsStep<G>(commit: CommitRecord, mods: seq<Modification>, i: nat, parse: string -> Option<Module>,
                        segment: (string, Stmt) -> Option<string>, build: (string, string, RepoInfo) -> Result<G, string>)
    requires i < |mods|
    ensures Built(Requests(commit, mods[..i + 1], parse, segment), build)
         == Built(Requests(commit, mods[..i], parse, segment), build) + Built(ModRequests(commit, mods[i], parse, segment), build)
  {
    var pre, last := Requests(commit, mods[..i], parse, segment), ModRequests(commit, mods[i], parse, segment);
    assert Requests(commit, mods[..i + 1], parse, segment) == pre + last by {
      assert mods[..i + 1][..i] == mods[..i] && mods[..i + 1][i] == mods[i];
    }
    BuiltAppend(pre, last, build);
  }

  /** `_get_commit_change_graphs`: the graphs of every builder call that succeeds, in order,
      written out in batches of `BatchSize(interval)` with a shorter last batch. */
  method GetCommitChangeGraphs<G>(commit: CommitRecord, interval: int, parse: string -> Option<Module>,
                                  segment: (string, Stmt) -> Option<string>,
                                  build: (string, string, RepoInfo) -> Result<G, string>) returns (stored: seq<seq<G>>)
    ensures Concat(stored) == Built(CommitRequests(commit, parse, segment), build)
    ensures IsBatching(stored, BatchSize(interval))
    ensures stored == CommitGraphs(commit, interval, parse, segment, build)
  {
    var buffer := new GraphBuffer<G>(interval);
    var mods := commit.modifications;
    for i := 0 to |mods|
      invariant fresh(buffer) && buffer.Valid() && buffer.interval == interval
      invariant Concat(buffer.stored) + buffer.graphs == Built(Requests(commit, mods[..i], parse, segment), build)
    {
      RequestsStep(commit, mods, i, parse, segment, build);
      BuildModification(commit, mods[i], buffer, parse, segment, build);
    }
    assert mods[..|mods|] == mods;
    buffer.Finish();
    stored := buffer.stored;
    BatchingIsChunks(stored, BatchSize(interval));
  }

  /** What a builder call carries about where it came from: a MODIFY of two `.py` paths,
      whose methods lie in those two files. */
  ghost predicate FromModification(q: BuildRequest, mod: Modification) {
    && IsPythonModify(mod)
    && q.info.oldMethod.filePath == mod.oldPath.value
    && q.info.newMethod.filePath == mod.newPath.value
  }

  /** What every builder call of a commit satisfies: two non-empty, different texts; two
      methods of the same qualified name; the commit's own metadata. */
  ghost predicate SoundRequest(commit: CommitRecord, q: BuildRequest) {
    && q.oldSrc != "" && q.newSrc != "" && q.oldSrc != q.newSrc
    && q.info.oldMethod.fullName == q.info.newMethod.fullName
    && q.info.repoName == commit.repo.name && q.info.repoPath == commit.repo.path
    && q.info.repoUrl == commit.repo.url && q.info.commitHash == commit.hash
  }

  /** The builder calls of one modification all come from it and are sound. */
  lemma ModRequestsFacts(commit: CommitRecord, mod: Modification, parse: string -> Option<Module>,
                         segment: (string, Stmt) -> Option<string>)
    ensures forall q :: q in ModRequests(commit, mod, parse, segment) ==> FromModification(q, mod) && SoundRequest(commit, q)
  {
    if IsPythonModify(mod) {
      var olds := ExtractedViews(mod.oldPath.value, mod.oldSrc, parse);
      var news := ExtractedViews(mod.newPath.value, mod.newSrc, parse);
      var mi := MatchIndices(NamesOf(olds), NamesOf(news));
      MatchedNamesAgree(NamesOf(olds), NamesOf(news));
      forall q | q in ModRequests(commit, mod, parse, segment)
        ensures FromModification(q, mod) && SoundRequest(commit, q)
      {
        var t :| 0 <= t < |mi| && q.info.oldMethod == olds[mi[t].0] && q.info.newMethod == news[mi[t].1];
        assert olds[mi[t].0] in olds && news[mi[t].1] in news;
        assert NamesOf(olds)[mi[t].0] == NamesOf(news)[mi[t].1];
      }
    }
  }

  /** Every builder call of a commit comes from one of its modifications that passes the
      modification filter, and is sound. */
  lemma {:induction false} RequestsFacts(commit: CommitRecord, mods: seq<Modification>, parse: string -> Option<Module>,
                                         segment: (string, Stmt) -> Option<string>)
    ensures forall q :: q in Requests(commit, mods, parse, segment) ==>
              SoundRequest(commit, q) && exists i :: 0 <= i < |mods| && FromModification(q, mods[i])
  {
    if mods != [] {
      var n := |mods| - 1;
      RequestsFacts(commit, mods[..n], parse, segment);
      ModRequestsFacts(commit, mods[n], parse, segment);
      forall q | q in Requests(commit, mods, parse, segment)
        ensures SoundRequest(commit, q) && exists i :: 0 <= i < |mods| && FromModification(q, mods[i])
      {
        if q in Requests(commit, mods[..n], parse, segment) {
          var i :| 0 <= i < n && FromModification(q, mods[..n][i]);
          assert mods[..n][i] == mods[i];
        } else {
          assert FromModification(q, mods[n]);
        }
      }
    }
  }

  /** A file whose module holds one function `f` yields that one method. */
  lemma OneFunctionFile(path: string, text: string, parse: string -> Option<Module>, f: Stmt)
    requires f == FunctionDef("f", 1, [Other([])]) && parse(text) == Some(Module([f]))
    ensures ExtractedViews(path, Some(text), parse) == [MethodView(path, "f", "f", f, Strip(text))]
  {
    assert [f][..0] == [];
    assert VisitBody(path, text, [f]) == VisitBody(path, text, []) + VisitStmt(path, text, f);
  }

  /** The builder calls for a single modification are that modification's calls. */
  lemma OneModification(commit: CommitRecord, mods: seq<Modification>, parse: string -> Option<Module>,
                        segment: (string, Stmt) -> Option<string>)
    requires |mods| == 1
    ensures Requests(commit, mods, parse, segment) == ModRequests(commit, mods[0], parse, segment)
  {
    assert mods[..0] == [];
  }

  /** An edit of `a.py` whose old and new module each hold one function `f` pairs the
      two versions of `f` and nothing else. */
  lemma OneFunctionEdit(commit: CommitRecord, mod: Modification, oldText: string, newText: string,
                        parse: string -> Option<Module>, segment: (string, Stmt) -> Option<string>, f: Stmt)
    requires mod == Modification(Modify, Some(oldText), Some("a.py"), Some(newText), Some("a.py"))
    requires f == FunctionDef("f", 1, [Other([])])
    requires parse(oldText) == Some(Module([f])) && parse(newText) == Some(Module([f]))
    ensures ModRequests(commit, mod, parse, segment)
         == PairRequest(commit, MethodView("a.py", "f", "f", f, Strip(oldText)), MethodView("a.py", "f", "f", f, Strip(newText)), segment)
  {
    var o, n := MethodView("a.py", "f", "f", f, Strip(oldText)), MethodView("a.py", "f", "f", f, Strip(newText));
    assert IsPythonModify(mod) by { assert "a.py"[|"a.py"| - |".py"|..] == ".py"; }
    OneFunctionFile("a.py", oldText, parse, f);
    OneFunctionFile("a.py", newText, parse, f);
    OnePairRequest(commit, o, n, segment);
  }

  /** One old and one new method of the same name are paired with each other. */
  lemma OnePairRequest(commit: CommitRecord, o: MethodView, n: MethodView, segment: (string, Stmt) -> Option<string>)
    requires o.fullName == n.fullName
    ensures PairRequests(commit, [o], [n], MatchIndices(NamesOf([o]), NamesOf([n])), segment) == PairRequest(commit, o, n, segment)
  {
    var pairs := MatchIndices(NamesOf([o]), NamesOf([n]));
    assert pairs == [(0, 0)] by {
      assert NamesOf([o]) == [o.fullName] && NamesOf([n]) == [o.fullName];
      assert [o.fullName][..0] == [];
      assert LastIndex([o.fullName], o.fullName) == 0;
      assert MatchIndices([], [o.fullName]) == [];
    }
    assert pairs[..0] == [];
  }

  /** A commit whose one modification edits `a.py`, changing the body of its one function
      `f`, leads to exactly one builder call: for the pair (`f`, `f`), with the two texts
      of `f` and the commit's metadata. */
  lemma SingleFunctionEdit(commit: CommitRecord, oldText: string, newText: string, parse: string -> Option<Module>,
                           segment: (string, Stmt) -> Option<string>)
    requires commit.modifications == [Modification(Modify, Some(oldText), Some("a.py"), Some(newText), Some("a.py"))]
    requires parse(oldText) == Some(Module([FunctionDef("f", 1, [Other([])])]))
    requires parse(newText) == Some(Module([FunctionDef("f", 1, [Other([])])]))
    requires segment(Strip(oldText), FunctionDef("f", 1, [Other([])])) == Some("def f(): return 1")
    requires segment(Strip(newText), FunctionDef("f", 1, [Other([])])) == Some("def f(): return 2")
    ensures var f := FunctionDef("f", 1, [Other([])]);
            CommitRequests(commit, parse, segment)
            == [BuildRequest("def f(): return 1", "def f(): return 2",
                             RepoInfo(commit.repo.name, commit.repo.path, commit.repo.url, commit.hash,
                                      MethodView("a.py", "f", "f", f, Strip(oldText)),
                                      MethodView("a.py", "f", "f", f, Strip(newText))))]
  {
    var f := FunctionDef("f", 1, [Other([])]);
    var o, n := MethodView("a.py", "f", "f", f, Strip(oldText)), MethodView("a.py", "f", "f", f, Strip(newText));
    OneModification(commit, commit.modifications, parse, segment);
    OneFunctionEdit(commit, commit.modifications[0], oldText, newText, parse, segment, f);
    assert "def f(): return 1" != "def f(): return 2" by { assert "def f(): return 1"[16] != "def f(): return 2"[16]; }
  }

  /** The repositories looked at: the directory entries not starting with `_`, in order. */
  function RepoNames(listing: seq<string>): (r: seq<string>)
    ensures forall n :: n in r <==> n in listing && !StartsWith(n, "_")
  {
    if listing == [] then []
    else
      var last := listing[|listing| - 1];
      RepoNames(listing[..|listing| - 1]) + if StartsWith(last, "_") then [] else [last]
  }

  /** The filter keeps the listing's order: it works entry by entry. */
  lemma {:induction false} RepoNamesAppend(a: seq<string>, b: seq<string>)
    ensures RepoNames(a + b) == RepoNames(a) + RepoNames(b)
    decreases |b|
  {
    if b == [] {
      assert a + b == a;
    } else {
      var n := |b| - 1;
      assert (a + b)[..|a + b| - 1] == a + b[..n];
      assert (a + b)[|a + b| - 1] == b[n];
      RepoNamesAppend(a, b[..n]);
    }
  }

  /** The commits `_extract_commits` returns for one repository, given what git reports
      for the repository's directory: its remote URL and its commit history. */
  function RepoCommits(name: string, reposDir: string, gitOutput: string -> string,
                       history: string -> seq<TraversedCommit>): seq<CommitRecord>
  {
    var path := PathJoin(reposDir, name);
    Materialise(history(path), RepoRef(name, path, RepoUrl(gitOutput(path))))
  }

  /** The batches stored for one commit. */
  function CommitGraphs<G>(commit: CommitRecord, interval: int, parse: string -> Option<Module>,
                           segment: (string, Stmt) -> Option<string>,
                           build: (string, string, RepoInfo) -> Result<G, string>): seq<seq<G>>
  {
    Chunks(Built(CommitRequests(commit, parse, segment), build), BatchSize(interval))
  }

  /** `pool.map(_get_commit_change_graphs, commits)`, one commit after the other: the
      batches stored for each commit. */
  method GetChangeGraphsOfCommits<G>(commits: seq<CommitRecord>, interval: int, parse: string -> Option<Module>,
                                     segment: (string, Stmt) -> Option<string>,
                                     build: (string, string, RepoInfo) -> Result<G, string>)
    returns (perCommit: seq<seq<seq<G>>>)
    ensures |perCommit| == |commits|
    ensures forall k :: 0 <= k < |commits| ==> perCommit[k] == CommitGraphs(commits[k], interval, parse, segment, build)
  {
    perCommit := [];
    for k := 0 to |commits|
      invariant |perCommit| == k
      invariant forall j :: 0 <= j < k ==> perCommit[j] == CommitGraphs(commits[j], interval, parse, segment, build)
    {
      var batches := GetCommitChangeGraphs(commits[k], interval, parse, segment, build);
      perCommit := perCommit + [batches];
    }
  }

  /** The batches stored for each commit of one repository. */
  function RepoGraphs<G>(name: string, reposDir: string, gitOutput: string -> string,
                         history: string -> seq<TraversedCommit>, interval: int,
                         parse: string -> Option<Module>, segment: (string, Stmt) -> Option<string>,
                         build: (string, string, RepoInfo) -> Result<G, string>): seq<seq<seq<G>>>
  {
    var commits := RepoCommits(name, reposDir, gitOutput, history);
    seq(|commits|, k requires 0 <= k < |commits| => CommitGraphs(commits[k], interval, parse, segment, build))
  }

  /** The body of the loop over the repositories, for one repository: its commits are
      extracted and each commit's graphs are built and stored. */
  method BuildRepoChangeGraphs<G>(name: string, reposDir: string, gitOutput: string -> string,
                                  history: string -> seq<TraversedCommit>, interval: int,
                                  parse: string -> Option<Module>, segment: (string, Stmt) -> Option<string>,
                                  build: (string, string, RepoInfo) -> Result<G, string>)
    returns (perCommit: seq<seq<seq<G>>>)
    ensures perCommit == RepoGraphs(name, reposDir, gitOutput, history, interval, parse, segment, build)
  {
    var path := PathJoin(reposDir, name);
    var commits := ExtractCommits(name, reposDir, gitOutput(path), history(path));
    perCommit := GetChangeGraphsOfCommits(commits, interval, parse, segment, build);
  }

  /** The batches stored for each commit of each repository, repository by repository. */
  function ReposGraphs<G>(names: seq<string>, reposDir: string, gitOutput: string -> string,
                          history: string -> seq<TraversedCommit>, interval: int,
                          parse: string -> Option<Module>, segment: (string, Stmt) -> Option<string>,
                          build: (string, string, RepoInfo) -> Result<G, string>): seq<seq<seq<seq<G>>>>
  {
    if names == [] then []
    else
      ReposGraphs(names[..|names| - 1], reposDir, gitOutput, history, interval, parse, segment, build)
        + [RepoGraphs(names[|names| - 1], reposDir, gitOutput, history, interval, parse, segment, build)]
  }

  lemma ReposGraphsStep<G>(names: seq<string>, r: nat, reposDir: string, gitOutput: string -> string,
                           history: string -> seq<TraversedCommit>, interval: int,
                           parse: string -> Option<Module>, segment: (string, Stmt) -> Option<string>,
                           build: (string, string, RepoInfo) -> Result<G, string>)
    requires r < |names|
    ensures ReposGraphs(names[..r + 1], reposDir, gitOutput, history, interval, parse, segment, build)
         == ReposGraphs(names[..r], reposDir, gitOutput, history, interval, parse, segment, build)
            + [RepoGraphs(names[r], reposDir, gitOutput, history, interval, parse, segment, build)]
  {
    assert names[..r + 1][..r] == names[..r];
  }

  /** The loop over the repositories, in order. */
  method BuildReposChangeGraphs<G>(names: seq<string>, reposDir: string, gitOutput: string -> string,
                                   history: string -> seq<TraversedCommit>, interval: int,
                                   parse: string -> Option<Module>, segment: (string, Stmt) -> Option<string>,
                                   build: (string, string, RepoInfo) -> Result<G, string>)
    returns (stored: seq<seq<seq<seq<G>>>>)
    ensures stored == ReposGraphs(names, reposDir, gitOutput, history, interval, parse, segment, build)
  {
    stored := [];
    for r := 0 to |names|
      invariant stored == ReposGraphs(names[..r], reposDir, gitOutput, history, interval, parse, segment, build)
    {
      var perCommit := BuildRepoChangeGraphs(names[r], reposDir, gitOutput, history, interval, parse, segment, build);
      ReposGraphsStep(names, r, reposDir, gitOutput, history, interval, parse, segment, build);
      stored := stored + [perCommit];
    }
    assert names[..|names|] == names;
  }

  /** `build_change_graphs`: every repository kept by the name filter, in the listing's
      order; the result lists the stored batches by repository and by commit. */
  method BuildChangeGraphs<G>(listing: seq<string>, reposDir: string, gitOutput: string -> string,
                              history: string -> seq<TraversedCommit>, interval: int,
                              parse: string -> Option<Module>, segment: (string, Stmt) -> Option<string>,
                              build: (string, string, RepoInfo) -> Result<G, string>)
    returns (stored: seq<seq<seq<seq<G>>>>)
    ensures stored == ReposGraphs(RepoNames(listing), reposDir, gitOutput, history, interval, parse, segment, build)
  {
    stored := BuildReposChangeGraphs(RepoNames(listing), reposDir, gitOutput, history, interval, parse, segment, build);
  }
}
