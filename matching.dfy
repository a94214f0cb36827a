/** Pairing the methods of a file before a commit with those after it, by qualified name. */
module Matching {
  import opened Visitor

  /** A Python `dict`: its entries, and its keys in the order they were first inserted,
      which is the order `items()` yields them. */
  datatype Dict<K(==), V> = Dict(keys: seq<K>, entries: map<K, V>) {
    ghost predicate Valid() {
      Distinct(keys) && entries.Keys == set k | k in keys
    }

    /** `d[k] = v`: a new key is placed after all others, an existing one keeps its place. */
    function Put(k: K, v: V): (d: Dict<K, V>)
      requires Valid()
      ensures d.Valid() && d.entries == entries[k := v]
      ensures d.keys == if k in entries then keys else keys + [k]
    {
      if k in entries then Dict(keys, entries[k := v]) else Dict(keys + [k], entries[k := v])
    }
  }

  /** The position of the last occurrence of `x` in `names`. */
  function LastIndex(names: seq<string>, x: string): (r: nat)
    requires x in names
    ensures r < |names| && names[r] == x
    ensures forall k :: r < k < |names| ==> names[k] != x
  {
    if names[|names| - 1] == x then |names| - 1 else LastIndex(names[..|names| - 1], x)
  }

  /** The mapping `_get_methods_mapping` builds, as index pairs in the order its dict
      yields them: each old position whose name occurs among the new names, in order,
      paired with the last new position carrying that name. */
  function MatchIndices(olds: seq<string>, news: seq<string>): (r: seq<(nat, nat)>)
    ensures forall t :: 0 <= t < |r| ==> r[t].0 < |olds| && r[t].1 < |news|
  {
    if olds == [] then []
    else
      var n := |olds| - 1;
      MatchIndices(olds[..n], news) + if olds[n] in news then [(n, LastIndex(news, olds[n]))] else []
  }

  /** Each pair joins an old and a new name that are equal, and no later new name is
      equal to them. */
  ghost predicate LastWins(olds: seq<string>, news: seq<string>, r: seq<(nat, nat)>)
    requires forall t :: 0 <= t < |r| ==> r[t].0 < |olds| && r[t].1 < |news|
  {
    forall t :: 0 <= t < |r| ==>
      olds[r[t].0] == news[r[t].1] && forall k :: r[t].1 < k < |news| ==> news[k] != olds[r[t].0]
  }

  /** Pairs come in strictly increasing order of their old position. */
  ghost predicate Ascending(r: seq<(nat, nat)>) {
    forall t, u :: 0 <= t < u < |r| ==> r[t].0 < r[u].0
  }

  /** Exactly the old positions whose name occurs among the new names are paired. */
  ghost predicate Covers(olds: seq<string>, news: seq<string>, r: seq<(nat, nat)>) {
    forall i :: 0 <= i < |olds| ==> (olds[i] in news <==> exists t :: 0 <= t < |r| && r[t].0 == i)
  }

  /** Every matched pair joins an old and a new method of the same name, and no later new
      method has that name: the last new method seen wins. */
  lemma {:induction false} MatchedNamesAgree(olds: seq<string>, news: seq<string>)
    ensures LastWins(olds, news, MatchIndices(olds, news))
  {
    if olds != [] {
      var n := |olds| - 1;
      MatchedNamesAgree(olds[..n], news);
      var prev := MatchIndices(olds[..n], news);
      var r := MatchIndices(olds, news);
      assert r == prev + if olds[n] in news then [(n, LastIndex(news, olds[n]))] else [];
      forall t | 0 <= t < |r|
        ensures olds[r[t].0] == news[r[t].1]
        ensures forall k :: r[t].1 < k < |news| ==> news[k] != olds[r[t].0]
      {
        if t < |prev| {
          assert r[t] == prev[t] && olds[..n][prev[t].0] == olds[prev[t].0];
        } else {
          assert r[t] == (n, LastIndex(news, olds[n]));
        }
      }
    }
  }

  /** Pairs come in the order of the old methods, each old position at most once. */
  lemma {:induction false} MatchIndicesAscending(olds: seq<string>, news: seq<string>)
    ensures Ascending(MatchIndices(olds, news))
  {
    if olds != [] {
      var n := |olds| - 1;
      MatchIndicesAscending(olds[..n], news);
      var prev := MatchIndices(olds[..n], news);
      var r := MatchIndices(olds, news);
      assert r == prev + if olds[n] in news then [(n, LastIndex(news, olds[n]))] else [];
      forall t, u | 0 <= t < u < |r|
        ensures r[t].0 < r[u].0
      {
        assert r[t] == prev[t];
        if u < |prev| {
          assert r[u] == prev[u];
        } else {
          assert r[u].0 == n;
        }
      }
    }
  }

  /** An old method is mapped if and only if some new method has its name. */
  lemma {:induction false} MatchIndicesComplete(olds: seq<string>, news: seq<string>)
    ensures Covers(olds, news, MatchIndices(olds, news))
  {
    MatchedNamesAgree(olds, news);
    if olds != [] {
      var n := |olds| - 1;
      MatchIndicesComplete(olds[..n], news);
      var prev := MatchIndices(olds[..n], news);
      var r := MatchIndices(olds, news);
      assert r == prev + if olds[n] in news then [(n, LastIndex(news, olds[n]))] else [];
      assert forall t :: 0 <= t < |prev| ==> r[t] == prev[t];
      forall i | 0 <= i < |olds| && olds[i] in news
        ensures exists t :: 0 <= t < |r| && r[t].0 == i
      {
        if i < n {
          assert olds[..n][i] == olds[i];
          var t :| 0 <= t < |prev| && prev[t].0 == i;
          assert r[t].0 == i;
        } else {
          assert r[|prev|].0 == i;
        }
      }
    }
  }

  /** The pairs of method objects that positions in `MatchIndices` stand for. */
  function MatchedKeys(olds: seq<Method>, mi: seq<(nat, nat)>): (r: seq<Method>)
    requires forall t :: 0 <= t < |mi| ==> mi[t].0 < |olds|
    ensures |r| == |mi| && forall t :: 0 <= t < |mi| ==> r[t] == olds[mi[t].0]
  {
    seq(|mi|, t requires 0 <= t < |mi| => olds[mi[t].0])
  }

  /** The dict's items, in order, are the method pairs the index pairs `mi` stand for. */
  ghost predicate ItemsFollow(olds: seq<Method>, news: seq<Method>, d: Dict<Method, Method>, mi: seq<(nat, nat)>)
    requires forall t :: 0 <= t < |mi| ==> mi[t].0 < |olds| && mi[t].1 < |news|
  {
    && d.keys == MatchedKeys(olds, mi)
    && forall t :: 0 <= t < |mi| ==> d.keys[t] in d.entries && d.entries[d.keys[t]] == news[mi[t].1]
  }

  lemma LastIndexExtend(names: seq<string>, j: nat, x: string)
    requires j < |names| && x in names[..j + 1]
    ensures LastIndex(names[..j + 1], x)
         == if names[j] == x then j else LastIndex(names[..j], x)
  {
    assert names[..j + 1][..j] == names[..j];
  }

  lemma MatchIndicesExtend(olds: seq<string>, news: seq<string>, i: nat)
    requires i < |olds|
    ensures MatchIndices(olds[..i + 1], news)
         == MatchIndices(olds[..i], news) + if olds[i] in news then [(i, LastIndex(news, olds[i]))] else []
  {
    assert olds[..i + 1][..i] == olds[..i];
  }

  /** The inner loop of `_get_methods_mapping` for one old method `o`: afterwards `o` maps
      to the last new method sharing its name, if there is one, and nothing else changed. */
  method MapOne(o: Method, news: seq<Method>, d0: Dict<Method, Method>) returns (d: Dict<Method, Method>)
    requires d0.Valid()
    ensures d.Valid()
    ensures forall x :: x != o ==> (x in d.entries <==> x in d0.entries)
    ensures forall x :: x != o && x in d0.entries ==> d.entries[x] == d0.entries[x]
    ensures o.fullName in FullNames(news) ==>
              o in d.entries && d.entries[o] == news[LastIndex(FullNames(news), o.fullName)]
              && d.keys == if o in d0.entries then d0.keys else d0.keys + [o]
    ensures o.fullName !in FullNames(news) ==> d == d0
  {
    var newNames := FullNames(news);
    d := d0;
    for j := 0 to |news|
      invariant d.Valid()
      invariant forall x :: x != o ==> (x in d.entries <==> x in d0.entries)
      invariant forall x :: x != o && x in d0.entries ==> d.entries[x] == d0.entries[x]
      invariant o.fullName in newNames[..j] ==>
                  o in d.entries && d.entries[o] == news[LastIndex(newNames[..j], o.fullName)]
                  && d.keys == if o in d0.entries then d0.keys else d0.keys + [o]
      invariant o.fullName !in newNames[..j] ==> d == d0
    {
      if o.fullName == news[j].fullName {
        d := d.Put(o, news[j]);
      }
      assert newNames[..j + 1] == newNames[..j] + [newNames[j]];
      if o.fullName in newNames[..j + 1] {
        LastIndexExtend(newNames, j, o.fullName);
      }
    }
    assert newNames[..|news|] == newNames;
  }

  /** The body of the outer loop of `_get_methods_mapping`, for old method `i`. */
  method MapStep(olds: seq<Method>, news: seq<Method>, oldNames: seq<string>, newNames: seq<string>, i: nat,
                 d0: Dict<Method, Method>) returns (d: Dict<Method, Method>)
    requires oldNames == FullNames(olds) && newNames == FullNames(news) && i < |olds|
    requires d0.Valid()
    requires forall o :: o in d0.entries <==> o in olds[..i] && o.fullName in newNames
    requires forall o :: o in d0.entries ==> d0.entries[o] == news[LastIndex(newNames, o.fullName)]
    requires Distinct(olds[..i]) ==> d0.keys == MatchedKeys(olds, MatchIndices(oldNames[..i], newNames))
    ensures d.Valid()
    ensures forall o :: o in d.entries <==> o in olds[..i + 1] && o.fullName in newNames
    ensures forall o :: o in d.entries ==> d.entries[o] == news[LastIndex(newNames, o.fullName)]
    ensures Distinct(olds[..i + 1]) ==> d.keys == MatchedKeys(olds, MatchIndices(oldNames[..i + 1], newNames))
  {
    var o := olds[i];
    d := MapOne(o, news, d0);
    assert olds[..i + 1] == olds[..i] + [o];
    EntriesStep(olds[..i], o, news, newNames, d0, d);
    if Distinct(olds[..i + 1]) {
      DistinctPrefix(olds, i);
      OrderStep(olds, oldNames, newNames, i, d0.keys, d.keys);
    }
  }

  /** The outer loop of `_get_methods_mapping`: each old method in turn is mapped to the
      last new method of its name. */
  method MapAll(olds: seq<Method>, news: seq<Method>) returns (d: Dict<Method, Method>)
    ensures d.Valid()
    ensures forall o :: o in d.entries <==> o in olds && o.fullName in FullNames(news)
    ensures forall o :: o in d.entries ==> d.entries[o] == news[LastIndex(FullNames(news), o.fullName)]
    ensures Distinct(olds) ==> d.keys == MatchedKeys(olds, MatchIndices(FullNames(olds), FullNames(news)))
  {
    var oldNames, newNames := FullNames(olds), FullNames(news);
    d := Dict([], map[]);
    for i := 0 to |olds|
      invariant d.Valid()
      invariant forall o :: o in d.entries <==> o in olds[..i] && o.fullName in newNames
      invariant forall o :: o in d.entries ==> d.entries[o] == news[LastIndex(newNames, o.fullName)]
      invariant Distinct(olds[..i]) ==> d.keys == MatchedKeys(olds, MatchIndices(oldNames[..i], newNames))
    {
      d := MapStep(olds, news, oldNames, newNames, i, d);
    }
    assert olds[..|olds|] == olds;
    assert oldNames[..|olds|] == oldNames;
  }

  /** `_get_methods_mapping`: for every old method and every new method, in order, records
      `new` as the image of `old` when their qualified names agree, so the last new method
      with the name wins. Keys are method objects, so each old method is its own key. */
  method MethodsMapping(olds: seq<Method>, news: seq<Method>) returns (d: Dict<Method, Method>)
    ensures d.Valid()
    ensures forall o :: o in d.entries <==> o in olds && o.fullName in FullNames(news)
    ensures forall o :: o in d.entries ==> d.entries[o] == news[LastIndex(FullNames(news), o.fullName)]
    ensures forall o :: o in d.entries ==> d.entries[o].fullName == o.fullName
    ensures Distinct(olds) ==> ItemsFollow(olds, news, d, MatchIndices(FullNames(olds), FullNames(news)))
  {
    d := MapAll(olds, news);
    if Distinct(olds) {
      MappingItems(olds, news, d);
    }
  }

  /** One step of the outer loop of `_get_methods_mapping`: after old method `o` the
      entries are those of the old methods so far, now with `o`. */
  lemma EntriesStep(done: seq<Method>, o: Method, news: seq<Method>, newNames: seq<string>,
                    d0: Dict<Method, Method>, d: Dict<Method, Method>)
    requires newNames == FullNames(news)
    requires forall x :: x in d0.entries <==> x in done && x.fullName in newNames
    requires forall x :: x in d0.entries ==> d0.entries[x] == news[LastIndex(newNames, x.fullName)]
    requires forall x :: x != o ==> (x in d.entries <==> x in d0.entries)
    requires forall x :: x != o && x in d0.entries ==> d.entries[x] == d0.entries[x]
    requires o.fullName in newNames ==> o in d.entries && d.entries[o] == news[LastIndex(newNames, o.fullName)]
    requires o.fullName !in newNames ==> d == d0
    ensures forall x :: x in d.entries <==> x in done + [o] && x.fullName in newNames
    ensures forall x :: x in d.entries ==> d.entries[x] == news[LastIndex(newNames, x.fullName)]
  {
  }

  /** Once the keys are in match order and each maps to the last new method of its name,
      the items are exactly the matched pairs. */
  lemma MappingItems(olds: seq<Method>, news: seq<Method>, d: Dict<Method, Method>)
    requires d.keys == MatchedKeys(olds, MatchIndices(FullNames(olds), FullNames(news)))
    requires forall o :: o in d.entries <==> o in olds && o.fullName in FullNames(news)
    requires forall o :: o in d.entries ==> d.entries[o] == news[LastIndex(FullNames(news), o.fullName)]
    ensures ItemsFollow(olds, news, d, MatchIndices(FullNames(olds), FullNames(news)))
  {
    var oldNames, newNames := FullNames(olds), FullNames(news);
    var mi := MatchIndices(oldNames, newNames);
    MatchedNamesAgree(oldNames, newNames);
    forall t | 0 <= t < |mi|
      ensures d.keys[t] in d.entries && d.entries[d.keys[t]] == news[mi[t].1]
    {
      LastIndexUnique(newNames, oldNames[mi[t].0], mi[t].1);
      assert olds[mi[t].0] in olds;
    }
  }

  /** A position holding `x` with no `x` after it is the last occurrence of `x`. */
  lemma LastIndexUnique(names: seq<string>, x: string, j: nat)
    requires j < |names| && names[j] == x
    requires forall k :: j < k < |names| ==> names[k] != x
    ensures LastIndex(names, x) == j
  {
  }

  lemma DistinctPrefix<T>(s: seq<T>, i: nat)
    requires i < |s| && Distinct(s[..i + 1])
    ensures Distinct(s[..i]) && s[i] !in s[..i]
  {
    assert s[..i + 1] == s[..i] + [s[i]];
  }

  lemma OrderStep(olds: seq<Method>, oldNames: seq<string>, newNames: seq<string>, i: nat,
                  before: seq<Method>, after: seq<Method>)
    requires |oldNames| == |olds| && i < |olds|
    requires before == MatchedKeys(olds, MatchIndices(oldNames[..i], newNames))
    requires after == if oldNames[i] in newNames then before + [olds[i]] else before
    ensures after == MatchedKeys(olds, MatchIndices(oldNames[..i + 1], newNames))
  {
    MatchIndicesExtend(oldNames, newNames, i);
  }
}
