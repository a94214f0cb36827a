/** Buffering change graphs and storing them in batches of a configured size. */
module Batching {

  /** The batch size the flush rule produces: every batch but the last holds this many
      graphs. The rule is `len(change_graphs) >= STORE_INTERVAL`, so a threshold below one
      stores after every append, as a threshold of one does. */
  function BatchSize(interval: int): (n: nat)
    ensures n >= 1
    ensures interval >= 1 ==> n == interval
    ensures interval < 1 ==> n == 1
  {
    if interval < 1 then 1 else interval
  }

  /** All batches joined in order. */
  function Concat<T>(bs: seq<seq<T>>): seq<T> {
    if bs == [] then [] else bs[0] + Concat(bs[1..])
  }

  /** Every batch but the last holds exactly `n` items; the last holds between 1 and `n`. */
  ghost predicate IsBatching<T>(bs: seq<seq<T>>, n: nat) {
    && (forall i :: 0 <= i < |bs| - 1 ==> |bs[i]| == n)
    && (|bs| > 0 ==> 1 <= |bs[|bs| - 1]| <= n)
  }

  /** The reference split of `s` into consecutive batches of `n`, the last one possibly shorter. */
  function Chunks<T>(s: seq<T>, n: nat): seq<seq<T>>
    requires n >= 1
    decreases |s|
  {
    if s == [] then []
    else if |s| <= n then [s]
    else [s[..n]] + Chunks(s[n..], n)
  }

  lemma ConcatAppend<T>(bs: seq<seq<T>>, b: seq<T>)
    ensures Concat(bs + [b]) == Concat(bs) + b
  {
    if bs != [] {
      assert (bs + [b])[1..] == bs[1..] + [b];
      ConcatAppend(bs[1..], b);
    }
  }

  /** Joining the chunks gives back the sequence. */
  lemma {:induction false} ChunksConcat<T>(s: seq<T>, n: nat)
    requires n >= 1
    ensures Concat(Chunks(s, n)) == s
    decreases |s|
  {
    if |s| > n {
      ChunksConcat(s[n..], n);
      assert ([s[..n]] + Chunks(s[n..], n))[1..] == Chunks(s[n..], n);
    }
  }

  /** The chunks have the batch shape. */
  lemma {:induction false} ChunksAreBatching<T>(s: seq<T>, n: nat)
    requires n >= 1
    ensures IsBatching(Chunks(s, n), n)
    decreases |s|
  {
    if |s| > n {
      ChunksAreBatching(s[n..], n);
      var rest := Chunks(s[n..], n);
      assert forall i :: 1 <= i < |rest| + 1 ==> ([s[..n]] + rest)[i] == rest[i - 1];
    }
  }

  /** The batch shape and the contents determine the batches: they are the chunks. */
  lemma {:induction false} BatchingIsChunks<T>(bs: seq<seq<T>>, n: nat)
    requires n >= 1 && IsBatching(bs, n)
    ensures bs == Chunks(Concat(bs), n)
  {
    if |bs| == 1 {
      assert bs[1..] == [] && bs[|bs| - 1] == bs[0];
      assert Concat(bs) == bs[0] + Concat(bs[1..]) == bs[0];
    } else if |bs| > 1 {
      var rest := bs[1..];
      assert forall i :: 0 <= i < |rest| - 1 ==> rest[i] == bs[i + 1];
      assert IsBatching(rest, n);
      BatchingIsChunks(rest, n);
      ConcatNonEmpty(rest);
      var s := Concat(bs);
      assert s == bs[0] + Concat(rest);
      assert |bs[0]| == n;
      assert s[..n] == bs[0] && s[n..] == Concat(rest);
    }
  }

  lemma {:induction false} ConcatNonEmpty<T>(bs: seq<seq<T>>)
    requires |bs| > 0 && |bs[|bs| - 1]| > 0
    ensures |Concat(bs)| > 0
  {
    if |bs| > 1 {
      ConcatNonEmpty(bs[1..]);
    }
  }

  /** `K` graphs in batches of `n` make `ceil(K / n)` batches. */
  lemma {:induction false} ChunksCount<T>(s: seq<T>, n: nat)
    requires n >= 1
    ensures |Chunks(s, n)| == (|s| + n - 1) / n
    decreases |s|
  {
    if s == [] {
      DivModUnique(n - 1, n, 0, n - 1);
    } else if |s| <= n {
      DivModUnique(|s| + n - 1, n, 1, |s| - 1);
    } else {
      ChunksCount(s[n..], n);
      var x := |s| - 1;
      var k, r := x / n, x % n;
      assert x == k * n + r;
      assert (k + 1) * n == k * n + n;
      DivModUnique(|s| + n - 1, n, k + 1, r);
    }
  }

  lemma MulMonotonic(a: int, b: int, n: nat)
    requires a <= b
    ensures a * n <= b * n
  {
    assert b * n - a * n == (b - a) * n;
  }

  /** Euclidean division has one quotient and one remainder. */
  lemma DivModUnique(x: int, n: nat, q: int, r: int)
    requires n >= 1 && 0 <= r < n && x == q * n + r
    ensures x / n == q && x % n == r
  {
    var q', r' := x / n, x % n;
    assert x == q' * n + r';
    assert (q + 1) * n == q * n + n;
    assert (q' + 1) * n == q' * n + n;
    if q' > q {
      MulMonotonic(q + 1, q', n);
    } else if q' < q {
      MulMonotonic(q' + 1, q, n);
    }
  }

  /** The last batch holds `K mod n` graphs, or `n` when `n` divides `K`. */
  lemma {:induction false} ChunksLast<T>(s: seq<T>, n: nat)
    requires n >= 1 && s != []
    ensures |Chunks(s, n)| > 0
    ensures |Chunks(s, n)[|Chunks(s, n)| - 1]| == if |s| % n == 0 then n else |s| % n
    decreases |s|
  {
    if |s| == n {
      DivModUnique(|s|, n, 1, 0);
    } else if |s| < n {
      DivModUnique(|s|, n, 0, |s|);
    } else {
      ChunksLast(s[n..], n);
      var x := |s| - n;
      var q, r := x / n, x % n;
      assert x == q * n + r;
      assert (q + 1) * n == q * n + n;
      DivModUnique(|s|, n, q + 1, r);
      var rest := Chunks(s[n..], n);
      assert ([s[..n]] + rest)[|rest|] == rest[|rest| - 1];
    }
  }

  /** The list `change_graphs` of one call together with the batches written so far. */
  class GraphBuffer<G> {
    var graphs: seq<G>
    var stored: seq<seq<G>>
    const interval: int

    /** Between appends the list is shorter than a batch, and every stored batch is full. */
    ghost predicate Valid()
      reads this
    {
      |graphs| < BatchSize(interval) && forall i :: 0 <= i < |stored| ==> |stored[i]| == BatchSize(interval)
    }

    constructor (interval: int)
      ensures Valid() && this.interval == interval && graphs == [] && stored == []
    {
      graphs := [];
      stored := [];
      this.interval := interval;
    }

    /** `_store_change_graphs`: writes one batch; written batches are kept in order. */
    method Store(batch: seq<G>)
      modifies this`stored
      ensures stored == old(stored) + [batch]
    {
      stored := stored + [batch];
    }

    /** `change_graphs.append(cg)`, then storing and clearing the list once it has
        reached the threshold. */
    method Append(g: G)
      requires Valid()
      modifies this
      ensures Valid()
      ensures Concat(stored) + graphs == Concat(old(stored)) + old(graphs) + [g]
      ensures |old(graphs)| + 1 >= interval ==> stored == old(stored) + [old(graphs) + [g]] && graphs == []
      ensures |old(graphs)| + 1 < interval ==> stored == old(stored) && graphs == old(graphs) + [g]
    {
      graphs := graphs + [g];
      if |graphs| >= interval {
        Store(graphs);
        ConcatAppend(old(stored), graphs);
        graphs := [];
      }
    }

    /** The end of the commit: a non-empty remainder is stored as a last, shorter batch.
        Afterwards every graph ever appended is in a stored batch. */
    method Finish()
      requires Valid()
      modifies this`stored
      ensures stored == old(stored) + if graphs == [] then [] else [graphs]
      ensures Concat(stored) == Concat(old(stored)) + graphs
      ensures IsBatching(stored, BatchSize(interval))
    {
      if graphs != [] {
        Store(graphs);
        ConcatAppend(old(stored), graphs);
      }
    }
  }
}
