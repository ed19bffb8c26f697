/** The batching loop shared by `describeGames` and `fetchPrices`: the items are cut
    into consecutive slices of `ConcurrentLimit`, each slice is run through
    `Promise.allSettled`, and the fulfilled values are pushed in the order of the
    settled array, which is the order of the slice.  The parallelism inside a slice
    and the pause between slices do not affect the result, so the loop is a
    sequential fold. */
module Batch {
  import opened Seqs

  /** `CONCURRENT_LIMIT` in both enrichment nodes. */
  const ConcurrentLimit: nat := 3

  /** One entry of the array `Promise.allSettled` resolves to. */
  datatype Settled<+R> = Fulfilled(value: R) | Rejected

  /** `results.forEach(r => if (r.status === 'fulfilled') out.push(r.value))`. */
  function KeepFulfilled<R>(rs: seq<Settled<R>>): (r: seq<R>)
    ensures |r| <= |rs|
  {
    if |rs| == 0 then []
    else (if rs[0].Fulfilled? then [rs[0].value] else []) + KeepFulfilled(rs[1..])
  }

  /** What is collected: a value exactly when some result fulfilled with it, and one
      value for each result that was not rejected. */
  lemma {:induction false} KeepFulfilledContents<R>(rs: seq<Settled<R>>)
    ensures forall v :: v in KeepFulfilled(rs) <==> Fulfilled(v) in rs
    ensures |KeepFulfilled(rs)| + multiset(rs)[Rejected] == |rs|
    decreases |rs|
  {
    if |rs| > 0 {
      KeepFulfilledContents(rs[1..]);
      assert rs == [rs[0]] + rs[1..];
    }
  }

  /** When no entry is rejected, nothing is dropped and the order is kept. */
  lemma {:induction false} KeepFulfilledAll<R>(rs: seq<Settled<R>>)
    requires forall i :: 0 <= i < |rs| ==> rs[i].Fulfilled?
    ensures |KeepFulfilled(rs)| == |rs|
    ensures forall i :: 0 <= i < |rs| ==> KeepFulfilled(rs)[i] == rs[i].value
    decreases |rs|
  {
    if |rs| > 0 {
      KeepFulfilledAll(rs[1..]);
    }
  }

  /** Collecting the fulfilled entries distributes over concatenation. */
  lemma {:induction false} KeepFulfilledAppend<R>(a: seq<Settled<R>>, b: seq<Settled<R>>)
    ensures KeepFulfilled(a + b) == KeepFulfilled(a) + KeepFulfilled(b)
    decreases |a|
  {
    if |a| == 0 {
      assert a + b == b;
    } else {
      assert (a + b)[0] == a[0];
      assert (a + b)[1..] == a[1..] + b;
      KeepFulfilledAppend(a[1..], b);
    }
  }

  /** `items.slice(i, i + ConcurrentLimit)`: the end is clamped to the length. */
  function Slice<T>(items: seq<T>, i: nat): (batch: seq<T>)
    requires i <= |items|
    ensures |batch| == if i + ConcurrentLimit <= |items| then ConcurrentLimit else |items| - i
    ensures forall k :: 0 <= k < |batch| ==> batch[k] == items[i + k]
  {
    if i + ConcurrentLimit <= |items| then items[i..i + ConcurrentLimit] else items[i..]
  }

  /** The loop `for (i = start; i < items.length; i += ConcurrentLimit)` of the
      enrichment nodes, each slice's settled results appended in turn. */
  function RunBatchesFrom<T, R>(items: seq<T>, start: nat, op: T -> Settled<R>): (r: seq<R>)
    requires start <= |items|
    ensures r == KeepFulfilled(MapSeq(items[start..], op))
    decreases |items| - start
  {
    if start == |items| then []
    else
      var batch := Slice(items, start);
      var next := start + |batch|;
      var rest := RunBatchesFrom(items, next, op);
      assert items[start..] == batch + items[next..];
      MapSeqAppend(batch, items[next..], op);
      KeepFulfilledAppend(MapSeq(batch, op), MapSeq(items[next..], op));
      KeepFulfilled(MapSeq(batch, op)) + rest
  }

  /** The whole loop, from index 0. */
  function RunBatches<T, R>(items: seq<T>, op: T -> Settled<R>): (r: seq<R>)
    ensures r == KeepFulfilled(MapSeq(items, op))
  {
    assert items[0..] == items;
    RunBatchesFrom(items, 0, op)
  }

  /** With per-item operations that never reject (each has its own `try/catch`),
      the loop is a map: one output per item, in input order. */
  lemma RunBatchesTotal<T, R>(items: seq<T>, op: T -> Settled<R>)
    requires forall x :: op(x).Fulfilled?
    ensures |RunBatches(items, op)| == |items|
    ensures forall i :: 0 <= i < |items| ==> RunBatches(items, op)[i] == op(items[i]).value
  {
    KeepFulfilledAll(MapSeq(items, op));
  }

  /** The slices the loop visits, in order; together they are the input. */
  function Slices<T>(items: seq<T>, start: nat): (cs: seq<seq<T>>)
    requires start <= |items|
    ensures Flatten(cs) == items[start..]
    ensures forall k :: 0 <= k < |cs| ==> 0 < |cs[k]| <= ConcurrentLimit
    decreases |items| - start
  {
    if start == |items| then []
    else
      var batch := Slice(items, start);
      var rest := Slices(items, start + |batch|);
      assert items[start..] == batch + items[start + |batch|..];
      [batch] + rest
  }

  /** Slice `k` starts at index `start + 3k`. */
  lemma {:induction false} SliceAt<T>(items: seq<T>, start: nat, k: nat)
    requires start <= |items|
    requires k < |Slices(items, start)|
    ensures start + k * ConcurrentLimit < |items|
    ensures Slices(items, start)[k] == Slice(items, start + k * ConcurrentLimit)
    decreases k
  {
    var batch := Slice(items, start);
    var rest := Slices(items, start + |batch|);
    assert Slices(items, start) == [batch] + rest;
    if k > 0 {
      assert |rest| > 0;
      assert start + |batch| < |items|;
      assert |batch| == ConcurrentLimit;
      assert Slices(items, start)[k] == rest[k - 1];
      SliceAt(items, start + ConcurrentLimit, k - 1);
    }
  }

  /** The loop's result is the per-slice results appended slice after slice. */
  lemma {:induction false} RunBatchesBySlice<T, R>(items: seq<T>, start: nat, op: T -> Settled<R>)
    requires start <= |items|
    ensures RunBatchesFrom(items, start, op)
            == Flatten(MapSeq(Slices(items, start), (c: seq<T>) => KeepFulfilled(MapSeq(c, op))))
    decreases |items| - start
  {
    if start < |items| {
      var batch := Slice(items, start);
      var next := start + |batch|;
      var f := (c: seq<T>) => KeepFulfilled(MapSeq(c, op));
      var rest := Slices(items, next);
      RunBatchesBySlice(items, next, op);
      assert Slices(items, start) == [batch] + rest;
      var m := MapSeq([batch] + rest, f);
      assert m[0] == f(batch);
      assert m[1..] == MapSeq(rest, f);
      assert Flatten(m) == f(batch) + Flatten(MapSeq(rest, f));
      assert RunBatchesFrom(items, start, op) == f(batch) + RunBatchesFrom(items, next, op);
    }
  }
}
