/**
  The batching helper of the indexing utilities: `_chunker` draws consecutive
  tuples of at most `batch_size` elements from one iterator over the input and
  yields them until it draws an empty tuple.
 */
module Utils {
  import opened Sequences

  /** The default value of the `batch_size` parameter. */
  const DefaultBatchSize: nat := 50

  /** What `islice(it, n)` takes from an iterator whose remaining elements are `rest`. */
  function Take<T>(rest: seq<T>, n: nat): seq<T>
  {
    if |rest| < n then rest else rest[..n]
  }

  /**
    `batches` partitions `items` into consecutive batches of size `n`:
    they concatenate back to `items`, none is empty, and all but the last are full.
   */
  ghost predicate IsBatching<T>(batches: seq<seq<T>>, items: seq<T>, n: nat)
  {
    && Concat(batches) == items
    && (forall i :: 0 <= i < |batches| ==> 0 < |batches[i]| <= n)
    && (forall i :: 0 <= i < |batches| - 1 ==> |batches[i]| == n)
  }

  /**
    The generator `_chunker`, with the batches it yields collected in order.
    The loop mirrors the source: `pos` is the position of the shared iterator,
    and `chunk` is the tuple drawn last.
   */
  method Chunker<T>(items: seq<T>, batchSize: nat := DefaultBatchSize) returns (batches: seq<seq<T>>)
    ensures batchSize == 0 ==> batches == []
    ensures batchSize > 0 ==> Concat(batches) == items
    ensures forall i :: 0 <= i < |batches| ==> 0 < |batches[i]| <= batchSize
    ensures forall i :: 0 <= i < |batches| - 1 ==> |batches[i]| == batchSize
    ensures items == [] ==> batches == []
    ensures batchSize > 0 ==> |batches| == (|items| + batchSize - 1) / batchSize
  {
    var pos := 0;
    var chunk := Take(items[pos..], batchSize);
    pos := pos + |chunk|;
    batches := [];
    while |chunk| > 0
      invariant |chunk| <= pos <= |items|
      invariant chunk == items[pos - |chunk|..pos]
      invariant |chunk| <= batchSize
      invariant |chunk| < batchSize ==> pos == |items|
      invariant Concat(batches) == items[..pos - |chunk|]
      invariant forall i :: 0 <= i < |batches| ==> 0 < |batches[i]| <= batchSize
      invariant chunk != [] ==> forall i :: 0 <= i < |batches| ==> |batches[i]| == batchSize
      invariant forall i :: 0 <= i < |batches| - 1 ==> |batches[i]| == batchSize
      decreases |items| - pos + |chunk|
    {
      ConcatAppend(batches, [chunk]);
      ConcatSingle(chunk);
      assert items[..pos] == items[..pos - |chunk|] + chunk;
      batches := batches + [chunk];
      chunk := Take(items[pos..], batchSize);
      pos := pos + |chunk|;
    }
    assert batchSize > 0 ==> pos == |items|;
    assert items[..|items|] == items;
    if batchSize > 0 {
      BatchCount(batches, items, batchSize);
    }
  }

  /** The number of batches of a partition is the ceiling of `|items| / n`. */
  lemma {:induction false} BatchCount<T>(batches: seq<seq<T>>, items: seq<T>, n: nat)
    requires n > 0 && IsBatching(batches, items, n)
    ensures |batches| == (|items| + n - 1) / n
  {
    if batches == [] {
      assert items == [];
      DivUnique(n - 1, n, 0, n - 1);
    } else if |batches| == 1 {
      assert batches[1..] == [];
      assert Concat(batches) == batches[0] + Concat(batches[1..]);
      assert items == batches[0];
      DivUnique(|items| + n - 1, n, 1, |items| - 1);
    } else {
      var rest := items[n..];
      assert |batches[0]| == n;
      assert Concat(batches) == batches[0] + Concat(batches[1..]);
      assert Concat(batches[1..]) == rest;
      RestIsBatching(batches, items, n);
      BatchCount(batches[1..], rest, n);
      DivPlusOne(|rest| + n - 1, n);
      assert |items| + n - 1 == (|rest| + n - 1) + n;
    }
  }

  lemma DivPlusOne(x: nat, n: nat)
    requires n > 0
    ensures (x + n) / n == x / n + 1
  {
    var q, r := x / n, x % n;
    assert x + n == (q + 1) * n + r;
    DivUnique(x + n, n, q + 1, r);
  }

  lemma DivUnique(a: int, n: int, q: int, r: int)
    requires n > 0 && 0 <= r < n && a == q * n + r
    ensures a / n == q
  {
    var q', r' := a / n, a % n;
    assert (q - q') * n == r' - r;
    if q > q' {
      MulAtLeast(q - q', n);
    } else if q < q' {
      MulAtLeast(q' - q, n);
    }
  }

  lemma MulAtLeast(k: int, n: int)
    requires k >= 1 && n > 0
    ensures k * n >= n
  {
    assert k * n == (k - 1) * n + n;
  }

  /** A partition into batches of size `n` is unique: `_chunker` has only one correct answer. */
  lemma {:induction false} BatchingUnique<T>(b1: seq<seq<T>>, b2: seq<seq<T>>, items: seq<T>, n: nat)
    requires IsBatching(b1, items, n) && IsBatching(b2, items, n)
    ensures b1 == b2
  {
    if b1 == [] || b2 == [] {
      if b1 != [] { FirstBatch(b1, items, n); }
      if b2 != [] { FirstBatch(b2, items, n); }
    } else {
      FirstBatch(b1, items, n);
      FirstBatch(b2, items, n);
      var k := |b1[0]|;
      RestIsBatching(b1, items, n);
      RestIsBatching(b2, items, n);
      BatchingUnique(b1[1..], b2[1..], items[k..], n);
      assert b1 == [b1[0]] + b1[1..];
      assert b2 == [b2[0]] + b2[1..];
    }
  }

  /** The first batch of a partition is the first `min(n, |items|)` elements. */
  lemma FirstBatch<T>(batches: seq<seq<T>>, items: seq<T>, n: nat)
    requires batches != [] && IsBatching(batches, items, n)
    ensures items != []
    ensures |batches[0]| == (if |items| < n then |items| else n)
    ensures batches[0] == items[..|batches[0]|]
  {
    assert Concat(batches) == batches[0] + Concat(batches[1..]);
    if |batches| > 1 {
      assert Concat(batches[1..]) == batches[1..][0] + Concat(batches[2..]);
      assert batches[1..][0] == batches[1];
    } else {
      assert batches[1..] == [];
    }
  }

  lemma RestIsBatching<T>(batches: seq<seq<T>>, items: seq<T>, n: nat)
    requires batches != [] && IsBatching(batches, items, n)
    requires |batches[0]| <= |items|
    ensures IsBatching(batches[1..], items[|batches[0]|..], n)
  {
    assert Concat(batches) == batches[0] + Concat(batches[1..]);
    forall i | 0 <= i < |batches[1..]| ensures 0 < |batches[1..][i]| <= n {
      assert batches[1..][i] == batches[i + 1];
    }
    forall i | 0 <= i < |batches[1..]| - 1 ensures |batches[1..][i]| == n {
      assert batches[1..][i] == batches[i + 1];
    }
  }
}
