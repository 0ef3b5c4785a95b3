/**
 * The batching discipline of the upload loop in `ESPipeline.run`: items are
 * appended to a buffer that is flushed each time its length reaches the
 * batch size, and the buffer is flushed once more, unconditionally, when the
 * input is exhausted. A size below 1 never equals a buffer length after an
 * append, so then only the final flush happens.
 */
module Batching {

  /** The batches flushed inside the loop: consecutive runs of exactly `size` items. */
  function FullChunks<T>(xs: seq<T>, size: int): seq<seq<T>>
    decreases |xs|
  {
    if size < 1 || |xs| < size then [] else [xs[..size]] + FullChunks(xs[size..], size)
  }

  /** What the buffer holds once `xs` has gone through the loop. */
  function Remainder<T>(xs: seq<T>, size: int): seq<T>
    decreases |xs|
  {
    if size < 1 || |xs| < size then xs else Remainder(xs[size..], size)
  }

  /** Every batch handed to the bulk helper, in order, the final flush last. */
  function Batches<T>(xs: seq<T>, size: int): seq<seq<T>>
  {
    FullChunks(xs, size) + [Remainder(xs, size)]
  }

  function Flatten<T>(bs: seq<seq<T>>): seq<T>
  {
    if bs == [] then [] else bs[0] + Flatten(bs[1..])
  }

  /** The sum of the success counts `count` reports for each batch. */
  function SumOver<T>(count: seq<T> -> nat, bs: seq<seq<T>>): nat
  {
    if bs == [] then 0 else SumOver(count, bs[..|bs| - 1]) + count(bs[|bs| - 1])
  }

  lemma {:induction false} FlattenAppend<T>(bs: seq<seq<T>>, b: seq<T>)
    ensures Flatten(bs + [b]) == Flatten(bs) + b
  {
    if bs == [] {
      assert [] + [b] == [b];
    } else {
      assert (bs + [b])[1..] == bs[1..] + [b];
      FlattenAppend(bs[1..], b);
    }
  }

  /**
   * Appending one item to the input: when the buffer becomes full it is
   * flushed as one more full chunk and emptied; otherwise the item joins
   * the buffer and no chunk is added.
   */
  lemma {:induction false} AppendStep<T>(xs: seq<T>, x: T, size: int)
    ensures size >= 1 && |Remainder(xs, size)| + 1 == size ==>
      FullChunks(xs + [x], size) == FullChunks(xs, size) + [Remainder(xs, size) + [x]]
      && Remainder(xs + [x], size) == []
    ensures !(size >= 1 && |Remainder(xs, size)| + 1 == size) ==>
      FullChunks(xs + [x], size) == FullChunks(xs, size)
      && Remainder(xs + [x], size) == Remainder(xs, size) + [x]
    decreases |xs|
  {
    var ys := xs + [x];
    if size < 1 {
    } else if |xs| < size {
      if |xs| + 1 == size {
        assert ys[..size] == ys;
        assert ys[size..] == [];
      }
    } else {
      assert ys[..size] == xs[..size];
      assert ys[size..] == xs[size..] + [x];
      AppendStep(xs[size..], x, size);
    }
  }

  /** The full chunks followed by the buffer are the input, in order. */
  lemma {:induction false} ChunksThenRemainder<T>(xs: seq<T>, size: int)
    ensures Flatten(FullChunks(xs, size)) + Remainder(xs, size) == xs
    decreases |xs|
  {
    if size < 1 || |xs| < size {
    } else {
      ChunksThenRemainder(xs[size..], size);
      assert xs == xs[..size] + xs[size..];
    }
  }

  /** Concatenating every batch sent gives back all items in input order. */
  lemma FlattenBatches<T>(xs: seq<T>, size: int)
    ensures Flatten(Batches(xs, size)) == xs
  {
    FlattenAppend(FullChunks(xs, size), Remainder(xs, size));
    ChunksThenRemainder(xs, size);
  }

  /** Removing one divisor's worth from `n` lowers the quotient by one and keeps the remainder. */
  lemma DivModStep(n: int, d: int)
    requires 1 <= d <= n
    ensures n / d == (n - d) / d + 1
    ensures n % d == (n - d) % d
  {
    var q, r := (n - d) / d, (n - d) % d;
    assert n == (q + 1) * d + r;
    DivModUnique(n, d, q + 1, r);
  }

  /** Euclidean division has one quotient and one remainder. */
  lemma DivModUnique(n: int, d: int, q: int, r: int)
    requires d >= 1 && 0 <= r < d && n == q * d + r
    ensures n / d == q && n % d == r
  {
    var q', r' := n / d, n % d;
    assert q' * d + r' == q * d + r;
    if q > q' {
      assert (q - q') * d == q * d - q' * d;
      MulAtLeast(q - q', d);
    } else if q < q' {
      assert (q' - q) * d == q' * d - q * d;
      MulAtLeast(q' - q, d);
    }
  }

  lemma MulAtLeast(k: int, d: int)
    requires k >= 1 && d >= 0
    ensures k * d >= d
  {
    if k > 1 {
      MulAtLeast(k - 1, d);
      assert k * d == (k - 1) * d + d;
    }
  }

  /** Each full chunk holds exactly `size` items, and there are `|xs| / size` of them. */
  lemma {:induction false} FullChunkShape<T>(xs: seq<T>, size: int)
    requires size >= 1
    ensures |FullChunks(xs, size)| == |xs| / size
    ensures forall k :: 0 <= k < |FullChunks(xs, size)| ==> |FullChunks(xs, size)[k]| == size
    decreases |xs|
  {
    if |xs| >= size {
      FullChunkShape(xs[size..], size);
      DivModStep(|xs|, size);
    }
  }

  /** The buffer left for the final flush holds `|xs| mod size` items: fewer than `size`, possibly none. */
  lemma {:induction false} RemainderShape<T>(xs: seq<T>, size: int)
    requires size >= 1
    ensures |Remainder(xs, size)| == |xs| % size
    ensures |Remainder(xs, size)| < size
    decreases |xs|
  {
    if |xs| >= size {
      RemainderShape(xs[size..], size);
      DivModStep(|xs|, size);
    }
  }

  /**
   * For a size of at least 1 there are `|xs| / size + 1` batches: every one
   * but the last has exactly `size` items and the last has `|xs| mod size`.
   */
  lemma BatchShape<T>(xs: seq<T>, size: int)
    requires size >= 1
    ensures |Batches(xs, size)| == |xs| / size + 1
    ensures forall k :: 0 <= k < |Batches(xs, size)| - 1 ==> |Batches(xs, size)[k]| == size
    ensures |Batches(xs, size)[|Batches(xs, size)| - 1]| == |xs| % size
  {
    FullChunkShape(xs, size);
    RemainderShape(xs, size);
    var bs := Batches(xs, size);
    forall k | 0 <= k < |bs| - 1 ensures |bs[k]| == size {
      assert bs[k] == FullChunks(xs, size)[k];
    }
  }

  /** A size below 1 makes the final flush the only batch, holding everything. */
  lemma SingleBatchWhenSizeBelowOne<T>(xs: seq<T>, size: int)
    requires size < 1
    ensures Batches(xs, size) == [xs]
  {
  }

  /** If no batch reports more successes than it has items, the sum is at most the number of items. */
  lemma {:induction false} SumOverBounded<T>(count: seq<T> -> nat, bs: seq<seq<T>>)
    requires forall b :: count(b) <= |b|
    ensures SumOver(count, bs) <= |Flatten(bs)|
  {
    if bs != [] {
      var init := bs[..|bs| - 1];
      SumOverBounded(count, init);
      assert bs == init + [bs[|bs| - 1]];
      FlattenAppend(init, bs[|bs| - 1]);
    }
  }
}
