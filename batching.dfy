/**
 * Consecutive fixed-size batches, the shape of every
 * `for start in range(0, n, size): batch = items[start:min(start + size, n)]`
 * loop in the core.
 */
module Batching {
  /** The `ValueError` message of `range(0, n, 0)`, raised whatever `n` is. */
  const ZeroStep: string := "range() arg 3 must not be zero"

  function Min(a: int, b: int): int
  {
    if a <= b then a else b
  }

  function Max(a: int, b: int): int
  {
    if a >= b then a else b
  }

  /** `ceil(n / size)`, written as the source writes it: `(n + size - 1) // size`. */
  function NumBatches(n: nat, size: nat): nat
    requires size > 0
  {
    (n + size - 1) / size
  }

  /** The batches of `s`, in order, each of `size` items except possibly the last. */
  function Chunks<T>(s: seq<T>, size: nat): seq<seq<T>>
    requires size > 0
    decreases |s|
  {
    if |s| == 0 then [] else [s[..Min(size, |s|)]] + Chunks(s[Min(size, |s|)..], size)
  }

  function Flatten<T>(ss: seq<seq<T>>): seq<T>
  {
    if ss == [] then [] else ss[0] + Flatten(ss[1..])
  }

  lemma {:induction false} FlattenSnoc<T>(ss: seq<seq<T>>, x: seq<T>)
    ensures Flatten(ss + [x]) == Flatten(ss) + x
    decreases |ss|
  {
    if ss == [] {
      assert [x][1..] == [];
    } else {
      assert (ss + [x])[1..] == ss[1..] + [x];
      FlattenSnoc(ss[1..], x);
    }
  }

  lemma {:induction false} MulGap(a: int, c: int, b: nat)
    requires a > c
    ensures a * b >= c * b + b
    decreases a - c
  {
    if a == c + 1 {
      assert a * b == c * b + b;
    } else {
      MulGap(a - 1, c, b);
      assert a * b == (a - 1) * b + b;
    }
  }

  /** Euclidean division is characterised by its bracketing multiples. */
  lemma DivChar(x: int, b: nat, q: int)
    requires b > 0 && q * b <= x < q * b + b
    ensures x / b == q
  {
    var q0, r0 := x / b, x % b;
    assert x == q0 * b + r0 && 0 <= r0 < b;
    if q0 > q {
      MulGap(q0, q, b);
      assert false;
    } else if q0 < q {
      MulGap(q, q0, b);
      assert false;
    }
  }

  lemma NumBatchesOne(n: nat, size: nat)
    requires 0 < n <= size
    ensures NumBatches(n, size) == 1
  {
    DivChar(n + size - 1, size, 1);
  }

  lemma NumBatchesStep(n: nat, size: nat)
    requires 0 < size < n
    ensures NumBatches(n, size) == 1 + NumBatches(n - size, size)
  {
    var y := n - size + size - 1;
    var q := y / size;
    assert q * size <= y < q * size + size;
    assert (q + 1) * size == q * size + size;
    DivChar(y + size, size, q + 1);
  }

  /**
   * A loop whose batch starts `0, size, 2 * size, ...` stop at the first one
   * that reaches `n` has run `ceil(n / size)` times.
   */
  lemma NumBatchesOfStarts(n: nat, size: nat, k: nat)
    requires size > 0 && n <= k * size < n + size
    ensures NumBatches(n, size) == k
  {
    DivChar(n + size - 1, size, k);
  }

  /** Batch `j` exists exactly when its start `j * size` is still below `n`. */
  lemma BatchStartBelow(n: nat, size: nat, j: nat)
    requires size > 0
    ensures j * size < n <==> j < NumBatches(n, size)
  {
    var q := NumBatches(n, size);
    var x := n + size - 1;
    assert q * size <= x < q * size + size;
    if j < q {
      MulGap(q, j, size);
    } else if j > q {
      MulGap(j, q, size);
    }
  }

  /** There are `ceil(n / size)` batches. */
  lemma {:induction false} ChunksCount<T>(s: seq<T>, size: nat)
    requires size > 0
    ensures |Chunks(s, size)| == NumBatches(|s|, size)
    decreases |s|
  {
    if |s| > 0 {
      ChunksCount(s[Min(size, |s|)..], size);
      if |s| <= size {
        NumBatchesOne(|s|, size);
      } else {
        NumBatchesStep(|s|, size);
      }
    }
  }

  lemma MulPred(j: nat, size: nat)
    requires j > 0
    ensures j * size == (j - 1) * size + size
  {
  }

  /** Batch `j` is the slice `[j * size, min(j * size + size, n))`. */
  lemma {:induction false} ChunkAt<T>(s: seq<T>, size: nat, j: nat)
    requires size > 0
    requires j < |Chunks(s, size)|
    ensures j * size < |s|
    ensures Chunks(s, size)[j] == s[j * size..Min(j * size + size, |s|)]
    decreases |s|
  {
    var h := Min(size, |s|);
    var t := s[h..];
    assert Chunks(s, size) == [s[..h]] + Chunks(t, size);
    if j > 0 {
      var lo, a := j * size, (j - 1) * size;
      MulPred(j, size);
      ChunkAt(t, size, j - 1);
      assert h == size;
      assert t[a..Min(a + size, |t|)] == s[lo..Min(lo + size, |s|)];
    }
  }

  /** The batches, concatenated in order, are the input again. */
  lemma {:induction false} ChunksCover<T>(s: seq<T>, size: nat)
    requires size > 0
    ensures Flatten(Chunks(s, size)) == s
    decreases |s|
  {
    if |s| > 0 {
      ChunksCover(s[Min(size, |s|)..], size);
      assert s[..Min(size, |s|)] + s[Min(size, |s|)..] == s;
    }
  }

  /** The first `j` batches cover exactly the first `min(j * size, n)` items. */
  lemma {:induction false} ChunksPrefix<T>(s: seq<T>, size: nat, j: nat)
    requires size > 0
    requires j <= |Chunks(s, size)|
    ensures Flatten(Chunks(s, size)[..j]) == s[..Min(j * size, |s|)]
    decreases j
  {
    var cs := Chunks(s, size);
    if j == 0 {
      assert cs[..0] == [];
    } else {
      var lo := (j - 1) * size;
      ChunksPrefix(s, size, j - 1);
      ChunkAt(s, size, j - 1);
      MulPred(j, size);
      assert cs[..j] == cs[..j - 1] + [cs[j - 1]];
      FlattenSnoc(cs[..j - 1], cs[j - 1]);
      assert Flatten(cs[..j - 1]) == s[..lo];
      assert cs[j - 1] == s[lo..Min(j * size, |s|)];
      assert s[..lo] + s[lo..Min(j * size, |s|)] == s[..Min(j * size, |s|)];
    }
  }

  /** No batch is empty and none is larger than `size`. */
  lemma ChunkBounds<T>(s: seq<T>, size: nat, j: nat)
    requires size > 0
    requires j < |Chunks(s, size)|
    ensures 0 < |Chunks(s, size)[j]| <= size
  {
    ChunkAt(s, size, j);
  }

  /** Every item of a batch is an item of the input. */
  lemma ChunkWithin<T>(s: seq<T>, size: nat, j: nat)
    requires size > 0
    requires j < |Chunks(s, size)|
    ensures forall x :: x in Chunks(s, size)[j] ==> x in s
  {
    ChunkAt(s, size, j);
    var lo := j * size;
    forall x | x in Chunks(s, size)[j]
      ensures x in s
    {
      var i :| 0 <= i < |Chunks(s, size)[j]| && Chunks(s, size)[j][i] == x;
      assert s[lo + i] == x;
    }
  }
}
