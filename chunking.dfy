/**
 * Splitting a list into consecutive batches, as the loops
 * `for (let i = 0; i < xs.length; i += size) xs.slice(i, i + size)` do.
 */
module Chunking {

  function Min(a: int, b: int): int {
    if a <= b then a else b
  }

  /** The consecutive slices `s[i..i+size]` for i = 0, size, 2*size, ... (the last one may be shorter). */
  function Chunks<T>(s: seq<T>, size: nat): seq<seq<T>>
    requires size > 0
    decreases |s|
  {
    if s == [] then []
    else
      var n := Min(size, |s|);
      [s[..n]] + Chunks(s[n..], size)
  }

  /** Concatenation of a list of lists, in order. */
  function Flatten<T>(css: seq<seq<T>>): seq<T> {
    if css == [] then [] else css[0] + Flatten(css[1..])
  }

  /** Chunking loses nothing and reorders nothing: the batches concatenate back to the input. */
  lemma {:induction false} ChunksCover<T>(s: seq<T>, size: nat)
    requires size > 0
    ensures Flatten(Chunks(s, size)) == s
    decreases |s|
  {
    if s != [] {
      var n := Min(size, |s|);
      ChunksCover(s[n..], size);
      assert s == s[..n] + s[n..];
    }
  }

  /** Every batch is non-empty and holds at most `size` items; all but the last hold exactly `size`. */
  lemma {:induction false} ChunkSizes<T>(s: seq<T>, size: nat)
    requires size > 0
    ensures forall i :: 0 <= i < |Chunks(s, size)| ==>
      0 < |Chunks(s, size)[i]| <= size &&
      (i < |Chunks(s, size)| - 1 ==> |Chunks(s, size)[i]| == size)
    decreases |s|
  {
    if s != [] {
      var n := Min(size, |s|);
      ChunkSizes(s[n..], size);
      var cs := Chunks(s, size);
      forall i | 0 <= i < |cs|
        ensures 0 < |cs[i]| <= size && (i < |cs| - 1 ==> |cs[i]| == size)
      {
        if i > 0 {
          assert cs[i] == Chunks(s[n..], size)[i - 1];
        } else if |cs| > 1 {
          assert s[n..] != [];
        }
      }
    }
  }

  /** `size` batches fit the input exactly when the number of batches is the ceiling of |s| / size. */
  lemma {:induction false} ChunkCount<T>(s: seq<T>, size: nat)
    requires size > 0
    ensures s == [] ==> |Chunks(s, size)| == 0
    ensures s != [] ==> (|Chunks(s, size)| - 1) * size < |s| <= |Chunks(s, size)| * size
    decreases |s|
  {
    if s != [] {
      var n := Min(size, |s|);
      var c := |Chunks(s[n..], size)|;
      ChunkCount(s[n..], size);
      assert |Chunks(s, size)| == c + 1;
      assert (c + 1) * size == c * size + size;
    }
  }

  /** The same count in the form ceil(|s| / size) = (|s| + size - 1) / size. */
  lemma ChunkCountCeiling<T>(s: seq<T>, size: nat)
    requires size > 0
    ensures |Chunks(s, size)| == (|s| + size - 1) / size
  {
    ChunkCount(s, size);
    var c := |Chunks(s, size)|;
    if s == [] {
      assert (size - 1) / size == 0;
    } else {
      assert c * size <= |s| + size - 1 < c * size + size;
      DivisionBetween(|s| + size - 1, size, c);
    }
  }

  lemma DivisionBetween(x: nat, d: nat, q: nat)
    requires d > 0
    requires q * d <= x < q * d + d
    ensures x / d == q
  {
    var q2, r2 := x / d, x % d;
    assert x == q2 * d + r2 && 0 <= r2 < d;
    if q2 < q {
      assert (q - q2) * d == q * d - q2 * d;
      MulAtLeast(q - q2, d);
    } else if q2 > q {
      assert (q2 - q) * d == q2 * d - q * d;
      MulAtLeast(q2 - q, d);
    }
  }

  lemma MulAtLeast(a: int, d: int)
    requires a >= 1 && d > 0
    ensures a * d >= d
  {
  }
}
