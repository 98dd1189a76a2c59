/*
 * The chunk walk of `scan_domain`: `for i in range(0, total, chunk_size)`
 * takes the slice `subdomains[i:i + chunk_size]` and reports
 * `processed = i + len(chunk)` out of `total`.
 */
module Chunking {

  function Min(a: int, b: int): int
  {
    if a <= b then a else b
  }

  /** The `processed` values reported by the chunk walk, starting at offset `i`. */
  function EndsFrom(i: nat, total: nat, size: nat): (r: seq<nat>)
    requires size > 0
    ensures forall e :: e in r ==> i < e <= total
    decreases total - i
  {
    if i >= total then [] else [Min(i + size, total)] + EndsFrom(i + size, total, size)
  }

  /** One `processed` value per chunk of a candidate list of length `total`. */
  function ChunkEnds(total: nat, size: nat): (r: seq<nat>)
    requires size > 0
    ensures forall e :: e in r ==> 0 < e <= total
  {
    EndsFrom(0, total, size)
  }

  /** The slices `s[i:i + size]`, for `i` in `range(from, len(s), size)`. */
  function ChunksFrom<T>(s: seq<T>, from: nat, size: nat): (r: seq<seq<T>>)
    requires size > 0
    decreases |s| - from
  {
    if from >= |s| then [] else [s[from..Min(from + size, |s|)]] + ChunksFrom(s, from + size, size)
  }

  function Chunks<T>(s: seq<T>, size: nat): seq<seq<T>>
    requires size > 0
  {
    ChunksFrom(s, 0, size)
  }

  function Flatten<T>(ss: seq<seq<T>>): seq<T>
  {
    if ss == [] then [] else ss[0] + Flatten(ss[1..])
  }

  /**
   * The reported values strictly increase, the last one is the total, and
   * there are exactly as many as `size`-wide steps needed to cover the rest.
   */
  lemma {:induction false} EndsFromProgress(i: nat, total: nat, size: nat)
    requires size > 0
    ensures var r := EndsFrom(i, total, size);
      && (forall k :: 0 <= k < |r| - 1 ==> r[k] < r[k + 1])
      && (i >= total <==> r == [])
      && (i < total ==> r[|r| - 1] == total)
      && (i < total ==> (|r| - 1) * size < total - i <= |r| * size)
    decreases total - i
  {
    if i < total {
      var r := EndsFrom(i, total, size);
      var rest := EndsFrom(i + size, total, size);
      EndsFromProgress(i + size, total, size);
      assert r == [Min(i + size, total)] + rest;
      if rest != [] {
        assert rest[0] in rest;
      }
      assert (|r| - 1) * size == |rest| * size;
      assert |r| * size == |rest| * size + size;
    }
  }

  lemma MulMonotone(a: int, b: int, c: nat)
    requires a <= b
    ensures a * c <= b * c
  {
    assert b * c == a * c + (b - a) * c;
  }

  lemma DivisionBySteps(k: nat, size: nat, n: nat)
    requires size > 0 && n > 0
    requires (k - 1) * size < n <= k * size
    ensures k == (n + size - 1) / size
  {
    var x := n + size - 1;
    var q, r := x / size, x % size;
    assert x == q * size + r && 0 <= r < size;
    if q < k {
      MulMonotone(q, k - 1, size);
    } else if q > k {
      MulMonotone(k + 1, q, size);
    }
  }

  /**
   * For each candidate length the walk reports `ceil(total / size)` times,
   * with strictly increasing `processed` values ending at `total`.
   */
  lemma ChunkProgress(total: nat, size: nat)
    requires size > 0
    ensures var r := ChunkEnds(total, size);
      && |r| == (total + size - 1) / size
      && (forall k :: 0 <= k < |r| - 1 ==> r[k] < r[k + 1])
      && (total > 0 ==> r[|r| - 1] == total)
  {
    EndsFromProgress(0, total, size);
    if total > 0 {
      DivisionBySteps(|ChunkEnds(total, size)|, size, total);
    }
  }

  /** A length-36 candidate list walked 10 at a time reports 10, 20, 30 and 36. */
  lemma ThirtySixByTen()
    ensures ChunkEnds(36, 10) == [10, 20, 30, 36]
  {
    assert EndsFrom(40, 36, 10) == [];
    assert EndsFrom(30, 36, 10) == [36];
    assert EndsFrom(20, 36, 10) == [30, 36];
    assert EndsFrom(10, 36, 10) == [20, 30, 36];
  }

  /**
   * Chunk `j` is the slice from its start offset up to the `j`-th reported
   * value: consecutive chunks are adjacent and non-empty, at most `size` wide.
   */
  lemma {:induction false} ChunksFromMatchEnds<T>(s: seq<T>, from: nat, size: nat)
    requires size > 0
    ensures var cs := ChunksFrom(s, from, size);
      var ends := EndsFrom(from, |s|, size);
      && |cs| == |ends|
      && (forall j :: 0 <= j < |cs| ==>
            from + j * size < ends[j] <= |s| && cs[j] == s[from + j * size..ends[j]])
      && (forall j :: 0 <= j < |cs| ==> 0 < |cs[j]| <= size)
    decreases |s| - from
  {
    if from < |s| {
      ChunksFromMatchEnds(s, from + size, size);
      var cs := ChunksFrom(s, from, size);
      var ends := EndsFrom(from, |s|, size);
      forall j | 0 <= j < |cs|
        ensures from + j * size < ends[j] <= |s| && cs[j] == s[from + j * size..ends[j]]
      {
        if j > 0 {
          assert from + j * size == (from + size) + (j - 1) * size;
        }
      }
    }
  }

  /** Concatenating the chunks gives back the candidate list. */
  lemma {:induction false} ChunksFromFlatten<T>(s: seq<T>, from: nat, size: nat)
    requires size > 0
    ensures Flatten(ChunksFrom(s, from, size)) == s[Min(from, |s|)..]
    decreases |s| - from
  {
    if from < |s| {
      ChunksFromFlatten(s, from + size, size);
      var cs := ChunksFrom(s, from, size);
      assert cs[1..] == ChunksFrom(s, from + size, size);
      var mid := Min(from + size, |s|);
      assert s[from..] == s[from..mid] + s[mid..];
    }
  }

  /**
   * The chunks partition the list in order, and the `j`-th report is
   * `i + len(chunk)` for the chunk that starts at `i = j * size`.
   */
  lemma ChunksPartition<T>(s: seq<T>, size: nat)
    requires size > 0
    ensures Flatten(Chunks(s, size)) == s
    ensures |Chunks(s, size)| == |ChunkEnds(|s|, size)|
    ensures forall j :: 0 <= j < |Chunks(s, size)| ==>
      0 < |Chunks(s, size)[j]| <= size && ChunkEnds(|s|, size)[j] == j * size + |Chunks(s, size)[j]|
  {
    ChunksFromFlatten(s, 0, size);
    ChunksFromMatchEnds(s, 0, size);
    var cs := ChunksFrom(s, 0, size);
    var ends := EndsFrom(0, |s|, size);
    forall j | 0 <= j < |cs|
      ensures 0 < |cs[j]| <= size && ends[j] == j * size + |cs[j]|
    {
      assert 0 <= j * size by { MulMonotone(0, j, size); }
      assert 0 + j * size < ends[j] <= |s| && cs[j] == s[0 + j * size..ends[j]];
    }
  }
}
