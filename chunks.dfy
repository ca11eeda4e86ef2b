/**
 * Cutting a stream into fixed-size pieces: the analysis windows of the
 * capture loops and the `chunks_exact` frames of the speaker back ends.
 */
module Chunking {
  import opened Seqs

  /** The whole pieces of size `n`, in order (`chunks_exact(n)`). */
  function Chunks<T>(s: seq<T>, n: nat): (r: seq<seq<T>>)
    requires n > 0
    ensures forall i :: 0 <= i < |r| ==> |r[i]| == n
    decreases |s|
  {
    if |s| < n then [] else [s[..n]] + Chunks(s[n..], n)
  }

  /** The incomplete tail that `Chunks` leaves over (`chunks_exact(n).remainder()`). */
  function Rest<T>(s: seq<T>, n: nat): (r: seq<T>)
    requires n > 0
    ensures |r| < n && |r| <= |s| && r == s[|s| - |r|..]
    decreases |s|
  {
    if |s| < n then s else Rest(s[n..], n)
  }

  /** All pieces one after the other. */
  function Concat<T>(ws: seq<seq<T>>): seq<T>
    decreases |ws|
  {
    if ws == [] then [] else ws[0] + Concat(ws[1..])
  }

  /** Nothing is lost or reordered: the pieces followed by the tail are the input. */
  lemma {:induction false} ChunksThenRest<T>(s: seq<T>, n: nat)
    requires n > 0
    ensures Concat(Chunks(s, n)) + Rest(s, n) == s
    decreases |s|
  {
    if |s| >= n {
      ChunksThenRest(s[n..], n);
      var tail := Chunks(s[n..], n);
      ConsTail(s[..n], tail);
      assert Concat(Chunks(s, n)) == s[..n] + Concat(tail);
      Assoc(s[..n], Concat(tail), Rest(s[n..], n));
      PrefixSuffix(s, n);
    }
  }

  /** Piece `i` is the slice `[i * n, (i + 1) * n)` of the input. */
  lemma {:induction false} ChunkAt<T>(s: seq<T>, n: nat, i: nat)
    requires n > 0 && i < |Chunks(s, n)|
    ensures (i + 1) * n <= |s|
    ensures Chunks(s, n)[i] == s[i * n..(i + 1) * n]
    decreases i
  {
    if i > 0 {
      ChunkAt(s[n..], n, i - 1);
      assert i * n == (i - 1) * n + n;
      assert (i + 1) * n == i * n + n;
    }
  }

  /** Every piece has `n` elements, so the pieces hold `n` times their count. */
  lemma {:induction false} ConcatLength<T>(ws: seq<seq<T>>, n: nat)
    requires forall i :: 0 <= i < |ws| ==> |ws[i]| == n
    ensures |Concat(ws)| == |ws| * n
    decreases |ws|
  {
    if ws != [] {
      ConcatLength(ws[1..], n);
    }
  }

  /**
   * Feeding a stream in two parts gives the same pieces as feeding it at once:
   * the pieces of `s`, then the pieces of its tail followed by `t`.
   */
  lemma {:induction false} ChunksAppend<T>(s: seq<T>, t: seq<T>, n: nat)
    requires n > 0
    ensures Chunks(s + t, n) == Chunks(s, n) + Chunks(Rest(s, n) + t, n)
    ensures Rest(s + t, n) == Rest(Rest(s, n) + t, n)
    decreases |s|
  {
    if |s| >= n {
      assert (s + t)[..n] == s[..n];
      assert (s + t)[n..] == s[n..] + t;
      ChunksAppend(s[n..], t, n);
      Assoc([s[..n]], Chunks(s[n..], n), Chunks(Rest(s, n) + t, n));
    }
  }

  lemma {:induction false} ConcatAppend<T>(a: seq<seq<T>>, b: seq<seq<T>>)
    ensures Concat(a + b) == Concat(a) + Concat(b)
    decreases |a|
  {
    if a != [] {
      AppendTail(a, b);
      ConcatAppend(a[1..], b);
    } else {
      Assoc(b, [], []);
    }
  }

  /** A block of `k` whole pieces is cut into exactly `k` pieces with nothing left over. */
  lemma {:induction false} ChunksCount<T>(s: seq<T>, n: nat, k: nat)
    requires n > 0 && |s| == k * n
    ensures |Chunks(s, n)| == k && Rest(s, n) == []
    decreases k
  {
    if k > 0 {
      assert |s[n..]| == (k - 1) * n;
      ChunksCount(s[n..], n, k - 1);
    }
  }

  /** Appending one whole piece to whole pieces appends one piece. */
  lemma ChunksSnoc<T>(block: seq<T>, frame: seq<T>, n: nat)
    requires n > 0 && |frame| == n && Rest(block, n) == []
    ensures Chunks(block + frame, n) == Chunks(block, n) + [frame]
    ensures Rest(block + frame, n) == []
  {
    OneFrame(frame, n);
    ChunksAppend(block, frame, n);
    Assoc(frame, [], []);
  }

  /** A single piece of size `n`. */
  lemma OneFrame<T>(frame: seq<T>, n: nat)
    requires n > 0 && |frame| == n
    ensures Chunks(frame, n) == [frame] && Rest(frame, n) == []
  {
    assert frame[..n] == frame;
    assert Chunks(frame[n..], n) == [];
    Assoc([frame], [], []);
  }

  /** `chunks_exact(n)` yields `|s| / n` pieces and leaves `|s| % n` elements. */
  lemma ChunksCountDiv<T>(s: seq<T>, n: nat)
    requires n > 0
    ensures |Chunks(s, n)| == |s| / n && |Rest(s, n)| == |s| % n
  {
    ChunksThenRest(s, n);
    ConcatLength(Chunks(s, n), n);
    DivUnique(|s|, n, |Chunks(s, n)|, |Rest(s, n)|);
  }

  lemma DivUnique(m: nat, n: nat, q: nat, r: nat)
    requires n > 0 && m == q * n + r && r < n
    ensures m / n == q && m % n == r
  {
    var q2, r2 := m / n, m % n;
    assert m == q2 * n + r2 && 0 <= r2 < n;
    if q > q2 {
      MulMono(q2 + 1, q, n);
      MulSucc(q2, n);
      assert false;
    } else if q < q2 {
      MulMono(q + 1, q2, n);
      MulSucc(q, n);
      assert false;
    }
  }

  lemma {:induction false} MulMono(a: nat, b: nat, n: nat)
    requires a <= b
    ensures a * n <= b * n
    decreases b - a
  {
    if a < b {
      MulMono(a, b - 1, n);
      MulSucc(b - 1, n);
    }
  }

  lemma MulSucc(k: nat, n: nat)
    ensures (k + 1) * n == k * n + n
  {
  }

  /**
   * `f` over the `k` whole pieces of a block of `k * n` elements: element `j`
   * of the result is `f` of the piece at position `j * n`.
   */
  lemma MapChunksShape<T, U>(f: seq<T> -> U, s: seq<T>, n: nat, k: nat)
    requires n > 0 && |s| == k * n
    ensures |Map(f, Chunks(s, n))| == k
    ensures forall j: nat :: j < k ==>
      j * n + n <= |s| && Map(f, Chunks(s, n))[j] == f(s[j * n..j * n + n])
  {
    ChunksCount(s, n, k);
    forall j: nat | j < k {
      MapChunkAt(f, s, n, j);
    }
  }

  lemma MapChunkAt<T, U>(f: seq<T> -> U, s: seq<T>, n: nat, j: nat)
    requires n > 0 && j < |Chunks(s, n)|
    ensures j * n + n <= |s|
    ensures Map(f, Chunks(s, n))[j] == f(s[j * n..j * n + n])
  {
    ChunkAt(s, n, j);
    MulSucc(j, n);
  }
}
