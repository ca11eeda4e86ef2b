/**
 * Facts about concatenation and slicing, stated for an arbitrary element
 * type. Used where the elements are themselves sequences (lists of windows),
 * so that the verifier never has to compare those elements one by one.
 */
module Seqs {

  lemma Assoc<T>(a: seq<T>, b: seq<T>, c: seq<T>)
    ensures (a + b) + c == a + (b + c)
    ensures a + [] == a && [] + a == a
  {
  }

  /** The head and the tail of a concatenation with a non-empty front. */
  lemma AppendTail<T>(a: seq<T>, b: seq<T>)
    requires a != []
    ensures (a + b)[0] == a[0]
    ensures (a + b)[1..] == a[1..] + b
  {
  }

  /** The head and the tail of `[x] + ws`. */
  lemma ConsTail<T>(x: T, ws: seq<T>)
    ensures ([x] + ws)[0] == x
    ensures ([x] + ws)[1..] == ws
  {
  }

  /** Taking a concatenation apart again. */
  lemma SplitAt<T>(a: seq<T>, b: seq<T>)
    ensures (a + b)[..|a|] == a
    ensures (a + b)[|a|..] == b
  {
  }

  /** A sequence is its prefix followed by its suffix. */
  lemma PrefixSuffix<T>(a: seq<T>, k: nat)
    requires k <= |a|
    ensures a[..k] + a[k..] == a
  {
  }

  /** A sequence is what comes before a position, its element there, and what comes after. */
  lemma AroundElem<T>(a: seq<T>, k: nat)
    requires k < |a|
    ensures a[..k] + [a[k]] + a[k + 1..] == a
  {
  }

  /** Dropping the last element. */
  lemma DropLastElem<T>(a: seq<T>)
    requires a != []
    ensures a[..|a| - 1] + [a[|a| - 1]] == a
  {
  }

  /** `f` applied to every element, in order (`iter().map(f).collect()`). */
  function Map<A, B>(f: A -> B, s: seq<A>): (r: seq<B>)
    ensures |r| == |s| && forall i :: 0 <= i < |s| ==> r[i] == f(s[i])
  {
    seq(|s|, i requires 0 <= i < |s| => f(s[i]))
  }

  lemma MapSnoc<A, B>(f: A -> B, s: seq<A>, x: A)
    ensures Map(f, s + [x]) == Map(f, s) + [f(x)]
  {
    assert |Map(f, s + [x])| == |Map(f, s) + [f(x)]|;
    forall i | 0 <= i < |s| + 1 ensures Map(f, s + [x])[i] == (Map(f, s) + [f(x)])[i] {
      if i < |s| {
        assert (s + [x])[i] == s[i];
      }
    }
  }
}
