/**
 * The order `Array.prototype.sort` uses when no comparator is given and every
 * element is a string: code unit by code unit, a proper prefix first. The
 * sort is given as insertion into a sorted list, with its two defining
 * properties proved: the result is sorted and a permutation of the input.
 */
module StringOrder {

  /** `a` sorts before `b` or equals it. */
  predicate LexLe(a: string, b: string)
    decreases |a|
  {
    a == [] || (b != [] && (a[0] < b[0] || (a[0] == b[0] && LexLe(a[1..], b[1..]))))
  }

  lemma {:induction false} LexTotal(a: string, b: string)
    ensures LexLe(a, b) || LexLe(b, a)
    decreases |a|
  {
    if a != [] && b != [] && a[0] == b[0] {
      LexTotal(a[1..], b[1..]);
    }
  }

  lemma {:induction false} LexTrans(a: string, b: string, c: string)
    requires LexLe(a, b) && LexLe(b, c)
    ensures LexLe(a, c)
    decreases |a|
  {
    if a != [] && a[0] == b[0] && b[0] == c[0] {
      LexTrans(a[1..], b[1..], c[1..]);
    }
  }

  /** Neighbours are in order. */
  predicate Sorted(s: seq<string>) {
    forall i :: 0 < i < |s| ==> LexLe(s[i - 1], s[i])
  }

  /** In a sorted list every element is in order with every later one. */
  lemma {:induction false} SortedPairs(s: seq<string>, i: nat, j: nat)
    requires Sorted(s) && i <= j < |s|
    ensures LexLe(s[i], s[j])
    decreases j - i
  {
    if i == j {
      LexRefl(s[i]);
    } else {
      SortedPairs(s, i + 1, j);
      LexTrans(s[i], s[i + 1], s[j]);
    }
  }

  lemma {:induction false} LexRefl(a: string)
    ensures LexLe(a, a)
    decreases |a|
  {
    if a != [] {
      LexRefl(a[1..]);
    }
  }

  /** `x` inserted before the first element it sorts before. */
  function Insert(x: string, s: seq<string>): (r: seq<string>)
    ensures |r| == |s| + 1 && multiset(r) == multiset(s) + multiset{x}
    ensures r[0] == x || (s != [] && r[0] == s[0])
    decreases |s|
  {
    if s == [] then [x]
    else if LexLe(x, s[0]) then [x] + s
    else
      var rest := Insert(x, s[1..]);
      assert s == [s[0]] + s[1..];
      [s[0]] + rest
  }

  lemma {:induction false} InsertSorted(x: string, s: seq<string>)
    requires Sorted(s)
    ensures Sorted(Insert(x, s))
    decreases |s|
  {
    if s != [] && !LexLe(x, s[0]) {
      var rest := s[1..];
      assert Sorted(rest) by {
        forall i | 0 < i < |rest| ensures LexLe(rest[i - 1], rest[i]) {
          assert rest[i - 1] == s[i] && rest[i] == s[i + 1];
        }
      }
      InsertSorted(x, rest);
      LexTotal(x, s[0]);
      var r := Insert(x, s);
      var ir := Insert(x, rest);
      assert r == [s[0]] + ir;
      assert LexLe(s[0], ir[0]) by {
        if ir[0] != x {
          assert ir[0] == rest[0] == s[1];
        }
      }
      forall i | 0 < i < |r| ensures LexLe(r[i - 1], r[i]) {
        if i > 1 {
          assert r[i - 1] == ir[i - 2] && r[i] == ir[i - 1];
        }
      }
    }
  }

  /** `ids.sort()` on strings. */
  function Sort(s: seq<string>): (r: seq<string>)
    ensures |r| == |s|
    decreases |s|
  {
    if s == [] then [] else Insert(s[0], Sort(s[1..]))
  }

  /** The sort puts the strings in ascending order. */
  lemma {:induction false} SortSorted(s: seq<string>)
    ensures Sorted(Sort(s))
    decreases |s|
  {
    if s != [] {
      SortSorted(s[1..]);
      InsertSorted(s[0], Sort(s[1..]));
    }
  }

  /** The sort keeps each string as often as it occurs. */
  lemma {:induction false} SortPermutes(s: seq<string>)
    ensures multiset(Sort(s)) == multiset(s)
    decreases |s|
  {
    if s != [] {
      SortPermutes(s[1..]);
      assert s == [s[0]] + s[1..];
    }
  }

  /** The sort puts the strings in ascending order and keeps each one as often as it occurs. */
  lemma SortCorrect(s: seq<string>)
    ensures Sorted(Sort(s))
    ensures multiset(Sort(s)) == multiset(s)
  {
    SortSorted(s);
    SortPermutes(s);
  }
}
