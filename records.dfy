/**
 * The stored conversation record and the list operations both storage layers
 * of the front end use on their loaded arrays: `findIndex`, `find`, the
 * `filter` that deletes by id, and the update that assigns at the found
 * index or pushes at the end. A record's id is read with a key function, so
 * the same operations serve conversations and providers.
 */
module Records {
  import opened Wrappers
  import opened Seqs

  datatype ChatMessage = ChatMessage(id: string, role: string, content: string, timestamp: int)

  datatype Conversation = Conversation(id: string, title: string, messages: seq<ChatMessage>, createdAt: int, updatedAt: int)

  function ConversationId(c: Conversation): string {
    c.id
  }

  /** `xs.findIndex(x => key(x) === k)`: the first index with key `k`, -1 when there is none. */
  function FindIndex<T, K(==)>(xs: seq<T>, key: T -> K, k: K): (r: int)
    ensures -1 <= r < |xs|
    ensures r >= 0 ==> key(xs[r]) == k && forall j :: 0 <= j < r ==> key(xs[j]) != k
    ensures r < 0 <==> forall j :: 0 <= j < |xs| ==> key(xs[j]) != k
    decreases |xs|
  {
    if xs == [] then -1
    else if key(xs[0]) == k then 0
    else
      var i := FindIndex(xs[1..], key, k);
      assert forall j :: 0 < j < |xs| ==> xs[j] == xs[1..][j - 1];
      if i < 0 then -1 else i + 1
  }

  /** `xs.find(x => key(x) === k) || null`: the first record with key `k` (records are objects, never falsy). */
  function Find<T, K(==)>(xs: seq<T>, key: T -> K, k: K): (r: Option<T>)
    ensures r.None? <==> forall j :: 0 <= j < |xs| ==> key(xs[j]) != k
    ensures r.Some? ==> r.value == xs[FindIndex(xs, key, k)] && key(r.value) == k
  {
    var i := FindIndex(xs, key, k);
    if i >= 0 then Some(xs[i]) else None
  }

  /** `xs.filter(x => key(x) !== k)`. */
  function Without<T, K(==)>(xs: seq<T>, key: T -> K, k: K): (r: seq<T>)
    ensures |r| <= |xs|
    ensures forall j :: 0 <= j < |r| ==> r[j] in xs && key(r[j]) != k
    ensures forall j :: 0 <= j < |xs| && key(xs[j]) != k ==> xs[j] in r
    decreases |xs|
  {
    if xs == [] then []
    else
      var rest := Without(xs[1..], key, k);
      assert forall j :: 0 < j < |xs| ==> xs[j] == xs[1..][j - 1];
      if key(xs[0]) == k then rest else [xs[0]] + rest
  }

  /**
   * The filter works element by element: deleting from a concatenation
   * deletes from both halves, so the records that stay keep their order.
   */
  lemma {:induction false} WithoutAppend<T, K>(a: seq<T>, b: seq<T>, key: T -> K, k: K)
    ensures Without(a + b, key, k) == Without(a, key, k) + Without(b, key, k)
    decreases |a|
  {
    if a != [] {
      WithoutAppend(a[1..], b, key, k);
      AppendTail(a, b);
      Assoc([a[0]], Without(a[1..], key, k), Without(b, key, k));
    } else {
      Assoc(b, [], []);
      Assoc(Without(b, key, k), [], []);
    }
  }

  /** Nothing is removed exactly when no record has the key. */
  lemma {:induction false} WithoutSameLength<T, K>(xs: seq<T>, key: T -> K, k: K)
    ensures |Without(xs, key, k)| == |xs| <==> forall j :: 0 <= j < |xs| ==> key(xs[j]) != k
    ensures (forall j :: 0 <= j < |xs| ==> key(xs[j]) != k) ==> Without(xs, key, k) == xs
    decreases |xs|
  {
    if xs != [] {
      WithoutSameLength(xs[1..], key, k);
      assert forall j :: 0 < j < |xs| ==> xs[j] == xs[1..][j - 1];
      assert xs == [xs[0]] + xs[1..];
    }
  }

  /** The filter keeps every record whose key differs as often as it occurs, and no other record. */
  lemma {:induction false} WithoutCounts<T, K>(xs: seq<T>, key: T -> K, k: K)
    ensures forall x :: multiset(Without(xs, key, k))[x] == if key(x) != k then multiset(xs)[x] else 0
    decreases |xs|
  {
    if xs != [] {
      WithoutCounts(xs[1..], key, k);
      assert xs == [xs[0]] + xs[1..];
      assert multiset(xs) == multiset{xs[0]} + multiset(xs[1..]);
    }
  }

  /** An index holding the key with no earlier one holding it is the one `findIndex` returns. */
  lemma FirstIndex<T, K>(xs: seq<T>, key: T -> K, k: K, i: nat)
    requires i < |xs| && key(xs[i]) == k
    requires forall j :: 0 <= j < i ==> key(xs[j]) != k
    ensures FindIndex(xs, key, k) == i
  {
  }

  /** No two records share a key. */
  predicate UniqueKeys<T, K(==)>(xs: seq<T>, key: T -> K) {
    forall i, j :: 0 <= i < j < |xs| ==> key(xs[i]) != key(xs[j])
  }

  /**
   * The list after the update below, as a value: the record takes the place
   * of the first one with its key, or goes at the end when none has it.
   */
  function Upsert<T, K(==)>(xs: seq<T>, x: T, key: T -> K): (r: seq<T>)
    ensures FindIndex(xs, key, key(x)) >= 0 ==>
      var i := FindIndex(xs, key, key(x));
      |r| == |xs| && r[i] == x && forall j :: 0 <= j < |xs| && j != i ==> r[j] == xs[j]
    ensures FindIndex(xs, key, key(x)) < 0 ==> r == xs + [x]
  {
    var i := FindIndex(xs, key, key(x));
    if i >= 0 then xs[i := x] else xs + [x]
  }

  /**
   * The update `addCustomProvider`, `addSpeechProvider` and the history's
   * `saveConversation` share: the record replaces the first one with its key
   * at the same index, or is pushed at the end. Afterwards `find` returns
   * it, and keys stay unique.
   */
  method Put<T, K(==)>(xs: seq<T>, x: T, key: T -> K) returns (r: seq<T>)
    ensures FindIndex(xs, key, key(x)) >= 0 ==>
      var i := FindIndex(xs, key, key(x));
      |r| == |xs| && r[i] == x && forall j :: 0 <= j < |xs| && j != i ==> r[j] == xs[j]
    ensures FindIndex(xs, key, key(x)) < 0 ==> r == xs + [x]
    ensures r == Upsert(xs, x, key)
    ensures Find(r, key, key(x)) == Some(x)
    ensures UniqueKeys(xs, key) ==> UniqueKeys(r, key)
  {
    var i := FindIndex(xs, key, key(x));
    r := xs;
    if i >= 0 {
      r := r[i := x];
      forall j | 0 <= j < i ensures key(r[j]) != key(x) {
        assert r[j] == xs[j];
      }
      FirstIndex(r, key, key(x), i);
    } else {
      r := r + [x];
      forall j | 0 <= j < |xs| ensures key(r[j]) != key(x) {
        assert r[j] == xs[j];
      }
      FirstIndex(r, key, key(x), |xs|);
    }
  }
}
