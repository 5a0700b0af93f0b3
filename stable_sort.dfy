/**
 * The sort both CPU components run on a copy of their input,
 * `[...xs].sort((a, b) => key(a) - key(b))`. ECMA-262 requires
 * `Array.prototype.sort` to be stable, so for a consistent numeric comparator
 * its result is fully determined: ordered by key, equal keys in input order.
 * SortBy is one such sort (insertion from the back); SortByUnique shows that
 * every sorted, stable rearrangement of the input equals it.
 */
module StableSort {

  /** Keys in non-decreasing order. */
  ghost predicate SortedBy<T>(s: seq<T>, key: T -> real) {
    forall i, j :: 0 <= i < j < |s| ==> key(s[i]) <= key(s[j])
  }

  /** The elements of `s` whose key is `k`, in their order in `s`. */
  function WithKey<T>(s: seq<T>, key: T -> real, k: real): seq<T>
  {
    if s == [] then []
    else (if key(s[0]) == k then [s[0]] else []) + WithKey(s[1..], key, k)
  }

  /** Stability: every class of equal keys appears in the same order in both. */
  ghost predicate SameTies<T>(r: seq<T>, s: seq<T>, key: T -> real) {
    forall k :: WithKey(r, key, k) == WithKey(s, key, k)
  }

  /** Dropping the first element keeps a sequence sorted. */
  lemma SortedTail<T>(s: seq<T>, key: T -> real)
    requires SortedBy(s, key) && s != []
    ensures SortedBy(s[1..], key)
  {
    var t := s[1..];
    forall i, j | 0 <= i < j < |t| ensures key(t[i]) <= key(t[j]) {
      assert t[i] == s[i + 1] && t[j] == s[j + 1];
    }
  }

  /** Putting an element no larger than the head in front keeps a sequence sorted. */
  lemma SortedCons<T>(x: T, s: seq<T>, key: T -> real)
    requires SortedBy(s, key)
    requires s != [] ==> key(x) <= key(s[0])
    ensures SortedBy([x] + s, key)
  {
    var r := [x] + s;
    forall i, j | 0 <= i < j < |r| ensures key(r[i]) <= key(r[j]) {
      if i == 0 {
        if j > 1 { assert key(s[0]) <= key(s[j - 1]); }
      } else {
        assert r[i] == s[i - 1] && r[j] == s[j - 1];
      }
    }
  }

  /** Inserts `x` in front of the first element whose key is not smaller. */
  function Insert<T>(x: T, s: seq<T>, key: T -> real): (r: seq<T>)
    requires SortedBy(s, key)
    ensures |r| == |s| + 1
    ensures multiset(r) == multiset(s) + multiset{x}
    ensures SortedBy(r, key)
    ensures key(r[0]) == key(x) || (s != [] && key(r[0]) == key(s[0]))
  {
    if s == [] || key(x) <= key(s[0]) then
      SortedCons(x, s, key);
      [x] + s
    else
      SortedTail(s, key);
      var rest := Insert(x, s[1..], key);
      assert s == [s[0]] + s[1..];
      SortedCons(s[0], rest, key);
      [s[0]] + rest
  }

  /** Sorts by ascending key, keeping equal keys in input order. */
  function SortBy<T>(s: seq<T>, key: T -> real): (r: seq<T>)
    ensures |r| == |s|
    ensures multiset(r) == multiset(s)
    ensures SortedBy(r, key)
  {
    if s == [] then []
    else
      assert s == [s[0]] + s[1..];
      Insert(s[0], SortBy(s[1..], key), key)
  }

  /** One step of WithKey on a sequence with a known head. */
  lemma WithKeyCons<T>(h: T, t: seq<T>, key: T -> real, k: real)
    ensures WithKey([h] + t, key, k) == (if key(h) == k then [h] else []) + WithKey(t, key, k)
  {
    assert ([h] + t)[1..] == t;
  }

  lemma {:induction false} InsertTies<T>(x: T, s: seq<T>, key: T -> real, k: real)
    requires SortedBy(s, key)
    ensures WithKey(Insert(x, s, key), key, k)
         == (if key(x) == k then [x] else []) + WithKey(s, key, k)
    decreases |s|, 1
  {
    if s == [] || key(x) <= key(s[0]) {
      WithKeyCons(x, s, key, k);
    } else {
      InsertTiesBehind(x, s, key, k);
    }
  }

  /** Inserting behind the head: the head and `x` have different keys, so they never share a class. */
  lemma {:induction false} InsertTiesBehind<T>(x: T, s: seq<T>, key: T -> real, k: real)
    requires SortedBy(s, key) && s != [] && key(s[0]) < key(x)
    ensures WithKey(Insert(x, s, key), key, k)
         == (if key(x) == k then [x] else []) + WithKey(s, key, k)
    decreases |s|, 0
  {
    SortedTail(s, key);
    var rest := Insert(x, s[1..], key);
    assert Insert(x, s, key) == [s[0]] + rest;
    InsertTies(x, s[1..], key, k);
    WithKeyCons(s[0], rest, key, k);
    assert s == [s[0]] + s[1..];
    WithKeyCons(s[0], s[1..], key, k);
  }

  /** SortBy is stable. */
  lemma {:induction false} SortByStable<T>(s: seq<T>, key: T -> real)
    ensures SameTies(SortBy(s, key), s, key)
  {
    if s != [] {
      SortByStable(s[1..], key);
      forall k ensures WithKey(SortBy(s, key), key, k) == WithKey(s, key, k) {
        InsertTies(s[0], SortBy(s[1..], key), key, k);
      }
    }
  }

  /** The first element of a sorted sequence has the least key. */
  lemma {:induction false} HeadIsLeast<T>(r: seq<T>, key: T -> real, k: real)
    requires SortedBy(r, key)
    requires WithKey(r, key, k) != []
    ensures r != [] && key(r[0]) <= k
  {
    if r != [] && key(r[0]) != k {
      HeadIsLeast(r[1..], key, k);
    }
  }

  /** Sequences with the same ties are both empty or both non-empty. */
  lemma TiesEmpty<T>(r: seq<T>, q: seq<T>, key: T -> real)
    requires SameTies(r, q, key)
    ensures r == [] <==> q == []
  {
    if r != [] {
      assert WithKey(r, key, key(r[0])) != [];
      assert WithKey(q, key, key(r[0])) != [];
    }
    if q != [] {
      assert WithKey(q, key, key(q[0])) != [];
      assert WithKey(r, key, key(q[0])) != [];
    }
  }

  /** Sequences with the same first element and the same ties have tails with the same ties. */
  lemma TiesTail<T>(r: seq<T>, q: seq<T>, key: T -> real)
    requires r != [] && q != [] && r[0] == q[0]
    requires SameTies(r, q, key)
    ensures SameTies(r[1..], q[1..], key)
  {
    forall k ensures WithKey(r[1..], key, k) == WithKey(q[1..], key, k) {
      var a, b := WithKey(r[1..], key, k), WithKey(q[1..], key, k);
      var h := if key(r[0]) == k then [r[0]] else [];
      assert WithKey(r, key, k) == h + a;
      assert WithKey(q, key, k) == h + b;
      assert WithKey(r, key, k) == WithKey(q, key, k);
      assert (h + a)[|h|..] == a;
      assert (h + b)[|h|..] == b;
    }
  }

  /** The class of the head's key starts with the head. */
  lemma WithKeyHead<T>(s: seq<T>, key: T -> real)
    requires s != []
    ensures WithKey(s, key, key(s[0])) == [s[0]] + WithKey(s[1..], key, key(s[0]))
  {
  }

  /** Two sorted sequences whose classes of the two head keys agree have the same head. */
  lemma HeadsEqual<T>(r: seq<T>, q: seq<T>, key: T -> real)
    requires SortedBy(r, key) && SortedBy(q, key) && r != [] && q != []
    requires WithKey(r, key, key(r[0])) == WithKey(q, key, key(r[0]))
    requires WithKey(r, key, key(q[0])) == WithKey(q, key, key(q[0]))
    ensures r[0] == q[0]
  {
    WithKeyHead(r, key);
    WithKeyHead(q, key);
    HeadIsLeast(q, key, key(r[0]));
    HeadIsLeast(r, key, key(q[0]));
    var m := key(r[0]);
    assert key(q[0]) == m;
    assert WithKey(r, key, m)[0] == r[0];
    assert WithKey(q, key, m)[0] == q[0];
  }

  /**
   * A sorted sequence is determined by its classes of equal keys: two sorted
   * sequences with the same ties are equal.
   */
  lemma {:induction false} SortedTiesUnique<T>(r: seq<T>, q: seq<T>, key: T -> real)
    requires SortedBy(r, key) && SortedBy(q, key)
    requires SameTies(r, q, key)
    ensures r == q
  {
    TiesEmpty(r, q, key);
    if r != [] {
      assert WithKey(r, key, key(r[0])) == WithKey(q, key, key(r[0]));
      assert WithKey(r, key, key(q[0])) == WithKey(q, key, key(q[0]));
      HeadsEqual(r, q, key);
      TiesTail(r, q, key);
      SortedTail(r, key);
      SortedTail(q, key);
      SortedTiesUnique(r[1..], q[1..], key);
      assert r == [r[0]] + r[1..];
      assert q == [q[0]] + q[1..];
    }
  }

  /** Every sorted rearrangement of `s` that keeps its ties in order is SortBy(s). */
  lemma SortByUnique<T>(s: seq<T>, r: seq<T>, key: T -> real)
    requires SortedBy(r, key)
    requires SameTies(r, s, key)
    ensures r == SortBy(s, key)
  {
    SortByStable(s, key);
    SortedTiesUnique(r, SortBy(s, key), key);
  }

  /** Sorting an already sorted sequence is the identity; so sorting is idempotent. */
  lemma SortByIdempotent<T>(s: seq<T>, key: T -> real)
    ensures SortBy(SortBy(s, key), key) == SortBy(s, key)
  {
    SortByUnique(SortBy(s, key), SortBy(s, key), key);
  }

  /** Everything left out of a prefix of a sorted sequence has a key at least that of every kept element. */
  lemma PrefixDominates<T>(sorted: seq<T>, key: T -> real, t: nat)
    requires t <= |sorted| && SortedBy(sorted, key)
    ensures forall q, i :: q in multiset(sorted) - multiset(sorted[..t]) && 0 <= i < t ==>
      key(sorted[i]) <= key(q)
  {
    var kept, rest := sorted[..t], sorted[t..];
    assert sorted == kept + rest;
    assert multiset(sorted) - multiset(kept) == multiset(rest);
    forall q: T, i | q in multiset(rest) && 0 <= i < t
      ensures key(sorted[i]) <= key(q)
    {
      assert q in rest;
      var j :| 0 <= j < |rest| && rest[j] == q;
      assert sorted[t + j] == q;
    }
  }
}
