/** sorted(items, key=...): the stable sort of Python and of ORDER BY on a unique column. */
module Sorting {

  /** Puts `x` behind every element whose key is no greater. */
  function InsertBy<T>(key: T -> int, s: seq<T>, x: T): seq<T> {
    if s == [] then [x]
    else
      var last := |s| - 1;
      if key(s[last]) <= key(x) then s + [x] else InsertBy(key, s[..last], x) + [s[last]]
  }

  function SortBy<T>(key: T -> int, s: seq<T>): seq<T> {
    if s == [] then [] else InsertBy(key, SortBy(key, s[..|s| - 1]), s[|s| - 1])
  }

  predicate SortedBy<T>(key: T -> int, s: seq<T>) {
    forall i, j | 0 <= i < j < |s| :: key(s[i]) <= key(s[j])
  }

  lemma {:induction false} InsertAdds<T>(key: T -> int, s: seq<T>, x: T)
    ensures multiset(InsertBy(key, s, x)) == multiset(s) + multiset{x}
  {
    if s != [] {
      var last := |s| - 1;
      assert s == s[..last] + [s[last]];
      InsertAdds(key, s[..last], x);
    }
  }

  lemma {:induction false} InsertBounded<T>(key: T -> int, s: seq<T>, x: T, bound: int)
    requires key(x) <= bound && forall i | 0 <= i < |s| :: key(s[i]) <= bound
    ensures forall i | 0 <= i < |InsertBy(key, s, x)| :: key(InsertBy(key, s, x)[i]) <= bound
  {
    if s != [] && key(s[|s| - 1]) > key(x) {
      InsertBounded(key, s[..|s| - 1], x, bound);
    }
  }

  lemma {:induction false} InsertKeepsOrder<T>(key: T -> int, s: seq<T>, x: T)
    requires SortedBy(key, s)
    ensures SortedBy(key, InsertBy(key, s, x))
  {
    if s != [] && key(s[|s| - 1]) > key(x) {
      InsertKeepsOrder(key, s[..|s| - 1], x);
      InsertBounded(key, s[..|s| - 1], x, key(s[|s| - 1]));
    }
  }

  lemma {:induction false} SortSorts<T>(key: T -> int, s: seq<T>)
    ensures SortedBy(key, SortBy(key, s))
    ensures multiset(SortBy(key, s)) == multiset(s)
    ensures |SortBy(key, s)| == |s|
  {
    if s != [] {
      var last := |s| - 1;
      assert s == s[..last] + [s[last]];
      SortSorts(key, s[..last]);
      InsertKeepsOrder(key, SortBy(key, s[..last]), s[last]);
      InsertAdds(key, SortBy(key, s[..last]), s[last]);
    }
    assert |SortBy(key, s)| == |multiset(SortBy(key, s))| == |multiset(s)| == |s|;
  }

  lemma {:induction false} SortedStays<T>(key: T -> int, s: seq<T>)
    requires SortedBy(key, s)
    ensures SortBy(key, s) == s
  {
    if s != [] {
      var last := |s| - 1;
      assert s == s[..last] + [s[last]];
      SortedStays(key, s[..last]);
    }
  }

  // ---------------------------------------------------------------- distinct keys

  predicate DistinctKeys<T, K(==)>(key: T -> K, s: seq<T>) {
    forall i, j | 0 <= i < j < |s| :: key(s[i]) != key(s[j])
  }

  lemma TwiceInMultiset<T>(s: seq<T>, i: nat, j: nat)
    requires i < j < |s| && s[i] == s[j]
    ensures multiset(s)[s[i]] >= 2
  {
    assert s == s[..j] + s[j..];
    assert s[..j][i] == s[i] && s[j..][0] == s[i];
    assert s[i] in multiset(s[..j]) && s[i] in multiset(s[j..]);
  }

  lemma OnceInMultiset<T, K>(key: T -> K, s: seq<T>, i: nat)
    requires DistinctKeys(key, s) && i < |s|
    ensures multiset(s)[s[i]] == 1
  {
    assert s == s[..i] + [s[i]] + s[i + 1..];
    assert s[i] !in s[..i] && s[i] !in s[i + 1..];
  }

  lemma DistinctKeysPermute<T, K>(key: T -> K, a: seq<T>, b: seq<T>)
    requires multiset(a) == multiset(b) && DistinctKeys(key, a)
    ensures DistinctKeys(key, b)
  {
    forall i, j | 0 <= i < j < |b| ensures key(b[i]) != key(b[j]) {
      assert b[i] in multiset(a) && b[j] in multiset(a);
      var m :| 0 <= m < |a| && a[m] == b[i];
      var n :| 0 <= n < |a| && a[n] == b[j];
      if key(b[i]) == key(b[j]) {
        assert m == n;
        TwiceInMultiset(b, i, j);
        OnceInMultiset(key, a, m);
      }
    }
  }

  /** Distinct keys between 0 and n - 1, n of them. */
  predicate KeysArePermutation<T>(key: T -> int, s: seq<T>) {
    DistinctKeys(key, s) && forall i | 0 <= i < |s| :: 0 <= key(s[i]) < |s|
  }

  predicate KeysArePositions<T>(key: T -> int, s: seq<T>) {
    forall i | 0 <= i < |s| :: key(s[i]) == i
  }

  lemma {:induction false} IncreasingFromZero<T>(key: T -> int, s: seq<T>, i: nat)
    requires SortedBy(key, s) && KeysArePermutation(key, s) && i < |s|
    ensures i <= key(s[i])
  {
    if i > 0 {
      IncreasingFromZero(key, s, i - 1);
    }
  }

  lemma {:induction false} IncreasingToEnd<T>(key: T -> int, s: seq<T>, i: nat)
    requires SortedBy(key, s) && KeysArePermutation(key, s) && i < |s|
    ensures key(s[|s| - 1 - i]) <= |s| - 1 - i
  {
    if i > 0 {
      IncreasingToEnd(key, s, i - 1);
      assert key(s[|s| - 1 - i]) != key(s[|s| - i]);
    }
  }

  lemma PermutationPermutes<T>(key: T -> int, a: seq<T>, b: seq<T>)
    requires multiset(a) == multiset(b) && |a| == |b| && KeysArePermutation(key, a)
    ensures KeysArePermutation(key, b)
  {
    DistinctKeysPermute(key, a, b);
    forall i | 0 <= i < |b| ensures 0 <= key(b[i]) < |b| {
      assert b[i] in multiset(a);
    }
  }

  lemma SortedPermutationIsPositions<T>(key: T -> int, s: seq<T>)
    requires SortedBy(key, s) && KeysArePermutation(key, s)
    ensures KeysArePositions(key, s)
  {
    forall i | 0 <= i < |s| ensures key(s[i]) == i {
      IncreasingFromZero(key, s, i);
      IncreasingToEnd(key, s, |s| - 1 - i);
    }
  }

  lemma PermutationSortsToPositions<T>(key: T -> int, s: seq<T>)
    requires KeysArePermutation(key, s)
    ensures KeysArePositions(key, SortBy(key, s))
  {
    SortSorts(key, s);
    PermutationPermutes(key, s, SortBy(key, s));
    SortedPermutationIsPositions(key, SortBy(key, s));
  }

  lemma PositionsComeFromPermutation<T>(key: T -> int, s: seq<T>)
    requires KeysArePositions(key, SortBy(key, s))
    ensures KeysArePermutation(key, s)
  {
    SortSorts(key, s);
    DistinctKeysPermute(key, SortBy(key, s), s);
    forall i | 0 <= i < |s| ensures 0 <= key(s[i]) < |s| {
      assert s[i] in multiset(SortBy(key, s));
    }
  }

  /** Sorting puts every element at the position of its key exactly when the keys are a permutation. */
  lemma SortedToPositions<T>(key: T -> int, s: seq<T>)
    ensures KeysArePositions(key, SortBy(key, s)) <==> KeysArePermutation(key, s)
  {
    if KeysArePermutation(key, s) {
      PermutationSortsToPositions(key, s);
    }
    if KeysArePositions(key, SortBy(key, s)) {
      PositionsComeFromPermutation(key, s);
    }
  }

  /** Then the element with key k is found at position k. */
  lemma FoundAtKey<T>(key: T -> int, s: seq<T>, j: nat)
    requires KeysArePermutation(key, s) && j < |s|
    ensures |SortBy(key, s)| == |s| && SortBy(key, s)[key(s[j])] == s[j]
  {
    SortSorts(key, s);
    SortedToPositions(key, s);
    assert s[j] in multiset(SortBy(key, s));
  }
}
