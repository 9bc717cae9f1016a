/** Strings in code point order, and sorted(...) of a set of them. */
module Ordering {

  predicate LexLe(a: string, b: string) {
    a == [] || (b != [] && (a[0] < b[0] || (a[0] == b[0] && LexLe(a[1..], b[1..]))))
  }

  /** Smaller at the first place where they differ. */
  predicate SmallerAt(a: string, b: string, k: nat) {
    k < |a| && k < |b| && a[..k] == b[..k] && a[k] < b[k]
  }

  lemma SmallerLater(a: string, b: string, k: nat)
    requires a != [] && b != [] && a[0] == b[0]
    ensures SmallerAt(a, b, k + 1) <==> SmallerAt(a[1..], b[1..], k)
  {
    if SmallerAt(a[1..], b[1..], k) {
      assert a[..k + 1] == [a[0]] + a[1..][..k] && b[..k + 1] == [b[0]] + b[1..][..k];
    }
    if SmallerAt(a, b, k + 1) {
      assert a[1..][..k] == a[..k + 1][1..] && b[1..][..k] == b[..k + 1][1..];
    }
  }

  /** One string is before another exactly when it is its beginning or smaller at the first place they differ. */
  lemma {:induction false} LexMeans(a: string, b: string)
    ensures LexLe(a, b) <==> a <= b || exists k: nat :: SmallerAt(a, b, k)
  {
    if a == [] || b == [] {
    } else if a[0] != b[0] {
      assert a[0] < b[0] ==> SmallerAt(a, b, 0);
    } else {
      LexMeans(a[1..], b[1..]);
      assert a <= b <==> a[1..] <= b[1..];
      if k: nat :| SmallerAt(a, b, k) {
        SmallerLater(a, b, k - 1);
      }
      if k: nat :| SmallerAt(a[1..], b[1..], k) {
        SmallerLater(a, b, k);
      }
    }
  }

  lemma {:induction false} LexTotal(a: string, b: string)
    ensures LexLe(a, b) || LexLe(b, a)
  {
    if a != [] && b != [] && a[0] == b[0] {
      LexTotal(a[1..], b[1..]);
    }
  }

  lemma {:induction false} LexAntisymmetric(a: string, b: string)
    requires LexLe(a, b) && LexLe(b, a)
    ensures a == b
  {
    if a != [] && b != [] {
      LexAntisymmetric(a[1..], b[1..]);
      assert a == [a[0]] + a[1..] && b == [b[0]] + b[1..];
    }
  }

  lemma {:induction false} LexTransitive(a: string, b: string, c: string)
    requires LexLe(a, b) && LexLe(b, c)
    ensures LexLe(a, c)
  {
    if a != [] && a[0] == b[0] == c[0] {
      LexTransitive(a[1..], b[1..], c[1..]);
    }
  }

  predicate IsLeast(m: string, s: set<string>) {
    m in s && forall x | x in s :: LexLe(m, x)
  }

  lemma {:induction false} LeastExists(s: set<string>) returns (m: string)
    requires s != {}
    ensures IsLeast(m, s)
    decreases |s|
  {
    var x :| x in s;
    if s == {x} {
      LexTotal(x, x);
      m := x;
    } else {
      var rest := s - {x};
      var y := LeastExists(rest);
      LexTotal(x, y);
      m := if LexLe(x, y) then x else y;
      LexTotal(x, x);
      forall z | z in s ensures LexLe(m, z) {
        if z != x && m == x {
          LexTransitive(x, y, z);
        }
      }
    }
  }

  function Least(s: set<string>): (m: string)
    requires s != {}
    ensures IsLeast(m, s)
  {
    LeastUnique(s);
    var m :| IsLeast(m, s);
    m
  }

  lemma LeastUnique(s: set<string>)
    requires s != {}
    ensures exists m :: IsLeast(m, s)
    ensures forall m, n | IsLeast(m, s) && IsLeast(n, s) :: m == n
  {
    var m := LeastExists(s);
    forall m, n | IsLeast(m, s) && IsLeast(n, s) ensures m == n {
      LexAntisymmetric(m, n);
    }
  }

  /** sorted(s). */
  function Sorted(s: set<string>): seq<string>
    decreases |s|
  {
    if s == {} then [] else [Least(s)] + Sorted(s - {Least(s)})
  }

  /** Sorting a set lists each of its elements once, in strictly increasing order. */
  lemma {:induction false} SortedListsTheSet(s: set<string>)
    ensures forall x :: x in Sorted(s) <==> x in s
    ensures |Sorted(s)| == |s|
    ensures forall i, j | 0 <= i < j < |Sorted(s)| :: Sorted(s)[i] != Sorted(s)[j] && LexLe(Sorted(s)[i], Sorted(s)[j])
    decreases |s|
  {
    if s != {} {
      var m := Least(s);
      var rest := Sorted(s - {m});
      SortedListsTheSet(s - {m});
      assert Sorted(s) == [m] + rest;
      forall j | 0 <= j < |rest| ensures rest[j] != m && LexLe(m, rest[j]) {
        assert rest[j] in rest;
      }
    }
  }

  // ---------------------------------------------------------------- counting

  function Count(ids: seq<string>, p: string -> bool): nat {
    if ids == [] then 0 else (if p(ids[0]) then 1 else 0) + Count(ids[1..], p)
  }

  lemma {:induction false} CountAppend(ids: seq<string>, id: string, p: string -> bool)
    ensures Count(ids + [id], p) == Count(ids, p) + if p(id) then 1 else 0
  {
    if ids == [] {
      assert ids + [id] == [id];
    } else {
      assert (ids + [id])[1..] == ids[1..] + [id];
      CountAppend(ids[1..], id, p);
    }
  }

  /** A counting loop over the sorted elements counts the elements. */
  lemma {:induction false} CountIsCardinality(s: set<string>, p: string -> bool)
    ensures Count(Sorted(s), p) == |set x | x in s && p(x)|
    decreases |s|
  {
    if s == {} {
      assert (set x | x in s && p(x)) == {};
    } else {
      var m := Least(s);
      CountIsCardinality(s - {m}, p);
      var rest := set x | x in s - {m} && p(x);
      assert Sorted(s)[1..] == Sorted(s - {m});
      assert (set x | x in s && p(x)) == if p(m) then rest + {m} else rest;
    }
  }
}
