/** What the engine and the repository need from Go's sort.Slice: some sorted permutation. */
module Sorting {

  ghost predicate Order<T(!new)>(less: (T, T) -> bool) {
    (forall a, b, c :: less(a, b) && less(b, c) ==> less(a, c)) && forall a :: !less(a, a)
  }

  /** No element is smaller than an earlier one. */
  ghost predicate Sorted<T>(less: (T, T) -> bool, s: seq<T>) {
    forall i, j :: 0 <= i < j < |s| ==> !less(s[j], s[i])
  }

  function Insert<T>(less: (T, T) -> bool, s: seq<T>, x: T): seq<T> {
    if s == [] || less(x, s[0]) then [x] + s else [s[0]] + Insert(less, s[1..], x)
  }

  function Sort<T>(less: (T, T) -> bool, s: seq<T>): seq<T> {
    if s == [] then [] else Insert(less, Sort(less, s[1..]), s[0])
  }

  lemma {:induction false} InsertContents<T>(less: (T, T) -> bool, s: seq<T>, x: T)
    ensures multiset(Insert(less, s, x)) == multiset(s) + multiset{x}
    ensures forall y :: y in Insert(less, s, x) <==> y == x || y in s
  {
    if s != [] && !less(x, s[0]) {
      InsertContents(less, s[1..], x);
      assert s == [s[0]] + s[1..];
    }
  }

  lemma {:induction false} InsertSorts<T(!new)>(less: (T, T) -> bool, s: seq<T>, x: T)
    requires Order(less) && Sorted(less, s)
    ensures Sorted(less, Insert(less, s, x))
  {
    if s == [] {
    } else if less(x, s[0]) {
      forall i | 0 <= i < |s|
        ensures less(x, s[i]) || !less(s[i], x)
      {
        assert i == 0 || !less(s[i], s[0]);
      }
      assert forall i | 0 <= i < |s| :: !less(s[i], x);
    } else {
      var rest := Insert(less, s[1..], x);
      InsertSorts(less, s[1..], x);
      InsertContents(less, s[1..], x);
      forall j | 0 <= j < |rest|
        ensures !less(rest[j], s[0])
      {
        assert rest[j] in rest;
      }
    }
  }

  lemma {:induction false} SortIsSortedPermutation<T(!new)>(less: (T, T) -> bool, s: seq<T>)
    requires Order(less)
    ensures Sorted(less, Sort(less, s)) && multiset(Sort(less, s)) == multiset(s)
    ensures forall y :: y in Sort(less, s) <==> y in s
    ensures |Sort(less, s)| == |s|
  {
    if s != [] {
      var rest := Sort(less, s[1..]);
      SortIsSortedPermutation(less, s[1..]);
      InsertSorts(less, rest, s[0]);
      InsertContents(less, rest, s[0]);
      assert s == [s[0]] + s[1..];
      assert |multiset(Sort(less, s))| == |multiset(s)|;
    }
  }

  // ---- strictly increasing lists are determined by their elements ----

  ghost predicate Increasing<T>(less: (T, T) -> bool, s: seq<T>) {
    forall i, j :: 0 <= i < j < |s| ==> less(s[i], s[j])
  }

  lemma {:induction false} SortKeepsIncreasing<T>(less: (T, T) -> bool, s: seq<T>)
    requires Increasing(less, s)
    ensures Sort(less, s) == s
  {
    if s != [] {
      assert Increasing(less, s[1..]);
      SortKeepsIncreasing(less, s[1..]);
      assert s[1..] == [] || less(s[0], s[1..][0]);
      assert s == [s[0]] + s[1..];
    }
  }

  lemma NotBothWays<T(!new)>(less: (T, T) -> bool, x: T, y: T)
    requires Order(less) && (x == y || less(x, y)) && (y == x || less(y, x))
    ensures x == y
  {
    assert less(x, y) && less(y, x) ==> less(x, x);
  }

  /** The position of an element that is not among the first `n`. */
  lemma FoundBeyond<T(!new)>(less: (T, T) -> bool, a: seq<T>, x: T, n: nat) returns (k: nat)
    requires Order(less) && Increasing(less, a) && x in a && n <= |a|
    requires forall i :: 0 <= i < n ==> a[i] != x
    ensures n <= k < |a| && a[k] == x && (a[n] == x || less(a[n], x))
  {
    k :| 0 <= k < |a| && a[k] == x;
    assert n == k || less(a[n], a[k]);
  }

  /** If `b` keeps every element of `a` up to position `n` and nothing outside `a`,
      the two agree up to `n`. */
  lemma {:induction false} IncreasingPrefix<T(!new)>(less: (T, T) -> bool, a: seq<T>, b: seq<T>, n: nat)
    requires Order(less) && Increasing(less, a) && Increasing(less, b) && n <= |a|
    requires forall y :: y in b ==> y in a
    requires forall i :: 0 <= i < n ==> a[i] in b
    ensures n <= |b| && a[..n] == b[..n]
  {
    hide Order, Increasing;
    if n != 0 {
      var m := n - 1;
      IncreasingPrefix(less, a, b, m);
      NextAgrees(less, a, b, m);
      assert a[..n] == a[..m] + [a[m]] && b[..n] == b[..m] + [b[m]];
    }
  }

  lemma EarlierDiffer<T(!new)>(less: (T, T) -> bool, a: seq<T>, m: nat)
    requires Order(less) && Increasing(less, a) && m < |a|
    ensures forall i :: 0 <= i < m ==> a[i] != a[m]
  {
    assert forall i | 0 <= i < m :: less(a[i], a[m]);
  }

  /** Lists that agree up to position `m` and have each other's next element agree there too. */
  lemma NextAgrees<T(!new)>(less: (T, T) -> bool, a: seq<T>, b: seq<T>, m: nat)
    requires Order(less) && Increasing(less, a) && Increasing(less, b) && m < |a| && m <= |b| && a[..m] == b[..m]
    requires a[m] in b && forall y :: y in b ==> y in a
    ensures m < |b| && a[m] == b[m]
  {
    hide Order, Increasing;
    assert forall i | 0 <= i < m :: a[i] == a[..m][i] == b[..m][i] == b[i];
    EarlierDiffer(less, a, m);
    var k := FoundBeyond(less, b, a[m], m);
    EarlierDiffer(less, b, m);
    assert b[m] in b;
    var j := FoundBeyond(less, a, b[m], m);
    NotBothWays(less, a[m], b[m]);
  }

  lemma IncreasingUnique<T(!new)>(less: (T, T) -> bool, a: seq<T>, b: seq<T>)
    requires Order(less) && Increasing(less, a) && Increasing(less, b)
    requires forall y :: y in a <==> y in b
    ensures a == b
  {
    IncreasingPrefix(less, a, b, |a|);
    IncreasingPrefix(less, b, a, |b|);
    assert a[..|a|] == a && b[..|b|] == b;
  }

  // ---- comparable elements ----

  predicate Comparable<T>(less: (T, T) -> bool, x: T, y: T) {
    less(x, y) || less(y, x)
  }

  ghost predicate AllComparable<T>(less: (T, T) -> bool, s: seq<T>) {
    forall i, j :: 0 <= i < j < |s| ==> Comparable(less, s[i], s[j])
  }

  lemma {:induction false} InsertIncreasing<T(!new)>(less: (T, T) -> bool, s: seq<T>, x: T)
    requires Order(less) && Increasing(less, s) && forall y :: y in s ==> Comparable(less, x, y)
    ensures Increasing(less, Insert(less, s, x))
  {
    if s == [] {
    } else if less(x, s[0]) {
      assert forall i | 0 < i < |s| :: less(s[0], s[i]) && less(x, s[i]);
    } else {
      var rest := Insert(less, s[1..], x);
      assert Comparable(less, x, s[0]);
      assert forall y | y in s[1..] :: y in s;
      InsertIncreasing(less, s[1..], x);
      InsertContents(less, s[1..], x);
      forall j | 0 <= j < |rest|
        ensures less(s[0], rest[j])
      {
        assert rest[j] in rest;
      }
    }
  }

  lemma {:induction false} SortIncreasing<T(!new)>(less: (T, T) -> bool, s: seq<T>)
    requires Order(less) && AllComparable(less, s)
    ensures Increasing(less, Sort(less, s))
  {
    if s != [] {
      assert AllComparable(less, s[1..]);
      SortIncreasing(less, s[1..]);
      SortIsSortedPermutation(less, s[1..]);
      forall y | y in Sort(less, s[1..])
        ensures Comparable(less, s[0], y)
      {
        var i :| 0 <= i < |s[1..]| && s[1..][i] == y;
        assert y == s[i + 1];
      }
      InsertIncreasing(less, Sort(less, s[1..]), s[0]);
    }
  }
}
