/** Python's `sorted(xs, key=k, reverse=True)` as a stable insertion sort, with the facts the
    ranking paths need: the result is ordered by non-increasing key and is a permutation of
    the input, and a prefix of it holds every element that beats the cut-off. */
module Ranking {

  predicate NoDup<T(==)>(s: seq<T>) {
    forall i, j :: 0 <= i < j < |s| ==> s[i] != s[j]
  }

  predicate SortedDesc<T>(s: seq<T>, key: T -> real) {
    forall i, j :: 0 <= i < j < |s| ==> key(s[i]) >= key(s[j])
  }

  /** Put `x` before the first element whose key is not above its own. */
  function Insert<T(==)>(x: T, s: seq<T>, key: T -> real): (r: seq<T>)
    ensures |r| == |s| + 1
    ensures multiset(r) == multiset(s) + multiset{x}
  {
    if s == [] || key(x) >= key(s[0]) then [x] + s
    else
      assert s == [s[0]] + s[1..];
      [s[0]] + Insert(x, s[1..], key)
  }

  /** Inserting into a sorted list keeps it sorted. */
  lemma {:induction false} InsertSorted<T>(x: T, s: seq<T>, key: T -> real)
    requires SortedDesc(s, key)
    ensures SortedDesc(Insert(x, s, key), key)
  {
    if s != [] && key(x) < key(s[0]) {
      var t := Insert(x, s[1..], key);
      InsertSorted(x, s[1..], key);
      assert s == [s[0]] + s[1..];
      forall j | 0 <= j < |t|
        ensures key(t[j]) <= key(s[0])
      {
        assert t[j] in multiset(t);
        if t[j] != x {
          assert t[j] in multiset(s[1..]);
          var m :| 0 <= m < |s[1..]| && s[1..][m] == t[j];
          assert s[m + 1] == t[j];
        }
      }
    }
  }

  /** Stable descending sort: equal keys keep their input order. */
  function SortDesc<T(==)>(s: seq<T>, key: T -> real): (r: seq<T>)
    ensures |r| == |s|
    ensures multiset(r) == multiset(s)
    ensures SortedDesc(r, key)
  {
    if s == [] then []
    else
      var t := SortDesc(s[1..], key);
      assert s == [s[0]] + s[1..];
      InsertSorted(s[0], t, key);
      Insert(s[0], t, key)
  }

  /** The elements of `s` whose key is `v`, in their order in `s`. */
  function WithKey<T>(s: seq<T>, key: T -> real, v: real): (r: seq<T>)
    ensures |r| <= |s|
    ensures forall i :: 0 <= i < |r| ==> key(r[i]) == v
  {
    if s == [] then [] else (if key(s[0]) == v then [s[0]] else []) + WithKey(s[1..], key, v)
  }

  /** Inserting `x` puts it ahead of every element sharing its key and leaves the order
      among the others untouched. */
  lemma {:induction false} InsertWithKey<T>(x: T, s: seq<T>, key: T -> real, v: real)
    ensures WithKey(Insert(x, s, key), key, v)
            == (if key(x) == v then [x] else []) + WithKey(s, key, v)
  {
    if s == [] || key(x) >= key(s[0]) {
      assert ([x] + s)[1..] == s;
    } else {
      assert s == [s[0]] + s[1..];
      InsertWithKey(x, s[1..], key, v);
      var t := Insert(x, s[1..], key);
      assert ([s[0]] + t)[1..] == t;
    }
  }

  /** Stability: for every key, the elements carrying it appear in the result in the order
      they had in the input. */
  lemma {:induction false} SortDescStable<T>(s: seq<T>, key: T -> real, v: real)
    ensures WithKey(SortDesc(s, key), key, v) == WithKey(s, key, v)
  {
    if s != [] {
      SortDescStable(s[1..], key, v);
      InsertWithKey(s[0], SortDesc(s[1..], key), key, v);
    }
  }

  /** Cutting a sorted permutation after `n` items keeps every element that scores above
      the last one kept. */
  lemma TopNKeepsBest<T>(s: seq<T>, key: T -> real, n: nat, y: T)
    requires 0 < n <= |s|
    requires y in s
    requires key(y) > key(SortDesc(s, key)[n - 1])
    ensures y in SortDesc(s, key)[..n]
  {
    var r := SortDesc(s, key);
    assert y in multiset(s);
    assert y in r;
    var k :| 0 <= k < |r| && r[k] == y;
    assert k < n;
    assert r[..n][k] == y;
  }

  /** Inserting a new element into a list without repeats keeps it without repeats. */
  lemma {:induction false} InsertNoDup<T>(x: T, s: seq<T>, key: T -> real)
    requires NoDup(s) && x !in s
    ensures NoDup(Insert(x, s, key))
  {
    if s == [] || key(x) >= key(s[0]) {
    } else {
      assert s == [s[0]] + s[1..];
      InsertNoDup(x, s[1..], key);
      var t := Insert(x, s[1..], key);
      assert forall m :: 0 <= m < |s[1..]| ==> s[1..][m] == s[m + 1];
      assert s[0] !in multiset(t);
    }
  }

  /** Sorting a list without repeats gives a list without repeats. */
  lemma {:induction false} SortDescNoDup<T>(s: seq<T>, key: T -> real)
    requires NoDup(s)
    ensures NoDup(SortDesc(s, key))
  {
    if s != [] {
      assert s == [s[0]] + s[1..];
      SortDescNoDup(s[1..], key);
      var t := SortDesc(s[1..], key);
      assert forall m :: 0 <= m < |s[1..]| ==> s[1..][m] == s[m + 1];
      assert s[0] !in multiset(s[1..]);
      assert s[0] !in t;
      InsertNoDup(s[0], t, key);
    }
  }

  /** Sorting neither adds nor drops an element. */
  lemma SortDescSameElements<T>(s: seq<T>, key: T -> real)
    ensures forall y :: y in SortDesc(s, key) <==> y in s
  {
    var r := SortDesc(s, key);
    forall y
      ensures y in r <==> y in s
    {
      assert y in r <==> y in multiset(r);
      assert y in s <==> y in multiset(s);
    }
  }
}
