/** Python's `list.sort(key=..., reverse=True)` and `sorted(..., reverse=True)`:
    a stable sort into non-increasing key order. Elements with equal keys keep
    their original relative order (Python's sort stays stable under
    `reverse=True`). Keys are real numbers; integer keys are converted. */
module Sorting {

  ghost predicate SortedDesc<T>(s: seq<T>, key: T -> real) {
    forall i, j :: 0 <= i < j < |s| ==> key(s[i]) >= key(s[j])
  }

  /** The elements of `s` whose key is `k`, in their order in `s`. */
  function WithKey<T>(s: seq<T>, key: T -> real, k: real): seq<T>
    decreases |s|
  {
    if |s| == 0 then []
    else (if key(s[0]) == k then [s[0]] else []) + WithKey(s[1..], key, k)
  }

  /** Puts `x` behind every element of `s` whose key is at least `key(x)`. */
  function InsertDesc<T>(s: seq<T>, x: T, key: T -> real): seq<T>
    decreases |s|
  {
    if |s| == 0 then [x]
    else if key(s[0]) >= key(x) then [s[0]] + InsertDesc(s[1..], x, key)
    else [x] + s
  }

  /** The stable descending sort, by insertion of each element in turn. */
  function SortDesc<T>(s: seq<T>, key: T -> real): (r: seq<T>)
    ensures |r| == |s|
    ensures multiset(r) == multiset(s)
    ensures SortedDesc(r, key)
    decreases |s|
  {
    if |s| == 0 then []
    else
      var init := SortDesc(s[..|s| - 1], key);
      InsertLast(s, init, key);
      InsertDesc(init, s[|s| - 1], key)
  }

  /** Inserting the last element of `s` into a sorted permutation of the
      others gives a sorted permutation of `s`. */
  lemma InsertLast<T>(s: seq<T>, init: seq<T>, key: T -> real)
    requires |s| > 0
    requires |init| == |s| - 1 && multiset(init) == multiset(s[..|s| - 1]) && SortedDesc(init, key)
    ensures |InsertDesc(init, s[|s| - 1], key)| == |s|
    ensures multiset(InsertDesc(init, s[|s| - 1], key)) == multiset(s)
    ensures SortedDesc(InsertDesc(init, s[|s| - 1], key), key)
  {
    var pre, x := s[..|s| - 1], s[|s| - 1];
    InsertDescPermutes(init, x, key);
    InsertDescSorted(init, x, key);
    assert s == pre + [x];
  }

  /** `s[:n]` */
  function Take<T>(s: seq<T>, n: nat): (r: seq<T>)
    ensures |r| == if |s| < n then |s| else n
    ensures r == s[..|r|]
  {
    if |s| < n then s else s[..n]
  }

  lemma {:induction false} InsertDescPermutes<T>(s: seq<T>, x: T, key: T -> real)
    ensures |InsertDesc(s, x, key)| == |s| + 1
    ensures multiset(InsertDesc(s, x, key)) == multiset(s) + multiset{x}
    decreases |s|
  {
    if |s| > 0 && key(s[0]) >= key(x) {
      InsertDescPermutes(s[1..], x, key);
      assert s == [s[0]] + s[1..];
    }
  }

  lemma {:induction false} InsertDescMembers<T>(s: seq<T>, x: T, key: T -> real)
    ensures forall i :: 0 <= i < |InsertDesc(s, x, key)| ==>
      InsertDesc(s, x, key)[i] == x || InsertDesc(s, x, key)[i] in s
    decreases |s|
  {
    if |s| > 0 && key(s[0]) >= key(x) {
      InsertDescMembers(s[1..], x, key);
      var t := InsertDesc(s[1..], x, key);
      assert forall y :: y in s[1..] ==> y in s;
      assert InsertDesc(s, x, key) == [s[0]] + t;
    }
  }

  lemma {:induction false} InsertDescSorted<T>(s: seq<T>, x: T, key: T -> real)
    requires SortedDesc(s, key)
    ensures SortedDesc(InsertDesc(s, x, key), key)
    decreases |s|
  {
    if |s| > 0 && key(s[0]) >= key(x) {
      InsertDescSorted(s[1..], x, key);
      InsertDescMembers(s[1..], x, key);
      var t := InsertDesc(s[1..], x, key);
      assert forall i :: 0 <= i < |t| ==> t[i] == x || t[i] in s;
      assert forall i :: 0 <= i < |t| ==> key(s[0]) >= key(t[i]);
    }
  }

  lemma {:induction false} WithKeyAppend<T>(a: seq<T>, b: seq<T>, key: T -> real, k: real)
    ensures WithKey(a + b, key, k) == WithKey(a, key, k) + WithKey(b, key, k)
    decreases |a|
  {
    if |a| == 0 {
      assert a + b == b;
    } else {
      var head := if key(a[0]) == k then [a[0]] else [];
      var t := a[1..];
      assert (a + b)[0] == a[0] && (a + b)[1..] == t + b;
      WithKeyAppend(t, b, key, k);
      assert WithKey(a + b, key, k) == head + WithKey(t + b, key, k);
      assert WithKey(a, key, k) == head + WithKey(t, key, k);
      assert head + (WithKey(t, key, k) + WithKey(b, key, k)) == (head + WithKey(t, key, k)) + WithKey(b, key, k);
    }
  }

  lemma {:induction false} WithKeyNone<T>(s: seq<T>, key: T -> real, k: real)
    requires forall i :: 0 <= i < |s| ==> key(s[i]) != k
    ensures WithKey(s, key, k) == []
    decreases |s|
  {
    if |s| > 0 { WithKeyNone(s[1..], key, k); }
  }

  lemma {:induction false} InsertDescWithKey<T>(s: seq<T>, x: T, key: T -> real, k: real)
    requires SortedDesc(s, key)
    ensures WithKey(InsertDesc(s, x, key), key, k)
         == WithKey(s, key, k) + (if key(x) == k then [x] else [])
    decreases |s|
  {
    if |s| == 0 {
      assert WithKey([x], key, k) == (if key(x) == k then [x] else []) + WithKey([x][1..], key, k);
      assert [x][1..] == [];
    } else if key(s[0]) >= key(x) {
      var rest := s[1..];
      assert SortedDesc(rest, key) by {
        forall i, j | 0 <= i < j < |rest| ensures key(rest[i]) >= key(rest[j]) {
          assert rest[i] == s[i + 1] && rest[j] == s[j + 1];
        }
      }
      InsertDescWithKey(rest, x, key, k);
      var t := InsertDesc(rest, x, key);
      assert InsertDesc(s, x, key) == [s[0]] + t;
      assert ([s[0]] + t)[1..] == t;
      assert WithKey([s[0]] + t, key, k) == (if key(s[0]) == k then [s[0]] else []) + WithKey(t, key, k);
      assert WithKey(s, key, k) == (if key(s[0]) == k then [s[0]] else []) + WithKey(rest, key, k);
    } else {
      assert InsertDesc(s, x, key) == [x] + s;
      assert ([x] + s)[1..] == s;
      assert WithKey([x] + s, key, k) == (if key(x) == k then [x] else []) + WithKey(s, key, k);
      if key(x) == k {
        assert forall i :: 0 <= i < |s| ==> key(s[i]) <= key(s[0]);
        WithKeyNone(s, key, k);
      }
    }
  }

  /** Stability: for every key value, sorting keeps the elements having that
      key in their original order. Together with `SortedDesc` this pins the
      result down completely. */
  lemma {:induction false} SortDescStable<T>(s: seq<T>, key: T -> real, k: real)
    ensures WithKey(SortDesc(s, key), key, k) == WithKey(s, key, k)
    decreases |s|
  {
    if |s| > 0 {
      var init := s[..|s| - 1];
      var x := s[|s| - 1];
      var sortedInit := SortDesc(init, key);
      assert SortDesc(s, key) == InsertDesc(sortedInit, x, key);
      SortDescStable(init, key, k);
      InsertDescWithKey(sortedInit, x, key, k);
      assert s == init + [x];
      WithKeyAppend(init, [x], key, k);
      assert WithKey([x], key, k) == (if key(x) == k then [x] else []) by {
        assert [x][1..] == [];
      }
    }
  }

  /** The sort only looks at the keys of the elements it sorts. */
  lemma {:induction false} SortDescKeyCongruence<T>(s: seq<T>, key1: T -> real, key2: T -> real)
    requires forall y :: y in s ==> key1(y) == key2(y)
    ensures SortDesc(s, key1) == SortDesc(s, key2)
    decreases |s|
  {
    if |s| > 0 {
      var init := s[..|s| - 1];
      assert forall y :: y in init ==> y in s;
      SortDescKeyCongruence(init, key1, key2);
      var sorted := SortDesc(init, key1);
      assert forall y :: y in sorted ==> y in init by {
        forall y | y in sorted ensures y in init {
          assert y in multiset(sorted);
        }
      }
      InsertCongruence(sorted, s[|s| - 1], key1, key2);
    }
  }

  lemma {:induction false} InsertCongruence<T>(s: seq<T>, x: T, key1: T -> real, key2: T -> real)
    requires key1(x) == key2(x)
    requires forall y :: y in s ==> key1(y) == key2(y)
    ensures InsertDesc(s, x, key1) == InsertDesc(s, x, key2)
    decreases |s|
  {
    if |s| > 0 {
      assert forall y :: y in s[1..] ==> y in s;
      assert s[0] in s;
      InsertCongruence(s[1..], x, key1, key2);
    }
  }

  /** The first `n` of the sort: as many as `s` has, up to `n`, drawn from
      `s`; no element left out has a larger key than one kept, and the kept
      elements of each key are the first ones `s` has with that key, in
      their order in `s`. */
  lemma TopOfSortDesc<T>(s: seq<T>, key: T -> real, n: nat, k: real)
    ensures |Take(SortDesc(s, key), n)| == if |s| < n then |s| else n
    ensures multiset(Take(SortDesc(s, key), n)) <= multiset(s)
    ensures forall x, y :: x in multiset(s) - multiset(Take(SortDesc(s, key), n)) && y in Take(SortDesc(s, key), n)
              ==> key(x) <= key(y)
    ensures WithKey(Take(SortDesc(s, key), n), key, k) <= WithKey(s, key, k)
  {
    var sorted := SortDesc(s, key);
    TopOfSorted(sorted, key, n);
    WithKeyOfTake(sorted, key, n, k);
    SortDescStable(s, key, k);
  }

  /** In a sorted list, no element past the first `n` has a larger key
      than one of the first `n`. */
  lemma TopOfSorted<T>(sorted: seq<T>, key: T -> real, n: nat)
    requires SortedDesc(sorted, key)
    ensures multiset(Take(sorted, n)) <= multiset(sorted)
    ensures forall x, y :: x in multiset(sorted) - multiset(Take(sorted, n)) && y in Take(sorted, n)
              ==> key(x) <= key(y)
  {
    var top := Take(sorted, n);
    var rest := sorted[|top|..];
    assert sorted == top + rest;
    assert multiset(sorted) - multiset(top) == multiset(rest);
    forall x, y | x in multiset(rest) && y in top
      ensures key(x) <= key(y)
    {
      var j :| 0 <= j < |rest| && rest[j] == x;
      var i :| 0 <= i < |top| && top[i] == y;
      assert sorted[i] == y && sorted[|top| + j] == x;
    }
  }

  /** The elements of one key among the first `n` are a prefix of that
      key's elements. */
  lemma WithKeyOfTake<T>(s: seq<T>, key: T -> real, n: nat, k: real)
    ensures WithKey(Take(s, n), key, k) <= WithKey(s, key, k)
  {
    var top := Take(s, n);
    assert s == top + s[|top|..];
    WithKeyAppend(top, s[|top|..], key, k);
  }

  lemma TakeSorted<T>(s: seq<T>, n: nat, key: T -> real)
    requires SortedDesc(s, key)
    ensures SortedDesc(Take(s, n), key)
  {
  }
}
