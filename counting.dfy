/** Counting helpers for the source's counting dictionaries
    (`d[k] = d.get(k, 0) + 1`) and its "append if not yet present" lists. */
module Counting {

  /** Concatenation of a list of lists, in order. */
  function Flatten<T>(xss: seq<seq<T>>): seq<T>
    decreases |xss|
  {
    if |xss| == 0 then [] else Flatten(xss[..|xss| - 1]) + xss[|xss| - 1]
  }

  /** The distinct elements of `xs`, each at the place of its first appearance. */
  function Dedup<T(==,!new)>(xs: seq<T>): (r: seq<T>)
    ensures forall x :: x in r <==> x in xs
    ensures forall x :: multiset(r)[x] == if x in xs then 1 else 0
    decreases |xs|
  {
    if |xs| == 0 then []
    else
      var d := Dedup(xs[..|xs| - 1]);
      assert xs == xs[..|xs| - 1] + [xs[|xs| - 1]];
      if xs[|xs| - 1] in d then d else d + [xs[|xs| - 1]]
  }

  /** The counting dictionary of `xs`: every element, with how often it
      occurs. */
  function CountMap<T(==,!new)>(xs: seq<T>): (m: map<T, nat>)
    ensures forall x :: x in m <==> x in xs
    ensures forall x :: x in m ==> m[x] == multiset(xs)[x]
    decreases |xs|
  {
    if |xs| == 0 then map[]
    else
      var init := xs[..|xs| - 1];
      var x := xs[|xs| - 1];
      assert xs == init + [x];
      var m := CountMap(init);
      m[x := (if x in m then m[x] else 0) + 1]
  }

  /** Appending one element: it is listed unless already present. */
  lemma DedupSnoc<T(!new)>(xs: seq<T>, x: T)
    ensures Dedup(xs + [x]) == if x in xs then Dedup(xs) else Dedup(xs) + [x]
  {
    assert (xs + [x])[..|xs|] == xs;
  }

  /** Appending one element: its count goes up by one. */
  lemma CountMapSnoc<T(!new)>(xs: seq<T>, x: T)
    ensures CountMap(xs + [x]) == CountMap(xs)[x := (if x in CountMap(xs) then CountMap(xs)[x] else 0) + 1]
  {
    assert (xs + [x])[..|xs|] == xs;
  }

  /** Updating a key twice keeps the second value. */
  lemma UpdateTwice<K, V>(m: map<K, V>, k: K, a: V, b: V)
    ensures m[k := a][k := b] == m[k := b]
  {
  }

  /** One more element of `b` after `a`. */
  lemma PrefixSnoc<T>(a: seq<T>, b: seq<T>, j: nat)
    requires j < |b|
    ensures a + b[..j + 1] == (a + b[..j]) + [b[j]]
  {
  }

  /** A list in which nothing occurs twice has no repeated position. */
  lemma DistinctFromMultiset<T>(xs: seq<T>)
    requires forall x :: multiset(xs)[x] <= 1
    ensures forall i, j :: 0 <= i < j < |xs| ==> xs[i] != xs[j]
  {
    forall i, j | 0 <= i < j < |xs|
      ensures xs[i] != xs[j]
    {
      assert xs == xs[..j] + xs[j..];
      assert xs[i] in xs[..j];
      assert xs[j] in xs[j..];
      assert multiset(xs)[xs[j]] == multiset(xs[..j])[xs[j]] + multiset(xs[j..])[xs[j]];
    }
  }

  /** Index of the first occurrence of `x` in `xs`. */
  function FirstIndex<T(==)>(xs: seq<T>, x: T): (i: nat)
    requires x in xs
    ensures i < |xs| && xs[i] == x && x !in xs[..i]
    decreases |xs|
  {
    if xs[0] == x then 0 else 1 + FirstIndex(xs[1..], x)
  }

  lemma {:induction false} FirstIndexExtend<T>(xs: seq<T>, z: T, y: T)
    requires y in xs
    ensures y in xs + [z] && FirstIndex(xs + [z], y) == FirstIndex(xs, y)
    decreases |xs|
  {
    if xs[0] != y {
      assert (xs + [z])[1..] == xs[1..] + [z];
      FirstIndexExtend(xs[1..], z, y);
    }
  }

  lemma {:induction false} FirstIndexLast<T>(xs: seq<T>, z: T)
    requires z !in xs
    ensures FirstIndex(xs + [z], z) == |xs|
    decreases |xs|
  {
    if |xs| > 0 {
      assert (xs + [z])[1..] == xs[1..] + [z];
      FirstIndexLast(xs[1..], z);
    }
  }

  /** `Dedup` lists the elements in the order of their first appearance. */
  lemma {:induction false} DedupFirstAppearance<T(!new)>(xs: seq<T>, i: nat, j: nat)
    requires i < j < |Dedup(xs)|
    ensures FirstIndex(xs, Dedup(xs)[i]) < FirstIndex(xs, Dedup(xs)[j])
    decreases |xs|
  {
    var ys := xs[..|xs| - 1];
    var z := xs[|xs| - 1];
    assert xs == ys + [z];
    var d := Dedup(ys);
    if z in d {
      DedupFirstAppearance(ys, i, j);
      FirstIndexExtend(ys, z, d[i]);
      FirstIndexExtend(ys, z, d[j]);
    } else if j < |d| {
      DedupFirstAppearance(ys, i, j);
      FirstIndexExtend(ys, z, d[i]);
      FirstIndexExtend(ys, z, d[j]);
    } else {
      FirstIndexExtend(ys, z, d[i]);
      FirstIndexLast(ys, z);
    }
  }

  /** The sum of the counts in `xs` of the elements of `ds`. */
  function SumOfCounts<T(==)>(ds: seq<T>, xs: seq<T>): nat
    decreases |ds|
  {
    if |ds| == 0 then 0 else multiset(xs)[ds[0]] + SumOfCounts(ds[1..], xs)
  }

  lemma {:induction false} SumOfCountsExtendCounted<T>(ds: seq<T>, xs: seq<T>, x: T)
    ensures SumOfCounts(ds, xs + [x]) == SumOfCounts(ds, xs) + multiset(ds)[x]
    decreases |ds|
  {
    if |ds| > 0 {
      SumOfCountsExtendCounted(ds[1..], xs, x);
      assert ds == [ds[0]] + ds[1..];
    }
  }

  lemma {:induction false} SumOfCountsExtendKeys<T>(ds: seq<T>, d: T, xs: seq<T>)
    ensures SumOfCounts(ds + [d], xs) == SumOfCounts(ds, xs) + multiset(xs)[d]
    decreases |ds|
  {
    if |ds| == 0 {
      assert (ds + [d])[1..] == [];
    } else {
      assert (ds + [d])[1..] == ds[1..] + [d];
      SumOfCountsExtendKeys(ds[1..], d, xs);
    }
  }

  /** Summing the count of every distinct element gives the length. */
  lemma {:induction false} SumOfCountsIsLength<T(!new)>(xs: seq<T>)
    ensures SumOfCounts(Dedup(xs), xs) == |xs|
    decreases |xs|
  {
    if |xs| > 0 {
      var ys := xs[..|xs| - 1];
      var z := xs[|xs| - 1];
      assert xs == ys + [z];
      var d := Dedup(ys);
      SumOfCountsIsLength(ys);
      SumOfCountsExtendCounted(d, ys, z);
      if z !in d {
        SumOfCountsExtendKeys(d, z, xs);
      }
    }
  }
}
