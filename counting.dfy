/** Sequence bookkeeping shared by the grouping passes: the first occurrence of
    a value, removal of repeats keeping first occurrences (the order in which
    a Python dict or `defaultdict` first sees its keys), occurrence counts as
    multisets, the sum of those counts over the distinct values, and
    `Counter.most_common(1)`. */
module Counting {

  predicate Distinct<T(==)>(xs: seq<T>) {
    forall i, j :: 0 <= i < j < |xs| ==> xs[i] != xs[j]
  }

  /** Position of the first occurrence of `x` in `xs`. */
  function FirstIndex<T(==)>(xs: seq<T>, x: T): (i: nat)
    requires x in xs
    ensures i < |xs| && xs[i] == x && forall j :: 0 <= j < i ==> xs[j] != x
  {
    if xs[0] == x then 0 else 1 + FirstIndex(xs[1..], x)
  }

  lemma FirstIndexPrefix<T>(xs: seq<T>, n: nat, x: T)
    requires n <= |xs| && x in xs[..n]
    ensures x in xs && FirstIndex(xs[..n], x) == FirstIndex(xs, x)
  {
    var i := FirstIndex(xs[..n], x);
    assert xs[i] == x;
    var k := FirstIndex(xs, x);
    assert xs[..n][k] == x by { assert k <= i; }
  }

  /** `xs` without repeats, each element kept at its first occurrence. */
  function Dedup<T(==)>(xs: seq<T>): seq<T> {
    if xs == [] then []
    else
      var d := Dedup(xs[..|xs| - 1]);
      if xs[|xs| - 1] in d then d else d + [xs[|xs| - 1]]
  }

  /** Dedup loses no value and invents none. */
  lemma {:induction false} DedupMembers<T>(xs: seq<T>, x: T)
    ensures x in Dedup(xs) <==> x in xs
    decreases |xs|
  {
    if xs != [] {
      var n := |xs| - 1;
      var init := xs[..n];
      DedupMembers(init, x);
      assert xs == init + [xs[n]];
    }
  }

  /** Dedup keeps each value once. */
  lemma {:induction false} DedupDistinct<T>(xs: seq<T>)
    ensures Distinct(Dedup(xs))
    decreases |xs|
  {
    if xs != [] {
      var n := |xs| - 1;
      var init := xs[..n];
      DedupDistinct(init);
      DedupMembers(init, xs[n]);
    }
  }

  /** Dedup lists the values in the order of their first occurrences. */
  lemma {:induction false} DedupOrder<T>(xs: seq<T>)
    ensures forall x :: x in Dedup(xs) ==> x in xs
    ensures forall i, j :: 0 <= i < j < |Dedup(xs)| ==>
      FirstIndex(xs, Dedup(xs)[i]) < FirstIndex(xs, Dedup(xs)[j])
    decreases |xs|
  {
    forall x | x in Dedup(xs) ensures x in xs { DedupMembers(xs, x); }
    if xs != [] {
      var n := |xs| - 1;
      var init := xs[..n];
      DedupOrder(init);
      var d, dx := Dedup(init), Dedup(xs);
      forall i, j | 0 <= i < j < |dx| ensures FirstIndex(xs, dx[i]) < FirstIndex(xs, dx[j]) {
        assert dx[i] == d[i] && dx[i] in d;
        FirstIndexPrefix(xs, n, dx[i]);
        if j < |d| {
          assert dx[j] == d[j];
          FirstIndexPrefix(xs, n, dx[j]);
        } else {
          DedupMembers(init, xs[n]);
          assert xs == init + [xs[n]];
          assert FirstIndex(xs, xs[n]) == n;
        }
      }
    }
  }

  /** Dedup keeps each value once, loses none, and lists them in the order of
      their first occurrences. */
  lemma DedupSpec<T>(xs: seq<T>)
    ensures Distinct(Dedup(xs))
    ensures forall x :: x in Dedup(xs) <==> x in xs
    ensures forall i, j :: 0 <= i < j < |Dedup(xs)| ==>
      FirstIndex(xs, Dedup(xs)[i]) < FirstIndex(xs, Dedup(xs)[j])
  {
    forall x ensures x in Dedup(xs) <==> x in xs { DedupMembers(xs, x); }
    DedupDistinct(xs);
    DedupOrder(xs);
  }

  /** How often `x` occurs in `xs`. */
  function Count<T(==)>(xs: seq<T>, x: T): nat {
    multiset(xs)[x]
  }

  /** The sum of the counts of `keys` in `xs`. */
  function SumCounts<T(==)>(keys: seq<T>, xs: seq<T>): nat {
    if keys == [] then 0 else SumCounts(keys[..|keys| - 1], xs) + Count(xs, keys[|keys| - 1])
  }

  /** Appending `x` to `xs` adds one to the sum exactly when `x` is a key. */
  lemma {:induction false} SumCountsAppend<T>(keys: seq<T>, xs: seq<T>, x: T)
    requires Distinct(keys)
    ensures SumCounts(keys, xs + [x]) == SumCounts(keys, xs) + (if x in keys then 1 else 0)
    decreases |keys|
  {
    if keys != [] {
      var n := |keys| - 1;
      var init := keys[..n];
      assert Distinct(init);
      SumCountsAppend(init, xs, x);
      assert multiset(xs + [x]) == multiset(xs) + multiset{x};
      assert x in keys <==> x in init || x == keys[n] by {
        assert keys == init + [keys[n]];
      }
      assert x in init ==> x != keys[n] by {
        if x in init {
          var k :| 0 <= k < n && init[k] == x;
          assert keys[k] == x;
        }
      }
    }
  }

  lemma {:induction false} SumCountsAbsent<T>(keys: seq<T>, xs: seq<T>, x: T)
    requires x !in xs
    ensures SumCounts(keys + [x], xs) == SumCounts(keys, xs)
  {
    assert (keys + [x])[..|keys|] == keys;
  }

  /** Counting every distinct value of `xs` counts each element once: the
      counts over the distinct values add up to the length. */
  lemma {:induction false} CountsSumToLength<T>(xs: seq<T>)
    ensures SumCounts(Dedup(xs), xs) == |xs|
    decreases |xs|
  {
    if xs != [] {
      var n := |xs| - 1;
      var init, x := xs[..n], xs[n];
      CountsSumToLength(init);
      var d := Dedup(init);
      DedupDistinct(init);
      assert xs == init + [x];
      SumCountsAppend(d, init, x);
      if x !in d {
        DedupMembers(init, x);
        SumCountsAbsent(d, init, x);
        assert SumCounts(d + [x], xs) == SumCounts(d, xs) + Count(xs, x) by {
          assert (d + [x])[..|d|] == d;
        }
        assert multiset(xs) == multiset(init) + multiset{x};
      }
    }
  }

  /** The element `most_common(1)` returns among `xs[..i]`: `Counter` keeps
      its keys in first-seen order and `max` keeps the first of equal counts. */
  function MostCommonIn<T(==)>(xs: seq<T>, i: nat): (r: T)
    requires 1 <= i <= |xs|
    ensures r in xs[..i]
    ensures forall j :: 0 <= j < i ==> Count(xs, xs[j]) <= Count(xs, r)
    ensures forall j :: 0 <= j < i && Count(xs, xs[j]) == Count(xs, r) ==> FirstIndex(xs, r) <= j
    decreases i
  {
    if i == 1 then xs[0]
    else
      var b := MostCommonIn(xs, i - 1);
      assert b in xs[..i - 1] ==> exists k :: 0 <= k < i - 1 && xs[k] == b;
      if Count(xs, xs[i - 1]) > Count(xs, b) then xs[i - 1] else b
  }

  /** `Counter(xs).most_common(1)[0][0]`: a value with the largest count and,
      among those, the one seen first. */
  function MostCommon<T(==)>(xs: seq<T>): (r: T)
    requires |xs| > 0
    ensures r in xs
    ensures forall y :: y in xs ==> Count(xs, y) <= Count(xs, r)
    ensures forall y :: y in xs && Count(xs, y) == Count(xs, r) ==> FirstIndex(xs, r) <= FirstIndex(xs, y)
  {
    assert xs[..|xs|] == xs;
    MostCommonIn(xs, |xs|)
  }
}
