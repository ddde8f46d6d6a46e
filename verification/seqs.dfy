/** Order-preserving sequence helpers: distinctness and filtering. */
module Seqs {

  /** No element occurs twice. */
  predicate Distinct<T(==)>(s: seq<T>) {
    forall i, j :: 0 <= i < j < |s| ==> s[i] != s[j]
  }

  /** The elements of `s` that satisfy `keep`, in their original order. */
  function Filter<T(==, !new)>(s: seq<T>, keep: T -> bool): (r: seq<T>)
    ensures |r| <= |s|
    ensures forall x :: x in r <==> x in s && keep(x)
  {
    if s == [] then []
    else if keep(s[0]) then [s[0]] + Filter(s[1..], keep)
    else Filter(s[1..], keep)
  }

  /** Filtering a sequence without repetitions gives one without repetitions. */
  lemma {:induction false} FilterDistinct<T(!new)>(s: seq<T>, keep: T -> bool)
    requires Distinct(s)
    ensures Distinct(Filter(s, keep))
  {
    if s != [] {
      FilterDistinct(s[1..], keep);
      assert s[0] !in s[1..];
    }
  }

  /** Filtering keeps everything exactly when every element passes. */
  lemma {:induction false} FilterAll<T(!new)>(s: seq<T>, keep: T -> bool)
    requires forall x :: x in s ==> keep(x)
    ensures Filter(s, keep) == s
  {
    if s != [] {
      FilterAll(s[1..], keep);
    }
  }

  /** Filtering an extended sequence filters the extension separately. */
  lemma {:induction false} FilterAppend<T(!new)>(s: seq<T>, x: T, keep: T -> bool)
    ensures Filter(s + [x], keep) == Filter(s, keep) + (if keep(x) then [x] else [])
  {
    if s == [] {
      assert s + [x] == [x];
    } else {
      assert (s + [x])[1..] == s[1..] + [x];
      FilterAppend(s[1..], x, keep);
    }
  }

  /** Filters that agree on the elements of `s` keep the same elements. */
  lemma {:induction false} FilterSame<T(!new)>(s: seq<T>, keep1: T -> bool, keep2: T -> bool)
    requires forall x :: x in s ==> keep1(x) == keep2(x)
    ensures Filter(s, keep1) == Filter(s, keep2)
  {
    if s != [] {
      FilterSame(s[1..], keep1, keep2);
    }
  }

  /** A sequence without repetitions has as many distinct elements as it is long. */
  lemma {:induction false} DistinctCard<T>(s: seq<T>)
    requires Distinct(s)
    ensures |set x | x in s| == |s|
  {
    if s != [] {
      DistinctCard(s[1..]);
      assert (set x | x in s) == (set x | x in s[1..]) + {s[0]};
      assert s[0] !in s[1..];
    }
  }

  /** Joining two sequences without repetitions and without common elements gives one without repetitions. */
  lemma DistinctAppend<T>(a: seq<T>, b: seq<T>)
    requires Distinct(a) && Distinct(b)
    requires forall x :: x in a ==> x !in b
    ensures Distinct(a + b)
  {
    forall i, j | 0 <= i < j < |a + b| ensures (a + b)[i] != (a + b)[j] {
      if j >= |a| && i < |a| {
        assert (a + b)[i] in a && (a + b)[j] in b;
      }
    }
  }

  /** A sequence without repetitions drawn from a set is no longer than the set. */
  lemma DistinctWithin<T>(s: seq<T>, k: set<T>)
    requires Distinct(s) && forall x :: x in s ==> x in k
    ensures |s| <= |k|
  {
    DistinctCard(s);
    var a := set x | x in s;
    assert a <= k;
    assert k == a + (k - a) && a !! (k - a);
    assert |k| == |a| + |k - a|;
  }

  /**
   * Two runs of fresh elements in a row: if `a` adds fresh elements to `v`
   * giving `v1`, and `b` adds elements fresh to `v1` giving `v2`, then
   * `a + b` adds fresh elements to `v` giving `v2`.
   */
  lemma FreshAppend<T>(v: set<T>, a: seq<T>, v1: set<T>, b: seq<T>, v2: set<T>)
    requires Distinct(a) && (forall x :: x in a ==> x !in v) && v1 == v + set x | x in a
    requires Distinct(b) && (forall x :: x in b ==> x !in v1) && v2 == v1 + set x | x in b
    ensures Distinct(a + b) && (forall x :: x in a + b ==> x !in v)
    ensures v2 == v + set x | x in a + b
  {
    DistinctAppend(a, b);
    assert (set x | x in a + b) == (set x | x in a) + (set x | x in b);
  }
}
