/** Sequence helpers for the `.map(...).filter(Boolean)` idiom of the
    builders: keep the present results, in order. */
module Seqs {
  import opened Wrappers

  /** The present values of `xs`, in their original order. */
  function FilterSome<T>(xs: seq<Option<T>>): (r: seq<T>)
    ensures |r| <= |xs|
  {
    FilterFrom(xs, 0)
  }

  function FilterFrom<T>(xs: seq<Option<T>>, i: nat): (r: seq<T>)
    requires i <= |xs|
    ensures |r| <= |xs| - i
    decreases |xs| - i
  {
    if i == |xs| then []
    else (if xs[i].Some? then [xs[i].value] else []) + FilterFrom(xs, i + 1)
  }

  /** Positions of the present entries of `xs` from `i` on, in increasing order. */
  function IndicesFrom<T>(xs: seq<Option<T>>, i: nat): (r: seq<nat>)
    requires i <= |xs|
    ensures forall k :: 0 <= k < |r| ==> i <= r[k] < |xs|
    decreases |xs| - i
  {
    if i == |xs| then []
    else (if xs[i].Some? then [i] else []) + IndicesFrom(xs, i + 1)
  }

  /** Positions of the present entries of `xs`. */
  function SomeIndices<T>(xs: seq<Option<T>>): (r: seq<nat>)
    ensures forall k :: 0 <= k < |r| ==> r[k] < |xs|
  {
    IndicesFrom(xs, 0)
  }

  predicate StrictlyIncreasing(s: seq<nat>) {
    forall a, b :: 0 <= a < b < |s| ==> s[a] < s[b]
  }

  /** The k-th listed position holds the k-th kept value. */
  lemma {:induction false} IndicesFromValues<T>(xs: seq<Option<T>>, i: nat)
    requires i <= |xs|
    ensures |IndicesFrom(xs, i)| == |FilterFrom(xs, i)|
    ensures forall k :: 0 <= k < |IndicesFrom(xs, i)| ==>
              xs[IndicesFrom(xs, i)[k]] == Some(FilterFrom(xs, i)[k])
    decreases |xs| - i
  {
    if i < |xs| {
      IndicesFromValues(xs, i + 1);
      var ks, fs := IndicesFrom(xs, i + 1), FilterFrom(xs, i + 1);
      if xs[i].Some? {
        var ks', fs' := IndicesFrom(xs, i), FilterFrom(xs, i);
        assert ks' == [i] + ks && fs' == [xs[i].value] + fs;
        forall k | 1 <= k < |ks'|
          ensures xs[ks'[k]] == Some(fs'[k])
        {
          assert ks'[k] == ks[k - 1] && fs'[k] == fs[k - 1];
        }
      }
    }
  }

  /** The listed positions increase. */
  lemma {:induction false} IndicesFromIncreasing<T>(xs: seq<Option<T>>, i: nat)
    requires i <= |xs|
    ensures StrictlyIncreasing(IndicesFrom(xs, i))
    decreases |xs| - i
  {
    if i < |xs| {
      IndicesFromIncreasing(xs, i + 1);
    }
  }

  /** A position from `i` on is listed iff its entry is present. */
  lemma {:induction false} IndicesFromMembers<T>(xs: seq<Option<T>>, i: nat)
    requires i <= |xs|
    ensures forall j :: i <= j < |xs| ==> (xs[j].Some? <==> j in IndicesFrom(xs, i))
    decreases |xs| - i
  {
    if i < |xs| {
      IndicesFromMembers(xs, i + 1);
    }
  }

  /** `FilterSome` keeps exactly the present entries, in order: the k-th
      result is the value at the k-th present position, the positions
      increase, and a position is listed iff its entry is present. */
  lemma FilterSomeOrder<T>(xs: seq<Option<T>>)
    ensures |SomeIndices(xs)| == |FilterSome(xs)|
    ensures StrictlyIncreasing(SomeIndices(xs))
    ensures forall k :: 0 <= k < |SomeIndices(xs)| ==>
              xs[SomeIndices(xs)[k]] == Some(FilterSome(xs)[k])
    ensures forall i :: 0 <= i < |xs| ==> (xs[i].Some? <==> i in SomeIndices(xs))
  {
    IndicesFromValues(xs, 0);
    IndicesFromIncreasing(xs, 0);
    IndicesFromMembers(xs, 0);
  }

  lemma {:induction false} FilterFromAll<T>(xs: seq<Option<T>>, i: nat)
    requires i <= |xs|
    requires forall j :: i <= j < |xs| ==> xs[j].Some?
    ensures |FilterFrom(xs, i)| == |xs| - i
    ensures forall j :: i <= j < |xs| ==> xs[j] == Some(FilterFrom(xs, i)[j - i])
    decreases |xs| - i
  {
    if i < |xs| {
      FilterFromAll(xs, i + 1);
    }
  }

  lemma {:induction false} FilterFromDrops<T>(xs: seq<Option<T>>, i: nat, j: nat)
    requires i <= j < |xs| && xs[j].None?
    ensures |FilterFrom(xs, i)| < |xs| - i
    decreases |xs| - i
  {
    if i < j {
      FilterFromDrops(xs, i + 1, j);
    }
  }

  /** Nothing is dropped iff every entry is present, and then the result
      lists the values in place. */
  lemma FilterSomeAll<T>(xs: seq<Option<T>>)
    ensures |FilterSome(xs)| == |xs| <==> forall i :: 0 <= i < |xs| ==> xs[i].Some?
    ensures (forall i :: 0 <= i < |xs| ==> xs[i].Some?) ==>
              forall i :: 0 <= i < |xs| ==> xs[i] == Some(FilterSome(xs)[i])
  {
    if forall i :: 0 <= i < |xs| ==> xs[i].Some? {
      FilterFromAll(xs, 0);
    } else {
      var j :| 0 <= j < |xs| && xs[j].None?;
      FilterFromDrops(xs, 0, j);
    }
  }

  lemma {:induction false} FilterFromNone<T>(xs: seq<Option<T>>, i: nat)
    requires i <= |xs|
    requires forall j :: i <= j < |xs| ==> xs[j].None?
    ensures FilterFrom(xs, i) == []
    decreases |xs| - i
  {
    if i < |xs| {
      FilterFromNone(xs, i + 1);
    }
  }

  lemma {:induction false} FilterFromPrefix<T>(xs: seq<Option<T>>, n: nat, i: nat)
    requires i <= n <= |xs|
    requires forall j :: n <= j < |xs| ==> xs[j].None?
    ensures FilterFrom(xs, i) == FilterFrom(xs[..n], i)
    decreases n - i
  {
    var ys := xs[..n];
    if i == n {
      FilterFromNone(xs, n);
      assert FilterFrom(ys, i) == [];
    } else {
      FilterFromPrefix(xs, n, i + 1);
      assert ys[i] == xs[i];
      var head := if xs[i].Some? then [xs[i].value] else [];
      assert FilterFrom(xs, i) == head + FilterFrom(xs, i + 1);
      assert FilterFrom(ys, i) == head + FilterFrom(ys, i + 1);
    }
  }

  /** Absent entries at the end change nothing: filtering stops where the
      present entries stop. */
  lemma FilterSomePrefix<T>(xs: seq<Option<T>>, n: nat)
    requires n <= |xs|
    requires forall j :: n <= j < |xs| ==> xs[j].None?
    ensures FilterSome(xs) == FilterSome(xs[..n])
  {
    FilterFromPrefix(xs, n, 0);
  }

  /** A prefix of present entries followed by absent ones filters to that
      prefix's values. */
  lemma FilterSomeOfPrefix<T>(xs: seq<Option<T>>, n: nat)
    requires n <= |xs|
    requires forall j :: 0 <= j < n ==> xs[j].Some?
    requires forall j :: n <= j < |xs| ==> xs[j].None?
    ensures |FilterSome(xs)| == n
    ensures forall k :: 0 <= k < n ==> xs[k] == Some(FilterSome(xs)[k])
  {
    FilterSomePrefix(xs, n);
    assert forall j :: 0 <= j < n ==> xs[..n][j] == xs[j];
    FilterSomeAll(xs[..n]);
  }
}
