/** Sums over sequences, in the shape of `xs.reduce((sum, x) => sum + f(x), 0)`:
    the accumulator starts at 0 and takes the elements left to right. */
module Sums {

  /** Left-to-right sum of `f` over `xs`. */
  function SumOf<T>(xs: seq<T>, f: T -> real): real
  {
    if |xs| == 0 then 0.0 else SumOf(xs[..|xs| - 1], f) + f(xs[|xs| - 1])
  }

  /** Summing a concatenation is summing each part. */
  lemma {:induction false} SumOfAppend<T>(xs: seq<T>, ys: seq<T>, f: T -> real)
    ensures SumOf(xs + ys, f) == SumOf(xs, f) + SumOf(ys, f)
    decreases |ys|
  {
    if |ys| == 0 {
      assert xs + ys == xs;
    } else {
      var n := |ys|;
      assert (xs + ys)[..|xs + ys| - 1] == xs + ys[..n - 1];
      assert (xs + ys)[|xs + ys| - 1] == ys[n - 1];
      SumOfAppend(xs, ys[..n - 1], f);
    }
  }

  /** Taking out the element at `i` takes its term out of the sum. */
  lemma {:induction false} SumOfRemove<T>(ys: seq<T>, i: nat, f: T -> real)
    requires i < |ys|
    ensures SumOf(ys, f) == SumOf(ys[..i] + ys[i + 1..], f) + f(ys[i])
    decreases |ys|
  {
    var n := |ys|;
    var rest := ys[..i] + ys[i + 1..];
    if i == n - 1 {
      assert rest == ys[..n - 1];
    } else {
      var front := ys[..n - 1];
      assert rest[..|rest| - 1] == front[..i] + front[i + 1..];
      assert rest[|rest| - 1] == ys[n - 1];
      SumOfRemove(front, i, f);
    }
  }

  /** Taking out the element at `i` takes one copy of it out of the multiset. */
  lemma MultisetRemove<T>(ys: seq<T>, i: nat)
    requires i < |ys|
    ensures multiset(ys[..i] + ys[i + 1..]) == multiset(ys) - multiset{ys[i]}
  {
    assert ys == ys[..i] + [ys[i]] + ys[i + 1..];
  }

  /** The last element of `xs` sits at some index `i` of its permutation `ys`,
      and the remaining elements of the two are again permutations. */
  lemma MatchLast<T>(xs: seq<T>, ys: seq<T>) returns (i: nat)
    requires |xs| > 0 && multiset(xs) == multiset(ys)
    ensures i < |ys| && ys[i] == xs[|xs| - 1]
    ensures multiset(xs[..|xs| - 1]) == multiset(ys[..i] + ys[i + 1..])
  {
    var n := |xs|;
    assert xs[n - 1] in multiset(xs);
    i :| 0 <= i < |ys| && ys[i] == xs[n - 1];
    MultisetRemove(ys, i);
    MultisetRemove(xs, n - 1);
    assert xs[..n - 1] + xs[n..] == xs[..n - 1];
  }

  /** The sum does not depend on the order of the elements. */
  lemma {:induction false} SumOfPermutation<T>(xs: seq<T>, ys: seq<T>, f: T -> real)
    requires multiset(xs) == multiset(ys)
    ensures SumOf(xs, f) == SumOf(ys, f)
    decreases |xs|
  {
    if |xs| == 0 {
      assert |ys| == |multiset(ys)| == 0;
    } else {
      var i := MatchLast(xs, ys);
      SumOfPermutation(xs[..|xs| - 1], ys[..i] + ys[i + 1..], f);
      SumOfRemove(ys, i, f);
    }
  }

  /** A sum of non-negative terms is non-negative. */
  lemma {:induction false} SumOfNonNegative<T>(xs: seq<T>, f: T -> real)
    ensures (forall x :: x in xs ==> f(x) >= 0.0) ==> SumOf(xs, f) >= 0.0
    decreases |xs|
  {
    if |xs| > 0 {
      SumOfNonNegative(xs[..|xs| - 1], f);
      assert forall x :: x in xs[..|xs| - 1] ==> x in xs;
    }
  }

  /** A sum of `|xs|` equal terms `c` is `|xs| * c`. */
  lemma {:induction false} SumOfConstant<T>(xs: seq<T>, f: T -> real, c: real)
    requires forall x :: x in xs ==> f(x) == c
    ensures SumOf(xs, f) == |xs| as real * c
    decreases |xs|
  {
    if |xs| > 0 {
      SumOfConstant(xs[..|xs| - 1], f, c);
    }
  }
}
