/** Sums of real sequences. */
module RealSeq {
  function Sum(xs: seq<real>): real {
    if xs == [] then 0.0 else Sum(xs[..|xs| - 1]) + xs[|xs| - 1]
  }

  function Mean(xs: seq<real>): real { if xs == [] then 0.0 else Sum(xs) / |xs| as real }

  /** The sum by a loop. */
  method Total(xs: seq<real>) returns (s: real)
    ensures s == Sum(xs)
  {
    s := 0.0;
    for i := 0 to |xs|
      invariant s == Sum(xs[..i])
    {
      assert xs[..i + 1][..i] == xs[..i];
      s := s + xs[i];
    }
    assert xs[..|xs|] == xs;
  }

  lemma SumSnoc(xs: seq<real>, x: real)
    ensures Sum(xs + [x]) == Sum(xs) + x
  {
    assert (xs + [x])[..|xs|] == xs;
  }

  lemma {:induction false} SumConcat(xs: seq<real>, ys: seq<real>)
    ensures Sum(xs + ys) == Sum(xs) + Sum(ys)
  {
    if ys == [] {
      assert xs + ys == xs;
    } else {
      SumConcat(xs, ys[..|ys| - 1]);
      assert (xs + ys)[..|xs + ys| - 1] == xs + ys[..|ys| - 1];
    }
  }

  lemma {:induction false} SumNonneg(xs: seq<real>)
    requires forall i :: 0 <= i < |xs| ==> xs[i] >= 0.0
    ensures Sum(xs) >= 0.0
    ensures forall i :: 0 <= i < |xs| ==> xs[i] <= Sum(xs)
  {
    if xs != [] { SumNonneg(xs[..|xs| - 1]); }
  }

  /** ys is xs multiplied by k. */
  predicate Scaled(ys: seq<real>, xs: seq<real>, k: real) {
    |ys| == |xs| && forall i :: 0 <= i < |xs| ==> ys[i] == xs[i] * k
  }

  lemma {:induction false} SumScaled(ys: seq<real>, xs: seq<real>, k: real)
    requires Scaled(ys, xs, k)
    ensures Sum(ys) == Sum(xs) * k
  {
    if xs != [] {
      var n := |xs| - 1;
      SumScaled(ys[..n], xs[..n], k);
      assert ys[n] == xs[n] * k;
      assert (Sum(xs[..n]) + xs[n]) * k == Sum(xs[..n]) * k + xs[n] * k;
    }
  }

  function Itself(x: real): real { x }

  function SumMap(f: real -> real, xs: seq<real>): real {
    if xs == [] then 0.0 else SumMap(f, xs[..|xs| - 1]) + f(xs[|xs| - 1])
  }

  lemma {:induction false} SumMapConcat(f: real -> real, xs: seq<real>, ys: seq<real>)
    ensures SumMap(f, xs + ys) == SumMap(f, xs) + SumMap(f, ys)
  {
    if ys == [] {
      assert xs + ys == xs;
    } else {
      SumMapConcat(f, xs, ys[..|ys| - 1]);
      assert (xs + ys)[..|xs + ys| - 1] == xs + ys[..|ys| - 1];
    }
  }

  lemma {:induction false} SumMapMiddle(f: real -> real, l: seq<real>, x: real, r: seq<real>)
    ensures SumMap(f, l + [x] + r) == f(x) + SumMap(f, l + r)
  {
    SumMapConcat(f, l + [x], r);
    SumMapConcat(f, l, r);
    assert (l + [x])[..|l|] == l;
  }

  /** A sum does not depend on the order. */
  lemma {:induction false} SumMapPermutation(f: real -> real, xs: seq<real>, ys: seq<real>)
    requires multiset(xs) == multiset(ys)
    ensures SumMap(f, xs) == SumMap(f, ys)
    decreases |xs|
  {
    if xs == [] {
      assert |multiset(ys)| == 0;
    } else {
      var n := |xs| - 1;
      assert xs[n] in multiset(ys);
      var i :| 0 <= i < |ys| && ys[i] == xs[n];
      var l, r := ys[..i], ys[i + 1..];
      assert ys == l + [xs[n]] + r;
      WithoutLast(xs, l, r);
      SumMapPermutation(f, xs[..n], l + r);
      SumMapMiddle(f, l, xs[n], r);
    }
  }

  lemma {:induction false} WithoutLast(xs: seq<real>, l: seq<real>, r: seq<real>)
    requires xs != [] && multiset(xs) == multiset(l + [xs[|xs| - 1]] + r)
    ensures multiset(xs[..|xs| - 1]) == multiset(l + r)
  {
    var before, x := xs[..|xs| - 1], xs[|xs| - 1];
    assert xs == before + [x];
    assert multiset(before) + multiset{x} == multiset(l) + multiset{x} + multiset(r);
    assert multiset(before) == multiset(before) + multiset{x} - multiset{x};
    assert multiset(l + r) == multiset(l) + multiset{x} + multiset(r) - multiset{x};
  }

  lemma {:induction false} SumAsMap(xs: seq<real>)
    ensures Sum(xs) == SumMap(Itself, xs)
  {
    if xs != [] { SumAsMap(xs[..|xs| - 1]); }
  }
}
