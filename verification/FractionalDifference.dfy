/** Fractional differencing of a series with truncated binomial weights. */
module FractionalDifference {
  import opened Reals

  datatype Result = Series(values: seq<real>) | EmptySeries | NegativeOrder

  /** The k-th weight. */
  function Weight(d: real, k: nat): real {
    if k == 0 then 1.0 else WeightAfter(Weight(d, k - 1), d, k)
  }

  function WeightAfter(w: real, d: real, k: nat): real
    requires k >= 1
  {
    -w * (d - k as real + 1.0) / k as real
  }

  /** How many weights are kept for a series of length n, those below k having been kept:
      up to the first one below the threshold, but never more than n + 1. */
  function Kept(d: real, threshold: real, n: nat, k: nat): (m: nat)
    requires 1 <= k <= n
    ensures k <= m <= n + 1
    decreases n - k
  {
    if Abs(Weight(d, k)) < threshold then k
    else if k + 1 > n then k + 1
    else Kept(d, threshold, n, k + 1)
  }

  /** The first m weights against the series, backwards from position t. */
  function Dot(d: real, m: nat, s: seq<real>, t: nat): real
    requires m <= t + 1 <= |s|
  {
    if m == 0 then 0.0 else Dot(d, m - 1, s, t) + Weight(d, m - 1) * s[t - (m - 1)]
  }

  function Differenced(s: seq<real>, d: real, threshold: real): seq<real>
    requires s != []
  {
    var m := Kept(d, threshold, |s|, 1);
    if m > |s| then [] else seq(|s| + 1 - m, (i: nat) requires i < |s| + 1 - m => Dot(d, m, s, i + m - 1))
  }

  method FractionallyDifference(series: seq<real>, d: real, threshold: real) returns (r: Result)
    ensures r == if series == [] then EmptySeries else if d < 0.0 then NegativeOrder
                 else Series(Differenced(series, d, threshold))
  {
    if series == [] {
      return EmptySeries;
    }
    if d < 0.0 {
      return NegativeOrder;
    }
    var weights := Weights(d, threshold, |series|);
    if |weights| > |series| {
      return Series([]);
    }
    var result := Convolve(series, d, weights);
    r := Series(result);
  }

  method Weights(d: real, threshold: real, n: nat) returns (weights: seq<real>)
    requires n >= 1
    ensures |weights| == Kept(d, threshold, n, 1)
    ensures forall j :: 0 <= j < |weights| ==> weights[j] == Weight(d, j)
  {
    weights := [1.0];
    var k := 1;
    while true
      invariant |weights| == k && 1 <= k <= n
      invariant forall j :: 0 <= j < k ==> weights[j] == Weight(d, j)
      invariant Kept(d, threshold, n, 1) == Kept(d, threshold, n, k)
      decreases n - k
    {
      assert weights[k - 1] == Weight(d, k - 1);
      var w := WeightAfter(weights[k - 1], d, k);
      assert w == Weight(d, k);
      if Abs(w) < threshold {
        return;
      }
      weights := weights + [w];
      k := k + 1;
      if k > n {
        return;
      }
    }
  }

  method Convolve(series: seq<real>, d: real, weights: seq<real>) returns (result: seq<real>)
    requires 1 <= |weights| <= |series|
    requires forall j :: 0 <= j < |weights| ==> weights[j] == Weight(d, j)
    ensures |result| == |series| + 1 - |weights|
    ensures forall i :: 0 <= i < |result| ==> result[i] == Dot(d, |weights|, series, i + |weights| - 1)
  {
    var m := |weights|;
    result := [];
    for t := m - 1 to |series|
      invariant |result| == t - (m - 1)
      invariant forall i :: 0 <= i < |result| ==> result[i] == Dot(d, m, series, i + m - 1)
    {
      var val := 0.0;
      for j := 0 to m
        invariant val == Dot(d, j, series, t)
      {
        val := val + weights[j] * series[t - j];
      }
      result := result + [val];
    }
  }

  // ------------------------------------------------------------------ whole orders

  function Difference(s: seq<real>): seq<real> {
    if s == [] then [] else seq(|s| - 1, (i: nat) requires i + 1 < |s| => s[i + 1] - s[i])
  }

  /** The d-fold first difference. */
  function Differences(s: seq<real>, d: nat): (r: seq<real>)
    ensures |r| == if d <= |s| then |s| - d else 0
  {
    if d == 0 then s else Difference(Differences(s, d - 1))
  }

  /** Signed binomial coefficients by Pascal's rule. */
  function Coefficient(d: nat, k: nat): int {
    if k == 0 then 1 else if d == 0 then 0 else Coefficient(d - 1, k) - Coefficient(d - 1, k - 1)
  }

  lemma {:induction false} Absorption(d: nat, k: nat)
    requires k >= 1
    ensures k * Coefficient(d, k) == -(d - k + 1) * Coefficient(d, k - 1)
    decreases d
  {
    if d == 0 {
      if k == 1 { assert Coefficient(0, 0) == 1; }
    } else {
      Absorption(d - 1, k);
      if k >= 2 { Absorption(d - 1, k - 1); }
      var c := Coefficient(d - 1, k - 1);
      var b := if k >= 2 then Coefficient(d - 1, k - 2) else 0;
      assert Coefficient(d, k - 1) == c - b;
      AbsorptionStep(d, k, Coefficient(d - 1, k), c, b);
    }
  }

  lemma AbsorptionStep(d: int, k: int, a: int, c: int, b: int)
    requires k * a == -(d - k) * c
    requires (k - 1) * c == -(d - k + 1) * b
    ensures k * (a - c) == -(d - k + 1) * (c - b)
  {
  }

  /** For whole orders the weights are the signed binomial coefficients. */
  lemma {:induction false} WeightIsCoefficient(d: nat, k: nat)
    ensures Weight(d as real, k) == Coefficient(d, k) as real
  {
    if k > 0 {
      WeightIsCoefficient(d, k - 1);
      CoefficientStep(d, k);
    }
  }

  lemma {:induction false} CoefficientStep(d: nat, k: nat)
    requires k >= 1
    ensures WeightAfter(Coefficient(d, k - 1) as real, d as real, k) == Coefficient(d, k) as real
  {
    Absorption(d, k);
    RecurrenceReals(d, k, Coefficient(d, k - 1), Coefficient(d, k));
  }

  lemma RecurrenceReals(d: nat, k: nat, c: int, c1: int)
    requires k >= 1 && k * c1 == -(d - k + 1) * c
    ensures WeightAfter(c as real, d as real, k) == c1 as real
  {
    var x := d - k + 1;
    assert x as real == d as real - k as real + 1.0;
    ProductReals(k, c1);
    ProductReals(-x, c);
    assert (-x) as real == -(x as real);
    assert k as real * c1 as real == -(c as real) * x as real;
    DivideBack(-(c as real) * x as real, k as real, c1 as real);
  }

  lemma {:induction false} ProductReals(a: int, b: int)
    ensures (a * b) as real == a as real * b as real
  {
  }

  /** Signs alternate up to the order, and nothing follows. */
  lemma {:induction false} CoefficientSigns(d: nat, k: nat)
    ensures k > d ==> Coefficient(d, k) == 0
    ensures k <= d && k % 2 == 0 ==> Coefficient(d, k) >= 1
    ensures k <= d && k % 2 == 1 ==> Coefficient(d, k) <= -1
    ensures k == d ==> -1 <= Coefficient(d, k) <= 1
  {
    if k > 0 && d > 0 {
      CoefficientSigns(d - 1, k);
      CoefficientSigns(d - 1, k - 1);
    }
  }

  /** The threshold tells the weights of order d, none smaller than one, from the zeros after
      them; order zero has only the first, which is always kept. */
  predicate Discerning(d: nat, threshold: real) { 0.0 < threshold && (d == 0 || threshold <= 1.0) }

  /** With such a threshold exactly d + 1 weights are kept, or n + 1 if the series is too short. */
  lemma {:induction false} KeptWhole(d: nat, threshold: real, n: nat, k: nat)
    requires Discerning(d, threshold) && 1 <= k <= n && k <= d + 1
    ensures Kept(d as real, threshold, n, k) == if d < n then d + 1 else n + 1
    decreases n - k
  {
    WeightIsCoefficient(d, k);
    CoefficientSigns(d, k);
    if k <= d {
      assert Abs(Weight(d as real, k)) >= 1.0;
      if k + 1 <= n { KeptWhole(d, threshold, n, k + 1); }
    }
  }

  /** The first m coefficients against the series, backwards from position t. */
  function CoefficientDot(d: nat, m: nat, s: seq<real>, t: nat): real
    requires m <= t + 1 <= |s|
  {
    if m == 0 then 0.0 else CoefficientDot(d, m - 1, s, t) + Term(Coefficient(d, m - 1), s[t - (m - 1)])
  }

  function Term(c: int, x: real): real { c as real * x }

  lemma TermMinus(a: int, b: int, x: real)
    ensures Term(a - b, x) == Term(a, x) - Term(b, x)
  {
    assert (a - b) as real == a as real - b as real;
  }

  lemma {:induction false} PascalDot(d: nat, m: nat, s: seq<real>, t: nat)
    requires d >= 1 && 1 <= m && m <= t + 1 <= |s| && t >= 1
    ensures CoefficientDot(d, m, s, t) == CoefficientDot(d - 1, m, s, t) - CoefficientDot(d - 1, m - 1, s, t - 1)
    decreases m
  {
    if m > 1 {
      PascalDot(d, m - 1, s, t);
      var x := s[t - (m - 1)];
      TermMinus(Coefficient(d - 1, m - 1), Coefficient(d - 1, m - 2), x);
      assert s[t - 1 - (m - 2)] == x;
    } else {
      assert CoefficientDot(d, 0, s, t) == 0.0 && CoefficientDot(d - 1, 0, s, t) == 0.0;
    }
  }

  lemma LastTermVanishes(d: nat, s: seq<real>, t: nat)
    requires 1 <= d <= t < |s|
    ensures CoefficientDot(d - 1, d + 1, s, t) == CoefficientDot(d - 1, d, s, t)
  {
    CoefficientSigns(d - 1, d);
    assert Term(0, s[t - d]) == 0.0;
  }

  lemma DotStep(d: nat, s: seq<real>, t: nat)
    requires 1 <= d <= t < |s|
    ensures CoefficientDot(d, d + 1, s, t) == CoefficientDot(d - 1, d, s, t) - CoefficientDot(d - 1, d, s, t - 1)
  {
    PascalDot(d, d + 1, s, t);
    LastTermVanishes(d, s, t);
  }

  lemma DotBase(s: seq<real>, t: nat)
    requires t < |s|
    ensures CoefficientDot(0, 1, s, t) == s[t]
  {
    assert CoefficientDot(0, 1, s, t) == CoefficientDot(0, 0, s, t) + Term(1, s[t]);
  }

  /** The d-fold difference at one point. */
  function DifferenceAt(s: seq<real>, d: nat, t: nat): real
    requires d <= t < |s|
    decreases d
  {
    if d == 0 then s[t] else DifferenceAt(s, d - 1, t) - DifferenceAt(s, d - 1, t - 1)
  }

  lemma {:induction false} DifferencesByPoint(s: seq<real>, d: nat, t: nat)
    requires d <= t < |s|
    ensures Differences(s, d)[t - d] == DifferenceAt(s, d, t)
    decreases d
  {
    if d > 0 {
      DifferencesByPoint(s, d - 1, t);
      DifferencesByPoint(s, d - 1, t - 1);
    }
  }

  lemma {:induction false} PointIsDot(s: seq<real>, d: nat, t: nat)
    requires d <= t < |s|
    ensures DifferenceAt(s, d, t) == CoefficientDot(d, d + 1, s, t)
    decreases d
  {
    if d == 0 {
      DotBase(s, t);
    } else {
      PointIsDot(s, d - 1, t);
      PointIsDot(s, d - 1, t - 1);
      DotStep(d, s, t);
    }
  }

  /** The d-fold difference is the binomial sum. */
  lemma DifferencesAreDots(s: seq<real>, d: nat, t: nat)
    requires d <= t < |s|
    ensures Differences(s, d)[t - d] == CoefficientDot(d, d + 1, s, t)
  {
    DifferencesByPoint(s, d, t);
    PointIsDot(s, d, t);
  }

  lemma {:induction false} DotIsCoefficientDot(d: nat, m: nat, s: seq<real>, t: nat)
    requires m <= t + 1 <= |s|
    ensures Dot(d as real, m, s, t) == CoefficientDot(d, m, s, t)
    decreases m
  {
    if m > 0 {
      DotIsCoefficientDot(d, m - 1, s, t);
      WeightIsCoefficient(d, m - 1);
    }
  }

  /** For a whole order and such a threshold, in particular any in (0, 1], fractional differencing is the d-fold
      first difference, the empty result of a too short series included. */
  lemma {:induction false} WholeOrder(s: seq<real>, d: nat, threshold: real)
    requires s != [] && Discerning(d, threshold)
    ensures Differenced(s, d as real, threshold) == Differences(s, d)
  {
    KeptWhole(d, threshold, |s|, 1);
    if d < |s| {
      var r := Differenced(s, d as real, threshold);
      forall i | 0 <= i < |r| ensures r[i] == Differences(s, d)[i] {
        DotIsCoefficientDot(d, d + 1, s, i + d);
        DifferencesAreDots(s, d, i + d);
      }
    }
  }

  lemma {:induction false} KeptAtMost(d: real, threshold: real, n: nat, k: nat, stop: nat)
    requires 1 <= k <= stop <= n && Abs(Weight(d, stop)) < threshold
    ensures Kept(d, threshold, n, k) <= stop
    decreases n - k
  {
    if !(Abs(Weight(d, k)) < threshold) { KeptAtMost(d, threshold, n, k + 1, stop); }
  }

  /** A threshold above 1 cuts weights off, which shows in the length of the result. */
  lemma {:induction false} CutTooEarly(d: nat, threshold: real) returns (s: seq<real>)
    requires d >= 1 && threshold > 1.0
    ensures s != [] && |Differenced(s, d as real, threshold)| > |Differences(s, d)|
  {
    s := seq(d + 1, (_: nat) => 0.0);
    WeightIsCoefficient(d, d);
    CoefficientSigns(d, d);
    KeptAtMost(d as real, threshold, d + 1, 1, d);
  }

  lemma {:induction false} KeepsAll(d: real, threshold: real, n: nat, k: nat)
    requires 1 <= k <= n && threshold <= 0.0
    ensures Kept(d, threshold, n, k) == n + 1
    decreases n - k
  {
    if k < n { KeepsAll(d, threshold, n, k + 1); }
  }

  /** Without a positive threshold no weight is ever cut and every result is empty. */
  lemma {:induction false} NeverCut(s: seq<real>, d: nat, threshold: real)
    requires threshold <= 0.0 && s != []
    ensures Differenced(s, d as real, threshold) == []
  {
    KeepsAll(d as real, threshold, |s|, 1);
  }

  /** A whole order is differenced correctly for every series exactly when the threshold is
      positive and, except for order zero, at most 1. */
  lemma {:induction false} WholeOrderIff(d: nat, threshold: real)
    ensures (forall s: seq<real> :: s != [] ==> Differenced(s, d as real, threshold) == Differences(s, d))
       <==> 0.0 < threshold && (d == 0 || threshold <= 1.0)
  {
    if Discerning(d, threshold) {
      forall s: seq<real> | s != [] ensures Differenced(s, d as real, threshold) == Differences(s, d) {
        WholeOrder(s, d, threshold);
      }
    } else if threshold > 0.0 {
      var s := CutTooEarly(d, threshold);
    } else {
      var s := seq(d + 1, (_: nat) => 0.0);
      NeverCut(s, d, threshold);
      assert |Differences(s, d)| == 1;
    }
  }

  // -------------------------------------------------------------- orders in (0, 1)

  function WeightSum(d: real, k: nat): real {
    if k == 0 then 1.0 else WeightSum(d, k - 1) + Weight(d, k)
  }

  /** Every later weight is the fraction d / (k + 1) of the partial sum before it, negated. */
  lemma {:induction false} WeightFromSum(d: real, k: nat)
    requires 0.0 < d < 1.0
    ensures WeightSum(d, k) > 0.0
    ensures Product(Weight(d, k + 1), k as real + 1.0) == -Product(WeightSum(d, k), d)
  {
    var n := k as real + 1.0;
    assert (k + 1) as real == n;
    Recurrence(d, k + 1);
    if k > 0 {
      WeightFromSum(d, k - 1);
      assert (k - 1) as real + 1.0 == k as real;
      SumStep(WeightSum(d, k - 1), Weight(d, k), d, k as real);
      NextWeight(WeightSum(d, k - 1), Weight(d, k), Weight(d, k + 1), d, k as real);
    } else {
      assert Weight(d, 0) == 1.0 && WeightSum(d, 0) == 1.0;
    }
  }

  lemma {:induction false} Recurrence(d: real, k: nat)
    requires k >= 1
    ensures Product(Weight(d, k), k as real) == -Product(Weight(d, k - 1), d - k as real + 1.0)
  {
    WeightAfterTimes(Weight(d, k - 1), d, k);
  }

  lemma WeightAfterTimes(w: real, d: real, k: nat)
    requires k >= 1
    ensures Product(WeightAfter(w, d, k), k as real) == -Product(w, d - k as real + 1.0)
  {
    var a := -w * (d - k as real + 1.0);
    assert a / k as real * k as real == a;
  }

  lemma SumStep(s: real, w: real, d: real, k: real)
    requires s > 0.0 && 0.0 < d < 1.0 && k >= 1.0 && Product(w, k) == -Product(s, d)
    ensures s + w > 0.0 && w < 0.0
  {
    assert (s + w) * k == s * (k - d);
    assert s * (k - d) > 0.0;
    assert s * d > 0.0;
    ProductSign(s + w, k);
    ProductSign(w, k);
  }

  lemma NextWeight(s: real, w: real, w1: real, d: real, k: real)
    requires k >= 1.0 && Product(w, k) == -Product(s, d)
    requires Product(w1, k + 1.0) == -Product(w, d - (k + 1.0) + 1.0)
    ensures Product(w1, k + 1.0) == -Product(s + w, d)
  {
    assert -w * (d - k) == w * k - w * d;
  }

  /** For 0 < d < 1 every weight after the first is negative, their magnitudes strictly
      decrease, and no partial sum is exhausted: memory fades but never ends. */
  lemma {:induction false} FractionalWeights(d: real, k: nat)
    requires 0.0 < d < 1.0 && k >= 1
    ensures Weight(d, k) < 0.0 && Abs(Weight(d, k + 1)) < Abs(Weight(d, k)) && WeightSum(d, k) > 0.0
  {
    var w, w1, n := Weight(d, k), Weight(d, k + 1), k as real;
    WeightFromSum(d, k);
    WeightFromSum(d, k - 1);
    assert (k - 1) as real + 1.0 == n && (k + 1) as real == n + 1.0;
    SumStep(WeightSum(d, k - 1), w, d, n);
    SumStep(WeightSum(d, k), w1, d, n + 1.0);
    Recurrence(d, k + 1);
    Smaller(w, w1, d, n);
  }

  lemma Smaller(w: real, w1: real, d: real, n: real)
    requires n >= 1.0 && 0.0 < d && w < 0.0 && Product(w1, n + 1.0) == -Product(w, d - (n + 1.0) + 1.0)
    ensures w1 > w
  {
    assert w1 * (n + 1.0) == w * (n - d);
    assert (w1 - w) * (n + 1.0) == -w * (1.0 + d);
    assert -w * (1.0 + d) > 0.0;
    ProductSign(w1 - w, n + 1.0);
  }
}
