/** Newton's square root and the logarithm series of the indicator library, over exact reals. */
module Roots {
  import opened Reals

  datatype Result = Ok(value: real) | NegativeInput

  // ------------------------------------------------------------------ square root

  function NewtonStep(v: real, x: real): real
    requires x > 0.0
  {
    (x + v / x) / 2.0
  }

  function Newton(v: real, n: nat): (x: real)
    requires v > 0.0
    ensures x > 0.0
  {
    if n == 0 then v
    else
      StepPositive(v, Newton(v, n - 1));
      NewtonStep(v, Newton(v, n - 1))
  }

  lemma StepPositive(v: real, x: real)
    requires v > 0.0 && x > 0.0
    ensures v / x > 0.0 && NewtonStep(v, x) > 0.0
  {
    assert (v / x) * x == v;
    ProductSign(v / x, x);
  }

  /** How far the square of x is above v. */
  function Excess(v: real, x: real): real { Square(x) - v }

  function Quarters(n: nat): (r: real)
    ensures r >= 1.0
  {
    if n == 0 then 1.0 else 4.0 * Quarters(n - 1)
  }

  /** One step squares the excess and divides it by the old square, four times over. */
  lemma StepExcess(v: real, x: real)
    requires v > 0.0 && x > 0.0
    ensures Excess(v, NewtonStep(v, x)) * (4.0 * Square(x)) == Square(Excess(v, x))
  {
    var q := v / x;
    assert q * x == v;
    assert 4.0 * Square(NewtonStep(v, x)) == Square(x + q);
    assert Square(x + q) * Square(x) == Square(Square(x) + v) by {
      assert Square(x + q) * Square(x) == Square((x + q) * x);
      assert (x + q) * x == Square(x) + v;
    }
    SquareDifference(Square(x), v);
  }

  lemma SquareDifference(a: real, v: real)
    ensures Square(a + v) - 4.0 * v * a == Square(a - v)
  {
  }

  /** From above the root a step stays above it, goes down, and leaves at most a quarter of
      the excess; the new excess is also at most the square of the old one over 4v. */
  lemma StepContracts(v: real, x: real)
    requires v > 0.0 && x > 0.0
    ensures Excess(v, NewtonStep(v, x)) >= 0.0
    ensures Excess(v, x) >= 0.0 ==>
      && Excess(v, NewtonStep(v, x)) <= Excess(v, x) / 4.0
      && Excess(v, NewtonStep(v, x)) * (4.0 * v) <= Square(Excess(v, x))
      && NewtonStep(v, x) <= x
  {
    var e, s, f := Excess(v, x), Square(x), Excess(v, NewtonStep(v, x));
    StepExcess(v, x);
    assert s > 0.0 && Square(e) >= 0.0;
    ProductSign(f, 4.0 * s);
    if e >= 0.0 {
      assert e * e <= e * s;
      ProductMonotone(f, e / 4.0, 4.0 * s);
      assert f * (4.0 * v) <= f * (4.0 * s);
      assert (v / x) * x == v;
      ProductMonotone(v / x, x, x);
    }
  }

  /** After n + 1 steps the square exceeds v by at most ((v - 1) / 2) squared over 4 to the n,
      and never falls below v. */
  lemma {:induction false} NewtonError(v: real, n: nat)
    requires v > 0.0
    ensures 0.0 <= Excess(v, Newton(v, n + 1))
    ensures Product(Excess(v, Newton(v, n + 1)), Quarters(n)) <= Square((v - 1.0) / 2.0)
  {
    if n == 0 {
      assert Newton(v, 0) == v && Newton(v, 1) == NewtonStep(v, v);
      FirstStep(v);
    } else {
      NewtonError(v, n - 1);
      NewtonErrorStep(v, Newton(v, n), Quarters(n - 1), Square((v - 1.0) / 2.0));
      assert Newton(v, n + 1) == NewtonStep(v, Newton(v, n)) && Quarters(n) == 4.0 * Quarters(n - 1);
    }
  }

  lemma FirstStep(v: real)
    requires v > 0.0
    ensures Excess(v, NewtonStep(v, v)) == Square((v - 1.0) / 2.0)
  {
    assert v / v == 1.0;
    SquareDifference((v + 1.0) / 2.0, 0.0);
    assert Square((v + 1.0) / 2.0) - Square((v - 1.0) / 2.0) == v;
  }

  lemma QuarterTimes(f: real, e: real, q: real)
    requires f <= e / 4.0 && q >= 1.0
    ensures Product(f, 4.0 * q) <= Product(e, q)
  {
    assert (e / 4.0 - f) * (4.0 * q) >= 0.0;
  }

  lemma NewtonErrorStep(v: real, x: real, q: real, bound: real)
    requires v > 0.0 && x > 0.0 && q >= 1.0 && 0.0 <= Excess(v, x) && Product(Excess(v, x), q) <= bound
    ensures 0.0 <= Excess(v, NewtonStep(v, x)) && Product(Excess(v, NewtonStep(v, x)), 4.0 * q) <= bound
  {
    StepContracts(v, x);
    QuarterTimes(Excess(v, NewtonStep(v, x)), Excess(v, x), q);
  }

  /** From the first step on the iterates only go down. */
  lemma NewtonDescends(v: real, n: nat)
    requires v > 0.0
    ensures Newton(v, n + 2) <= Newton(v, n + 1)
  {
    NewtonError(v, n);
    StepContracts(v, Newton(v, n + 1));
  }

  method DecimalSqrt(value: real, precision: nat) returns (r: Result)
    ensures value < 0.0 <==> r == NegativeInput
    ensures value == 0.0 ==> r == Ok(0.0)
    ensures value > 0.0 ==> r == Ok(Newton(value, precision))
    ensures value > 0.0 && precision > 0 ==>
      && r.value > 0.0 && Square(r.value) >= value
      && (Square(r.value) - value) * Quarters(precision - 1) <= Square((value - 1.0) / 2.0)
  {
    if value < 0.0 {
      return NegativeInput;
    }
    if value == 0.0 {
      return Ok(0.0);
    }
    var x := value;
    for i := 0 to precision
      invariant x == Newton(value, i)
    {
      x := NewtonStep(value, x);
    }
    if precision > 0 { NewtonError(value, precision - 1); }
    r := Ok(x);
  }

  // ------------------------------------------------------------------ logarithm

  function Pow2(n: int): (r: real)
    ensures r > 0.0
    decreases if n < 0 then -n else n
  {
    if n == 0 then 1.0 else if n > 0 then 2.0 * Pow2(n - 1) else Pow2(n + 1) / 2.0
  }

  datatype Reduction = Reduction(exponent: int, reduced: real)

  /** The greater of v and its reciprocal; it shrinks with each halving or doubling. */
  function Spread(v: real): real
    requires v > 0.0
  {
    if v >= 1.0 then v else 1.0 / v
  }

  lemma ReciprocalOf(v: real, w: real)
    requires v > 0.0 && v * w == 1.0
    ensures w > 0.0 && 1.0 / v == w && 1.0 / w == v
  {
    ProductSign(w, v);
    assert (1.0 / v - w) * v == 0.0;
    assert (1.0 / w - v) * w == 0.0;
  }

  lemma Reciprocal(v: real)
    requires v > 0.0
    ensures 1.0 / v > 0.0 && 1.0 / (1.0 / v) == v && 1.0 / (2.0 * v) == (1.0 / v) / 2.0
    ensures 1.0 / (v / 2.0) == 2.0 * (1.0 / v)
    ensures v > 2.0 ==> 1.0 / v < 0.5
    ensures v < 0.5 ==> 1.0 / v > 2.0
    ensures 0.5 <= v <= 2.0 ==> 0.5 <= 1.0 / v <= 2.0
  {
    var w := 1.0 / v;
    assert v * w == 1.0;
    ReciprocalOf(v, w);
    ReciprocalOf(2.0 * v, w / 2.0);
    ReciprocalOf(v / 2.0, 2.0 * w);
    ProductMonotone(w, 0.5, v);
    ProductMonotone(2.0, w, v);
    ProductMonotone(0.5, w, v);
    ProductMonotone(w, 2.0, v);
  }

  lemma SpreadShrinks(v: real)
    requires v > 0.0
    ensures v > 2.0 ==> 0.0 <= Spread(v / 2.0) <= Spread(v) - 1.0
    ensures v < 0.5 ==> 0.0 <= Spread(v * 2.0) <= Spread(v) - 1.0
  {
    Reciprocal(v);
    if v > 2.0 { Reciprocal(v / 2.0); }
  }

  /** v as reduced * 2 ^ exponent with the least shift that reaches [1/2, 2]. */
  function Reduce(v: real): Reduction
    requires v > 0.0
    decreases Spread(v)
  {
    SpreadShrinks(v);
    if v > 2.0 then
      var r := Reduce(v / 2.0);
      Reduction(r.exponent + 1, r.reduced)
    else if v < 0.5 then
      var r := Reduce(v * 2.0);
      Reduction(r.exponent - 1, r.reduced)
    else
      Reduction(0, v)
  }

  lemma Pow2Shift(n: int)
    ensures Pow2(n + 1) == 2.0 * Pow2(n)
  {
  }

  /** The reduction ends in [1/2, 2], loses nothing, and shifts no further than needed. */
  lemma {:induction false} ReduceCorrect(v: real)
    requires v > 0.0
    ensures v == Reduce(v).reduced * Pow2(Reduce(v).exponent)
    ensures 0.5 <= Reduce(v).reduced <= 2.0
    ensures v > 2.0 ==> Reduce(v).exponent > 0 && Reduce(v).reduced > 1.0
    ensures v < 0.5 ==> Reduce(v).exponent < 0 && Reduce(v).reduced < 1.0
    ensures 0.5 <= v <= 2.0 ==> Reduce(v) == Reduction(0, v)
    decreases Spread(v)
  {
    SpreadShrinks(v);
    if v > 2.0 {
      ReduceCorrect(v / 2.0);
      Pow2Shift(Reduce(v / 2.0).exponent);
      Halve(v, Reduce(v / 2.0).reduced, Pow2(Reduce(v / 2.0).exponent));
    } else if v < 0.5 {
      ReduceCorrect(v * 2.0);
      Pow2Shift(Reduce(v).exponent);
      Halve(v * 4.0, Reduce(v * 2.0).reduced, Pow2(Reduce(v * 2.0).exponent));
      Halve(v * 2.0, Reduce(v * 2.0).reduced, Pow2(Reduce(v).exponent));
    }
  }

  lemma Halve(v: real, r: real, p: real)
    ensures v / 2.0 == r * p <==> v == r * (2.0 * p)
  {
  }

  /** The reduction of a reciprocal is the reciprocal of the reduction. */
  lemma {:induction false} ReduceReciprocal(v: real)
    requires v > 0.0
    ensures 1.0 / v > 0.0
    ensures Reduce(v).reduced > 0.0
    ensures Reduce(1.0 / v) == Reduction(-Reduce(v).exponent, 1.0 / Reduce(v).reduced)
    decreases Spread(v)
  {
    Reciprocal(v);
    ReduceCorrect(v);
    if v > 2.0 {
      Reciprocal(v / 2.0);
      ReduceReciprocal(v / 2.0);
    } else if v < 0.5 {
      ReduceReciprocal(v * 2.0);
    }
  }

  /** y to the power 2k + 1. */
  function OddPower(y: real, k: nat): real {
    if k == 0 then y else OddPower(y, k - 1) * Square(y)
  }

  function Term(y: real, k: nat): real { OddPower(y, k) / (2 * k + 1) as real }

  /** The series with `iterations` terms, at least one. */
  function Series(y: real, iterations: int): real
    decreases iterations
  {
    if iterations <= 1 then y else Series(y, iterations - 1) + Term(y, iterations - 1)
  }

  function Ratio(r: real): real
    requires r > 0.0
  {
    (r - 1.0) / (r + 1.0)
  }

  const LN2: real := 0.6931471805599453094172321215

  /** The logarithm the code computes. */
  function Ln(v: real, iterations: int): real {
    if v <= 0.0 then 0.0
    else
      ReduceCorrect(v);
      Reduce(v).exponent as real * LN2 + 2.0 * Series(Ratio(Reduce(v).reduced), iterations)
  }

  method DecimalLn(value: real, iterations: int) returns (r: real)
    ensures r == Ln(value, iterations)
  {
    if value <= 0.0 {
      return 0.0;
    }
    var n, reduced := 0, value;
    while reduced > 2.0
      invariant reduced > 0.0
      invariant n + Reduce(reduced).exponent == Reduce(value).exponent
      invariant Reduce(reduced).reduced == Reduce(value).reduced
      decreases reduced
    {
      reduced, n := reduced / 2.0, n + 1;
    }
    while reduced < 0.5
      invariant 0.0 < reduced <= 2.0
      invariant n + Reduce(reduced).exponent == Reduce(value).exponent
      invariant Reduce(reduced).reduced == Reduce(value).reduced
      decreases 1.0 / reduced
    {
      Reciprocal(reduced);
      reduced, n := reduced * 2.0, n - 1;
    }
    var y := Ratio(reduced);
    var ySquared := Square(y);
    var term, result := y, y;
    for k := 1 to if iterations > 1 then iterations else 1
      invariant term == OddPower(y, k - 1) && result == Series(y, k)
    {
      term := term * ySquared;
      result := result + term / (2 * k + 1) as real;
    }
    r := n as real * LN2 + 2.0 * result;
  }

  // ------------------------------------------------------------------ its laws

  lemma {:induction false} SeriesOdd(y: real, iterations: int)
    ensures Series(-y, iterations) == -Series(y, iterations)
    decreases iterations
  {
    if iterations > 1 {
      SeriesOdd(y, iterations - 1);
      OddPowerOdd(y, iterations - 1);
      NegatedQuotient(OddPower(y, iterations - 1), (2 * (iterations - 1) + 1) as real);
    }
  }

  lemma NegatedQuotient(a: real, n: real)
    requires n != 0.0
    ensures (-a) / n == -(a / n)
  {
    assert ((-a) / n + a / n) * n == 0.0;
  }

  lemma {:induction false} OddPowerOdd(y: real, k: nat)
    ensures OddPower(-y, k) == -OddPower(y, k)
  {
    if k > 0 {
      OddPowerOdd(y, k - 1);
      assert Square(-y) == Square(y);
    }
  }

  lemma RatioOdd(r: real)
    requires r > 0.0
    ensures 1.0 / r > 0.0 && Ratio(1.0 / r) == -Ratio(r)
  {
    Reciprocal(r);
    var w := 1.0 / r;
    assert w * r == 1.0;
    var a, b := Ratio(r), Ratio(w);
    assert a * (r + 1.0) == r - 1.0 && b * (w + 1.0) == w - 1.0;
    assert b * (w + 1.0) * r == b * (r + 1.0);
    assert (w - 1.0) * r == 1.0 - r;
    assert (a + b) * (r + 1.0) == 0.0;
  }

  /** Exactly, whatever the number of terms: the logarithm of a reciprocal is the negative. */
  lemma LnReciprocal(v: real, iterations: int)
    requires v > 0.0
    ensures 1.0 / v > 0.0 && Ln(1.0 / v, iterations) == -Ln(v, iterations)
  {
    ReduceReciprocal(v);
    var r := Reduce(v);
    RatioOdd(r.reduced);
    SeriesOdd(Ratio(r.reduced), iterations);
    NegatedTimes(r.exponent, LN2);
  }

  lemma NegatedTimes(n: int, c: real)
    ensures (-n) as real * c == -(n as real * c)
  {
    assert (-n) as real == -(n as real);
  }

  /** Doubling adds the constant exactly, except inside [1/2, 1] where no shift happens. */
  lemma LnDouble(v: real, iterations: int)
    requires 0.0 < v < 0.5 || v > 1.0
    ensures Ln(2.0 * v, iterations) == Ln(v, iterations) + LN2
  {
    assert 2.0 * v / 2.0 == v && v * 2.0 == 2.0 * v;
    var n := if v > 1.0 then Reduce(v).exponent else Reduce(2.0 * v).exponent - 1;
    assert Reduce(v).exponent == n && Reduce(2.0 * v).exponent == n + 1;
    assert (n + 1) as real * LN2 == n as real * LN2 + LN2;
  }

  lemma RatioWithin(r: real)
    requires 0.5 <= r <= 2.0
    ensures Abs(Ratio(r)) <= 1.0 / 3.0 && (r > 1.0 ==> Ratio(r) > 0.0)
  {
    var q := Ratio(r);
    assert q * (r + 1.0) == r - 1.0;
    ProductMonotone(q, 1.0 / 3.0, r + 1.0);
    ProductMonotone(-1.0 / 3.0, q, r + 1.0);
    ProductSign(q, r + 1.0);
  }

  /** One ninth to the power k. */
  function Ninths(k: nat): (r: real)
    ensures r > 0.0
  {
    if k == 0 then 1.0 else Ninths(k - 1) / 9.0
  }

  lemma {:induction false} OddPowerShrinks(y: real, k: nat)
    requires Abs(y) <= 1.0 / 3.0
    ensures Abs(OddPower(y, k)) <= Ninths(k) / 3.0
  {
    if k > 0 {
      OddPowerShrinks(y, k - 1);
      SquareShrinks(y);
      ProductShrinks(OddPower(y, k - 1), Square(y), Ninths(k - 1) / 3.0);
      assert OddPower(y, k) == OddPower(y, k - 1) * Square(y);
      assert Ninths(k) == Ninths(k - 1) / 9.0;
    }
  }

  lemma SquareShrinks(y: real)
    requires Abs(y) <= 1.0 / 3.0
    ensures 0.0 <= Square(y) <= 1.0 / 9.0
  {
    var a, b := 1.0 / 3.0 - y, 1.0 / 3.0 + y;
    ProductNonneg(a, b);
    if y >= 0.0 { ProductNonneg(y, y); } else { ProductNonneg(-y, -y); }
    assert a * b == 1.0 / 9.0 - Square(y);
  }

  lemma ProductShrinks(a: real, s: real, bound: real)
    requires Abs(a) <= bound && 0.0 <= s <= 1.0 / 9.0
    ensures Abs(a * s) <= bound / 9.0
  {
    ProductNonneg(bound - a, s);
    ProductNonneg(bound + a, s);
    ProductNonneg(bound, 1.0 / 9.0 - s);
  }

  lemma TermShrinks(y: real, k: nat)
    requires Abs(y) <= 1.0 / 3.0
    ensures Abs(Term(y, k)) <= Ninths(k) / 3.0
  {
    OddPowerShrinks(y, k);
    QuotientShrinks(OddPower(y, k), (2 * k + 1) as real, Ninths(k) / 3.0);
  }

  lemma QuotientShrinks(a: real, n: real, bound: real)
    requires n >= 1.0 && Abs(a) <= bound
    ensures Abs(a / n) <= bound
  {
    var q := a / n;
    assert q * n == a;
    ProductNonneg(bound, n - 1.0);
    ProductMonotone(q, bound, n);
    ProductMonotone(-bound, q, n);
  }

  /** Terms beyond the first m change the series by less than 3/8 of 9 to the -m. */
  lemma {:induction false} SeriesTail(y: real, m: nat, n: nat)
    requires Abs(y) <= 1.0 / 3.0 && 1 <= m <= n
    ensures Abs(Series(y, n) - Series(y, m)) <= 3.0 / 8.0 * (Ninths(m) - Ninths(n))
    decreases n
  {
    if m < n {
      SeriesTail(y, m, n - 1);
      TermShrinks(y, n - 1);
    }
  }

  /** The logarithm with m terms differs from that with any larger number by less than
      3/4 of 9 to the -m, for every argument. */
  lemma LnConverges(v: real, m: nat, n: nat)
    requires 1 <= m <= n
    ensures Abs(Ln(v, n) - Ln(v, m)) < 0.75 * Ninths(m)
  {
    if v > 0.0 {
      ReduceCorrect(v);
      RatioWithin(Reduce(v).reduced);
      SeriesTail(Ratio(Reduce(v).reduced), m, n);
    }
  }

  lemma OddPowersOfThird()
    ensures var y := 1.0 / 3.0;
            && Square(y) == 1.0 / 9.0
            && OddPower(y, 1) == 1.0 / 27.0 && OddPower(y, 2) == 1.0 / 243.0 && OddPower(y, 3) == 1.0 / 2187.0
            && OddPower(y, 4) == 1.0 / 19683.0 && OddPower(y, 5) == 1.0 / 177147.0
  {
    var y := 1.0 / 3.0;
    assert Square(y) == 1.0 / 9.0;
    assert OddPower(y, 1) == OddPower(y, 0) * Square(y);
    assert OddPower(y, 2) == OddPower(y, 1) * Square(y);
    assert OddPower(y, 3) == OddPower(y, 2) * Square(y);
    assert OddPower(y, 4) == OddPower(y, 3) * Square(y);
    assert OddPower(y, 5) == OddPower(y, 4) * Square(y);
  }

  lemma SixTerms()
    ensures Abs(2.0 * Series(1.0 / 3.0, 6) - LN2) < 0.0000002
  {
    var y := 1.0 / 3.0;
    OddPowersOfThird();
    assert Series(y, 1) == y;
    assert Series(y, 2) == Series(y, 1) + Term(y, 1);
    assert Series(y, 3) == Series(y, 2) + Term(y, 2);
    assert Series(y, 4) == Series(y, 3) + Term(y, 3);
    assert Series(y, 5) == Series(y, 4) + Term(y, 4);
    assert Series(y, 6) == Series(y, 5) + Term(y, 5);
  }

  /** The constant and the series agree where they meet: with six terms or more the logarithm of
      two that the series computes differs from the constant by less than two millionths. */
  lemma LnOfTwo(iterations: nat)
    requires iterations >= 6
    ensures Abs(Ln(2.0, iterations) - LN2) < 0.000002
  {
    SixTerms();
    assert Reduce(2.0) == Reduction(0, 2.0) && Ratio(2.0) == 1.0 / 3.0;
    SeriesTail(1.0 / 3.0, 6, iterations);
    assert Ninths(1) == 1.0 / 9.0;
    assert Ninths(3) == Ninths(2) / 9.0 && Ninths(2) == Ninths(1) / 9.0;
    assert Ninths(6) == Ninths(5) / 9.0 && Ninths(5) == Ninths(4) / 9.0 && Ninths(4) == Ninths(3) / 9.0;
    assert Ninths(6) <= 0.000002;
  }

  lemma {:induction false} SeriesPositive(y: real, iterations: int)
    requires y > 0.0
    ensures Series(y, iterations) > 0.0
    decreases iterations
  {
    if iterations > 1 {
      SeriesPositive(y, iterations - 1);
      OddPowerPositive(y, iterations - 1);
      var n, q := (2 * (iterations - 1) + 1) as real, Term(y, iterations - 1);
      assert q * n == OddPower(y, iterations - 1);
      ProductSign(q, n);
    }
  }

  lemma {:induction false} OddPowerPositive(y: real, k: nat)
    requires y > 0.0
    ensures OddPower(y, k) > 0.0
  {
    if k > 0 {
      OddPowerPositive(y, k - 1);
      PositiveSquare(y);
      ProductPositive(OddPower(y, k - 1), Square(y));
    }
  }

  /** The sign is that of the true logarithm. */
  lemma LnSign(v: real, iterations: int)
    requires v > 0.0
    ensures v > 1.0 <==> Ln(v, iterations) > 0.0
    ensures v < 1.0 <==> Ln(v, iterations) < 0.0
  {
    if v > 1.0 {
      LnPositive(v, iterations);
    } else if v < 1.0 {
      assert 1.0 / v > 1.0 by { assert (1.0 / v) * v == 1.0; Reciprocal(v); }
      LnReciprocal(v, iterations);
      LnPositive(1.0 / v, iterations);
    } else {
      SeriesOdd(0.0, iterations);
      assert Ratio(1.0) == 0.0;
    }
  }

  lemma LnPositive(v: real, iterations: int)
    requires v > 1.0
    ensures Ln(v, iterations) > 0.0
  {
    ReduceCorrect(v);
    RatioWithin(Reduce(v).reduced);
    SeriesPositive(Ratio(Reduce(v).reduced), iterations);
    assert Reduce(v).exponent as real * LN2 >= 0.0;
  }
}
