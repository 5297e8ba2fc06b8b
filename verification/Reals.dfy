/** Real arithmetic shared by the other modules. */
module Reals {
  function Abs(x: real): real { if x < 0.0 then -x else x }

  function Min(a: real, b: real): real { if b < a then b else a }

  function Max(a: real, b: real): real { if b > a then b else a }

  function Square(x: real): real { x * x }

  /** A product under a name, so that proofs can treat it as one term. */
  function Product(a: real, b: real): real { a * b }

  lemma ProductNonneg(a: real, b: real)
    requires a >= 0.0 && b >= 0.0
    ensures a * b >= 0.0
  {
  }

  lemma ProductSign(a: real, k: real)
    requires k > 0.0
    ensures a * k > 0.0 <==> a > 0.0
    ensures a * k < 0.0 <==> a < 0.0
  {
    if a > 0.0 { assert a * k > 0.0; }
    if a < 0.0 { assert a * k < 0.0; }
  }

  lemma PositiveSquare(x: real)
    requires x > 0.0
    ensures Square(x) > 0.0
  {
    ProductPositive(x, x);
    assert Square(x) == Product(x, x);
  }

  lemma ProductPositive(a: real, b: real)
    requires a > 0.0 && b > 0.0
    ensures Product(a, b) > 0.0
  {
    ProductSign(a, b);
  }

  /** Multiplying by a positive number keeps and reflects the order. */
  lemma ProductMonotone(a: real, b: real, k: real)
    requires k > 0.0
    ensures a * k <= b * k <==> a <= b
    ensures a * k < b * k <==> a < b
  {
    ProductSign(b - a, k);
    assert (b - a) * k == b * k - a * k;
  }

  lemma ProductOrder(a: real, b: real, k: real)
    requires k > 0.0
    ensures Product(a, k) <= Product(b, k) <==> a <= b
    ensures Product(a, k) < Product(b, k) <==> a < b
  {
    ProductMonotone(a, b, k);
  }

  lemma QuotientWithin(s: real, n: real, lo: real, hi: real)
    requires n > 0.0 && n * lo <= s <= n * hi
    ensures lo <= s / n <= hi
  {
    assert s / n * n == s;
    ProductMonotone(lo, s / n, n);
    ProductMonotone(s / n, hi, n);
  }

  lemma QuotientNonneg(a: real, n: real)
    requires a >= 0.0 && n > 0.0
    ensures a / n >= 0.0
  {
  }

  lemma DivideBack(a: real, n: real, q: real)
    requires n > 0.0 && n * q == a
    ensures a / n == q
  {
  }

  /** The nearest whole number, ties to the even one. */
  function HalfEven(x: real): int {
    var below := x.Floor;
    var rest := x - below as real;
    if rest < 0.5 then below
    else if rest > 0.5 then below + 1
    else if below % 2 == 0 then below else below + 1
  }

  /** Rounding is to a nearest number, a tie goes to the even one, and that says it all. */
  lemma HalfEvenIff(x: real, n: int)
    ensures n == HalfEven(x) <==>
              -0.5 <= x - n as real <= 0.5 && ((x - n as real == 0.5 || x - n as real == -0.5) ==> n % 2 == 0)
  {
    var below := x.Floor;
    assert below as real <= x < below as real + 1.0;
    if -0.5 <= x - n as real <= 0.5 {
      assert n == below || n == below + 1;
    }
  }

  lemma HalfEvenOdd(x: real)
    ensures HalfEven(-x) == -HalfEven(x)
  {
    HalfEvenIff(x, HalfEven(x));
    HalfEvenIff(-x, -HalfEven(x));
    assert (-HalfEven(x)) as real == -(HalfEven(x) as real);
  }
}
