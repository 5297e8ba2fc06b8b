/** Moving averages and the indicators built on them. Prices are reals, oldest first. */
module MovingAverages {
  import opened Reals
  import opened RealSeq

  function Sma(values: seq<real>, period: int): real {
    if |values| < period || period <= 0 then 0.0
    else Sum(values[|values| - period..]) / period as real
  }

  /** Move an average e towards x by the share k. */
  function Blend(x: real, e: real, k: real): real { x * k + e * (1.0 - k) }

  function Multiplier(period: int): real
    requires period >= 0
  {
    2.0 / (period as real + 1.0)
  }

  /** The exponential average: the plain average of the first `period` values, moved
      towards each later one. */
  function Ema(values: seq<real>, period: int): real {
    if |values| < period || period <= 0 then 0.0
    else if |values| == period then Sma(values, period)
    else Blend(values[|values| - 1], Ema(values[..|values| - 1], period), Multiplier(period))
  }

  /** The averages at every point from the seed on. */
  function EmaSeries(values: seq<real>, period: int): (r: seq<real>)
    requires 1 <= period <= |values|
    ensures |r| == |values| - period + 1
  {
    seq(|values| - period + 1, (i: nat) requires period + i <= |values| => Ema(values[..period + i], period))
  }

  method CalculateEma(values: seq<real>, period: int) returns (ema: real)
    ensures ema == Ema(values, period)
  {
    if |values| < period || period <= 0 {
      return 0.0;
    }
    var k := Multiplier(period);
    ema := Sma(values[..period], period);
    for i := period to |values|
      invariant ema == Ema(values[..i], period)
    {
      assert values[..i + 1][..i] == values[..i];
      ema := Blend(values[i], ema, k);
    }
    assert values[..|values|] == values;
  }

  // ------------------------------------------------------------------------ bounds

  predicate Within(values: seq<real>, lo: real, hi: real) {
    forall i :: 0 <= i < |values| ==> lo <= values[i] <= hi
  }

  lemma {:induction false} SumWithin(values: seq<real>, lo: real, hi: real)
    requires Within(values, lo, hi)
    ensures |values| as real * lo <= Sum(values) <= |values| as real * hi
  {
    if values != [] {
      var n := |values| - 1;
      SumWithin(values[..n], lo, hi);
      assert |values| as real == n as real + 1.0;
      assert (n as real + 1.0) * lo == n as real * lo + lo;
      assert (n as real + 1.0) * hi == n as real * hi + hi;
    }
  }

  lemma {:induction false} SmaWithin(values: seq<real>, period: int, lo: real, hi: real)
    requires 1 <= period <= |values| && Within(values, lo, hi)
    ensures lo <= Sma(values, period) <= hi
  {
    var window := values[|values| - period..];
    SumWithin(window, lo, hi);
    QuotientWithin(Sum(window), period as real, lo, hi);
  }

  lemma ProductNotLess(a: real, b: real, k: real)
    requires a <= b && k >= 0.0
    ensures Product(a, k) <= Product(b, k)
  {
    assert (b - a) * k >= 0.0;
  }

  lemma BlendWithin(x: real, e: real, k: real, lo: real, hi: real)
    requires lo <= x <= hi && lo <= e <= hi && 0.0 < k <= 1.0
    ensures lo <= Blend(x, e, k) <= hi
  {
    ProductNotLess(lo, x, k);
    ProductNotLess(x, hi, k);
    ProductNotLess(lo, e, 1.0 - k);
    ProductNotLess(e, hi, 1.0 - k);
    assert lo == Product(lo, k) + Product(lo, 1.0 - k) && hi == Product(hi, k) + Product(hi, 1.0 - k);
  }

  lemma MultiplierWithin(period: int)
    requires period >= 1
    ensures 0.0 < Multiplier(period) <= 1.0
  {
    QuotientWithin(2.0, period as real + 1.0, 0.0, 1.0);
    var k, n := Multiplier(period), period as real + 1.0;
    assert k * n == 2.0;
    ProductSign(k, n);
  }

  /** Every exponential average lies between the least and the greatest input. */
  lemma {:induction false} EmaWithin(values: seq<real>, period: int, lo: real, hi: real)
    requires 1 <= period <= |values| && Within(values, lo, hi)
    ensures lo <= Ema(values, period) <= hi
  {
    if |values| == period {
      SmaWithin(values, period, lo, hi);
    } else {
      var n := |values| - 1;
      EmaWithin(values[..n], period, lo, hi);
      MultiplierWithin(period);
      BlendWithin(values[n], Ema(values[..n], period), Multiplier(period), lo, hi);
    }
  }

  // -------------------------------------------------------------------------- MACD

  /** Move a seed towards each value in turn. */
  function Smoothed(seed: real, values: seq<real>, k: real): real {
    if values == [] then seed else Blend(values[|values| - 1], Smoothed(seed, values[..|values| - 1], k), k)
  }

  /** Python's values[a:b] for 0 <= a. */
  function Slice(values: seq<real>, a: nat, b: nat): seq<real> {
    var hi := if b < |values| then b else |values|;
    if a <= hi then values[a..hi] else []
  }

  /** The average of one period at the point where the line starts, after `slow` closes. */
  function Seed(closes: seq<real>, period: nat, slow: nat): real {
    Smoothed(Sma(Slice(closes, 0, period), period), Slice(closes, period, slow), Multiplier(period))
  }

  /** The average of one period that the code holds after the first n closes. */
  function Average(closes: seq<real>, period: nat, slow: nat, n: nat): real
    requires slow <= n <= |closes|
  {
    Smoothed(Seed(closes, period, slow), closes[slow..n], Multiplier(period))
  }

  lemma {:induction false} EmaIsSmoothed(values: seq<real>, period: int)
    requires 1 <= period <= |values|
    ensures Ema(values, period) == Smoothed(Sma(values[..period], period), values[period..], Multiplier(period))
  {
    if |values| == period {
      assert values[..period] == values;
    } else {
      var n := |values| - 1;
      EmaIsSmoothed(values[..n], period);
      assert values[..n][..period] == values[..period] && values[..n][period..] == values[period..][..n - period];
    }
  }

  lemma {:induction false} SmoothedConcat(seed: real, xs: seq<real>, ys: seq<real>, k: real)
    ensures Smoothed(seed, xs + ys, k) == Smoothed(Smoothed(seed, xs, k), ys, k)
  {
    if ys == [] {
      assert xs + ys == xs;
    } else {
      SmoothedConcat(seed, xs, ys[..|ys| - 1], k);
      assert (xs + ys)[..|xs + ys| - 1] == xs + ys[..|ys| - 1];
    }
  }

  /** It is the exponential average when the period is no longer than the slow one. */
  lemma {:induction false} AverageIsEma(closes: seq<real>, period: nat, slow: nat, n: nat)
    requires 1 <= period <= slow <= n <= |closes|
    ensures Average(closes, period, slow, n) == Ema(closes[..n], period)
  {
    SmoothedInParts(Sma(closes[..period], period), Multiplier(period), closes, period, slow, n);
    EmaIsSmoothed(closes[..n], period);
    assert closes[..n][..period] == closes[..period];
    SliceFacts(closes, period, slow);
  }

  lemma SliceFacts(closes: seq<real>, period: nat, slow: nat)
    requires period <= slow <= |closes|
    ensures Slice(closes, 0, period) == closes[..period] && Slice(closes, period, slow) == closes[period..slow]
  {
  }

  lemma {:induction false} SmoothedInParts(seed: real, k: real, closes: seq<real>, period: nat, slow: nat, n: nat)
    requires period <= slow <= n <= |closes|
    ensures Smoothed(Smoothed(seed, closes[period..slow], k), closes[slow..n], k)
         == Smoothed(seed, closes[..n][period..], k)
  {
    SmoothedConcat(seed, closes[period..slow], closes[slow..n], k);
    assert closes[..n][period..] == closes[period..slow] + closes[slow..n];
  }

  /** A one at place `at`, zeros elsewhere. */
  function Impulse(at: nat, n: nat): (r: seq<real>)
    requires at < n
    ensures |r| == n && r[at] == 1.0 && forall i :: 0 <= i < n && i != at ==> r[i] == 0.0
  {
    seq(n, i => if i == at then 1.0 else 0.0)
  }

  lemma {:induction false} ImpulseEma(fast: nat, n: nat)
    requires 1 <= fast <= n
    ensures Ema(Impulse(fast - 1, n)[..fast], fast) == Sma(Impulse(fast - 1, n)[..fast], fast) == 1.0 / fast as real
  {
    var first := Impulse(fast - 1, n)[..fast];
    SumWithin(first[..fast - 1], 0.0, 0.0);
    assert Sum(first) == 1.0;
    assert first[|first| - fast..] == first;
  }

  lemma {:induction false} ImpulseAverage(fast: nat, slow: nat, n: nat)
    requires 1 <= slow < fast <= n
    ensures Average(Impulse(fast - 1, n), fast, slow, fast) >= Multiplier(fast)
  {
    var closes, k := Impulse(fast - 1, n), Multiplier(fast);
    assert Slice(closes, 0, fast) == closes[..fast] && Slice(closes, fast, slow) == [];
    ImpulseEma(fast, n);
    QuotientWithin(1.0, fast as real, 0.0, 1.0);
    var rest := closes[slow..fast];
    var before := rest[..|rest| - 1];
    MultiplierWithin(fast);
    SmoothedNonneg(1.0 / fast as real, before, k);
    var e := Smoothed(1.0 / fast as real, before, k);
    assert Average(closes, fast, slow, fast) == Blend(1.0, e, k);
    ProductNotLess(0.0, e, 1.0 - k);
    assert Blend(1.0, e, k) == k + Product(e, 1.0 - k);
  }

  /** When the fast period comes second, the closes between the two are counted twice: after an
      impulse at the end of its seed the two averages differ for good. */
  lemma {:induction false} SwappedPeriodsDiffer(fast: nat, slow: nat, total: nat, n: nat)
    requires 1 <= slow < fast <= n <= total
    ensures Average(Impulse(fast - 1, total), fast, slow, n) > Ema(Impulse(fast - 1, total)[..n], fast)
    decreases n
  {
    if n == fast {
      ImpulseStart(fast, slow, total);
    } else {
      SwappedPeriodsDiffer(fast, slow, total, n - 1);
      DifferenceStays(Impulse(fast - 1, total), fast, slow, n - 1);
    }
  }

  lemma {:induction false} ImpulseStart(fast: nat, slow: nat, total: nat)
    requires 1 <= slow < fast <= total
    ensures Average(Impulse(fast - 1, total), fast, slow, fast) > Ema(Impulse(fast - 1, total)[..fast], fast)
  {
    ImpulseEma(fast, total);
    ImpulseAverage(fast, slow, total);
    Reciprocals(fast as real);
  }

  lemma {:induction false} DifferenceStays(closes: seq<real>, fast: nat, slow: nat, n: nat)
    requires 2 <= fast && slow <= n && fast <= n < |closes| && closes[n] == 0.0
    requires Average(closes, fast, slow, n) > Ema(closes[..n], fast)
    ensures Average(closes, fast, slow, n + 1) > Ema(closes[..n + 1], fast)
  {
    AverageStep(closes, fast, slow, n);
    EmaStep(closes, fast, n);
    MultiplierBelowOne(fast);
    BlendZero(Ema(closes[..n], fast), Average(closes, fast, slow, n), Multiplier(fast));
  }

  lemma BlendZero(a: real, b: real, k: real)
    requires a < b && k < 1.0
    ensures Blend(0.0, a, k) < Blend(0.0, b, k)
  {
    ProductOrder(a, b, 1.0 - k);
    assert Blend(0.0, a, k) == Product(a, 1.0 - k) && Blend(0.0, b, k) == Product(b, 1.0 - k);
  }

  lemma MultiplierBelowOne(period: int)
    requires period >= 2
    ensures Multiplier(period) < 1.0
  {
    var k, n := Multiplier(period), period as real + 1.0;
    assert k * n == 2.0;
    ProductMonotone(k, 1.0, n);
  }

  lemma Reciprocals(f: real)
    requires f > 1.0
    ensures 1.0 / f < 2.0 / (f + 1.0)
  {
    var a, b := 1.0 / f, 2.0 / (f + 1.0);
    assert a * f == 1.0 && b * (f + 1.0) == 2.0;
    assert b * (f + 1.0) * f == 2.0 * f && a * f * (f + 1.0) == f + 1.0;
    ProductMonotone(a, b, f * (f + 1.0));
  }

  lemma {:induction false} SmoothedNonneg(seed: real, values: seq<real>, k: real)
    requires seed >= 0.0 && 0.0 < k <= 1.0 && Within(values, 0.0, 1.0)
    ensures Smoothed(seed, values, k) >= 0.0
    decreases |values|
  {
    if values != [] {
      var n := |values| - 1;
      SmoothedNonneg(seed, values[..n], k);
      ProductNotLess(0.0, values[n], k);
      ProductNotLess(0.0, Smoothed(seed, values[..n], k), 1.0 - k);
    }
  }

  /** What the line is after n closes. */
  function MacdAt(closes: seq<real>, fast: nat, slow: nat, n: nat): real
    requires slow <= n <= |closes|
  {
    Average(closes, fast, slow, n) - Average(closes, slow, slow, n)
  }

  /** The line at every point from the slow seed to the first n closes. */
  function MacdSeries(closes: seq<real>, fast: nat, slow: nat, n: nat): (r: seq<real>)
    requires slow <= n <= |closes|
    ensures |r| == n - slow + 1
  {
    seq(n - slow + 1, (i: nat) requires slow + i <= n => MacdAt(closes, fast, slow, slow + i))
  }

  lemma {:induction false} SeriesStep(closes: seq<real>, fast: nat, slow: nat, n: nat)
    requires slow <= n < |closes|
    ensures MacdSeries(closes, fast, slow, n + 1)
         == MacdSeries(closes, fast, slow, n) + [MacdAt(closes, fast, slow, n + 1)]
  {
  }

  /** With the fast period first, each element of the series is the difference of the two
      exponential averages of the closes up to that point. */
  lemma {:induction false} MacdIsDifference(closes: seq<real>, fast: nat, slow: nat, n: nat)
    requires 1 <= fast <= slow <= n <= |closes|
    ensures MacdAt(closes, fast, slow, n) == Ema(closes[..n], fast) - Ema(closes[..n], slow)
  {
    AverageIsEma(closes, fast, slow, n);
    AverageIsEma(closes, slow, slow, n);
  }

  /** The line the indicator reports, where it reports one. */
  function MacdLine(closes: seq<real>, fast: nat, slow: nat): real
    requires slow <= |closes|
  {
    MacdAt(closes, fast, slow, |closes|)
  }

  lemma {:induction false} LineIsDifference(closes: seq<real>, fast: nat, slow: nat)
    requires 1 <= fast <= slow <= |closes|
    ensures MacdLine(closes, fast, slow) == Ema(closes, fast) - Ema(closes, slow)
  {
    assert closes[..|closes|] == closes;
    MacdIsDifference(closes, fast, slow, |closes|);
  }

  /** For positive periods every line reported is the difference of the two averages exactly when
      the fast period is no longer than the slow one. */
  lemma {:induction false} MacdLineIff(fast: nat, slow: nat, signal: nat)
    requires 1 <= fast && 1 <= slow
    ensures (forall closes: seq<real> :: |closes| >= slow + signal ==>
               MacdLine(closes, fast, slow) == Ema(closes, fast) - Ema(closes, slow))
       <==> fast <= slow
  {
    if fast <= slow {
      forall closes: seq<real> | |closes| >= slow + signal
        ensures MacdLine(closes, fast, slow) == Ema(closes, fast) - Ema(closes, slow)
      {
        LineIsDifference(closes, fast, slow);
      }
    } else {
      var n := if fast >= slow + signal then fast else slow + signal;
      var closes := Impulse(fast - 1, n);
      assert closes[..n] == closes;
      SwappedPeriodsDiffer(fast, slow, n, n);
      AverageIsEma(closes, slow, slow, n);
    }
  }

  method SeedFast(closes: seq<real>, fast: nat, slow: nat) returns (fastEma: real)
    ensures fastEma == Seed(closes, fast, slow)
  {
    fastEma := Sma(Slice(closes, 0, fast), fast);
    ghost var seed := fastEma;
    var between := Slice(closes, fast, slow);
    for i := 0 to |between|
      invariant fastEma == Smoothed(seed, between[..i], Multiplier(fast))
    {
      assert between[..i + 1][..i] == between[..i];
      fastEma := Blend(between[i], fastEma, Multiplier(fast));
    }
    assert between[..|between|] == between;
  }

  lemma {:induction false} AverageStep(closes: seq<real>, period: nat, slow: nat, n: nat)
    requires slow <= n < |closes|
    ensures Average(closes, period, slow, n + 1)
         == Blend(closes[n], Average(closes, period, slow, n), Multiplier(period))
  {
    assert closes[slow..n + 1][..n - slow] == closes[slow..n];
  }

  lemma {:induction false} AverageStart(closes: seq<real>, period: nat, slow: nat)
    requires slow <= |closes|
    ensures Average(closes, period, slow, slow) == Seed(closes, period, slow)
    ensures period == slow ==> Seed(closes, period, slow) == Sma(closes[..slow], slow)
  {
    assert closes[slow..slow] == [] && Slice(closes, slow, slow) == [];
    assert Slice(closes, 0, slow) == closes[..slow];
  }

  lemma {:induction false} EmaStep(closes: seq<real>, period: nat, n: nat)
    requires 1 <= period <= n < |closes|
    ensures Ema(closes[..n + 1], period) == Blend(closes[n], Ema(closes[..n], period), Multiplier(period))
  {
    assert closes[..n + 1][..n] == closes[..n];
  }

  /** The state of the loop after n closes. */
  ghost predicate Tracking(closes: seq<real>, fast: nat, slow: nat, n: nat, fastEma: real, slowEma: real,
                           values: seq<real>)
    requires slow <= n <= |closes|
  {
    && fastEma == Average(closes, fast, slow, n) && slowEma == Average(closes, slow, slow, n)
    && values == MacdSeries(closes, fast, slow, n)
  }

  lemma {:induction false} TrackingStart(closes: seq<real>, fast: nat, slow: nat, fastEma: real, slowEma: real)
    requires slow <= |closes| && fastEma == Seed(closes, fast, slow) && slowEma == Sma(closes[..slow], slow)
    ensures Tracking(closes, fast, slow, slow, fastEma, slowEma, [fastEma - slowEma])
  {
    AverageStart(closes, fast, slow);
    AverageStart(closes, slow, slow);
    assert MacdSeries(closes, fast, slow, slow) == [MacdAt(closes, fast, slow, slow)];
  }

  lemma {:induction false} TrackingStep(closes: seq<real>, fast: nat, slow: nat, n: nat, fastEma: real, slowEma: real,
                     values: seq<real>, nextFast: real, nextSlow: real)
    requires slow <= n < |closes| && Tracking(closes, fast, slow, n, fastEma, slowEma, values)
    requires nextFast == Blend(closes[n], fastEma, Multiplier(fast))
    requires nextSlow == Blend(closes[n], slowEma, Multiplier(slow))
    ensures Tracking(closes, fast, slow, n + 1, nextFast, nextSlow, values + [nextFast - nextSlow])
  {
    AverageStep(closes, fast, slow, n);
    AverageStep(closes, slow, slow, n);
    SeriesStep(closes, fast, slow, n);
  }

  method MacdValues(closes: seq<real>, fast: nat, slow: nat, seed: real) returns (values: seq<real>)
    requires slow <= |closes| && seed == Seed(closes, fast, slow)
    ensures values == MacdSeries(closes, fast, slow, |closes|)
  {
    var fastEma, slowEma := seed, Sma(closes[..slow], slow);
    values := [fastEma - slowEma];
    TrackingStart(closes, fast, slow, fastEma, slowEma);
    for i := slow to |closes|
      invariant Tracking(closes, fast, slow, i, fastEma, slowEma, values)
    {
      var nextFast := Blend(closes[i], fastEma, Multiplier(fast));
      var nextSlow := Blend(closes[i], slowEma, Multiplier(slow));
      TrackingStep(closes, fast, slow, i, fastEma, slowEma, values, nextFast, nextSlow);
      fastEma, slowEma := nextFast, nextSlow;
      values := values + [fastEma - slowEma];
    }
  }

  /** The last line, and the average of the line over time as the signal. */
  method CalculateMacd(closes: seq<real>, fast: nat, slow: nat, signal: nat)
    returns (line: real, signalLine: real, histogram: real)
    ensures |closes| < slow + signal ==> line == signalLine == histogram == 0.0
    ensures |closes| >= slow + signal ==>
      && line == MacdLine(closes, fast, slow)
      && signalLine == Ema(MacdSeries(closes, fast, slow, |closes|), signal)
      && histogram == line - signalLine
    ensures 1 <= fast <= slow && |closes| >= slow + signal ==> line == Ema(closes, fast) - Ema(closes, slow)
  {
    if |closes| < slow + signal {
      return 0.0, 0.0, 0.0;
    }
    var fastEma := SeedFast(closes, fast, slow);
    var values := MacdValues(closes, fast, slow, fastEma);
    line := values[|values| - 1];
    assert line == MacdLine(closes, fast, slow);
    if 1 <= fast <= slow { LineIsDifference(closes, fast, slow); }
    if |values| < signal {
      return line, 0.0, line;
    }
    signalLine := CalculateEma(values, signal);
    histogram := line - signalLine;
  }

  // -------------------------------------------------------------------------- DEMA

  /** Twice the average minus the average of the averages. */
  method CalculateDema(values: seq<real>, period: int) returns (dema: real)
    ensures dema == if |values| < 2 * period || period <= 0 then 0.0
                    else 2.0 * Ema(values, period) - Ema(EmaSeries(values, period), period)
  {
    if |values| < 2 * period || period <= 0 {
      return 0.0;
    }
    var ema1 := CalculateEma(values, period);
    var k := Multiplier(period);
    var ema := Sma(values[..period], period);
    var series := [ema];
    for i := period to |values|
      invariant ema == Ema(values[..i], period) && |series| == i - period + 1
      invariant forall j :: 0 <= j < |series| ==> series[j] == EmaSeries(values, period)[j]
    {
      assert values[..i + 1][..i] == values[..i];
      ema := Blend(values[i], ema, k);
      series := series + [ema];
    }
    assert values[..|values|] == values;
    assert series == EmaSeries(values, period);
    assert series[|series| - 1] == ema1;
    var ema2 := CalculateEma(series, period);
    dema := 2.0 * ema1 - ema2;
  }

  /** Doubling removes no level: on a flat market the double average is the price. */
  lemma {:induction false} DemaFlat(values: seq<real>, period: int, c: real)
    requires 1 <= period && 2 * period <= |values| && Within(values, c, c)
    ensures 2.0 * Ema(values, period) - Ema(EmaSeries(values, period), period) == c
  {
    EmaWithin(values, period, c, c);
    var s := EmaSeries(values, period);
    forall i | 0 <= i < |s| ensures c <= s[i] <= c { EmaWithin(values[..period + i], period, c, c); }
    EmaWithin(s, period, c, c);
  }

  // ------------------------------------------------------------------- a straight line

  /** The values rise by b from each one to the next. */
  predicate Ramp(values: seq<real>, a: real, b: real) {
    forall i :: 0 <= i < |values| ==> values[i] == RampAt(a, b, i)
  }

  function RampAt(a: real, b: real, i: int): real { a + Product(b, i as real) }

  /** How far an average of a ramp stays behind. */
  function Lag(b: real, period: int): real { Product(b, period as real - 1.0) / 2.0 }

  lemma RampStep(a: real, b: real, i: int)
    ensures RampAt(a, b, i + 1) == RampAt(a, b, i) + b
  {
    assert (i + 1) as real == i as real + 1.0;
  }

  lemma {:induction false} SumRamp(values: seq<real>, a: real, b: real)
    requires Ramp(values, a, b) && values != []
    ensures Sum(values) == Product(|values| as real, values[|values| - 1] - Lag(b, |values|))
    decreases |values|
  {
    var n := |values| - 1;
    if n == 0 {
      assert Sum(values[..0]) == 0.0;
      assert Lag(b, 1) == 0.0;
    } else {
      SumRamp(values[..n], a, b);
      RampStep(a, b, n - 1);
      assert |values| as real == n as real + 1.0;
      SumRampReals(n as real, values[n - 1], b);
    }
  }

  lemma SumRampReals(n: real, x: real, b: real)
    ensures Product(n, x - Product(b, n - 1.0) / 2.0) + (x + b) == Product(n + 1.0, x + b - Product(b, n) / 2.0)
  {
  }

  /** On a ramp the exponential average lags by exactly half of period - 1 steps, from its seed on. */
  lemma {:induction false} EmaLag(values: seq<real>, period: int, a: real, b: real)
    requires 1 <= period <= |values| && Ramp(values, a, b)
    ensures Ema(values, period) == values[|values| - 1] - Lag(b, period)
    decreases |values|
  {
    var n := |values| - 1;
    if |values| == period {
      assert values[|values| - period..] == values;
      SumRamp(values, a, b);
      var q := values[n] - Lag(b, period);
      assert Product(period as real, q) == period as real * q;
      DivideBack(Sum(values), period as real, q);
    } else {
      EmaLag(values[..n], period, a, b);
      RampStep(a, b, n - 1);
      LagStays(values[n], b, period);
    }
  }

  lemma LagStays(x: real, b: real, period: int)
    requires period >= 1
    ensures Blend(x, x - b - Lag(b, period), Multiplier(period)) == x - Lag(b, period)
  {
    var k, p := Multiplier(period), period as real;
    assert k * (p + 1.0) == 2.0;
    LagReals(x, b, k, p);
  }

  lemma LagReals(x: real, b: real, k: real, p: real)
    requires k * (p + 1.0) == 2.0
    ensures Blend(x, x - b - Product(b, p - 1.0) / 2.0, k) == x - Product(b, p - 1.0) / 2.0
  {
    assert x - b - Product(b, p - 1.0) / 2.0 == x - b * (p + 1.0) / 2.0;
    assert b * (p + 1.0) / 2.0 * k == b * (k * (p + 1.0)) / 2.0;
  }

  /** Which the double average removes: on a ramp it is the last value. */
  lemma {:induction false} DemaHasNoLag(values: seq<real>, period: int, a: real, b: real)
    requires 1 <= period && 2 * period <= |values| && Ramp(values, a, b)
    ensures 2.0 * Ema(values, period) - Ema(EmaSeries(values, period), period) == values[|values| - 1]
  {
    var s := EmaSeries(values, period);
    var a1 := RampAt(a, b, period - 1) - Lag(b, period);
    forall i | 0 <= i < |s| ensures s[i] == RampAt(a1, b, i) {
      EmaLag(values[..period + i], period, a, b);
      RampShift(a, b, period - 1, i);
    }
    EmaLag(s, period, a1, b);
    EmaLag(values, period, a, b);
    assert values[..period + (|s| - 1)] == values;
  }

  lemma RampShift(a: real, b: real, m: int, i: int)
    ensures RampAt(a, b, m + i) == RampAt(RampAt(a, b, m), b, i)
  {
    assert (m + i) as real == m as real + i as real;
  }

  // --------------------------------------------------------------------------- RSI

  function Gain(c: real): real { if c > 0.0 then c else 0.0 }

  function Loss(c: real): real { if c < 0.0 then -c else 0.0 }

  function Changes(closes: seq<real>): (r: seq<real>)
    ensures |r| == if closes == [] then 0 else |closes| - 1
  {
    if closes == [] then [] else seq(|closes| - 1, (i: nat) requires i + 1 < |closes| => closes[i + 1] - closes[i])
  }

  function Mapped(f: real -> real, xs: seq<real>): (r: seq<real>)
    ensures |r| == |xs|
  {
    seq(|xs|, (i: nat) requires i < |xs| => f(xs[i]))
  }

  /** Wilder's step with weight 1 / period. */
  function Wilder(avg: real, x: real, period: int): real
    requires period >= 1
  {
    (avg * (period as real - 1.0) + x) / period as real
  }

  /** The average of f over the changes: plain over the first period, then Wilder's. */
  function WilderAverage(f: real -> real, changes: seq<real>, period: int): real
    requires 1 <= period <= |changes|
  {
    if |changes| == period then Sum(Mapped(f, changes)) / period as real
    else Wilder(WilderAverage(f, changes[..|changes| - 1], period), f(changes[|changes| - 1]), period)
  }

  /** The middle branch stands for a division the original never makes: averages are not
      negative (StrengthWithin). */
  function Strength(avgGain: real, avgLoss: real): real {
    if avgLoss == 0.0 then 100.0
    else if 1.0 + avgGain / avgLoss == 0.0 then 0.0
    else 100.0 - 100.0 / (1.0 + avgGain / avgLoss)
  }

  function Rsi(closes: seq<real>, period: int): real {
    if |closes| < period + 1 || period <= 0 then 0.0
    else Strength(WilderAverage(Gain, Changes(closes), period), WilderAverage(Loss, Changes(closes), period))
  }

  /** A step moves the average by one period-th of the way to the new value. */
  lemma WilderMoves(avg: real, x: real, period: int)
    requires period >= 1
    ensures Product(Wilder(avg, x, period) - avg, period as real) == x - avg
  {
    var n := period as real;
    assert (avg * (n - 1.0) + x) / n * n == avg * (n - 1.0) + x;
  }

  /** The index is the gains' share of all movement, in percent; without losses it is one hundred. */
  lemma StrengthIsShare(g: real, l: real)
    requires g >= 0.0 && l >= 0.0
    ensures l == 0.0 ==> Strength(g, l) == 100.0
    ensures l > 0.0 ==> Product(Strength(g, l), g + l) == 100.0 * g
  {
    if l > 0.0 {
      QuotientNonneg(g, l);
      var rs := g / l;
      assert rs * l == g;
      var q := 100.0 / (1.0 + rs);
      assert q * (1.0 + rs) == 100.0;
      ShareReals(g, l, rs, q);
    }
  }

  lemma ShareReals(g: real, l: real, rs: real, q: real)
    requires rs * l == g && q * (1.0 + rs) == 100.0
    ensures Product(100.0 - q, g + l) == 100.0 * g
  {
    assert g + l == (1.0 + rs) * l;
    assert q * (g + l) == 100.0 * l by { assert q * ((1.0 + rs) * l) == q * (1.0 + rs) * l; }
  }

  /** Gains and losses split every change: their averages differ by the average change, and the
      index weighs the one against the sum of both. */
  lemma {:induction false} AveragesSplitChange(changes: seq<real>, period: int)
    requires 1 <= period <= |changes|
    ensures WilderAverage(Gain, changes, period) - WilderAverage(Loss, changes, period)
         == WilderAverage(Itself, changes, period)
    decreases |changes|
  {
    if |changes| == period {
      SumsSplit(changes);
      QuotientsSplit(Sum(Mapped(Gain, changes)), Sum(Mapped(Loss, changes)), period as real);
    } else {
      var n := |changes| - 1;
      AveragesSplitChange(changes[..n], period);
      WildersSplit(WilderAverage(Gain, changes[..n], period), WilderAverage(Loss, changes[..n], period),
                   Gain(changes[n]), Loss(changes[n]), period);
    }
  }

  lemma {:induction false} SumsSplit(xs: seq<real>)
    ensures Sum(Mapped(Gain, xs)) - Sum(Mapped(Loss, xs)) == Sum(Mapped(Itself, xs))
    decreases |xs|
  {
    if xs != [] {
      SumsSplit(xs[..|xs| - 1]);
      SumMapped(Gain, xs);
      SumMapped(Loss, xs);
      SumMapped(Itself, xs);
      var x := xs[|xs| - 1];
      assert Gain(x) - Loss(x) == Itself(x);
    }
  }

  lemma {:induction false} SumMapped(f: real -> real, xs: seq<real>)
    requires xs != []
    ensures Sum(Mapped(f, xs)) == Sum(Mapped(f, xs[..|xs| - 1])) + f(xs[|xs| - 1])
  {
    var n := |xs| - 1;
    assert Mapped(f, xs)[..n] == Mapped(f, xs[..n]);
    assert Mapped(f, xs)[n] == f(xs[n]);
  }

  lemma QuotientsSplit(a: real, b: real, n: real)
    requires n > 0.0
    ensures a / n - b / n == (a - b) / n
  {
    assert (a / n - b / n) * n == a - b;
    DivideBack(a - b, n, a / n - b / n);
  }

  lemma WildersSplit(a: real, b: real, x: real, y: real, period: int)
    requires period >= 1
    ensures Wilder(a, x, period) - Wilder(b, y, period) == Wilder(a - b, x - y, period)
  {
    var n := period as real;
    QuotientsSplit(a * (n - 1.0) + x, b * (n - 1.0) + y, n);
    assert a * (n - 1.0) + x - (b * (n - 1.0) + y) == (a - b) * (n - 1.0) + (x - y);
  }

  lemma {:induction false} RsiIsShare(closes: seq<real>, period: int)
    requires 1 <= period && period + 1 <= |closes|
    ensures var g, l := WilderAverage(Gain, Changes(closes), period), WilderAverage(Loss, Changes(closes), period);
            && g >= 0.0 && l >= 0.0 && g - l == WilderAverage(Itself, Changes(closes), period)
            && (l == 0.0 ==> Rsi(closes, period) == 100.0)
            && (l > 0.0 ==> Product(Rsi(closes, period), g + l) == 100.0 * g)
  {
    WilderAverageNonneg(Gain, Changes(closes), period);
    WilderAverageNonneg(Loss, Changes(closes), period);
    AveragesSplitChange(Changes(closes), period);
    StrengthIsShare(WilderAverage(Gain, Changes(closes), period), WilderAverage(Loss, Changes(closes), period));
  }

  lemma {:induction false} WilderAverageNonneg(f: real -> real, changes: seq<real>, period: int)
    requires 1 <= period <= |changes| && forall i :: 0 <= i < |changes| ==> f(changes[i]) >= 0.0
    ensures WilderAverage(f, changes, period) >= 0.0
  {
    if |changes| == period {
      var gs := Mapped(f, changes);
      forall i | 0 <= i < |gs| ensures gs[i] >= 0.0 { assert gs[i] == f(changes[i]); }
      SumNonneg(gs);
      QuotientNonneg(Sum(Mapped(f, changes)), period as real);
    } else {
      WilderAverageNonneg(f, changes[..|changes| - 1], period);
      WilderNonneg(WilderAverage(f, changes[..|changes| - 1], period), f(changes[|changes| - 1]), period);
    }
  }

  lemma WilderNonneg(avg: real, x: real, period: int)
    requires avg >= 0.0 && x >= 0.0 && period >= 1
    ensures Wilder(avg, x, period) >= 0.0
  {
    assert avg * (period as real - 1.0) >= 0.0;
    QuotientNonneg(avg * (period as real - 1.0) + x, period as real);
  }

  lemma StrengthWithin(avgGain: real, avgLoss: real)
    requires avgGain >= 0.0 && avgLoss >= 0.0
    ensures 0.0 <= Strength(avgGain, avgLoss) <= 100.0
  {
    if avgLoss > 0.0 {
      QuotientNonneg(avgGain, avgLoss);
      var d := 1.0 + avgGain / avgLoss;
      QuotientNonneg(100.0, d);
      QuotientWithin(100.0, d, 0.0, 100.0);
    }
  }

  /** The relative strength index of any closes is a percentage. */
  lemma {:induction false} RsiWithin(closes: seq<real>, period: int)
    ensures 0.0 <= Rsi(closes, period) <= 100.0
  {
    if 1 <= period && period + 1 <= |closes| {
      WilderAverageNonneg(Gain, Changes(closes), period);
      WilderAverageNonneg(Loss, Changes(closes), period);
      StrengthWithin(WilderAverage(Gain, Changes(closes), period), WilderAverage(Loss, Changes(closes), period));
    }
  }

  /** The shared start of both loops: the plain averages of the first period. */
  method SeedAverages(changes: seq<real>, period: int) returns (avgGain: real, avgLoss: real)
    requires 1 <= period <= |changes|
    ensures avgGain == WilderAverage(Gain, changes[..period], period)
    ensures avgLoss == WilderAverage(Loss, changes[..period], period)
  {
    var gains := Total(Mapped(Gain, changes[..period]));
    var losses := Total(Mapped(Loss, changes[..period]));
    avgGain, avgLoss := gains / period as real, losses / period as real;
  }

  method CalculateRsi(closes: seq<real>, period: int) returns (rsi: real)
    ensures rsi == Rsi(closes, period) && 0.0 <= rsi <= 100.0
  {
    RsiWithin(closes, period);
    if |closes| < period + 1 || period <= 0 {
      return 0.0;
    }
    var changes := Changes(closes);
    var avgGain, avgLoss := SeedAverages(changes, period);
    for i := period to |changes|
      invariant avgGain == WilderAverage(Gain, changes[..i], period)
      invariant avgLoss == WilderAverage(Loss, changes[..i], period)
    {
      assert changes[..i + 1][..i] == changes[..i];
      avgGain := Wilder(avgGain, Gain(changes[i]), period);
      avgLoss := Wilder(avgLoss, Loss(changes[i]), period);
    }
    assert changes[..|changes|] == changes;
    rsi := Strength(avgGain, avgLoss);
  }

  /** One value per change from the period on. */
  function StrengthSeries(changes: seq<real>, period: int): (r: seq<real>)
    requires 1 <= period
    ensures |r| == if |changes| < period then 0 else |changes| - period + 1
    decreases |changes|
  {
    if |changes| < period then []
    else
      StrengthSeries(changes[..|changes| - 1], period)
      + [Strength(WilderAverage(Gain, changes, period), WilderAverage(Loss, changes, period))]
  }

  lemma {:induction false} SeriesIsRsi(closes: seq<real>, period: int, n: nat, i: nat)
    requires 1 <= period < n <= |closes| && i < n - period
    ensures StrengthSeries(Changes(closes)[..n - 1], period)[i] == Rsi(closes[..period + 1 + i], period)
    decreases n
  {
    if i == n - period - 1 {
      ChangesPrefix(closes, n);
    } else {
      SeriesIsRsi(closes, period, n - 1, i);
      assert Changes(closes)[..n - 1][..n - 2] == Changes(closes)[..n - 2];
    }
  }

  /** Element i is the index after the first period + 1 + i closes, so the last element is
      what CalculateRsi returns. */
  lemma {:induction false} SeriesElements(closes: seq<real>, period: int)
    requires 1 <= period < |closes|
    ensures var values := StrengthSeries(Changes(closes), period);
            && |values| == |closes| - period && values[|values| - 1] == Rsi(closes, period)
            && forall i :: 0 <= i < |values| ==>
                 values[i] == Rsi(closes[..period + 1 + i], period) && 0.0 <= values[i] <= 100.0
  {
    var values := StrengthSeries(Changes(closes), period);
    assert Changes(closes)[..|closes| - 1] == Changes(closes);
    forall i | 0 <= i < |values|
      ensures values[i] == Rsi(closes[..period + 1 + i], period) && 0.0 <= values[i] <= 100.0
    {
      SeriesIsRsi(closes, period, |closes|, i);
      RsiWithin(closes[..period + 1 + i], period);
    }
    assert closes[..period + 1 + (|values| - 1)] == closes;
  }

  method CalculateRsiSeries(closes: seq<real>, period: int) returns (values: seq<real>)
    ensures |closes| < period + 1 || period <= 0 ==> values == []
    ensures |closes| >= period + 1 && period > 0 ==> values == StrengthSeries(Changes(closes), period)
  {
    if |closes| < period + 1 || period <= 0 {
      return [];
    }
    var changes := Changes(closes);
    var avgGain, avgLoss := SeedAverages(changes, period);
    values := [] + [Strength(avgGain, avgLoss)];
    for i := period to |changes|
      invariant avgGain == WilderAverage(Gain, changes[..i], period)
      invariant avgLoss == WilderAverage(Loss, changes[..i], period)
      invariant values == StrengthSeries(changes[..i], period)
    {
      WilderStep(Gain, changes, period, i);
      WilderStep(Loss, changes, period, i);
      avgGain := Wilder(avgGain, Gain(changes[i]), period);
      avgLoss := Wilder(avgLoss, Loss(changes[i]), period);
      assert changes[..i + 1][..i] == changes[..i];
      values := values + [Strength(avgGain, avgLoss)];
    }
    assert changes[..|changes|] == changes;
  }

  lemma WilderStep(f: real -> real, changes: seq<real>, period: int, i: nat)
    requires 1 <= period <= i < |changes|
    ensures WilderAverage(f, changes[..i + 1], period)
         == Wilder(WilderAverage(f, changes[..i], period), f(changes[i]), period)
  {
    assert changes[..i + 1][..i] == changes[..i];
  }

  lemma {:induction false} ChangesPrefix(closes: seq<real>, n: nat)
    requires 1 <= n <= |closes|
    ensures Changes(closes[..n]) == Changes(closes)[..n - 1]
  {
  }
}
