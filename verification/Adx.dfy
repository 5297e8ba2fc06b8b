/** The average directional index: directional movements and true ranges under Wilder's
    running sums. Bars are three sequences, oldest first. */
module Adx {
  import opened Reals
  import opened RealSeq
  import MovingAverages

  // ------------------------------------------------------------------ one bar

  /** The upward movement of a bar when it is the larger one. */
  function PlusMove(h: real, l: real, h0: real, l0: real): real {
    if h - h0 > l0 - l && h - h0 > 0.0 then h - h0 else 0.0
  }

  function MinusMove(h: real, l: real, h0: real, l0: real): real {
    if l0 - l > h - h0 && l0 - l > 0.0 then l0 - l else 0.0
  }

  function TrueRange(h: real, l: real, c0: real): real {
    Max(h - l, Max(Abs(h - c0), Abs(l - c0)))
  }

  /** A movement never exceeds the true range once the previous close lies in its bar. */
  lemma MovesFitRange(h: real, l: real, h0: real, l0: real, c0: real)
    ensures PlusMove(h, l, h0, l0) >= 0.0 && MinusMove(h, l, h0, l0) >= 0.0 && TrueRange(h, l, c0) >= 0.0
    ensures l0 <= c0 <= h0 ==> PlusMove(h, l, h0, l0) + MinusMove(h, l, h0, l0) <= TrueRange(h, l, c0)
  {
  }

  /** The true range is the span of the bar together with the close before. */
  lemma TrueRangeIsSpan(h: real, l: real, c0: real)
    requires l <= h
    ensures TrueRange(h, l, c0) == Max(h, c0) - Min(l, c0)
  {
  }

  /** The moves are those of the bar's two ends, and at most one of them counts: the larger one. */
  lemma MovesExclude(h: real, l: real, h0: real, l0: real)
    ensures var up, down, p, m := h - h0, l0 - l, PlusMove(h, l, h0, l0), MinusMove(h, l, h0, l0);
            && (p > 0.0 ==> p == up && m == 0.0) && (m > 0.0 ==> m == down && p == 0.0)
            && (p == 0.0 && m == 0.0 <==> up == down || (up <= 0.0 && down <= 0.0))
            && p + m >= 0.0 && (p + m > 0.0 ==> p + m == Max(up, down))
  {
  }

  /** A bar that opens no gap fits, whatever the close before; after a gap the close has to be on
      the near side of it, or as far beyond as the bar has moved. */
  predicate MoveFits(h: real, l: real, h0: real, l0: real, c0: real) {
    && (l > h0 ==> c0 <= h0 || c0 >= l + (h - h0))
    && (h < l0 ==> c0 >= l0 || c0 <= h - (l0 - l))
  }

  /** Exactly then do the movements fit the range. */
  lemma MovesFitIff(h: real, l: real, h0: real, l0: real, c0: real)
    requires l <= h && l0 <= h0
    ensures PlusMove(h, l, h0, l0) + MinusMove(h, l, h0, l0) <= TrueRange(h, l, c0) <==> MoveFits(h, l, h0, l0, c0)
  {
  }

  // ------------------------------------------------------------------ running sums

  /** What a running sum keeps when a bar arrives. */
  function Kept(s: real, period: int): real
    requires period >= 1
  {
    s - s / period as real
  }

  /** The sum of the first `period` values, then Wilder's running sum. */
  function Running(xs: seq<real>, period: int): real
    requires period >= 1
    decreases |xs|
  {
    if |xs| <= period then Sum(xs) else Kept(Running(xs[..|xs| - 1], period), period) + xs[|xs| - 1]
  }

  lemma KeptAdds(a: real, b: real, period: int)
    requires period >= 1
    ensures Kept(a, period) + Kept(b, period) == Kept(a + b, period)
  {
    var n := period as real;
    assert (a / n + b / n) * n == a + b;
  }

  lemma KeptOrder(a: real, b: real, period: int)
    requires period >= 1 && a <= b
    ensures Kept(a, period) <= Kept(b, period)
  {
    var n, q := period as real, (b - a) / period as real;
    assert q * n == b - a;
    if q < 0.0 { assert q * n < 0.0; }
    assert (b / n - a / n) * n == b - a;
    assert (n - 1.0) * q >= 0.0;
  }

  lemma {:induction false} RunningNonneg(xs: seq<real>, period: int)
    requires period >= 1 && forall i :: 0 <= i < |xs| ==> xs[i] >= 0.0
    ensures Running(xs, period) >= 0.0
    decreases |xs|
  {
    if |xs| <= period {
      SumNonneg(xs);
    } else {
      RunningNonneg(xs[..|xs| - 1], period);
      KeptOrder(0.0, Running(xs[..|xs| - 1], period), period);
      assert Kept(0.0, period) == 0.0;
    }
  }

  predicate SumsBelow(ps: seq<real>, ms: seq<real>, ts: seq<real>) {
    |ps| == |ms| == |ts| && forall i :: 0 <= i < |ts| ==> ps[i] + ms[i] <= ts[i]
  }

  /** A bound that holds bar by bar holds for the running sums. */
  lemma {:induction false} RunningBelow(ps: seq<real>, ms: seq<real>, ts: seq<real>, period: int)
    requires period >= 1 && SumsBelow(ps, ms, ts)
    ensures Running(ps, period) + Running(ms, period) <= Running(ts, period)
    decreases |ts|
  {
    if ts != [] {
      var n := |ts| - 1;
      RunningBelow(ps[..n], ms[..n], ts[..n], period);
      if n >= period {
        KeptAdds(Running(ps[..n], period), Running(ms[..n], period), period);
        KeptOrder(Running(ps[..n], period) + Running(ms[..n], period), Running(ts[..n], period), period);
      } else {
        RunningIsSum(ps, period);
        RunningIsSum(ms, period);
        RunningIsSum(ts, period);
      }
    }
  }

  lemma RunningIsSum(xs: seq<real>, period: int)
    requires 0 < |xs| <= period
    ensures Running(xs, period) == Running(xs[..|xs| - 1], period) + xs[|xs| - 1]
  {
  }

  // ------------------------------------------------------------------ the index

  /** A directional indicator, in percent of the range. */
  function Indicator(move: real, range: real): real
    requires range != 0.0
  {
    move / range * 100.0
  }

  /** How one-sided the two indicators are. */
  function Imbalance(p: real, m: real): real {
    if p + m == 0.0 then 0.0 else Abs(p - m) / (p + m) * 100.0
  }

  /** One value per bar from index `period` on, none for a bar with an empty range. */
  function Imbalances(ps: seq<real>, ms: seq<real>, ts: seq<real>, period: int): seq<real>
    requires period >= 1 && |ps| == |ms| == |ts|
    decreases |ts|
  {
    if |ts| <= period then []
    else
      var before := Imbalances(ps[..|ts| - 1], ms[..|ts| - 1], ts[..|ts| - 1], period);
      var t := Running(ts, period);
      if t == 0.0 then before
      else before + [Imbalance(Indicator(Running(ps, period), t), Indicator(Running(ms, period), t))]
  }

  /** Wilder's average of the one-sidedness. */
  function Averaged(ds: seq<real>, period: int): real
    requires 1 <= period <= |ds|
    decreases |ds|
  {
    if |ds| == period then Sum(ds) / period as real
    else MovingAverages.Wilder(Averaged(ds[..|ds| - 1], period), ds[|ds| - 1], period)
  }

  datatype Index = Index(adx: real, plus: real, minus: real)

  function IndexOf(ps: seq<real>, ms: seq<real>, ts: seq<real>, period: int): Index
    requires period >= 1 && |ps| == |ms| == |ts|
  {
    var ds := Imbalances(ps, ms, ts, period);
    if |ds| < period then Index(0.0, 0.0, 0.0)
    else
      var t := Running(ts, period);
      if t == 0.0 then Index(Averaged(ds, period), 0.0, 0.0)
      else Index(Averaged(ds, period), Indicator(Running(ps, period), t), Indicator(Running(ms, period), t))
  }

  function Min3(a: nat, b: nat, c: nat): nat {
    var m := if a <= b then a else b;
    if m <= c then m else c
  }

  function PlusMoves(highs: seq<real>, lows: seq<real>, n: nat): (r: seq<real>)
    requires 1 <= n <= |highs| && n <= |lows|
    ensures |r| == n - 1
  {
    seq(n - 1, (i: nat) requires i < n - 1 => PlusMove(highs[i + 1], lows[i + 1], highs[i], lows[i]))
  }

  function MinusMoves(highs: seq<real>, lows: seq<real>, n: nat): (r: seq<real>)
    requires 1 <= n <= |highs| && n <= |lows|
    ensures |r| == n - 1
  {
    seq(n - 1, (i: nat) requires i < n - 1 => MinusMove(highs[i + 1], lows[i + 1], highs[i], lows[i]))
  }

  function TrueRanges(highs: seq<real>, lows: seq<real>, closes: seq<real>, n: nat): (r: seq<real>)
    requires 1 <= n <= |highs| && n <= |lows| && n <= |closes|
    ensures |r| == n - 1
  {
    seq(n - 1, (i: nat) requires i < n - 1 => TrueRange(highs[i + 1], lows[i + 1], closes[i]))
  }

  /** The index of three price series of possibly different lengths. */
  function AdxOf(highs: seq<real>, lows: seq<real>, closes: seq<real>, period: int): Index {
    var n := Min3(|highs|, |lows|, |closes|);
    if n < 2 * period + 1 || period <= 0 then Index(0.0, 0.0, 0.0)
    else IndexOf(PlusMoves(highs, lows, n), MinusMoves(highs, lows, n), TrueRanges(highs, lows, closes, n), period)
  }

  // ------------------------------------------------------------------ its bounds

  lemma ImbalanceWithin(p: real, m: real)
    requires p >= 0.0 && m >= 0.0
    ensures 0.0 <= Imbalance(p, m) <= 100.0
  {
    if p + m != 0.0 { QuotientWithin(Abs(p - m), p + m, 0.0, 1.0); }
  }

  lemma IndicatorsFit(p: real, m: real, t: real)
    requires p >= 0.0 && m >= 0.0 && t > 0.0
    ensures Indicator(p, t) >= 0.0 && Indicator(m, t) >= 0.0
    ensures p + m <= t ==> Indicator(p, t) + Indicator(m, t) <= 100.0
  {
    var a, b := p / t, m / t;
    assert a * t == p && b * t == m;
    ProductSign(a, t);
    ProductSign(b, t);
    ProductMonotone(a + b, 1.0, t);
  }

  predicate Percentages(ds: seq<real>) {
    forall i :: 0 <= i < |ds| ==> 0.0 <= ds[i] <= 100.0
  }

  predicate Nonneg(xs: seq<real>) {
    forall i :: 0 <= i < |xs| ==> xs[i] >= 0.0
  }

  lemma {:induction false} ImbalancesWithin(ps: seq<real>, ms: seq<real>, ts: seq<real>, period: int)
    requires period >= 1 && |ps| == |ms| == |ts| && Nonneg(ps) && Nonneg(ms) && Nonneg(ts)
    ensures Percentages(Imbalances(ps, ms, ts, period))
    decreases |ts|
  {
    if |ts| > period {
      var n := |ts| - 1;
      ImbalancesWithin(ps[..n], ms[..n], ts[..n], period);
      RunningNonneg(ps, period);
      RunningNonneg(ms, period);
      RunningNonneg(ts, period);
      var p, m, t := Running(ps, period), Running(ms, period), Running(ts, period);
      if t != 0.0 {
        IndicatorsFit(p, m, t);
        ImbalanceWithin(Indicator(p, t), Indicator(m, t));
      }
    }
  }

  lemma {:induction false} SumOfPercentages(ds: seq<real>)
    requires Percentages(ds)
    ensures 0.0 <= Sum(ds) <= 100.0 * |ds| as real
  {
    if ds != [] {
      SumOfPercentages(ds[..|ds| - 1]);
      assert |ds| as real == (|ds| - 1) as real + 1.0;
    }
  }

  lemma AveragePercentage(a: real, n: real)
    requires 0.0 <= a <= 100.0 * n && n > 0.0
    ensures 0.0 <= a / n <= 100.0
  {
    QuotientWithin(a, n, 0.0, 100.0);
  }

  lemma WilderWithin(a: real, x: real, period: int)
    requires period >= 1 && 0.0 <= a <= 100.0 && 0.0 <= x <= 100.0
    ensures 0.0 <= MovingAverages.Wilder(a, x, period) <= 100.0
  {
    var n := period as real;
    assert n - 1.0 >= 0.0;
    assert 0.0 <= a * (n - 1.0) && (100.0 - a) * (n - 1.0) >= 0.0;
    AveragePercentage(a * (n - 1.0) + x, n);
  }

  lemma {:induction false} AveragedWithin(ds: seq<real>, period: int)
    requires 1 <= period <= |ds| && Percentages(ds)
    ensures 0.0 <= Averaged(ds, period) <= 100.0
    decreases |ds|
  {
    var n := period as real;
    if |ds| == period {
      SumOfPercentages(ds);
      AveragePercentage(Sum(ds), n);
    } else {
      AveragedWithin(ds[..|ds| - 1], period);
      WilderWithin(Averaged(ds[..|ds| - 1], period), ds[|ds| - 1], period);
    }
  }

  /** Whatever the prices, the index is a percentage and the indicators are not negative;
      with every close inside its bar the two indicators share one hundred percent. */
  lemma {:induction false} AdxIsPercentage(highs: seq<real>, lows: seq<real>, closes: seq<real>, period: int)
    ensures var r := AdxOf(highs, lows, closes, period); 0.0 <= r.adx <= 100.0 && r.plus >= 0.0 && r.minus >= 0.0
    ensures ClosesInside(highs, lows, closes) || AllMovesFit(highs, lows, closes) ==>
              AdxOf(highs, lows, closes, period).plus + AdxOf(highs, lows, closes, period).minus <= 100.0
  {
    var n := Min3(|highs|, |lows|, |closes|);
    if n >= 2 * period + 1 && period > 0 {
      var ps, ms, ts := PlusMoves(highs, lows, n), MinusMoves(highs, lows, n), TrueRanges(highs, lows, closes, n);
      forall i | 0 <= i < n - 1
        ensures ps[i] >= 0.0 && ms[i] >= 0.0 && ts[i] >= 0.0
        ensures ClosesInside(highs, lows, closes) || AllMovesFit(highs, lows, closes) ==> ps[i] + ms[i] <= ts[i]
      {
        MovesFitRange(highs[i + 1], lows[i + 1], highs[i], lows[i], closes[i]);
        if AllMovesFit(highs, lows, closes) {
          MovesFitIff(highs[i + 1], lows[i + 1], highs[i], lows[i], closes[i]);
        }
      }
      IndexWithin(ps, ms, ts, period);
    }
  }

  predicate Ordered(highs: seq<real>, lows: seq<real>) {
    forall i :: 0 <= i < |highs| && i < |lows| ==> lows[i] <= highs[i]
  }

  /** low <= high on every bar, and every move fits. */
  predicate AllMovesFit(highs: seq<real>, lows: seq<real>, closes: seq<real>) {
    && Ordered(highs, lows)
    && forall i :: 0 <= i && i + 1 < |highs| && i + 1 < |lows| && i + 1 < |closes| ==>
         MoveFits(highs[i + 1], lows[i + 1], highs[i], lows[i], closes[i])
  }

  /** low <= close <= high on every bar. */
  predicate ClosesInside(highs: seq<real>, lows: seq<real>, closes: seq<real>) {
    forall i :: 0 <= i < |highs| && i < |lows| && i < |closes| ==> lows[i] <= closes[i] <= highs[i]
  }

  lemma {:induction false} IndexWithin(ps: seq<real>, ms: seq<real>, ts: seq<real>, period: int)
    requires period >= 1 && |ps| == |ms| == |ts| && Nonneg(ps) && Nonneg(ms) && Nonneg(ts)
    ensures var r := IndexOf(ps, ms, ts, period); 0.0 <= r.adx <= 100.0 && r.plus >= 0.0 && r.minus >= 0.0
    ensures SumsBelow(ps, ms, ts) ==> IndexOf(ps, ms, ts, period).plus + IndexOf(ps, ms, ts, period).minus <= 100.0
  {
    ImbalancesWithin(ps, ms, ts, period);
    if |Imbalances(ps, ms, ts, period)| >= period {
      AveragedWithin(Imbalances(ps, ms, ts, period), period);
      RunningNonneg(ps, period);
      RunningNonneg(ms, period);
      RunningNonneg(ts, period);
      if SumsBelow(ps, ms, ts) { RunningBelow(ps, ms, ts, period); }
      if Running(ts, period) != 0.0 {
        IndicatorsFit(Running(ps, period), Running(ms, period), Running(ts, period));
      }
    }
  }

  /** With period 1 the last move decides alone, unless it has no range at all. */
  lemma {:induction false} LastMoveDecides(highs: seq<real>, lows: seq<real>, closes: seq<real>)
    requires |highs| == |lows| == |closes| >= 3 && Ordered(highs, lows)
    ensures var k, r := |highs| - 1, AdxOf(highs, lows, closes, 1);
            r.plus + r.minus <= 100.0 <==>
              TrueRange(highs[k], lows[k], closes[k - 1]) == 0.0
              || MoveFits(highs[k], lows[k], highs[k - 1], lows[k - 1], closes[k - 1])
  {
    var n := |highs|;
    var ps, ms, ts := PlusMoves(highs, lows, n), MinusMoves(highs, lows, n), TrueRanges(highs, lows, closes, n);
    var p, m, t := ps[n - 2], ms[n - 2], ts[n - 2];
    LastOnly(ps);
    LastOnly(ms);
    LastOnly(ts);
    MovesFitRange(highs[n - 1], lows[n - 1], highs[n - 2], lows[n - 2], closes[n - 2]);
    MovesFitIff(highs[n - 1], lows[n - 1], highs[n - 2], lows[n - 2], closes[n - 2]);
    if t != 0.0 {
      assert |Imbalances(ps, ms, ts, 1)| >= 1;
      ShareIff(p, m, t);
    }
  }

  lemma ShareIff(p: real, m: real, t: real)
    requires t > 0.0
    ensures Indicator(p, t) + Indicator(m, t) <= 100.0 <==> p + m <= t
  {
    var a, b := p / t, m / t;
    assert a * t == p && b * t == m;
    ProductMonotone(a + b, 1.0, t);
  }

  /** Closes above their bars break the share without limit: bars of range r that rise by u, each
      close at the next high, have a +DI of u / r in percent. */
  lemma {:induction false} CloseOutsideBreaksShare(u: real, r: real)
    requires u > 0.0 && r > 0.0
    ensures AdxOf([0.0, u, 2.0 * u], [-r, u - r, 2.0 * u - r], [u, 2.0 * u, 2.0 * u], 1).plus == u / r * 100.0
  {
    var h, l, c := [0.0, u, 2.0 * u], [-r, u - r, 2.0 * u - r], [u, 2.0 * u, 2.0 * u];
    var ps, ms, ts := PlusMoves(h, l, 3), MinusMoves(h, l, 3), TrueRanges(h, l, c, 3);
    assert ps == [u, u] && ms == [0.0, 0.0] && ts == [r, r];
    LastOnly(ps);
    LastOnly(ms);
    LastOnly(ts);
    assert |Imbalances(ps, ms, ts, 1)| == 1 by { assert |Imbalances(ps[..1], ms[..1], ts[..1], 1)| == 0; }
  }

  /** With period 1 a running sum is its last value. */
  lemma {:induction false} LastOnly(xs: seq<real>)
    requires |xs| >= 2
    ensures Running(xs, 1) == xs[|xs| - 1]
  {
    var before := xs[..|xs| - 1];
    assert Running(xs, 1) == Kept(Running(before, 1), 1) + xs[|xs| - 1];
    assert Running(before, 1) / 1.0 == Running(before, 1);
  }

  // ------------------------------------------------------------------ steady markets

  /** Wilder's running sum of a constant is `period` times the constant, once it is running. */
  lemma {:induction false} RunningOfConstant(xs: seq<real>, x: real, period: int)
    requires 1 <= period <= |xs| && forall i :: 0 <= i < |xs| ==> xs[i] == x
    ensures Running(xs, period) == Product(period as real, x)
    decreases |xs|
  {
    if |xs| == period {
      SumOfConstant(xs, x);
    } else {
      RunningOfConstant(xs[..|xs| - 1], x, period);
      assert Product(period as real, x) / period as real == x;
    }
  }

  lemma {:induction false} SumOfConstant(xs: seq<real>, x: real)
    requires forall i :: 0 <= i < |xs| ==> xs[i] == x
    ensures Sum(xs) == Product(|xs| as real, x)
    decreases |xs|
  {
    if xs != [] {
      SumOfConstant(xs[..|xs| - 1], x);
      assert |xs| as real == (|xs| - 1) as real + 1.0;
    }
  }

  lemma {:induction false} AveragedOfConstant(ds: seq<real>, d: real, period: int)
    requires 1 <= period <= |ds| && forall i :: 0 <= i < |ds| ==> ds[i] == d
    ensures Averaged(ds, period) == d
    decreases |ds|
  {
    var n := period as real;
    if |ds| == period {
      SumOfConstant(ds, d);
      DivideBack(Sum(ds), n, d);
    } else {
      AveragedOfConstant(ds[..|ds| - 1], d, period);
      assert n * d == d * (n - 1.0) + d;
      DivideBack(d * (n - 1.0) + d, n, d);
    }
  }

  lemma {:induction false} RunningPositive(xs: seq<real>, period: int)
    requires period >= 1 && xs != [] && forall i :: 0 <= i < |xs| ==> xs[i] > 0.0
    ensures Running(xs, period) > 0.0
    decreases |xs|
  {
    var n := |xs| - 1;
    if |xs| <= period {
      SumNonneg(xs);
    } else {
      RunningNonneg(xs[..n], period);
      KeptOrder(0.0, Running(xs[..n], period), period);
      assert Kept(0.0, period) == 0.0;
    }
  }

  lemma {:induction false} RunningZero(xs: seq<real>, period: int)
    requires period >= 1 && forall i :: 0 <= i < |xs| ==> xs[i] == 0.0
    ensures Running(xs, period) == 0.0
    decreases |xs|
  {
    if |xs| <= period {
      SumOfConstant(xs, 0.0);
    } else {
      RunningZero(xs[..|xs| - 1], period);
    }
  }

  /** How one-sided two indicators are: not at all when they are equal, wholly when one is zero,
      and in between the difference's share of the sum. */
  lemma ImbalanceIsShare(p: real, m: real)
    requires p >= 0.0 && m >= 0.0 && p + m > 0.0
    ensures Product(Imbalance(p, m), p + m) == 100.0 * (Max(p, m) - Min(p, m))
    ensures Imbalance(p, m) == Imbalance(m, p)
    ensures m == 0.0 ==> Imbalance(p, m) == 100.0
    ensures p == m ==> Imbalance(p, m) == 0.0
  {
    ShareOf(Abs(p - m), p + m);
    assert m + p == p + m && Abs(p - m) == Abs(m - p) == Max(p, m) - Min(p, m);
    if m == 0.0 { DivideBack(p, p, 1.0); }
    if p == m { DivideBack(0.0, p + m, 0.0); }
  }

  lemma ShareOf(a: real, b: real)
    requires b > 0.0
    ensures Product(a / b * 100.0, b) == 100.0 * a
  {
    var q := a / b;
    assert q * b == a;
    assert q * 100.0 * b == 100.0 * (q * b);
  }

  lemma {:induction false} OneSidedImbalances(ps: seq<real>, ms: seq<real>, ts: seq<real>, period: int)
    requires period >= 1 && |ps| == |ms| == |ts|
    requires forall i :: 0 <= i < |ts| ==> ps[i] > 0.0 && ms[i] == 0.0 && ts[i] > 0.0
    ensures |Imbalances(ps, ms, ts, period)| == if |ts| <= period then 0 else |ts| - period
    ensures forall i :: 0 <= i < |Imbalances(ps, ms, ts, period)| ==> Imbalances(ps, ms, ts, period)[i] == 100.0
    decreases |ts|
  {
    if |ts| > period {
      var n := |ts| - 1;
      OneSidedImbalances(ps[..n], ms[..n], ts[..n], period);
      OneSidedNow(ps, ms, ts, period);
    }
  }

  lemma {:induction false} OneSidedNow(ps: seq<real>, ms: seq<real>, ts: seq<real>, period: int)
    requires period >= 1 && |ps| == |ms| == |ts| >= 1
    requires forall i :: 0 <= i < |ts| ==> ps[i] > 0.0 && ms[i] == 0.0 && ts[i] > 0.0
    ensures Running(ts, period) > 0.0
    ensures Indicator(Running(ms, period), Running(ts, period)) == 0.0
    ensures Indicator(Running(ps, period), Running(ts, period)) > 0.0
    ensures Imbalance(Indicator(Running(ps, period), Running(ts, period)),
                      Indicator(Running(ms, period), Running(ts, period))) == 100.0
  {
    RunningPositive(ps, period);
    RunningZero(ms, period);
    RunningPositive(ts, period);
    var p, t := Running(ps, period), Running(ts, period);
    assert 0.0 / t == 0.0;
    assert p / t * t == p;
    ProductSign(p / t, t);
    ImbalanceIsShare(Indicator(p, t), 0.0);
  }

  /** A market whose highs and lows rise with every bar is all trend: ADX is 100, +DI positive and
      -DI zero, whatever the closes, as long as no bar is a single point at the close before. */
  lemma {:induction false} RisingMarketIsAllTrend(highs: seq<real>, lows: seq<real>, closes: seq<real>, period: int)
    requires |highs| == |lows| == |closes| && 1 <= period && 2 * period + 1 <= |highs| && Ordered(highs, lows)
    requires forall i :: 0 <= i < |highs| - 1 ==>
               highs[i] < highs[i + 1] && lows[i] <= lows[i + 1]
               && TrueRange(highs[i + 1], lows[i + 1], closes[i]) != 0.0
    ensures var r := AdxOf(highs, lows, closes, period); r.adx == 100.0 && r.plus > 0.0 && r.minus == 0.0
  {
    var n := |highs|;
    var ps, ms, ts := PlusMoves(highs, lows, n), MinusMoves(highs, lows, n), TrueRanges(highs, lows, closes, n);
    forall i | 0 <= i < |ts| ensures ps[i] > 0.0 && ms[i] == 0.0 && ts[i] > 0.0 { }
    OneSidedImbalances(ps, ms, ts, period);
    AveragedOfConstant(Imbalances(ps, ms, ts, period), 100.0, period);
    OneSidedNow(ps, ms, ts, period);
  }

  // ------------------------------------------------------------------ the loops

  lemma RunningStep(xs: seq<real>, period: int, i: nat)
    requires 1 <= period <= i < |xs|
    ensures Running(xs[..i + 1], period) == Kept(Running(xs[..i], period), period) + xs[i]
  {
    assert xs[..i + 1][..i] == xs[..i];
  }

  method FirstSum(xs: seq<real>, period: int) returns (s: real)
    requires 1 <= period <= |xs|
    ensures s == Running(xs[..period], period)
  {
    s := Total(xs[..period]);
  }

  method MovesAndRanges(highs: seq<real>, lows: seq<real>, closes: seq<real>, n: nat)
    returns (ps: seq<real>, ms: seq<real>, ts: seq<real>)
    requires 1 <= n <= |highs| && n <= |lows| && n <= |closes|
    ensures ps == PlusMoves(highs, lows, n) && ms == MinusMoves(highs, lows, n)
    ensures ts == TrueRanges(highs, lows, closes, n)
  {
    ps, ms, ts := [], [], [];
    for i := 1 to n
      invariant |ps| == |ms| == |ts| == i - 1
      invariant forall j :: 0 <= j < i - 1 ==> ps[j] == PlusMoves(highs, lows, n)[j]
      invariant forall j :: 0 <= j < i - 1 ==> ms[j] == MinusMoves(highs, lows, n)[j]
      invariant forall j :: 0 <= j < i - 1 ==> ts[j] == TrueRanges(highs, lows, closes, n)[j]
    {
      ps := ps + [PlusMove(highs[i], lows[i], highs[i - 1], lows[i - 1])];
      ms := ms + [MinusMove(highs[i], lows[i], highs[i - 1], lows[i - 1])];
      ts := ts + [TrueRange(highs[i], lows[i], closes[i - 1])];
    }
  }

  /** The loop over the bars after the first `period`: the final sums and the values kept. */
  method Indicators(ps: seq<real>, ms: seq<real>, ts: seq<real>, period: int)
    returns (p: real, m: real, t: real, ds: seq<real>)
    requires 1 <= period <= |ts| && |ps| == |ms| == |ts|
    ensures p == Running(ps, period) && m == Running(ms, period) && t == Running(ts, period)
    ensures ds == Imbalances(ps, ms, ts, period)
  {
    p := FirstSum(ps, period);
    m := FirstSum(ms, period);
    t := FirstSum(ts, period);
    ds := [];
    for i := period to |ts|
      invariant p == Running(ps[..i], period) && m == Running(ms[..i], period) && t == Running(ts[..i], period)
      invariant ds == Imbalances(ps[..i], ms[..i], ts[..i], period)
    {
      RunningStep(ps, period, i);
      RunningStep(ms, period, i);
      RunningStep(ts, period, i);
      assert ps[..i + 1][..i] == ps[..i] && ms[..i + 1][..i] == ms[..i] && ts[..i + 1][..i] == ts[..i];
      p, m, t := Kept(p, period) + ps[i], Kept(m, period) + ms[i], Kept(t, period) + ts[i];
      if t != 0.0 {
        ds := ds + [Imbalance(Indicator(p, t), Indicator(m, t))];
      }
    }
    assert ps[..|ps|] == ps && ms[..|ms|] == ms && ts[..|ts|] == ts;
  }

  method Average(ds: seq<real>, period: int) returns (adx: real)
    requires 1 <= period <= |ds|
    ensures adx == Averaged(ds, period)
  {
    var sum := Total(ds[..period]);
    adx := sum / period as real;
    for i := period to |ds|
      invariant adx == Averaged(ds[..i], period)
    {
      assert ds[..i + 1][..i] == ds[..i];
      adx := MovingAverages.Wilder(adx, ds[i], period);
    }
    assert ds[..|ds|] == ds;
  }

  method CalculateAdx(highs: seq<real>, lows: seq<real>, closes: seq<real>, period: int)
    returns (adx: real, plus: real, minus: real)
    ensures Index(adx, plus, minus) == AdxOf(highs, lows, closes, period)
    ensures 0.0 <= adx <= 100.0 && plus >= 0.0 && minus >= 0.0
    ensures ClosesInside(highs, lows, closes) || AllMovesFit(highs, lows, closes) ==> plus + minus <= 100.0
  {
    AdxIsPercentage(highs, lows, closes, period);
    var n := Min3(|highs|, |lows|, |closes|);
    if n < 2 * period + 1 || period <= 0 {
      return 0.0, 0.0, 0.0;
    }
    var ps, ms, ts := MovesAndRanges(highs, lows, closes, n);
    var p, m, t, ds := Indicators(ps, ms, ts, period);
    if |ds| < period {
      return 0.0, 0.0, 0.0;
    }
    adx := Average(ds, period);
    if t == 0.0 {
      return adx, 0.0, 0.0;
    }
    plus, minus := Indicator(p, t), Indicator(m, t);
  }
}
