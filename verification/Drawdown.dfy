/** The maximum drawdown of an equity curve, found in one pass. */
module Drawdown {
  import opened Sequences
  import opened Reals

  /** The loss from a peak, in percent of the peak. */
  function Drop(peak: real, e: real): real
    requires peak > 0.0
  {
    (peak - e) / peak * 100.0
  }

  datatype Pass = Pass(peak: real, pct: real, value: real)

  function Visit(p: Pass, e: real): Pass {
    var peak := if e > p.peak then e else p.peak;
    if peak > 0.0 && Drop(peak, e) > p.pct then Pass(peak, Drop(peak, e), peak - e)
    else Pass(peak, p.pct, p.value)
  }

  function Scan(curve: seq<real>): Pass
    requires curve != []
    decreases |curve|
  {
    if |curve| == 1 then Pass(curve[0], 0.0, 0.0) else Visit(Scan(curve[..|curve| - 1]), curve[|curve| - 1])
  }

  /** Four decimal places, ties to even. */
  function Rounded(x: real): real { HalfEven(x * 10000.0) as real / 10000.0 }

  method MaxDrawdown(curve: seq<real>) returns (pct: real, value: real)
    ensures curve == [] ==> pct == 0.0 && value == 0.0
    ensures curve != [] ==> pct == Rounded(Scan(curve).pct) && value == Rounded(Scan(curve).value)
    ensures curve != [] ==> Abs(pct - Scan(curve).pct) <= 0.00005 && Abs(value - Scan(curve).value) <= 0.00005
  {
    if curve == [] {
      return 0.0, 0.0;
    }
    var peak, maxPct, maxValue := curve[0], 0.0, 0.0;
    for i := 0 to |curve|
      invariant Pass(peak, maxPct, maxValue) == if i == 0 then Pass(curve[0], 0.0, 0.0) else Scan(curve[..i])
    {
      VisitFirst(curve[0]);
      assert curve[..i + 1][..i] == curve[..i];
      var e := curve[i];
      if e > peak {
        peak := e;
      }
      if peak > 0.0 {
        var drop := Drop(peak, e);
        if drop > maxPct {
          maxPct, maxValue := drop, peak - e;
        }
      }
    }
    assert curve[..|curve|] == curve;
    pct, value := Rounded(maxPct), Rounded(maxValue);
    RoundedNear(maxPct);
    RoundedNear(maxValue);
  }

  /** Rounding moves a number by at most half of the fourth decimal. */
  lemma RoundedNear(x: real)
    ensures Abs(Rounded(x) - x) <= 0.00005
  {
    HalfEvenIff(x * 10000.0, HalfEven(x * 10000.0));
  }

  lemma VisitFirst(e: real)
    ensures Visit(Pass(e, 0.0, 0.0), e) == Pass(e, 0.0, 0.0)
  {
    if e > 0.0 { DropSign(e, e); }
  }

  lemma DropSign(peak: real, e: real)
    requires peak > 0.0
    ensures Drop(peak, e) > 0.0 <==> e < peak
    ensures Drop(peak, e) > 100.0 <==> e < 0.0
    ensures Drop(peak, peak) == 0.0
  {
    var q := (peak - e) / peak;
    assert q * peak == peak - e;
    if q <= 0.0 { assert q * peak <= 0.0; } else { assert q * peak > 0.0; }
    if q <= 1.0 { assert (1.0 - q) * peak >= 0.0; } else { assert (q - 1.0) * peak > 0.0; }
    assert 0.0 / peak == 0.0;
  }

  /** For a value that is not negative a higher peak means a deeper drop; below zero the lower
      peak does. */
  lemma DropByPeak(p: real, q: real, e: real)
    requires 0.0 < p < q
    ensures e >= 0.0 ==> Drop(p, e) <= Drop(q, e)
    ensures e < 0.0 ==> Drop(p, e) > Drop(q, e)
  {
    DropAsQuotient(p, e);
    DropAsQuotient(q, e);
    QuotientOrder(p, q, e / p, e / q);
  }

  lemma DropAsQuotient(p: real, e: real)
    requires p > 0.0
    ensures Drop(p, e) == 100.0 - 100.0 * (e / p) && Product(p, e / p) == e
  {
    Complement(p, e, (p - e) / p, e / p);
  }

  lemma Complement(p: real, e: real, a: real, b: real)
    requires p > 0.0 && a * p == p - e && b * p == e
    ensures a == 1.0 - b && Product(p, b) == e
  {
    var d := a + b - 1.0;
    assert d * p == a * p + b * p - p;
    ProductSign(d, p);
    assert Product(p, b) == b * p;
  }

  lemma QuotientOrder(p: real, q: real, a: real, b: real)
    requires 0.0 < p < q && Product(p, a) == Product(q, b)
    ensures Product(p, a) >= 0.0 ==> a >= b
    ensures Product(p, a) < 0.0 ==> a < b
  {
    Signs(p, a);
    Signs(q - p, b);
    Signs(q, b);
    Signs(p, a - b);
    assert Product(p, a - b) == Product(q - p, b);
  }

  lemma Signs(p: real, a: real)
    requires p > 0.0
    ensures Product(p, a) >= 0.0 <==> a >= 0.0
  {
    ProductSign(a, p);
  }

  /** The running peak is the maximum. */
  lemma {:induction false} PeakIsMaximum(curve: seq<real>)
    requires curve != []
    ensures forall i :: 0 <= i < |curve| ==> curve[i] <= Scan(curve).peak
    ensures Scan(curve).peak in curve && Scan(curve).pct >= 0.0
    decreases |curve|
  {
    if |curve| > 1 { PeakIsMaximum(curve[..|curve| - 1]); }
  }

  lemma {:induction false} ScanGrows(curve: seq<real>, n: nat)
    requires 1 <= n <= |curve|
    ensures Scan(curve[..n]).pct <= Scan(curve).pct
    decreases |curve|
  {
    if n == |curve| {
      assert curve[..n] == curve;
    } else {
      ScanGrows(curve[..|curve| - 1], n);
      assert curve[..|curve| - 1][..n] == curve[..n];
    }
  }

  /** For every curve the result bounds the drop of each point from the maximum so far. */
  lemma {:induction false} BoundsRunningDrops(curve: seq<real>, j: nat)
    requires j < |curve| && Scan(curve[..j + 1]).peak > 0.0
    ensures Drop(Scan(curve[..j + 1]).peak, curve[j]) <= Scan(curve).pct
  {
    ScanGrows(curve, j + 1);
    if j == 0 { DropSign(curve[0], curve[0]); }
    var pre := curve[..j + 1];
    assert j > 0 ==> Scan(pre) == Visit(Scan(pre[..j]), pre[j]);
  }

  /** It is itself the drop between two points, with the value that goes with them. */
  lemma {:induction false} Attained(curve: seq<real>) returns (i: nat, j: nat)
    requires curve != []
    ensures i <= j < |curve|
    ensures Scan(curve).pct == 0.0 ==> Scan(curve).value == 0.0
    ensures Scan(curve).pct != 0.0 ==>
              && curve[i] > 0.0 && Scan(curve).pct == Drop(curve[i], curve[j])
              && Scan(curve).value == curve[i] - curve[j]
    decreases |curve|
  {
    i, j := 0, 0;
    if |curve| > 1 {
      var n := |curve| - 1;
      i, j := Attained(curve[..n]);
      PeakIsMaximum(curve[..n]);
      PeakIsMaximum(curve);
      if Scan(curve).pct != Scan(curve[..n]).pct {
        var k :| 0 <= k < |curve| && curve[k] == Scan(curve).peak;
        i, j := k, n;
      }
    }
  }

  predicate Solvent(curve: seq<real>) { forall i :: 0 <= i < |curve| ==> curve[i] >= 0.0 }

  /** The one pass bounds the drop over every pair of points in order whose later point is not
      negative: for curves that never go negative it is the maximum (with Attained). */
  lemma {:induction false} BoundsAllPairs(curve: seq<real>, i: nat, j: nat)
    requires i <= j < |curve| && curve[i] > 0.0 && curve[j] >= 0.0
    ensures Drop(curve[i], curve[j]) <= Scan(curve).pct
  {
    var pre := curve[..j + 1];
    PeakIsMaximum(pre);
    assert pre[i] == curve[i];
    BoundsRunningDrops(curve, j);
    if curve[i] < Scan(pre).peak { DropByPeak(curve[i], Scan(pre).peak, curve[j]); }
  }

  /** If the point that sets the result lies below zero, every smaller positive value before it
      drops further than the peak did, and the pass has missed it. */
  lemma {:induction false} RuinIsMissed(curve: seq<real>, i: nat, k: nat)
    requires i <= k < |curve| && curve[k] < 0.0 && 0.0 < curve[i] < Scan(curve[..k + 1]).peak
    requires Scan(curve).pct == Drop(Scan(curve[..k + 1]).peak, curve[k])
    ensures Scan(curve).pct < Drop(curve[i], curve[k])
  {
    DropByPeak(curve[i], Scan(curve[..k + 1]).peak, curve[k]);
  }

  /** The pass that would be needed beside it: the least positive value so far, and the greatest
      drop from it to a point below zero. */
  datatype Low = Low(least: Option<real>, pct: real)

  function LowVisit(p: Low, e: real): Low
    requires p.least.Some? ==> p.least.value > 0.0
  {
    if e > 0.0 then Low(Some(if p.least.None? then e else Min(p.least.value, e)), p.pct)
    else if e < 0.0 && p.least.Some? && Drop(p.least.value, e) > p.pct then Low(p.least, Drop(p.least.value, e))
    else p
  }

  function LowScan(curve: seq<real>): (p: Low)
    ensures p.least.Some? ==> p.least.value > 0.0
    decreases |curve|
  {
    if curve == [] then Low(None, 0.0) else LowVisit(LowScan(curve[..|curve| - 1]), curve[|curve| - 1])
  }

  lemma {:induction false} LeastIsMinimum(curve: seq<real>, i: nat)
    requires i < |curve| && curve[i] > 0.0
    ensures LowScan(curve).least.Some? && LowScan(curve).least.value <= curve[i]
    decreases |curve|
  {
    var n := |curve| - 1;
    if i < n {
      LeastIsMinimum(curve[..n], i);
      assert curve[..n][i] == curve[i];
    }
  }

  lemma {:induction false} LowGrows(curve: seq<real>, n: nat)
    requires n <= |curve|
    ensures LowScan(curve[..n]).pct <= LowScan(curve).pct
    decreases |curve|
  {
    if n == |curve| {
      assert curve[..n] == curve;
    } else {
      LowGrows(curve[..|curve| - 1], n);
      assert curve[..|curve| - 1][..n] == curve[..n];
    }
  }

  lemma {:induction false} LowBounds(curve: seq<real>, i: nat, j: nat)
    requires i <= j < |curve| && curve[i] > 0.0 && curve[j] < 0.0
    ensures Drop(curve[i], curve[j]) <= LowScan(curve).pct
  {
    var pre := curve[..j];
    assert pre[i] == curve[i];
    LeastIsMinimum(pre, i);
    LowGrows(curve, j + 1);
    assert curve[..j + 1][..j] == pre;
    var least := LowScan(pre).least.value;
    if least < curve[i] { DropByPeak(least, curve[i], curve[j]); }
  }

  lemma {:induction false} LeastIsThere(curve: seq<real>) returns (i: nat)
    requires LowScan(curve).least.Some?
    ensures i < |curve| && curve[i] == LowScan(curve).least.value
    decreases |curve|
  {
    var n := |curve| - 1;
    i := n;
    if LowScan(curve).least.value != curve[n] || curve[n] <= 0.0 {
      i := LeastIsThere(curve[..n]);
    }
  }

  lemma {:induction false} LowAttained(curve: seq<real>) returns (i: nat, j: nat)
    requires LowScan(curve).pct != 0.0
    ensures i <= j < |curve| && curve[i] > 0.0 && curve[j] < 0.0
    ensures LowScan(curve).pct == Drop(curve[i], curve[j])
    decreases |curve|
  {
    var n := |curve| - 1;
    var pre := curve[..n];
    if LowScan(curve).pct == LowScan(pre).pct {
      i, j := LowAttained(pre);
    } else {
      i := LeastIsThere(pre);
      j := n;
    }
  }

  /** No pair of points in order drops further than the result. */
  ghost predicate IsAllPairsBound(curve: seq<real>)
    requires curve != []
  {
    forall i, j :: 0 <= i <= j < |curve| && curve[i] > 0.0 ==> Drop(curve[i], curve[j]) <= Scan(curve).pct
  }

  /** For every curve the one pass finds the maximum over all pairs exactly when the second pass
      finds nothing greater. */
  lemma {:induction false} AllPairsIff(curve: seq<real>)
    requires curve != []
    ensures IsAllPairsBound(curve) <==> LowScan(curve).pct <= Scan(curve).pct
  {
    PeakIsMaximum(curve);
    if LowScan(curve).pct <= Scan(curve).pct {
      forall i, j | 0 <= i <= j < |curve| && curve[i] > 0.0
        ensures Drop(curve[i], curve[j]) <= Scan(curve).pct
      {
        if curve[j] >= 0.0 { BoundsAllPairs(curve, i, j); } else { LowBounds(curve, i, j); }
      }
    }
    if IsAllPairsBound(curve) && LowScan(curve).pct != 0.0 {
      var i, j := LowAttained(curve);
    }
  }

  /** The point that sets the result. */
  lemma {:induction false} SettingPoint(curve: seq<real>) returns (k: nat)
    requires curve != [] && Scan(curve).pct != 0.0
    ensures k < |curve| && Scan(curve[..k + 1]).peak > 0.0
    ensures Scan(curve).pct == Drop(Scan(curve[..k + 1]).peak, curve[k])
    decreases |curve|
  {
    var n := |curve| - 1;
    var pre := curve[..n];
    if Scan(curve).pct == Scan(pre).pct {
      k := SettingPoint(pre);
      assert pre[..k + 1] == curve[..k + 1];
    } else {
      k := n;
      assert curve[..k + 1] == curve;
    }
  }

  /** From a positive value to a later one below zero. */
  predicate Falls(curve: seq<real>, i: int, k: int) {
    0 <= i <= k < |curve| && curve[i] > 0.0 && curve[k] < 0.0
  }

  /** No fall below zero loses a greater share. */
  ghost predicate DeepestFall(curve: seq<real>, i: int, k: int) {
    Falls(curve, i, k)
    && forall a, b :: Falls(curve, a, b) ==> Drop(curve[a], curve[b]) <= Drop(curve[i], curve[k])
  }

  /** Every positive value before k is the same. */
  predicate OneLevelBefore(curve: seq<real>, i: int, k: int)
    requires Falls(curve, i, k)
  {
    forall j :: 0 <= j < k && curve[j] > 0.0 ==> curve[j] == curve[i]
  }

  lemma {:induction false} OneLevelIsPeak(curve: seq<real>, i: nat, k: nat)
    requires Falls(curve, i, k) && OneLevelBefore(curve, i, k)
    ensures Scan(curve[..k + 1]).peak == curve[i]
  {
    var pre := curve[..k + 1];
    PeakIsMaximum(pre);
    assert pre[i] == curve[i];
    var j :| 0 <= j < |pre| && pre[j] == Scan(pre).peak;
    assert pre[j] == curve[j];
  }

  /** When a fall below zero exists and nothing is missed, the setting point ends a deepest fall,
      and no second positive level comes before it. */
  lemma {:induction false} SetByDeepestFall(curve: seq<real>, a: nat, b: nat) returns (i: nat, k: nat)
    requires Falls(curve, a, b) && IsAllPairsBound(curve)
    ensures DeepestFall(curve, i, k) && OneLevelBefore(curve, i, k)
  {
    DropSign(curve[a], curve[b]);
    k := SettingPoint(curve);
    var pre := curve[..k + 1];
    DropSign(Scan(pre).peak, curve[k]);
    PeakIsMaximum(pre);
    i :| 0 <= i < |pre| && pre[i] == Scan(pre).peak;
    assert pre[i] == curve[i];
    forall j | 0 <= j < k && curve[j] > 0.0 ensures curve[j] == curve[i] {
      assert pre[j] == curve[j];
      assert Drop(curve[j], curve[k]) <= Scan(curve).pct;
      if curve[j] < curve[i] { DropByPeak(curve[j], curve[i], curve[k]); }
    }
  }

  /** The exact condition, on the curve alone: the one pass finds the maximum over all pairs if
      and only if the curve never falls below zero from a positive value, or some deepest such
      fall comes before any second positive level. */
  lemma {:induction false} MissesNothingIff(curve: seq<real>)
    requires curve != []
    ensures IsAllPairsBound(curve)
       <==> (forall i, k :: !Falls(curve, i, k))
            || exists i, k :: DeepestFall(curve, i, k) && OneLevelBefore(curve, i, k)
  {
    AllPairsIff(curve);
    PeakIsMaximum(curve);
    if LowScan(curve).pct != 0.0 {
      var a, b := LowAttained(curve);
      assert Falls(curve, a, b);
    }
    if i, k :| DeepestFall(curve, i, k) && OneLevelBefore(curve, i, k) {
      OneLevelIsPeak(curve, i, k);
      BoundsRunningDrops(curve, k);
    }
    if IsAllPairsBound(curve) && exists a, b :: Falls(curve, a, b) {
      var a, b :| Falls(curve, a, b);
      var i, k := SetByDeepestFall(curve, a, b);
    }
  }

  /** From a positive start the first case is solvency. */
  lemma SolventIffNoFall(curve: seq<real>)
    requires curve != [] && curve[0] > 0.0
    ensures (forall i, k :: !Falls(curve, i, k)) <==> Solvent(curve)
  {
    if !Solvent(curve) {
      var k :| 0 <= k < |curve| && curve[k] < 0.0;
      assert Falls(curve, 0, k);
    }
  }

  /** Together the two passes find the maximum over all pairs of any curve. */
  lemma {:induction false} TwoPassesSuffice(curve: seq<real>, i: nat, j: nat)
    requires i <= j < |curve| && curve[i] > 0.0
    ensures Drop(curve[i], curve[j]) <= Max(Scan(curve).pct, LowScan(curve).pct)
  {
    if curve[j] >= 0.0 { BoundsAllPairs(curve, i, j); } else { LowBounds(curve, i, j); }
  }

  predicate Rising(curve: seq<real>) { forall i, j :: 0 <= i <= j < |curve| ==> curve[i] <= curve[j] }

  /** From a positive start the result is zero exactly for curves that never fall. */
  lemma {:induction false} ZeroIffRising(curve: seq<real>)
    requires curve != [] && curve[0] > 0.0
    ensures Scan(curve).pct == 0.0 <==> Rising(curve)
  {
    PeakIsMaximum(curve);
    if !Rising(curve) {
      var i, j :| 0 <= i <= j < |curve| && curve[i] > curve[j];
      PositivePeak(curve, j);
      PeakIsMaximum(curve[..j + 1]);
      assert curve[..j + 1][i] == curve[i];
      DropSign(Scan(curve[..j + 1]).peak, curve[j]);
      BoundsRunningDrops(curve, j);
    } else {
      var i, j := Attained(curve);
      if Scan(curve).pct != 0.0 { DropSign(curve[i], curve[j]); }
    }
  }

  lemma PositivePeak(curve: seq<real>, j: nat)
    requires j < |curve| && curve[0] > 0.0
    ensures Scan(curve[..j + 1]).peak > 0.0
  {
    PeakIsMaximum(curve[..j + 1]);
    assert curve[..j + 1][0] == curve[0];
  }

  /** And above one hundred exactly when the account went negative. */
  lemma {:induction false} RuinIff(curve: seq<real>)
    requires curve != [] && curve[0] > 0.0
    ensures Scan(curve).pct > 100.0 <==> !Solvent(curve)
  {
    var i, j := Attained(curve);
    if Scan(curve).pct > 100.0 {
      DropSign(curve[i], curve[j]);
    }
    if !Solvent(curve) {
      var k :| 0 <= k < |curve| && curve[k] < 0.0;
      PositivePeak(curve, k);
      DropSign(Scan(curve[..k + 1]).peak, curve[k]);
      BoundsRunningDrops(curve, k);
    }
  }

  /** No pair of a solvent curve loses more money than the reported share of its maximum. */
  lemma {:induction false} LossWithin(curve: seq<real>, i: nat, j: nat)
    requires i <= j < |curve| && Solvent(curve)
    ensures curve[i] - curve[j] <= Product(Scan(curve).pct / 100.0, Scan(curve).peak)
  {
    PeakIsMaximum(curve);
    ProductNonneg(Scan(curve).pct / 100.0, Scan(curve).peak);
    if curve[i] > 0.0 {
      BoundsAllPairs(curve, i, j);
      LossOfDrop(curve[i], curve[j]);
      LargerProduct(Drop(curve[i], curve[j]) / 100.0, Scan(curve).pct / 100.0, curve[i], Scan(curve).peak);
    }
  }

  lemma LargerProduct(a: real, b: real, x: real, y: real)
    requires a <= b && 0.0 <= b && 0.0 < x <= y
    ensures Product(a, x) <= Product(b, y)
  {
    ProductOrder(a, b, x);
    ProductNonneg(b, y - x);
    assert b * (y - x) == Product(b, y) - Product(b, x);
  }

  lemma LossOfDrop(p: real, e: real)
    requires p > 0.0
    ensures Product(Drop(p, e) / 100.0, p) == p - e
  {
    assert Drop(p, e) / 100.0 == (p - e) / p;
  }

  /** So the value reported is the greatest loss of money whenever the peak it falls from is the
      maximum of the curve. */
  lemma {:induction false} ValueIsGreatestAtMaximum(curve: seq<real>, i: nat, j: nat)
    requires i <= j < |curve| && Solvent(curve)
    requires Scan(curve).value == Product(Scan(curve).pct / 100.0, Scan(curve).peak)
    ensures curve[i] - curve[j] <= Scan(curve).value
  {
    LossWithin(curve, i, j);
  }

  /** Otherwise a later fall can lose any number of times as much money: here a half of a is reported beside a loss of two fifths of b. */
  lemma {:induction false} ValueIsNotGreatest(a: real, b: real)
    requires 0.0 < a <= b
    ensures Scan([a, 0.5 * a, b, 0.6 * b]) == Pass(b, 50.0, 0.5 * a)
  {
    var c := [a, 0.5 * a, b, 0.6 * b];
    assert c[..3] == [a, 0.5 * a, b] && [a, 0.5 * a, b][..2] == [a, 0.5 * a] && [a, 0.5 * a][..1] == [a];
    DropOfShare(a, 0.5);
    DropOfShare(b, 0.6);
    DropOfShare(b, 1.0);
    assert Scan([a]) == Pass(a, 0.0, 0.0);
    assert Scan([a, 0.5 * a]) == Visit(Scan([a]), 0.5 * a) == Pass(a, 50.0, 0.5 * a);
    assert Scan([a, 0.5 * a, b]) == Visit(Scan([a, 0.5 * a]), b);
    assert Scan(c) == Visit(Scan([a, 0.5 * a, b]), 0.6 * b);
  }

  lemma DropOfShare(p: real, k: real)
    requires p > 0.0
    ensures Drop(p, k * p) == 100.0 - 100.0 * k
  {
    DropAsQuotient(p, k * p);
    assert k * p / p == k;
  }
}
