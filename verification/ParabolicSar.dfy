/** The parabolic stop-and-reverse: a stop that accelerates after the price and changes sides
    when the price crosses it. Bars are two sequences, oldest first. */
module ParabolicSar {
  import opened Reals

  datatype Config = Config(start: real, step: real, cap: real)

  /** The trend, its stop, its extreme price and its acceleration. */
  datatype Sar = Sar(bull: bool, stop: real, extreme: real, af: real)

  predicate Bars(highs: seq<real>, lows: seq<real>) { |highs| == |lows| >= 2 }

  function Start(c: Config, highs: seq<real>, lows: seq<real>): Sar
    requires Bars(highs, lows)
  {
    if highs[1] > highs[0] || lows[1] > lows[0] then Sar(true, lows[0], highs[0], c.start)
    else Sar(false, highs[0], lows[0], c.start)
  }

  /** The stop moved towards the extreme, but never into the last two bars. */
  function Candidate(s: Sar, highs: seq<real>, lows: seq<real>, i: nat): real
    requires Bars(highs, lows) && 1 <= i < |highs|
  {
    var moved := s.stop + Product(s.af, s.extreme - s.stop);
    if s.bull then
      var near := Min(moved, lows[i - 1]);
      if i >= 2 then Min(near, lows[i - 2]) else near
    else
      var near := Max(moved, highs[i - 1]);
      if i >= 2 then Max(near, highs[i - 2]) else near
  }

  predicate Crossed(s: Sar, highs: seq<real>, lows: seq<real>, i: nat)
    requires Bars(highs, lows) && 1 <= i < |highs|
  {
    if s.bull then lows[i] < Candidate(s, highs, lows, i) else highs[i] > Candidate(s, highs, lows, i)
  }

  function Advance(c: Config, s: Sar, highs: seq<real>, lows: seq<real>, i: nat): Sar
    requires Bars(highs, lows) && 1 <= i < |highs|
  {
    if Crossed(s, highs, lows, i) then Sar(!s.bull, s.extreme, if s.bull then lows[i] else highs[i], c.start)
    else
      var further := if s.bull then highs[i] > s.extreme else lows[i] < s.extreme;
      Sar(s.bull, Candidate(s, highs, lows, i),
          if !further then s.extreme else if s.bull then highs[i] else lows[i],
          if further then Min(s.af + c.step, c.cap) else s.af)
  }

  /** The state after bar i; bar 0 only starts it. */
  function After(c: Config, highs: seq<real>, lows: seq<real>, i: nat): Sar
    requires Bars(highs, lows) && i < |highs|
    decreases i
  {
    if i == 0 then Start(c, highs, lows) else Advance(c, After(c, highs, lows, i - 1), highs, lows, i)
  }

  datatype Trend = Unknown | Bullish | Bearish

  method CalculateParabolicSar(highs: seq<real>, lows: seq<real>, c: Config) returns (value: real, trend: Trend)
    ensures |highs| < 2 || |lows| < 2 ==> value == 0.0 && trend == Unknown
    ensures |highs| >= 2 && |lows| >= 2 ==>
      var n := if |highs| <= |lows| then |highs| else |lows|;
      var s := After(c, highs[..n], lows[..n], n - 1);
      value == s.stop && trend == if s.bull then Bullish else Bearish
  {
    var n := if |highs| <= |lows| then |highs| else |lows|;
    if n < 2 {
      return 0.0, Unknown;
    }
    var hs, ls := highs[..n], lows[..n];
    var bull := hs[1] > hs[0] || ls[1] > ls[0];
    var stop, extreme := if bull then ls[0] else hs[0], if bull then hs[0] else ls[0];
    var af := c.start;
    for i := 1 to n
      invariant Sar(bull, stop, extreme, af) == After(c, hs, ls, i - 1)
    {
      ghost var s := Sar(bull, stop, extreme, af);
      var moved := stop + Product(af, extreme - stop);
      if bull {
        moved := Min(moved, ls[i - 1]);
        if i >= 2 {
          moved := Min(moved, ls[i - 2]);
        }
        assert moved == Candidate(s, hs, ls, i);
        if ls[i] < moved {
          bull, stop, extreme, af := false, extreme, ls[i], c.start;
        } else {
          stop := moved;
          if hs[i] > extreme {
            extreme, af := hs[i], Min(af + c.step, c.cap);
          }
        }
      } else {
        moved := Max(moved, hs[i - 1]);
        if i >= 2 {
          moved := Max(moved, hs[i - 2]);
        }
        assert moved == Candidate(s, hs, ls, i);
        if hs[i] > moved {
          bull, stop, extreme, af := true, extreme, hs[i], c.start;
        } else {
          stop := moved;
          if ls[i] < extreme {
            extreme, af := ls[i], Min(af + c.step, c.cap);
          }
        }
      }
      assert Sar(bull, stop, extreme, af) == Advance(c, s, hs, ls, i);
    }
    value, trend := stop, if bull then Bullish else Bearish;
  }

  // ------------------------------------------------------------------ the extreme

  /** The bar at which the present trend began. */
  function Since(c: Config, highs: seq<real>, lows: seq<real>, i: nat): (k: nat)
    requires Bars(highs, lows) && i < |highs|
    ensures k <= i
    decreases i
  {
    if i == 0 then 0
    else if Crossed(After(c, highs, lows, i - 1), highs, lows, i) then i
    else Since(c, highs, lows, i - 1)
  }

  /** The extreme is the highest high, or the lowest low, of the bars of the present trend. */
  lemma {:induction false} ExtremeOfTrend(c: Config, highs: seq<real>, lows: seq<real>, i: nat)
    requires Bars(highs, lows) && i < |highs|
    ensures var s, k := After(c, highs, lows, i), Since(c, highs, lows, i);
            if s.bull then
              (forall j :: k <= j <= i ==> highs[j] <= s.extreme) && exists j :: k <= j <= i && highs[j] == s.extreme
            else
              (forall j :: k <= j <= i ==> lows[j] >= s.extreme) && exists j :: k <= j <= i && lows[j] == s.extreme
    decreases i
  {
    if i > 0 { ExtremeOfTrend(c, highs, lows, i - 1); }
  }

  /** Bar i goes beyond every earlier bar of its trend, which began at bar k. */
  predicate NewExtreme(bull: bool, highs: seq<real>, lows: seq<real>, k: nat, i: nat)
    requires Bars(highs, lows) && i < |highs|
  {
    if bull then forall j :: k <= j < i ==> highs[j] < highs[i] else forall j :: k <= j < i ==> lows[j] > lows[i]
  }

  /** How often the trend of bar i has gone further since it began. */
  function Advances(c: Config, highs: seq<real>, lows: seq<real>, i: nat): nat
    requires Bars(highs, lows) && i < |highs|
    decreases i
  {
    var k := Since(c, highs, lows, i);
    if k == i then 0
    else Advances(c, highs, lows, i - 1) + if NewExtreme(After(c, highs, lows, i).bull, highs, lows, k, i) then 1 else 0
  }

  /** The acceleration starts anew with each trend, grows by one step with each new extreme of it,
      and stops at the cap. */
  lemma {:induction false} AccelerationCounts(c: Config, highs: seq<real>, lows: seq<real>, i: nat)
    requires Bars(highs, lows) && i < |highs| && c.start <= c.cap && 0.0 <= c.step
    ensures After(c, highs, lows, i).af
         == Min(c.start + Product(Advances(c, highs, lows, i) as real, c.step), c.cap)
    decreases i
  {
    if i > 0 {
      AccelerationCounts(c, highs, lows, i - 1);
      AdvanceCounts(c, highs, lows, i);
      OneMore(Advances(c, highs, lows, i - 1), c.step);
    }
  }

  lemma {:induction false} FurtherIff(c: Config, highs: seq<real>, lows: seq<real>, i: nat)
    requires Bars(highs, lows) && 1 <= i < |highs|
    ensures var s, k := After(c, highs, lows, i - 1), Since(c, highs, lows, i - 1);
            NewExtreme(s.bull, highs, lows, k, i) <==> if s.bull then highs[i] > s.extreme else lows[i] < s.extreme
  {
    ExtremeOfTrend(c, highs, lows, i - 1);
  }

  /** One bar: a turn starts the count and the acceleration anew, a new extreme adds one to both. */
  lemma {:induction false} AdvanceCounts(c: Config, highs: seq<real>, lows: seq<real>, i: nat)
    requires Bars(highs, lows) && 1 <= i < |highs|
    ensures var s, s1, n := After(c, highs, lows, i - 1), After(c, highs, lows, i), Advances(c, highs, lows, i);
            || (n == 0 && s1.af == c.start)
            || (n == Advances(c, highs, lows, i - 1) && s1.af == s.af)
            || (n == Advances(c, highs, lows, i - 1) + 1 && s1.af == Min(s.af + c.step, c.cap))
  {
    FurtherIff(c, highs, lows, i);
  }

  lemma OneMore(n: nat, step: real)
    ensures Product((n + 1) as real, step) == Product(n as real, step) + step
    ensures step >= 0.0 ==> Product(n as real, step) >= 0.0
  {
    assert (n + 1) as real == n as real + 1.0;
    assert n as real >= 0.0;
    if step >= 0.0 { ProductNonneg(n as real, step); }
  }

  // ------------------------------------------------------------------ where the stop lies

  predicate Ordered(highs: seq<real>, lows: seq<real>) {
    forall i :: 0 <= i < |highs| && i < |lows| ==> lows[i] <= highs[i]
  }

  predicate Sensible(c: Config) { 0.0 <= c.start <= c.cap && 0.0 <= c.step }

  predicate Behind(s: Sar, high: real, low: real) { if s.bull then s.stop <= low else s.stop >= high }

  /** Bar i turned the trend and also went beyond the extreme of the old one. */
  predicate OutsideTurn(c: Config, highs: seq<real>, lows: seq<real>, i: nat)
    requires Bars(highs, lows) && 1 <= i < |highs|
  {
    var s := After(c, highs, lows, i - 1);
    Crossed(s, highs, lows, i) && if s.bull then highs[i] > s.extreme else lows[i] < s.extreme
  }

  /** The stop is behind the bar just seen, unless that bar turned the trend from outside. */
  lemma BehindIff(c: Config, highs: seq<real>, lows: seq<real>, i: nat)
    requires Bars(highs, lows) && 1 <= i < |highs|
    ensures Behind(After(c, highs, lows, i), highs[i], lows[i]) <==> !OutsideTurn(c, highs, lows, i)
  {
  }

  /** What every bar keeps: the stop is behind the bar before it, and the extreme is ahead of
      the stop. */
  lemma {:induction false} StopTrails(c: Config, highs: seq<real>, lows: seq<real>, i: nat)
    requires Bars(highs, lows) && i < |highs| && Ordered(highs, lows) && Sensible(c)
    ensures var s := After(c, highs, lows, i);
            && 0.0 <= s.af
            && (if s.bull then s.stop <= s.extreme else s.stop >= s.extreme)
            && Behind(s, highs[if i == 0 then 0 else i - 1], lows[if i == 0 then 0 else i - 1])
    decreases i
  {
    if i > 0 {
      StopTrails(c, highs, lows, i - 1);
      ExtremeOfTrend(c, highs, lows, i - 1);
    }
  }

  predicate Tighter(before: Sar, after: Sar) {
    if before.bull then after.stop >= before.stop else after.stop <= before.stop
  }

  /** Without the bounds the stop moves towards its extreme. */
  lemma MovesAhead(s: Sar)
    requires 0.0 <= s.af
    ensures s.extreme >= s.stop ==> s.stop + Product(s.af, s.extreme - s.stop) >= s.stop
    ensures s.extreme <= s.stop ==> s.stop + Product(s.af, s.extreme - s.stop) <= s.stop
  {
    if s.extreme >= s.stop {
      ProductNonneg(s.af, s.extreme - s.stop);
    } else {
      ProductNonneg(s.af, s.stop - s.extreme);
      assert Product(s.af, s.extreme - s.stop) == -(s.af * (s.stop - s.extreme));
    }
  }

  lemma TighterIff(c: Config, s: Sar, highs: seq<real>, lows: seq<real>, i: nat)
    requires Bars(highs, lows) && 1 <= i < |highs| && !Crossed(s, highs, lows, i)
    requires 0.0 <= s.af && if s.bull then s.stop <= s.extreme else s.stop >= s.extreme
    requires i >= 2 ==> Behind(s, highs[i - 2], lows[i - 2])
    ensures Tighter(s, Advance(c, s, highs, lows, i)) <==> Behind(s, highs[i - 1], lows[i - 1])
  {
    MovesAhead(s);
  }

  /** Within a trend the stop never loosens, with one exception: on the bar after an outside
      turn it always does. */
  lemma {:induction false} StopsNeverLoosenIff(c: Config, highs: seq<real>, lows: seq<real>, i: nat)
    requires Bars(highs, lows) && 1 <= i < |highs| && Ordered(highs, lows) && Sensible(c)
    requires !Crossed(After(c, highs, lows, i - 1), highs, lows, i)
    ensures Tighter(After(c, highs, lows, i - 1), After(c, highs, lows, i))
            <==> i == 1 || !OutsideTurn(c, highs, lows, i - 1)
  {
    StopTrails(c, highs, lows, i - 1);
    TighterIff(c, After(c, highs, lows, i - 1), highs, lows, i);
    if i >= 2 { BehindIff(c, highs, lows, i - 1); }
  }

  predicate Within(xs: seq<real>, lo: real, hi: real) { forall i :: 0 <= i < |xs| ==> lo <= xs[i] <= hi }

  /** With accelerations up to one the stop stays in the range of the prices. */
  lemma {:induction false} StopInRange(c: Config, highs: seq<real>, lows: seq<real>, i: nat, lo: real, hi: real)
    requires Bars(highs, lows) && i < |highs| && Sensible(c) && c.cap <= 1.0
    requires Within(highs, lo, hi) && Within(lows, lo, hi)
    ensures var s := After(c, highs, lows, i);
            0.0 <= s.af <= c.cap && lo <= s.stop <= hi && lo <= s.extreme <= hi
    decreases i
  {
    if i > 0 {
      StopInRange(c, highs, lows, i - 1, lo, hi);
      var s := After(c, highs, lows, i - 1);
      Between(s.stop, s.extreme, s.af);
    }
  }

  lemma Between(a: real, b: real, k: real)
    requires 0.0 <= k <= 1.0
    ensures Min(a, b) <= a + Product(k, b - a) <= Max(a, b)
  {
    if a <= b {
      ProductNonneg(k, b - a);
      ProductNonneg(1.0 - k, b - a);
    } else {
      ProductNonneg(k, a - b);
      ProductNonneg(1.0 - k, a - b);
    }
  }

  // ------------------------------------------------------------------ mirrored prices

  function Negated(xs: seq<real>): (r: seq<real>)
    ensures |r| == |xs|
  {
    seq(|xs|, (i: nat) requires i < |xs| => -xs[i])
  }

  function Mirrored(s: Sar): Sar { Sar(!s.bull, -s.stop, -s.extreme, s.af) }

  predicate Rises(highs: seq<real>, lows: seq<real>)
    requires Bars(highs, lows)
  {
    highs[1] > highs[0] || lows[1] > lows[0]
  }

  predicate Falls(highs: seq<real>, lows: seq<real>)
    requires Bars(highs, lows)
  {
    highs[1] < highs[0] || lows[1] < lows[0]
  }

  /** The two sides are treated alike from the second bar on, but the first trend is decided
      one-sidedly: the start mirrors exactly when the second bar either rises or falls. */
  lemma StartMirrorsIff(c: Config, highs: seq<real>, lows: seq<real>)
    requires Bars(highs, lows)
    ensures Start(c, Negated(lows), Negated(highs)) == Mirrored(Start(c, highs, lows))
            <==> Rises(highs, lows) != Falls(highs, lows)
  {
  }

  lemma CandidateMirrors(s: Sar, highs: seq<real>, lows: seq<real>, i: nat)
    requires Bars(highs, lows) && 1 <= i < |highs|
    ensures Candidate(Mirrored(s), Negated(lows), Negated(highs), i) == -Candidate(s, highs, lows, i)
  {
    assert Product(s.af, -s.extreme + s.stop) == -Product(s.af, s.extreme - s.stop);
    assert -s.extreme - (-s.stop) == -s.extreme + s.stop;
  }

  lemma AdvanceMirrors(c: Config, s: Sar, highs: seq<real>, lows: seq<real>, i: nat)
    requires Bars(highs, lows) && 1 <= i < |highs|
    ensures Advance(c, Mirrored(s), Negated(lows), Negated(highs), i) == Mirrored(Advance(c, s, highs, lows, i))
  {
    CandidateMirrors(s, highs, lows, i);
  }

  /** Turning the market upside down turns the whole indicator upside down, unless the second
      bar is undecided. */
  lemma {:induction false} SarMirrors(c: Config, highs: seq<real>, lows: seq<real>, i: nat)
    requires Bars(highs, lows) && i < |highs| && Rises(highs, lows) != Falls(highs, lows)
    ensures After(c, Negated(lows), Negated(highs), i) == Mirrored(After(c, highs, lows, i))
    decreases i
  {
    if i == 0 {
      StartMirrorsIff(c, highs, lows);
    } else {
      SarMirrors(c, highs, lows, i - 1);
      AdvanceMirrors(c, After(c, highs, lows, i - 1), highs, lows, i);
    }
  }
}
