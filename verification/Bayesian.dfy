/** Online Bayesian changepoint detection, and online estimation of mean and variance.
    The Gaussian density is a parameter known only to be nonnegative. */
module Bayesian {
  import opened Reals
  import opened RealSeq

  // ------------------------------------------------------------- running statistics

  datatype Stat = Stat(count: nat, mean: real, m2: real)

  const FRESH: Stat := Stat(0, 0.0, 0.0)

  function Welford(s: Stat, x: real): Stat {
    var count := s.count + 1;
    var delta := x - s.mean;
    var mean := s.mean + delta / count as real;
    Stat(count, mean, s.m2 + Product(delta, x - mean))
  }

  /** Sum of squared deviations from c. */
  function SquaredDeviations(xs: seq<real>, c: real): real {
    if xs == [] then 0.0 else SquaredDeviations(xs[..|xs| - 1], c) + Square(xs[|xs| - 1] - c)
  }

  /** The statistics of a sample, by definition. */
  function StatOf(xs: seq<real>): Stat { Stat(|xs|, Mean(xs), SquaredDeviations(xs, Mean(xs))) }

  lemma {:induction false} Shift(xs: seq<real>, a: real, b: real)
    ensures SquaredDeviations(xs, b) == SquaredDeviations(xs, a) + Shifted(|xs| as real, Sum(xs), a, b)
  {
    if xs == [] {
      assert Shifted(0.0, 0.0, a, b) == 0.0;
    } else {
      var ys, x := xs[..|xs| - 1], xs[|xs| - 1];
      Shift(ys, a, b);
      ShiftOne(|ys| as real, Sum(ys), a, b, x);
      assert |xs| as real == |ys| as real + 1.0;
    }
  }

  /** How moving the centre from a to b changes the deviations of n numbers that sum to s. */
  function Shifted(n: real, s: real, a: real, b: real): real {
    2.0 * (a - b) * (s - n * a) + n * ((a - b) * (a - b))
  }

  lemma ShiftOne(n: real, s: real, a: real, b: real, x: real)
    ensures Shifted(n + 1.0, s + x, a, b) == Shifted(n, s, a, b) + Square(x - b) - Square(x - a)
  {
    var u := a - b;
    assert (x - b) * (x - b) == (x - a) * (x - a) + 2.0 * u * (x - a) + u * u;
    assert 2.0 * u * (s - n * a) + 2.0 * u * (x - a) == 2.0 * u * (s + x - (n + 1.0) * a);
    assert n * (u * u) + u * u == (n + 1.0) * (u * u);
  }

  lemma {:induction false} MeanStep(xs: seq<real>, x: real)
    ensures |xs| as real * Mean(xs) == Sum(xs)
    ensures Mean(xs + [x]) == Mean(xs) + (x - Mean(xs)) / (|xs| + 1) as real
    ensures (|xs| as real + 1.0) * (Mean(xs + [x]) - Mean(xs)) == x - Mean(xs)
  {
    var n, m := |xs| as real, Mean(xs);
    var e := (x - m) / (n + 1.0);
    SumSnoc(xs, x);
    assert n * m == Sum(xs) by { if xs == [] { assert n * m == 0.0; } }
    assert (n + 1.0) * e == x - m;
    assert (n + 1.0) * (m + e) == n * m + x;
    DivideBack(Sum(xs) + x, n + 1.0, m + e);
    assert Mean(xs + [x]) == m + e;
  }

  lemma {:induction false} DeviationStep(xs: seq<real>, x: real, m: real, m1: real)
    requires |xs| as real * m == Sum(xs) && (|xs| as real + 1.0) * (m1 - m) == x - m
    ensures SquaredDeviations(xs + [x], m1) == SquaredDeviations(xs, m) + Product(x - m, x - m1)
  {
    Shift(xs, m, m1);
    Spread(|xs| as real, Sum(xs), m, m1, x);
    assert (xs + [x])[..|xs|] == xs;
  }

  lemma Spread(n: real, s: real, m: real, m1: real, x: real)
    requires n * m == s && (n + 1.0) * (m1 - m) == x - m
    ensures Shifted(n, s, m, m1) + Square(x - m1) == Product(x - m, x - m1)
  {
    var e := m1 - m;
    assert s - n * m == 0.0;
    assert 2.0 * (m - m1) * (s - n * m) == 0.0;
    assert (m - m1) * (m - m1) == e * e;
    assert x - m1 == n * e;
    assert (x - m) * (n * e) == (n + 1.0) * e * (n * e);
    assert (n + 1.0) * e * (n * e) == n * (e * e) + (n * e) * (n * e);
  }

  lemma WelfordFields(s: Stat, x: real, m1: real)
    requires m1 == s.mean + (x - s.mean) / (s.count + 1) as real
    ensures Welford(s, x) == Stat(s.count + 1, m1, s.m2 + Product(x - s.mean, x - m1))
  {
  }

  /** One Welford step takes the statistics of a sample to those of the longer sample. */
  lemma {:induction false} WelfordCorrect(xs: seq<real>, x: real)
    ensures Welford(StatOf(xs), x) == StatOf(xs + [x])
  {
    MeanStep(xs, x);
    WelfordFields(StatOf(xs), x, Mean(xs + [x]));
    DeviationStep(xs, x, Mean(xs), Mean(xs + [x]));
  }

  // ------------------------------------------------------- the run-length distribution

  type Density = (real, real, real) -> real

  const EPSILON: real := 0.000000000000000000000000000001

  datatype Model = Model(hazard: real, pdf: Density, regimes: nat) {
    /** A density is nonnegative; underflow to zero is allowed. */
    ghost predicate Valid() {
      0.0 < hazard <= 1.0 && 1 <= regimes && forall x, mu, v :: pdf(x, mu, v) >= 0.0
    }
  }

  /** probs[i] is the probability that the current run has length i. */
  datatype Detector = Detector(probs: seq<real>, stats: seq<Stat>)

  const START: Detector := Detector([1.0], [FRESH])

  function Predictive(m: Model, s: Stat, x: real): real {
    if s.count < 2 then 0.1 else
      var v := s.m2 / s.count as real;
      m.pdf(x, s.mean, if v <= 0.0 then EPSILON else v)
  }

  /** Probability of each run length times the likelihood of x under it. */
  function Weights(m: Model, d: Detector, x: real): (w: seq<real>)
    requires |d.probs| == |d.stats|
    ensures |w| == |d.probs|
  {
    seq(|d.probs|, (i: nat) requires i < |d.probs| && i < |d.stats| => d.probs[i] * Predictive(m, d.stats[i], x))
  }

  function Scale(xs: seq<real>, k: real): (ys: seq<real>)
    ensures Scaled(ys, xs, k)
  {
    seq(|xs|, (i: nat) requires i < |xs| => xs[i] * k)
  }

  function Divide(xs: seq<real>, total: real): (ys: seq<real>)
    requires total != 0.0
    ensures |ys| == |xs| && forall i :: 0 <= i < |xs| ==> ys[i] == xs[i] / total
  {
    seq(|xs|, (i: nat) requires i < |xs| => xs[i] / total)
  }

  function Normalised(xs: seq<real>): seq<real> {
    if Sum(xs) > 0.0 then Divide(xs, Sum(xs)) else xs
  }

  function Updated(m: Model, d: Detector, x: real): Detector
    requires |d.probs| == |d.stats|
  {
    var w := Weights(m, d, x);
    Detector(Normalised([Sum(Scale(w, m.hazard))] + Scale(w, 1.0 - m.hazard)),
             [FRESH] + seq(|d.stats|, (i: nat) requires i < |d.stats| => Welford(d.stats[i], x)))
  }

  ghost predicate Distribution(ps: seq<real>) {
    (forall i :: 0 <= i < |ps| ==> ps[i] >= 0.0) && Sum(ps) == 1.0
  }

  ghost predicate Proper(d: Detector) {
    |d.probs| == |d.stats| >= 1 && Distribution(d.probs) && d.probs[0] > 0.0 && d.stats[0] == FRESH
  }

  lemma {:induction false} SumCons(x: real, xs: seq<real>)
    ensures Sum([x] + xs) == x + Sum(xs)
  {
    SumConcat([x], xs);
    SumSnoc([], x);
    assert [] + [x] == [x];
  }

  lemma {:induction false} DivideSum(xs: seq<real>, total: real)
    requires total != 0.0
    ensures Sum(Divide(xs, total)) == Sum(xs) / total
  {
    var k := 1.0 / total;
    forall i | 0 <= i < |xs| ensures Divide(xs, total)[i] == xs[i] * k {
      QuotientAsProduct(xs[i], total);
    }
    SumScaled(Divide(xs, total), xs, k);
    QuotientAsProduct(Sum(xs), total);
  }

  lemma QuotientAsProduct(a: real, b: real)
    requires b != 0.0
    ensures a / b == a * (1.0 / b)
  {
  }

  /** The likelihood of the data is positive, since run length 0 always predicts 0.1. */
  lemma {:induction false} WeightsPositive(m: Model, d: Detector, x: real)
    requires m.Valid() && Proper(d)
    ensures forall i :: 0 <= i < |d.probs| ==> Weights(m, d, x)[i] >= 0.0
    ensures Sum(Weights(m, d, x)) > 0.0
  {
    var w := Weights(m, d, x);
    forall i | 0 <= i < |w| ensures w[i] >= 0.0 {
      ProductNonneg(d.probs[i], Predictive(m, d.stats[i], x));
    }
    assert w[0] == d.probs[0] * 0.1;
    SumNonneg(w);
  }

  /** Before normalising, the new run lengths weigh as much as the data are likely. */
  lemma {:induction false} RawWeights(w: seq<real>, h: real, raw: seq<real>)
    requires 0.0 < h <= 1.0 && (forall i :: 0 <= i < |w| ==> w[i] >= 0.0)
    requires raw == [Sum(Scale(w, h))] + Scale(w, 1.0 - h)
    ensures Sum(raw) == Sum(w) && raw[0] == Sum(w) * h
    ensures forall i :: 0 <= i < |raw| ==> raw[i] >= 0.0
  {
    var rest := Scale(w, 1.0 - h);
    SumScaled(Scale(w, h), w, h);
    SumScaled(rest, w, 1.0 - h);
    SumCons(raw[0], rest);
    Split(Sum(w), h);
    SumNonneg(w);
    ScaleNonneg(w, 1.0 - h);
    forall i | 0 < i < |raw| ensures raw[i] >= 0.0 { assert raw[i] == rest[i - 1]; }
  }

  lemma {:induction false} ScaleNonneg(w: seq<real>, k: real)
    requires k >= 0.0 && forall i :: 0 <= i < |w| ==> w[i] >= 0.0
    ensures forall i :: 0 <= i < |w| ==> Scale(w, k)[i] >= 0.0
  {
    forall i | 0 <= i < |w| ensures Scale(w, k)[i] >= 0.0 { ProductNonneg(w[i], k); }
  }

  lemma Split(t: real, h: real)
    ensures t * h + t * (1.0 - h) == t
    ensures t >= 0.0 && h >= 0.0 ==> t * h >= 0.0
  {
  }

  lemma {:induction false} NormalisedIsDistribution(raw: seq<real>, t: real)
    requires Sum(raw) == t > 0.0 && forall i :: 0 <= i < |raw| ==> raw[i] >= 0.0
    ensures Distribution(Normalised(raw)) && |Normalised(raw)| == |raw|
    ensures forall i :: 0 <= i < |raw| ==> Normalised(raw)[i] == raw[i] / t
  {
    DivideSum(raw, t);
    DivideBack(t, t, 1.0);
    forall i | 0 <= i < |raw| ensures Divide(raw, t)[i] >= 0.0 { QuotientNonneg(raw[i], t); }
  }

  /** The run-length probabilities stay a distribution, and after every observation the
      probability of a changepoint is the hazard rate, whatever the data. */
  lemma {:induction false} UpdatedProper(m: Model, d: Detector, x: real)
    requires m.Valid() && Proper(d)
    ensures Proper(Updated(m, d, x))
    ensures Updated(m, d, x).probs[0] == m.hazard
  {
    var w := Weights(m, d, x);
    var raw := [Sum(Scale(w, m.hazard))] + Scale(w, 1.0 - m.hazard);
    WeightsPositive(m, d, x);
    RawWeights(w, m.hazard, raw);
    NormalisedIsDistribution(raw, Sum(w));
    DivideBack(raw[0], Sum(w), m.hazard);
  }

  function Observed(m: Model, xs: seq<real>): (d: Detector)
    ensures |d.probs| == |d.stats| == |xs| + 1
  {
    if xs == [] then START else
      var d := Updated(m, Observed(m, xs[..|xs| - 1]), xs[|xs| - 1]);
      UpdatedLength(m, Observed(m, xs[..|xs| - 1]), xs[|xs| - 1]);
      d
  }

  lemma UpdatedLength(m: Model, d: Detector, x: real)
    requires |d.probs| == |d.stats|
    ensures |Updated(m, d, x).probs| == |Updated(m, d, x).stats| == |d.probs| + 1
  {
  }

  /** The statistics alone, one list per observation. */
  function StatsAfter(xs: seq<real>): (r: seq<Stat>)
    ensures |r| == |xs| + 1
  {
    if xs == [] then [FRESH]
    else
      var before, x := StatsAfter(xs[..|xs| - 1]), xs[|xs| - 1];
      [FRESH] + seq(|before|, (i: nat) requires i < |before| => Welford(before[i], x))
  }

  lemma {:induction false} ObservedStats(m: Model, xs: seq<real>)
    ensures Observed(m, xs).stats == StatsAfter(xs)
  {
    if xs != [] { ObservedStats(m, xs[..|xs| - 1]); }
  }

  lemma {:induction false} SuffixStats(xs: seq<real>, i: nat)
    requires i <= |xs|
    ensures StatsAfter(xs)[i] == StatOf(xs[|xs| - i..])
  {
    if i == 0 {
      assert xs[|xs|..] == [];
    } else {
      var ys, x := xs[..|xs| - 1], xs[|xs| - 1];
      SuffixStats(ys, i - 1);
      var tail := ys[|xs| - i..];
      WelfordCorrect(tail, x);
      assert xs[|xs| - i..] == tail + [x];
    }
  }

  /** After any observations: entry i holds the count, mean and squared deviations of
      exactly the last i of them. */
  lemma {:induction false} StatsAreSuffixes(m: Model, xs: seq<real>, i: nat)
    requires i <= |xs|
    ensures Observed(m, xs).stats[i] == StatOf(xs[|xs| - i..])
  {
    ObservedStats(m, xs);
    SuffixStats(xs, i);
  }

  /** After any observations the run-length probabilities are a distribution, and from the
      first observation on its head is the hazard rate. */
  lemma {:induction false} ProbsAreDistribution(m: Model, xs: seq<real>)
    requires m.Valid()
    ensures Proper(Observed(m, xs))
    ensures xs != [] ==> Observed(m, xs).probs[0] == m.hazard
  {
    if xs == [] {
      SumSnoc([], 1.0);
      assert [] + [1.0] == [1.0];
    } else {
      ProbsAreDistribution(m, xs[..|xs| - 1]);
      UpdatedProper(m, Observed(m, xs[..|xs| - 1]), xs[|xs| - 1]);
    }
  }

  /** The population variance of a sample; it is zero exactly when all values are equal. */
  function Variance(xs: seq<real>): real
    requires xs != []
  {
    SquaredDeviations(xs, Mean(xs)) / |xs| as real
  }

  lemma {:induction false} DeviationsNonneg(xs: seq<real>, c: real)
    ensures SquaredDeviations(xs, c) >= 0.0
    ensures SquaredDeviations(xs, c) == 0.0 <==> forall i :: 0 <= i < |xs| ==> xs[i] == c
    decreases |xs|
  {
    if xs != [] {
      DeviationsNonneg(xs[..|xs| - 1], c);
      SquareSign(xs[|xs| - 1] - c);
    }
  }

  lemma SquareSign(x: real)
    ensures Square(x) >= 0.0 && (Square(x) == 0.0 <==> x == 0.0)
  {
    if x > 0.0 {
      PositiveSquare(x);
    } else if x < 0.0 {
      PositiveSquare(-x);
      assert Square(-x) == Square(x);
    } else {
      assert Square(0.0) == 0.0;
    }
  }

  lemma VarianceFacts(xs: seq<real>)
    requires xs != []
    ensures Variance(xs) >= 0.0
    ensures Variance(xs) == 0.0 <==> forall i :: 0 <= i < |xs| ==> xs[i] == Mean(xs)
  {
    DeviationsNonneg(xs, Mean(xs));
    var n := |xs| as real;
    assert Variance(xs) * n == SquaredDeviations(xs, Mean(xs));
    ProductSign(Variance(xs), n);
  }

  /** What a run length predicts: from the second observation on, the density at the mean and
      variance of exactly the observations of that run, with a floor under a variance of zero;
      before that a constant. */
  lemma {:induction false} PredictsFromRun(m: Model, xs: seq<real>, i: nat, x: real)
    requires i <= |xs|
    ensures var run := xs[|xs| - i..];
            Predictive(m, Observed(m, xs).stats[i], x)
            == if i < 2 then 0.1
               else m.pdf(x, Mean(run), if Variance(run) == 0.0 then EPSILON else Variance(run))
  {
    StatsAreSuffixes(m, xs, i);
    if i >= 2 { VarianceFacts(xs[|xs| - i..]); }
  }

  // ---------------------------------------------------------------- regime posteriors

  /** The regime that run length i counts towards, of n run lengths in all. */
  function BinOf(i: nat, n: nat, regimes: nat): (b: nat)
    requires n >= 1 && regimes >= 1
    ensures b < regimes
  {
    var size := if n / regimes > 1 then n / regimes else 1;
    if i / size < regimes - 1 then i / size else regimes - 1
  }

  /** Probability of the run lengths below k that count towards regime r. */
  function Mass(ps: seq<real>, k: nat, regimes: nat, r: nat): real
    requires k <= |ps| && regimes >= 1
  {
    if k == 0 then 0.0
    else Mass(ps, k - 1, regimes, r) + (if BinOf(k - 1, |ps|, regimes) == r then ps[k - 1] else 0.0)
  }

  /** The bins are consecutive stretches of equal size, and the last one takes the rest. */
  lemma BinsAreStretches(i: nat, n: nat, regimes: nat)
    requires n >= 1 && regimes >= 1
    ensures var size := if n < regimes then 1 else n / regimes;
            var b := BinOf(i, n, regimes);
            Multiple(b, size) <= i && (b < regimes - 1 ==> i < Multiple(b, size) + size)
  {
    var size := if n / regimes > 1 then n / regimes else 1;
    var q := i / size;
    assert i == q * size + i % size;
    SmallQuotient(n, regimes);
    if q >= regimes - 1 { MultipleOrder(regimes - 1, q, size); }
  }

  function Multiple(b: int, size: int): int { b * size }

  lemma SmallQuotient(n: nat, regimes: nat)
    requires regimes >= 1
    ensures n < regimes ==> n / regimes == 0
    ensures n >= regimes ==> n / regimes >= 1
  {
    var q := n / regimes;
    assert n == q * regimes + n % regimes;
    if q >= 1 { assert (q - 1) * regimes >= 0; }
  }

  lemma MultipleOrder(a: int, b: int, size: int)
    requires a <= b && size >= 0
    ensures Multiple(a, size) <= Multiple(b, size)
  {
    assert (b - a) * size >= 0;
  }

  lemma {:induction false} MassTotal(masses: seq<real>, ps: seq<real>, k: nat, regimes: nat)
    requires k <= |ps| && regimes >= 1 && |masses| == regimes
    requires forall r :: 0 <= r < regimes ==> masses[r] == Mass(ps, k, regimes, r)
    ensures Sum(masses) == Sum(ps[..k])
    decreases k
  {
    if k == 0 {
      assert Scaled(masses, masses, 0.0);
      SumScaled(masses, masses, 0.0);
    } else {
      var b := BinOf(k - 1, |ps|, regimes);
      var before := masses[b := masses[b] - ps[k - 1]];
      MassTotal(before, ps, k - 1, regimes);
      SumUpdate(before, b, masses[b]);
      assert before[b := masses[b]] == masses;
      assert ps[..k] == ps[..k - 1] + [ps[k - 1]];
      SumSnoc(ps[..k - 1], ps[k - 1]);
    }
  }

  lemma {:induction false} SumUpdate(xs: seq<real>, i: nat, v: real)
    requires i < |xs|
    ensures Sum(xs[i := v]) == Sum(xs) - xs[i] + v
  {
    var n := |xs| - 1;
    var ys := xs[i := v];
    if i == n {
      assert ys[..n] == xs[..n];
    } else {
      assert ys[..n] == xs[..n][i := v];
      SumUpdate(xs[..n], i, v);
    }
  }

  lemma {:induction false} MassNonneg(ps: seq<real>, k: nat, regimes: nat, r: nat)
    requires k <= |ps| && regimes >= 1 && forall i :: 0 <= i < |ps| ==> ps[i] >= 0.0
    ensures Mass(ps, k, regimes, r) >= 0.0
  {
    if k > 0 { MassNonneg(ps, k - 1, regimes, r); }
  }

  /** Of a distribution of run lengths the regime masses are a distribution too, so
      normalising them changes nothing. */
  lemma {:induction false} MassesAreDistribution(masses: seq<real>, ps: seq<real>, regimes: nat)
    requires Distribution(ps) && regimes >= 1 && |masses| == regimes
    requires forall r :: 0 <= r < regimes ==> masses[r] == Mass(ps, |ps|, regimes, r)
    ensures Distribution(masses) && Normalised(masses) == masses
  {
    MassTotal(masses, ps, |ps|, regimes);
    assert ps[..|ps|] == ps;
    forall r | 0 <= r < regimes ensures masses[r] >= 0.0 { MassNonneg(ps, |ps|, regimes, r); }
    assert Divide(masses, 1.0) == masses;
  }

  /** The detector as the engine holds it; `seen` is history. */
  class BayesianRegimeDetector {
    const model: Model
    var probs: seq<real>
    var stats: seq<Stat>
    var posteriors: seq<real>
    ghost var seen: seq<real>

    ghost predicate Valid()
      reads this
    {
      model.Valid() && Detector(probs, stats) == Observed(model, seen)
    }

    constructor (model: Model)
      requires model.Valid()
      ensures Valid() && seen == [] && this.model == model
      ensures |posteriors| == model.regimes && forall r :: 0 <= r < model.regimes ==> posteriors[r] == 1.0 / model.regimes as real
    {
      this.model := model;
      probs, stats, seen := [1.0], [FRESH], [];
      posteriors := seq(model.regimes, (_: nat) => 1.0 / model.regimes as real);
    }

    method Update(x: real)
      requires Valid()
      modifies this
      ensures Valid() && seen == old(seen) + [x]
      ensures probs[0] == model.hazard
      ensures Distribution(posteriors) && |posteriors| == model.regimes
      ensures forall r :: 0 <= r < model.regimes ==> posteriors[r] == Mass(probs, |probs|, model.regimes, r)
    {
      ghost var d := Detector(probs, stats);
      var weights := Likelihoods(x);
      var growth := Times(weights, 1.0 - model.hazard);
      var changepoint := Total(weights, model.hazard);
      probs := Normalised([changepoint] + growth);
      stats := Extended(x);
      seen := seen + [x];
      assert seen[..|seen| - 1] == old(seen);
      ProbsAreDistribution(model, seen);
      posteriors := RunLengthToRegimes();
    }

    method Likelihoods(x: real) returns (weights: seq<real>)
      requires |probs| == |stats|
      ensures weights == Weights(model, Detector(probs, stats), x)
    {
      weights := [];
      for i := 0 to |probs|
        invariant |weights| == i
        invariant forall k :: 0 <= k < i ==> weights[k] == Weights(model, Detector(probs, stats), x)[k]
      {
        weights := weights + [probs[i] * Predictive(model, stats[i], x)];
      }
    }

    method Times(xs: seq<real>, k: real) returns (ys: seq<real>)
      ensures ys == Scale(xs, k)
    {
      ys := [];
      for i := 0 to |xs|
        invariant |ys| == i && forall j :: 0 <= j < i ==> ys[j] == xs[j] * k
      {
        ys := ys + [xs[i] * k];
      }
    }

    method Total(xs: seq<real>, k: real) returns (t: real)
      ensures t == Sum(Scale(xs, k))
    {
      t := 0.0;
      for i := 0 to |xs|
        invariant t == Sum(Scale(xs, k)[..i])
      {
        var ys := Scale(xs, k);
        assert ys[..i + 1] == ys[..i] + [ys[i]];
        SumSnoc(ys[..i], ys[i]);
        t := t + xs[i] * k;
      }
      assert Scale(xs, k)[..|xs|] == Scale(xs, k);
    }

    method Extended(x: real) returns (next: seq<Stat>)
      ensures next == [FRESH] + seq(|stats|, (i: nat) requires i < |stats| reads this => Welford(stats[i], x))
    {
      next := [FRESH];
      for i := 0 to |stats|
        invariant |next| == i + 1 && next[0] == FRESH
        invariant forall k :: 0 <= k < i ==> next[k + 1] == Welford(stats[k], x)
      {
        next := next + [Welford(stats[i], x)];
      }
    }

    method RunLengthToRegimes() returns (ps: seq<real>)
      requires model.Valid() && probs != [] && Distribution(probs)
      ensures Distribution(ps) && |ps| == model.regimes
      ensures forall r :: 0 <= r < model.regimes ==> ps[r] == Mass(probs, |probs|, model.regimes, r)
    {
      ps := seq(model.regimes, (_: nat) => 0.0);
      for i := 0 to |probs|
        invariant |ps| == model.regimes
        invariant forall r :: 0 <= r < model.regimes ==> ps[r] == Mass(probs, i, model.regimes, r)
      {
        var b := BinOf(i, |probs|, model.regimes);
        ps := ps[b := ps[b] + probs[i]];
      }
      MassesAreDistribution(ps, probs, model.regimes);
      ps := Normalised(ps);
    }
  }

  // ------------------------------------------------ normal-inverse-gamma estimation

  datatype Nig = Nig(mu: real, kappa: real, alpha: real, beta: real)

  function NigStep(p: Nig, x: real): Nig
    requires p.kappa >= 0.0
  {
    var kappa := p.kappa + 1.0;
    Nig((p.kappa * p.mu + x) / kappa, kappa, p.alpha + 0.5,
        p.beta + p.kappa * Square(x - p.mu) / (2.0 * kappa))
  }

  function NigRun(prior: Nig, xs: seq<real>): (p: Nig)
    requires prior.kappa >= 0.0
    ensures p.kappa == prior.kappa + |xs| as real
  {
    if xs == [] then prior else NigStep(NigRun(prior, xs[..|xs| - 1]), xs[|xs| - 1])
  }

  function SumSquares(xs: seq<real>): real { SumMap(Square, xs) }

  function Momentum(p: Nig): real { p.kappa * p.mu }

  function Energy(p: Nig): real { p.kappa * Square(p.mu) }

  lemma NigStepFacts(p: Nig, x: real)
    requires p.kappa >= 0.0
    ensures var q := NigStep(p, x);
      Momentum(q) == Momentum(p) + x
      && 2.0 * q.beta + Energy(q) == 2.0 * p.beta + Energy(p) + Square(x)
  {
    var q := NigStep(p, x);
    var k, K, m, M := p.kappa, q.kappa, p.mu, q.mu;
    assert K * M == k * m + x;
    var g := k * Square(x - m) / (2.0 * K);
    assert g * (2.0 * K) == k * Square(x - m);
    NigAlgebra(k, K, m, M, x, g);
  }

  lemma NigAlgebra(k: real, K: real, m: real, M: real, x: real, g: real)
    requires k >= 0.0 && K == k + 1.0 && K * M == k * m + x
    requires g * (2.0 * K) == k * Square(x - m)
    ensures 2.0 * g + K * Square(M) == k * Square(m) + Square(x)
  {
    assert K * (K * (M * M)) == (k * m + x) * (k * m + x);
    assert k * ((x - m) * (x - m)) + (k * m + x) * (k * m + x) == K * (k * (m * m) + x * x);
    assert K * (2.0 * g + K * (M * M)) == K * (k * (m * m) + x * x);
  }

  /** The online updates are the batch closed form. */
  lemma {:induction false} NigClosedForm(prior: Nig, xs: seq<real>)
    requires prior.kappa >= 0.0 && xs != []
    ensures var p := NigRun(prior, xs);
      && p.mu == (prior.kappa * prior.mu + Sum(xs)) / (prior.kappa + |xs| as real)
      && p.alpha == prior.alpha + |xs| as real / 2.0
      && 2.0 * (p.beta - prior.beta) == SumSquares(xs) + Energy(prior) - Energy(p)
  {
    NigTotals(prior, xs);
    var p := NigRun(prior, xs);
    DivideBack(prior.kappa * prior.mu + Sum(xs), p.kappa, p.mu);
  }

  lemma {:induction false} NigTotals(prior: Nig, xs: seq<real>)
    requires prior.kappa >= 0.0
    ensures var p := NigRun(prior, xs);
      && Momentum(p) == Momentum(prior) + Sum(xs)
      && p.alpha == prior.alpha + |xs| as real / 2.0
      && 2.0 * p.beta + Energy(p) == 2.0 * prior.beta + Energy(prior) + SumSquares(xs)
  {
    if xs != [] {
      NigTotals(prior, xs[..|xs| - 1]);
      NigStepFacts(NigRun(prior, xs[..|xs| - 1]), xs[|xs| - 1]);
    }
  }

  /** Hence the estimate does not depend on the order of the observations. */
  lemma {:induction false} NigOrderFree(prior: Nig, xs: seq<real>, ys: seq<real>)
    requires prior.kappa >= 0.0 && multiset(xs) == multiset(ys)
    ensures NigRun(prior, xs) == NigRun(prior, ys)
  {
    assert |multiset(xs)| == |xs| && |multiset(ys)| == |ys|;
    SumAsMap(xs);
    SumAsMap(ys);
    SumMapPermutation(Itself, xs, ys);
    SumMapPermutation(Square, xs, ys);
    assert Sum(xs) == Sum(ys) && SumSquares(xs) == SumSquares(ys);
    if xs != [] {
      NigClosedForm(prior, xs);
      NigClosedForm(prior, ys);
      assert NigRun(prior, xs).mu == NigRun(prior, ys).mu;
      assert NigRun(prior, xs).kappa == NigRun(prior, ys).kappa;
      assert Energy(NigRun(prior, xs)) == Energy(NigRun(prior, ys));
    }
  }

  class BayesianParameterEstimator {
    var mu: real
    var kappa: real
    var alpha: real
    var beta: real
    var n: nat

    function View(): Nig
      reads this
    {
      Nig(mu, kappa, alpha, beta)
    }

    constructor (prior: Nig)
      ensures View() == prior && n == 0
    {
      mu, kappa, alpha, beta, n := prior.mu, prior.kappa, prior.alpha, prior.beta, 0;
    }

    method Update(x: real)
      requires kappa >= 0.0
      modifies this
      ensures View() == NigStep(old(View()), x) && n == old(n) + 1
    {
      n := n + 1;
      var oldMu, oldKappa := mu, kappa;
      kappa := oldKappa + 1.0;
      mu := (oldKappa * oldMu + x) / kappa;
      alpha := alpha + 0.5;
      beta := beta + oldKappa * Square(x - oldMu) / (2.0 * kappa);
    }
  }
}
