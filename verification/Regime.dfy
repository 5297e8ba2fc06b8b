/** The market-regime classifier: raw labels from indicator thresholds that depend on the
    current regime, and the confirmation rule that turns raw labels into the regime. */
module Regime {
  import opened Reals
  import opened Sequences
  import opened RealSeq

  datatype Label = HighVolatility | TrendingUp | TrendingDown | Reversal | Ranging

  /** The indicator values of one bar; a missing one reads as zero. */
  datatype Features = Features(adx: real, atr: real, rsi: real, emaFast: real, emaSlow: real)

  datatype Settings = Settings(window: nat, bars: int)

  /** The confirmed regime and the label waiting for confirmation. */
  datatype Vote = Vote(current: Label, candidate: Option<Label>, count: nat)

  datatype Memory = Memory(history: seq<real>, prevAdx: Option<real>, vote: Vote)

  datatype Classification = Classification(regime: Label, confidence: real, adx: real, atrRatio: real)

  predicate Trending(l: Label) { l == TrendingUp || l == TrendingDown }

  // ------------------------------------------------------------------ the confirmation rule

  function Confirm(v: Vote, raw: Label, bars: int): Vote {
    if raw == v.current then Vote(v.current, None, 0)
    else
      var count := if v.candidate == Some(raw) then v.count + 1 else 1;
      if count >= bars then Vote(raw, None, 0) else Vote(v.current, Some(raw), count)
  }

  const START: Vote := Vote(Ranging, None, 0)

  function Votes(raws: seq<Label>, bars: int): Vote
    decreases |raws|
  {
    if raws == [] then START else Confirm(Votes(raws[..|raws| - 1], bars), raws[|raws| - 1], bars)
  }

  /** The bars needed for a change; the code treats every number below one as one. */
  function Needed(bars: int): nat { if bars < 1 then 1 else bars }

  /** The last n raw labels are all r. */
  predicate Agreed(raws: seq<Label>, r: Label, n: nat) {
    n <= |raws| && forall i :: |raws| - n <= i < |raws| ==> raws[i] == r
  }

  /** The label of the most recent run of `bars` equal raw labels, Ranging before any. */
  function LastAgreed(raws: seq<Label>, bars: int): Label
    decreases |raws|
  {
    if raws == [] then Ranging
    else if Agreed(raws, raws[|raws| - 1], Needed(bars)) then raws[|raws| - 1]
    else LastAgreed(raws[..|raws| - 1], bars)
  }

  lemma AgreedStep(before: seq<Label>, raw: Label, r: Label, n: nat)
    ensures Agreed(before + [raw], r, n + 1) <==> raw == r && Agreed(before, r, n)
  {
    var raws := before + [raw];
    assert raws[|before|] == raw;
    if Agreed(raws, r, n + 1) {
      forall i | |before| - n <= i < |before| ensures before[i] == r { assert raws[i] == r; }
    }
  }

  /** A waiting label counts exactly the raw labels that have just repeated it. */
  predicate Counting(v: Vote, raws: seq<Label>, bars: int) {
    match v.candidate
    case None => v.count == 0 && (raws != [] ==> raws[|raws| - 1] == v.current)
    case Some(c) =>
      && c != v.current && 1 <= v.count < Needed(bars)
      && Agreed(raws, c, v.count) && !Agreed(raws, c, v.count + 1)
  }

  lemma {:induction false} VotesCount(raws: seq<Label>, bars: int)
    ensures Counting(Votes(raws, bars), raws, bars)
    decreases |raws|
  {
    if raws != [] {
      var before, raw := raws[..|raws| - 1], raws[|raws| - 1];
      assert raws == before + [raw];
      VotesCount(before, bars);
      var v := Votes(before, bars);
      if raw != v.current {
        var count := if v.candidate == Some(raw) then v.count + 1 else 1;
        AgreedStep(before, raw, raw, count - 1);
        AgreedStep(before, raw, raw, count);
        if v.candidate != Some(raw) && before != [] {
          if v.candidate.Some? { OnlyOneAgreed(before, v.candidate.value, raw, v.count); }
        }
      }
    }
  }

  lemma OnlyOneAgreed(raws: seq<Label>, c: Label, r: Label, n: nat)
    requires n >= 1 && Agreed(raws, c, n) && c != r
    ensures !Agreed(raws, r, 1)
  {
    assert raws[|raws| - 1] == c;
  }

  /** For every sequence of raw labels the regime is the label of the most recent run of
      `bars` equal labels: it never changes on fewer, and always changes on that many. */
  lemma {:induction false} RegimeIsLastAgreed(raws: seq<Label>, bars: int)
    ensures Votes(raws, bars).current == LastAgreed(raws, bars)
    decreases |raws|
  {
    if raws != [] {
      var before, raw := raws[..|raws| - 1], raws[|raws| - 1];
      assert raws == before + [raw];
      RegimeIsLastAgreed(before, bars);
      VotesCount(before, bars);
      var v, need := Votes(before, bars), Needed(bars);
      if raw != v.current {
        var count := if v.candidate == Some(raw) then v.count + 1 else 1;
        AgreedStep(before, raw, raw, need - 1);
        if count >= bars {
          assert Agreed(before, raw, need - 1);
        } else {
          NotAgreedYet(before, v, raw, bars);
        }
      }
    }
  }

  lemma NotAgreedYet(before: seq<Label>, v: Vote, raw: Label, bars: int)
    requires Counting(v, before, bars) && raw != v.current
    requires (if v.candidate == Some(raw) then v.count + 1 else 1) < bars
    ensures !Agreed(before, raw, bars - 1)
  {
    if Agreed(before, raw, bars - 1) {
      if v.candidate == Some(raw) {
        Shorter(before, raw, bars - 1, v.count + 1);
      } else {
        Shorter(before, raw, bars - 1, 1);
        if v.candidate.Some? { OnlyOneAgreed(before, v.candidate.value, raw, v.count); }
      }
    }
  }

  lemma Shorter(raws: seq<Label>, r: Label, n: nat, m: nat)
    requires Agreed(raws, r, n) && m <= n
    ensures Agreed(raws, r, m)
  {
  }

  // ------------------------------------------------------------------ how often it changes

  /** The vote after more raw labels. */
  function Continue(v: Vote, raws: seq<Label>, bars: int): Vote
    decreases |raws|
  {
    if raws == [] then v else Confirm(Continue(v, raws[..|raws| - 1], bars), raws[|raws| - 1], bars)
  }

  function Changes(v: Vote, raws: seq<Label>, bars: int): nat
    decreases |raws|
  {
    if raws == [] then 0
    else
      var before := Continue(v, raws[..|raws| - 1], bars);
      var now := Confirm(before, raws[|raws| - 1], bars).current;
      Changes(v, raws[..|raws| - 1], bars) + if now != before.current then 1 else 0
  }

  predicate Sensible(v: Vote) { v.candidate.None? ==> v.count == 0 }

  lemma {:induction false} ContinueSensible(v: Vote, raws: seq<Label>, bars: int)
    requires Sensible(v)
    ensures Sensible(Continue(v, raws, bars))
    decreases |raws|
  {
    if raws != [] { ContinueSensible(v, raws[..|raws| - 1], bars); }
  }

  function Times(k: nat, n: nat): nat { k * n }

  lemma OneMore(k: nat, n: nat)
    ensures Times(k + 1, n) == Times(k, n) + n
  {
  }

  /** Every change uses up `bars` raw labels. */
  lemma {:induction false} ChangesBound(v: Vote, raws: seq<Label>, bars: int)
    requires Sensible(v)
    ensures Times(Changes(v, raws, bars), Needed(bars)) + Continue(v, raws, bars).count <= v.count + |raws|
    decreases |raws|
  {
    if raws != [] {
      var before := raws[..|raws| - 1];
      ChangesBound(v, before, bars);
      ContinueSensible(v, before, bars);
      OneMore(Changes(v, before, bars), Needed(bars));
    }
  }

  /** From the start, n bars hold at most n / bars changes. */
  lemma ChangesFromStart(raws: seq<Label>, bars: int)
    ensures Times(Changes(START, raws, bars), Needed(bars)) <= |raws|
  {
    ChangesBound(START, raws, bars);
  }

  /** A window that opens mid-run may hold one more, since votes already cast count; it never
      holds more than that. */
  lemma ChangesInWindow(before: seq<Label>, raws: seq<Label>, bars: int)
    ensures Times(Changes(Votes(before, bars), raws, bars), Needed(bars)) <= |raws| + Needed(bars) - 1
  {
    VotesCount(before, bars);
    ChangesBound(Votes(before, bars), raws, bars);
  }

  function Repeated(l: Label, n: nat): (r: seq<Label>)
    ensures |r| == n && forall i :: 0 <= i < n ==> r[i] == l
  {
    seq(n, i => l)
  }

  /** A label that is waiting wins once its missing votes have come, and not before. */
  lemma {:induction false} WaitingLabelWins(v: Vote, l: Label, bars: int, n: nat)
    requires v.candidate == Some(l) && l != v.current && v.count + n <= bars
    ensures v.count + n < bars ==>
              Continue(v, Repeated(l, n), bars) == Vote(v.current, Some(l), v.count + n)
              && Changes(v, Repeated(l, n), bars) == 0
    ensures n > 0 && v.count + n == bars ==> Changes(v, Repeated(l, n), bars) == 1
    decreases n
  {
    if n > 0 {
      WaitingLabelWins(v, l, bars, n - 1);
      assert Repeated(l, n)[..n - 1] == Repeated(l, n - 1);
    }
  }

  /** The n / N bound holds of every window that opens at a point exactly when no label is
      waiting there. For N = 3 and two votes for Reversal, one more bar is a window of one
      bar with a change. */
  lemma {:induction false} WindowBoundIff(before: seq<Label>, bars: int)
    ensures (forall raws: seq<Label> :: Times(Changes(Votes(before, bars), raws, bars), Needed(bars)) <= |raws|)
       <==> Votes(before, bars).candidate == None
  {
    var v := Votes(before, bars);
    VotesCount(before, bars);
    if v.candidate == None {
      forall raws: seq<Label> ensures Times(Changes(v, raws, bars), Needed(bars)) <= |raws| {
        ChangesBound(v, raws, bars);
      }
    } else {
      var missing := bars - v.count;
      WaitingLabelWins(v, v.candidate.value, bars, missing);
      var raws := Repeated(v.candidate.value, missing);
      assert Changes(v, raws, bars) == 1;
      assert Times(1, Needed(bars)) > |raws|;
    }
  }

  // ------------------------------------------------------------------ raw labels

  /** The range of this bar over the mean of the earlier ones. */
  function AtrRatio(m: Memory, f: Features): real {
    if Mean(m.history) > 0.0 then f.atr / Mean(m.history) else 0.0
  }

  /** `measured` says whether an average range is known yet. */
  predicate Volatile(current: Label, measured: bool, atrRatio: real) {
    measured && atrRatio > if current == HighVolatility then 1.5 else 2.0
  }

  predicate Directed(current: Label, f: Features) {
    f.emaSlow > 0.0 && f.emaFast != f.emaSlow && f.adx > if Trending(current) then 23.0 else 27.0
  }

  predicate Reversing(prevAdx: Option<real>, f: Features) {
    prevAdx.Some? && prevAdx.value > 40.0 && f.adx < prevAdx.value && (f.rsi > 70.0 || f.rsi < 30.0)
  }

  function RawLabel(current: Label, prevAdx: Option<real>, measured: bool, atrRatio: real, f: Features): Label {
    if Volatile(current, measured, atrRatio) then HighVolatility
    else if Directed(current, f) then if f.emaFast > f.emaSlow then TrendingUp else TrendingDown
    else if Reversing(prevAdx, f) then Reversal
    else Ranging
  }

  function Raw(m: Memory, f: Features): Label {
    RawLabel(m.vote.current, m.prevAdx, Mean(m.history) > 0.0, AtrRatio(m, f), f)
  }

  /** The confidence that goes with a label. */
  function Confidence(l: Label, adx: real, atrRatio: real): real {
    match l
    case HighVolatility => Max(Min(0.5 + (atrRatio - 2.0) * 0.25, 0.95), 0.5)
    case TrendingUp => Min(0.5 + adx / 100.0, 0.9)
    case TrendingDown => Min(0.5 + adx / 100.0, 0.9)
    case Reversal => 0.55
    case Ranging => if adx < 20.0 then 0.7 else 0.6
  }

  function Remember(history: seq<real>, atr: real, window: nat): seq<real> {
    if atr <= 0.0 then history else Suffix(history + [atr], window)
  }

  /** The last n elements, or all of them. */
  function Suffix(xs: seq<real>, n: nat): seq<real> {
    if |xs| <= n then xs else xs[|xs| - n..]
  }

  function Step(s: Settings, m: Memory, f: Features): Memory {
    Memory(Remember(m.history, f.atr, s.window), Some(f.adx), Confirm(m.vote, Raw(m, f), s.bars))
  }

  function Verdict(s: Settings, m: Memory, f: Features): Classification {
    var l := Step(s, m, f).vote.current;
    Classification(l, Confidence(l, f.adx, AtrRatio(m, f)), f.adx, AtrRatio(m, f))
  }

  function After(s: Settings, m: Memory, fs: seq<Features>): Memory
    decreases |fs|
  {
    if fs == [] then m else Step(s, After(s, m, fs[..|fs| - 1]), fs[|fs| - 1])
  }

  const FRESH: Memory := Memory([], None, START)

  /** The raw labels of a run; each one depends on the regime reached so far. */
  function Raws(s: Settings, fs: seq<Features>): (r: seq<Label>)
    ensures |r| == |fs|
    decreases |fs|
  {
    if fs == [] then [] else Raws(s, fs[..|fs| - 1]) + [Raw(After(s, FRESH, fs[..|fs| - 1]), fs[|fs| - 1])]
  }

  lemma {:induction false} RunVotes(s: Settings, fs: seq<Features>)
    ensures After(s, FRESH, fs).vote == Votes(Raws(s, fs), s.bars)
    decreases |fs|
  {
    if fs != [] {
      RunVotes(s, fs[..|fs| - 1]);
      assert Raws(s, fs)[..|fs| - 1] == Raws(s, fs[..|fs| - 1]);
    }
  }

  /** The feedback from regime to thresholds changes nothing: in every run of bars the regime
      is the label of the most recent run of agreeing raw labels. */
  lemma RunRegime(s: Settings, fs: seq<Features>)
    ensures After(s, FRESH, fs).vote.current == LastAgreed(Raws(s, fs), s.bars)
  {
    RunVotes(s, fs);
    RegimeIsLastAgreed(Raws(s, fs), s.bars);
  }

  function Positive(fs: seq<Features>): seq<real> {
    if fs == [] then []
    else
      var before := Positive(fs[..|fs| - 1]);
      if fs[|fs| - 1].atr > 0.0 then before + [fs[|fs| - 1].atr] else before
  }

  /** The history is the last `window` positive ranges of the run. */
  lemma {:induction false} HistoryIsWindow(s: Settings, fs: seq<Features>)
    ensures After(s, FRESH, fs).history == Suffix(Positive(fs), s.window)
    decreases |fs|
  {
    if fs != [] {
      HistoryIsWindow(s, fs[..|fs| - 1]);
      var before, x := Positive(fs[..|fs| - 1]), fs[|fs| - 1].atr;
      if x > 0.0 { assert Suffix(Suffix(before, s.window) + [x], s.window) == Suffix(before + [x], s.window); }
    }
  }

  // ------------------------------------------------------------------ dead bands

  /** Along the run from m, every bar satisfies the bound in the state it meets. */
  predicate Calm(s: Settings, m: Memory, fs: seq<Features>) {
    forall i :: 0 <= i < |fs| ==> fs[i].adx <= 27.0 && AtrRatio(After(s, m, fs[..i]), fs[i]) <= 2.0
  }

  lemma CalmPrefix(s: Settings, m: Memory, fs: seq<Features>)
    requires fs != [] && Calm(s, m, fs)
    ensures Calm(s, m, fs[..|fs| - 1])
    ensures fs[|fs| - 1].adx <= 27.0 && AtrRatio(After(s, m, fs[..|fs| - 1]), fs[|fs| - 1]) <= 2.0
  {
    var before := fs[..|fs| - 1];
    forall i | 0 <= i < |before|
      ensures before[i].adx <= 27.0 && AtrRatio(After(s, m, before[..i]), before[i]) <= 2.0
    {
      assert before[..i] == fs[..i];
    }
  }

  lemma CalmStep(s: Settings, m: Memory, f: Features)
    requires m.vote.current in {Ranging, Reversal} && f.adx <= 27.0 && AtrRatio(m, f) <= 2.0
    ensures Raw(m, f) in {Ranging, Reversal} && Step(s, m, f).vote.current in {Ranging, Reversal}
  {
  }

  /** While the strength stays at or below 27 and the range ratio at or below 2, a run that
      starts outside trends and high volatility stays outside, whatever was waiting. */
  lemma {:induction false} CalmStaysOut(s: Settings, m: Memory, fs: seq<Features>)
    requires Calm(s, m, fs) && m.vote.current in {Ranging, Reversal}
    ensures After(s, m, fs).vote.current in {Ranging, Reversal}
    decreases |fs|
  {
    if fs != [] {
      CalmPrefix(s, m, fs);
      CalmStaysOut(s, m, fs[..|fs| - 1]);
      CalmStep(s, After(s, m, fs[..|fs| - 1]), fs[|fs| - 1]);
    }
  }

  /** A fresh run under the same bounds never even leaves Ranging. */
  lemma {:induction false} CalmStaysRanging(s: Settings, fs: seq<Features>)
    requires Calm(s, FRESH, fs)
    ensures After(s, FRESH, fs).vote == START
    ensures fs != [] ==> After(s, FRESH, fs).prevAdx.Some? && After(s, FRESH, fs).prevAdx.value <= 27.0
    decreases |fs|
  {
    if fs != [] {
      CalmPrefix(s, FRESH, fs);
      CalmStaysRanging(s, fs[..|fs| - 1]);
    }
  }

  predicate Firm(s: Settings, m: Memory, fs: seq<Features>) {
    forall i :: 0 <= i < |fs| ==>
      && fs[i].adx > 23.0 && fs[i].emaSlow > 0.0 && fs[i].emaFast != fs[i].emaSlow
      && AtrRatio(After(s, m, fs[..i]), fs[i]) <= 2.0
  }

  lemma FirmPrefix(s: Settings, m: Memory, fs: seq<Features>)
    requires fs != [] && Firm(s, m, fs)
    ensures Firm(s, m, fs[..|fs| - 1])
    ensures var f := fs[|fs| - 1];
            && f.adx > 23.0 && f.emaSlow > 0.0 && f.emaFast != f.emaSlow
            && AtrRatio(After(s, m, fs[..|fs| - 1]), f) <= 2.0
  {
    var before := fs[..|fs| - 1];
    forall i | 0 <= i < |before|
      ensures before[i].adx > 23.0 && before[i].emaSlow > 0.0 && before[i].emaFast != before[i].emaSlow
      ensures AtrRatio(After(s, m, before[..i]), before[i]) <= 2.0
    {
      assert before[..i] == fs[..i];
    }
  }

  /** The other side of the band: a trend holds while the strength stays above 23. */
  lemma {:induction false} FirmStaysTrending(s: Settings, m: Memory, fs: seq<Features>)
    requires Firm(s, m, fs) && Trending(m.vote.current)
    ensures Trending(After(s, m, fs).vote.current)
    decreases |fs|
  {
    if fs != [] {
      FirmPrefix(s, m, fs);
      FirmStaysTrending(s, m, fs[..|fs| - 1]);
    }
  }

  // ------------------------------------------------------------------ what a regime says

  lemma {:induction false} RawAt(s: Settings, fs: seq<Features>, i: nat)
    requires i < |fs|
    ensures Raws(s, fs)[i] == Raw(After(s, FRESH, fs[..i]), fs[i])
    ensures After(s, FRESH, fs[..i]).prevAdx == if i == 0 then None else Some(fs[i - 1].adx)
    decreases |fs|
  {
    var n := |fs| - 1;
    if i < n {
      RawAt(s, fs[..n], i);
      assert fs[..n][..i] == fs[..i];
    } else {
      assert fs[..n][..i] == fs[..i];
      if i > 0 { assert After(s, FRESH, fs[..n]) == Step(s, After(s, FRESH, fs[..n][..n - 1]), fs[..n][n - 1]); }
    }
  }

  /** What bars that point to a label have in common, in the state m they meet. */
  predicate Supports(r: Label, m: Memory, f: Features) {
    match r
    case HighVolatility => AtrRatio(m, f) > 1.5
    case TrendingUp => f.emaFast > f.emaSlow > 0.0 && f.adx > 23.0
    case TrendingDown => 0.0 < f.emaSlow && f.emaFast < f.emaSlow && f.adx > 23.0
    case Reversal => m.prevAdx.Some? && f.adx < m.prevAdx.value && m.prevAdx.value > 40.0 && !(30.0 <= f.rsi <= 70.0)
    case Ranging => true
  }

  /** Bars that leave no doubt, whatever the regime they meet. */
  predicate Decides(r: Label, m: Memory, f: Features) {
    match r
    case HighVolatility => AtrRatio(m, f) > 2.0
    case TrendingUp => AtrRatio(m, f) <= 1.5 && f.emaFast > f.emaSlow > 0.0 && f.adx > 27.0
    case TrendingDown => AtrRatio(m, f) <= 1.5 && 0.0 < f.emaSlow && f.emaFast < f.emaSlow && f.adx > 27.0
    case Reversal => AtrRatio(m, f) <= 1.5 && f.emaFast == f.emaSlow
                     && m.prevAdx.Some? && f.adx < m.prevAdx.value && m.prevAdx.value > 40.0 && !(30.0 <= f.rsi <= 70.0)
    case Ranging => AtrRatio(m, f) <= 1.5 && f.adx <= 23.0 && 30.0 <= f.rsi <= 70.0
  }

  lemma LabelsMean(m: Memory, f: Features, r: Label)
    ensures Raw(m, f) == r ==> Supports(r, m, f)
    ensures Decides(r, m, f) ==> Raw(m, f) == r
  {
  }

  lemma {:induction false} LastAgreedBlock(raws: seq<Label>, bars: int) returns (k: nat)
    requires LastAgreed(raws, bars) != Ranging
    ensures k <= |raws| && Agreed(raws[..k], LastAgreed(raws, bars), Needed(bars))
    decreases |raws|
  {
    if Agreed(raws, raws[|raws| - 1], Needed(bars)) {
      k := |raws|;
      assert raws[..k] == raws;
    } else {
      k := LastAgreedBlock(raws[..|raws| - 1], bars);
      assert raws[..|raws| - 1][..k] == raws[..k];
    }
  }

  /** A regime other than Ranging rests on N consecutive bars of the run that all support it. */
  lemma {:induction false} RegimeIsSupported(s: Settings, fs: seq<Features>) returns (k: nat)
    requires After(s, FRESH, fs).vote.current != Ranging
    ensures Needed(s.bars) <= k <= |fs|
    ensures forall i :: k - Needed(s.bars) <= i < k ==>
              Supports(After(s, FRESH, fs).vote.current, After(s, FRESH, fs[..i]), fs[i])
  {
    var r, raws := After(s, FRESH, fs).vote.current, Raws(s, fs);
    RunRegime(s, fs);
    k := LastAgreedBlock(raws, s.bars);
    forall i | k - Needed(s.bars) <= i < k ensures Supports(r, After(s, FRESH, fs[..i]), fs[i]) {
      RawAt(s, fs, i);
      assert raws[..k][i] == r;
      LabelsMean(After(s, FRESH, fs[..i]), fs[i], r);
    }
  }

  /** N consecutive bars that decide for a label make it the regime, whatever went before. */
  lemma {:induction false} DecidedBarsWin(s: Settings, fs: seq<Features>, r: Label)
    requires Needed(s.bars) <= |fs|
    requires forall i :: |fs| - Needed(s.bars) <= i < |fs| ==> Decides(r, After(s, FRESH, fs[..i]), fs[i])
    ensures After(s, FRESH, fs).vote.current == r
  {
    var raws := Raws(s, fs);
    forall i | |fs| - Needed(s.bars) <= i < |fs| ensures raws[i] == r {
      RawAt(s, fs, i);
      LabelsMean(After(s, FRESH, fs[..i]), fs[i], r);
    }
    assert Agreed(raws, r, Needed(s.bars));
    RunRegime(s, fs);
  }

  /** With more than one bar needed and averages that never coincide the Reversal regime is never
      reached: it asks each bar to follow a strength above 40 and itself to be no trend. */
  lemma {:induction false} ReversalNeverConfirmed(s: Settings, fs: seq<Features>)
    requires s.bars >= 2
    requires forall i :: 0 <= i < |fs| ==> fs[i].emaSlow > 0.0 && fs[i].emaFast != fs[i].emaSlow
    ensures After(s, FRESH, fs).vote.current != Reversal
  {
    if After(s, FRESH, fs).vote.current == Reversal {
      var raws := Raws(s, fs);
      RunRegime(s, fs);
      var k := LastAgreedBlock(raws, s.bars);
      assert raws[..k][k - 1] == Reversal && raws[..k][k - 2] == Reversal;
      RawAt(s, fs, k - 1);
      RawAt(s, fs, k - 2);
    }
  }

  /** The confidence scale: a trend at 25 has 0.75, gains a hundredth per point and stops at 0.9
      from 40 on; volatility stays at 0.5 up to a ratio of 2, gains a quarter per unit and stops
      at 0.95; a quiet range below 20 has 0.7. */
  lemma ConfidenceScale(l: Label, adx: real, d: real, atrRatio: real)
    requires Trending(l)
    ensures Confidence(l, 25.0, atrRatio) == 0.75
    ensures adx <= 40.0 && adx + d <= 40.0 ==>
              Confidence(l, adx + d, atrRatio) == Confidence(l, adx, atrRatio) + d / 100.0
    ensures adx >= 40.0 <==> Confidence(l, adx, atrRatio) == 0.9
    ensures atrRatio <= 2.0 <==> Confidence(HighVolatility, adx, atrRatio) == 0.5
    ensures atrRatio >= 3.8 <==> Confidence(HighVolatility, adx, atrRatio) == 0.95
    ensures 2.0 <= atrRatio <= 3.8 && 2.0 <= atrRatio + d <= 3.8 ==>
              Confidence(HighVolatility, adx, atrRatio + d) == Confidence(HighVolatility, adx, atrRatio) + d / 4.0
    ensures Confidence(Ranging, adx, atrRatio) == 0.7 <==> adx < 20.0
    ensures Confidence(Reversal, adx, atrRatio) == 0.55 && Confidence(Ranging, 20.0, atrRatio) == 0.6
  {
  }

  /** Confidence is between one half and 0.95 for every strength that is not negative. */
  lemma ConfidenceWithin(s: Settings, m: Memory, f: Features)
    requires f.adx >= 0.0
    ensures 0.5 <= Verdict(s, m, f).confidence <= 0.95
  {
    assert f.adx / 100.0 >= 0.0;
  }

  // ------------------------------------------------------------------ the classifier

  class RegimeClassifier {
    const settings: Settings
    var atrHistory: seq<real>
    var prevAdx: Option<real>
    var currentRegime: Label
    var candidateRegime: Option<Label>
    var candidateCount: nat

    function State(): Memory
      reads this
    {
      Memory(atrHistory, prevAdx, Vote(currentRegime, candidateRegime, candidateCount))
    }

    constructor (settings: Settings)
      ensures State() == FRESH && this.settings == settings
    {
      this.settings := settings;
      atrHistory, prevAdx := [], None;
      currentRegime, candidateRegime, candidateCount := Ranging, None, 0;
    }

    method ApplyHysteresis(raw: Label) returns (final: Label)
      modifies this`currentRegime, this`candidateRegime, this`candidateCount
      ensures State() == old(State()).(vote := Confirm(old(State()).vote, raw, settings.bars))
      ensures final == currentRegime
    {
      if raw == currentRegime {
        candidateRegime, candidateCount := None, 0;
        return currentRegime;
      }
      if candidateRegime == Some(raw) {
        candidateCount := candidateCount + 1;
      } else {
        candidateRegime, candidateCount := Some(raw), 1;
      }
      if candidateCount >= settings.bars {
        currentRegime, candidateRegime, candidateCount := raw, None, 0;
        return raw;
      }
      final := currentRegime;
    }

    method ClassifyRaw(f: Features, avgAtr: real, atrRatio: real) returns (raw: Label, confidence: real)
      ensures raw == RawLabel(currentRegime, prevAdx, avgAtr > 0.0, atrRatio, f)
      ensures confidence == Confidence(raw, f.adx, atrRatio)
    {
      if avgAtr > 0.0 {
        var bound := if currentRegime == HighVolatility then 1.5 else 2.0;
        if atrRatio > bound {
          return HighVolatility, Max(Min(0.5 + (atrRatio - 2.0) * 0.25, 0.95), 0.5);
        }
      }
      if f.emaSlow > 0.0 {
        var bound := if Trending(currentRegime) then 23.0 else 27.0;
        if f.adx > bound {
          var c := Min(0.5 + f.adx / 100.0, 0.9);
          if f.emaFast > f.emaSlow {
            return TrendingUp, c;
          } else if f.emaFast < f.emaSlow {
            return TrendingDown, c;
          }
        }
      }
      if prevAdx.Some? && prevAdx.value > 40.0 && f.adx < prevAdx.value && (f.rsi > 70.0 || f.rsi < 30.0) {
        return Reversal, 0.55;
      }
      return Ranging, if f.adx < 20.0 then 0.7 else 0.6;
    }

    method Classify(f: Features) returns (c: Classification)
      modifies this
      ensures State() == Step(settings, old(State()), f)
      ensures c == Verdict(settings, old(State()), f)
    {
      var avgAtr := Mean(atrHistory);
      if f.atr > 0.0 {
        atrHistory := Suffix(atrHistory + [f.atr], settings.window);
      }
      var atrRatio := if avgAtr > 0.0 then f.atr / avgAtr else 0.0;
      var raw, confidence := ClassifyRaw(f, avgAtr, atrRatio);
      var final := ApplyHysteresis(raw);
      if final != raw {
        confidence := Confidence(final, f.adx, atrRatio);
      }
      prevAdx := Some(f.adx);
      c := Classification(final, confidence, f.adx, atrRatio);
    }
  }
}
