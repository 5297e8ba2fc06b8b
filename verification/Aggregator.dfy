/** Ticks become bars on several timeframes. Prices and volumes are reals, times are
    nanoseconds since the zero time that Go's Truncate counts from. */
module Aggregator {
  import opened Reals
  import opened Sequences

  type Timeframe = string

  const MINUTE: int := 60_000_000_000

  function Duration(tf: Timeframe): (d: int)
    ensures d > 0
  {
    if tf == "M5" then 5 * MINUTE
    else if tf == "M15" then 15 * MINUTE
    else if tf == "H1" then 60 * MINUTE
    else if tf == "H4" then 240 * MINUTE
    else if tf == "D1" then 1440 * MINUTE
    else MINUTE
  }

  /** Truncation rounds towards the past, before the zero time as well. */
  function FloorTime(t: int, d: int): (f: int)
    requires d > 0
    ensures f <= t < f + d && f % d == 0
  {
    FloorTimeFacts(t, d);
    t - t % d
  }

  lemma FloorTimeFacts(t: int, d: int)
    requires d > 0
    ensures (t - t % d) % d == 0
  {
    var q := t / d;
    assert t - t % d == q * d;
    MultipleMod(q, d);
  }

  lemma MultipleMod(q: int, d: int)
    requires d > 0
    ensures (q * d) % d == 0
  {
    var r := (q * d) % d;
    var p := (q * d) / d;
    assert (q - p) * d == r;
    MultipleSize(q - p, d);
  }

  lemma MultipleSize(n: int, d: int)
    requires d > 0
    ensures n >= 1 ==> n * d >= d
    ensures n <= -1 ==> n * d <= -d
  {
    if n >= 1 { assert (n - 1) * d >= 0; }
    if n <= -1 { assert (n + 1) * d <= 0; }
  }

  lemma MultiplesApart(f: int, g: int, d: int)
    requires d > 0 && f % d == 0 && g % d == 0 && f > g
    ensures f >= g + d
  {
    var n := f / d - g / d;
    assert f == (f / d) * d && g == (g / d) * d;
    assert n * d == f - g;
    PositiveMultiple(n, d);
  }

  lemma PositiveMultiple(n: int, d: int)
    requires d > 0 && n * d > 0
    ensures n * d >= d
  {
    MultipleSize(n, d);
    assert n == 0 ==> n * d == 0;
  }

  /** A multiple of d in the interval of FloorTime is FloorTime. */
  lemma FloorTimeUnique(t: int, d: int, f: int)
    requires d > 0 && f % d == 0 && f <= t < f + d
    ensures FloorTime(t, d) == f
  {
    var g := FloorTime(t, d);
    if f > g { MultiplesApart(f, g, d); }
    if g > f { MultiplesApart(g, f, d); }
  }

  lemma FloorTimeMonotone(t: int, u: int, d: int)
    requires d > 0 && t <= u
    ensures FloorTime(t, d) <= FloorTime(u, d)
  {
    var f, g := FloorTime(t, d), FloorTime(u, d);
    if f > g { MultiplesApart(f, g, d); }
  }

  /** Flooring to a coarse boundary is unaffected by flooring to a finer one first. */
  lemma FloorTimeNested(t: int, fine: int, coarse: int)
    requires fine > 0 && coarse > 0 && coarse % fine == 0
    ensures FloorTime(FloorTime(t, fine), coarse) == FloorTime(t, coarse)
  {
    var c := FloorTime(t, coarse);
    var k, m := c / coarse, coarse / fine;
    assert c == k * coarse && coarse == m * fine;
    assert k * coarse == (k * m) * fine;
    MultipleMod(k * m, fine);
    FloorTimeUnique(c, fine, c);
    FloorTimeMonotone(c, t, fine);
    FloorTimeUnique(FloorTime(t, fine), coarse, c);
  }

  // --------------------------------------------------------------- one lane of bars

  datatype Tick = Tick(time: int, price: real, volume: real)

  /** The part of a bar that aggregation computes. */
  datatype Candle = Candle(openTime: int, open: real, high: real, low: real, close: real,
                           volume: real, tickCount: nat)

  function Unit(t: Tick): Candle { Candle(t.time, t.price, t.price, t.price, t.price, t.volume, 1) }

  function Merge(a: Candle, b: Candle): Candle {
    Candle(a.openTime, a.open, Max(a.high, b.high), Min(a.low, b.low), b.close,
           a.volume + b.volume, a.tickCount + b.tickCount)
  }

  /** The bars one symbol and timeframe has completed, and the one it is filling. */
  datatype Lane = Lane(done: seq<Candle>, pending: Option<Candle>)

  function Pending(p: Option<Candle>): seq<Candle> { if p.Some? then [p.value] else [] }

  function Candles(l: Lane): seq<Candle> { l.done + Pending(l.pending) }

  const EMPTY: Lane := Lane([], None)

  /** Add one item, a tick or a whole finer bar, to a lane of duration d. */
  function AddItem(d: int, l: Lane, x: Candle): Lane
    requires d > 0
  {
    var barOpen := FloorTime(x.openTime, d);
    if l.pending.Some? && barOpen <= l.pending.value.openTime
    then Lane(l.done, Some(Merge(l.pending.value, x)))
    else Lane(Candles(l), Some(x.(openTime := barOpen)))
  }

  function Aggregate(d: int, l: Lane, xs: seq<Candle>): Lane
    requires d > 0
  {
    if xs == [] then l else AddItem(d, Aggregate(d, l, xs[..|xs| - 1]), xs[|xs| - 1])
  }

  lemma AggregateSnoc(d: int, l: Lane, xs: seq<Candle>, x: Candle)
    requires d > 0
    ensures Aggregate(d, l, xs + [x]) == AddItem(d, Aggregate(d, l, xs), x)
  {
    assert (xs + [x])[..|xs|] == xs;
  }

  /** For ticks in any order, a coarse lane fed the ticks and a coarse lane fed the bars
      of a finer lane end up with the same bars. */
  lemma {:induction false} CoarseFromFine(fine: int, coarse: int, xs: seq<Candle>)
    requires fine > 0 && coarse > 0 && coarse % fine == 0
    ensures Aggregate(coarse, EMPTY, Candles(Aggregate(fine, EMPTY, xs))) == Aggregate(coarse, EMPTY, xs)
  {
    if xs != [] {
      var n := |xs| - 1;
      var x, l := xs[n], Aggregate(fine, EMPTY, xs[..n]);
      CoarseFromFine(fine, coarse, xs[..n]);
      var l1 := AddItem(fine, l, x);
      if l.pending.Some? && FloorTime(x.openTime, fine) <= l.pending.value.openTime {
        MergeIntoLast(fine, coarse, Aggregate(coarse, EMPTY, l.done), l.pending.value, x);
        AggregateSnoc(coarse, EMPTY, l.done, l.pending.value);
        AggregateSnoc(coarse, EMPTY, l.done, Merge(l.pending.value, x));
      } else {
        FloorTimeNested(x.openTime, fine, coarse);
        AggregateSnoc(coarse, EMPTY, Candles(l), x.(openTime := FloorTime(x.openTime, fine)));
        assert Candles(l1) == Candles(l) + [x.(openTime := FloorTime(x.openTime, fine))];
      }
    }
  }

  /** Extending a fine bar and then adding it to a coarse lane is adding it and then the extension. */
  lemma MergeIntoLast(fine: int, coarse: int, l: Lane, b: Candle, x: Candle)
    requires fine > 0 && coarse > 0 && coarse % fine == 0
    requires FloorTime(x.openTime, fine) <= b.openTime
    ensures AddItem(coarse, l, Merge(b, x)) == AddItem(coarse, AddItem(coarse, l, b), x)
  {
    FloorTimeNested(x.openTime, fine, coarse);
    FloorTimeMonotone(FloorTime(x.openTime, fine), b.openTime, coarse);
  }

  // ------------------------------------------------------ what the bars of a lane are

  function SumVolume(xs: seq<Candle>): real {
    if xs == [] then 0.0 else SumVolume(xs[..|xs| - 1]) + xs[|xs| - 1].volume
  }

  function SumTicks(xs: seq<Candle>): nat {
    if xs == [] then 0 else SumTicks(xs[..|xs| - 1]) + xs[|xs| - 1].tickCount
  }

  /** b is the summary of the items xs, in their order. */
  ghost predicate Summarises(b: Candle, xs: seq<Candle>) {
    && xs != []
    && b.open == xs[0].open && b.close == xs[|xs| - 1].close
    && (forall i :: 0 <= i < |xs| ==> xs[i].high <= b.high) && (exists i :: 0 <= i < |xs| && xs[i].high == b.high)
    && (forall i :: 0 <= i < |xs| ==> b.low <= xs[i].low) && (exists i :: 0 <= i < |xs| && xs[i].low == b.low)
    && b.volume == SumVolume(xs) && b.tickCount == SumTicks(xs)
  }

  /** The items whose floored time is o. */
  function Bucket(xs: seq<Candle>, d: int, o: int): seq<Candle>
    requires d > 0
  {
    if xs == [] then [] else
      var x := xs[|xs| - 1];
      Bucket(xs[..|xs| - 1], d, o) + (if FloorTime(x.openTime, d) == o then [x] else [])
  }

  predicate TimeOrdered(xs: seq<Candle>) {
    forall i, j :: 0 <= i < j < |xs| ==> xs[i].openTime <= xs[j].openTime
  }

  ghost predicate StrictlyIncreasing(bs: seq<Candle>) {
    forall i, j :: 0 <= i < j < |bs| ==> bs[i].openTime < bs[j].openTime
  }

  lemma {:induction false} MergeSummarises(b: Candle, xs: seq<Candle>, x: Candle)
    requires Summarises(b, xs)
    ensures Summarises(Merge(b, x), xs + [x])
  {
    var ys := xs + [x];
    assert ys[..|xs|] == xs;
    var i :| 0 <= i < |xs| && xs[i].high == b.high;
    var j :| 0 <= j < |xs| && xs[j].low == b.low;
    assert ys[i].high == b.high && ys[j].low == b.low && ys[|xs|] == x;
  }

  lemma UnitSummarises(x: Candle, o: int)
    ensures Summarises(x.(openTime := o), [x])
  {
    var b := x.(openTime := o);
    assert [x][..0] == [];
    assert SumVolume([x]) == SumVolume([]) + x.volume;
    assert [x][0].high == b.high && [x][0].low == b.low;
  }

  /** For time-ordered items a lane is the grouping of the items by floored time: one
      bar per occupied interval, in order, each the summary of exactly its items. */
  ghost predicate Grouped(d: int, bs: seq<Candle>, xs: seq<Candle>)
    requires d > 0
  {
    && StrictlyIncreasing(bs)
    && (forall i :: 0 <= i < |bs| ==> Summarises(bs[i], Bucket(xs, d, bs[i].openTime)))
    && Covers(d, bs, xs)
  }

  /** Every item falls in the interval of some bar. */
  ghost predicate Covers(d: int, bs: seq<Candle>, xs: seq<Candle>)
    requires d > 0
  {
    forall j :: 0 <= j < |xs| ==> HasBar(bs, FloorTime(xs[j].openTime, d))
  }

  predicate HasBar(bs: seq<Candle>, o: int) { exists i :: 0 <= i < |bs| && bs[i].openTime == o }

  lemma {:induction false} CoversMore(d: int, bs: seq<Candle>, xs: seq<Candle>, cs: seq<Candle>, x: Candle)
    requires d > 0 && Covers(d, bs, xs) && |bs| <= |cs| && cs != []
    requires forall i :: 0 <= i < |bs| ==> cs[i].openTime == bs[i].openTime
    requires cs[|cs| - 1].openTime == FloorTime(x.openTime, d)
    ensures Covers(d, cs, xs + [x])
  {
    var ys := xs + [x];
    forall j | 0 <= j < |ys| ensures HasBar(cs, FloorTime(ys[j].openTime, d)) {
      if j < |xs| {
        assert HasBar(bs, FloorTime(xs[j].openTime, d));
        var i :| 0 <= i < |bs| && bs[i].openTime == FloorTime(xs[j].openTime, d);
        assert cs[i].openTime == FloorTime(ys[j].openTime, d);
      } else {
        assert cs[|cs| - 1].openTime == FloorTime(ys[j].openTime, d);
      }
    }
  }

  lemma {:induction false} BucketOf(xs: seq<Candle>, d: int, o: int)
    requires d > 0 && (forall k :: 0 <= k < |xs| ==> FloorTime(xs[k].openTime, d) != o)
    ensures Bucket(xs, d, o) == []
  {
    if xs != [] { BucketOf(xs[..|xs| - 1], d, o); }
  }

  /** What holds along any stream: completed bars open in strictly increasing order, all
      before the pending one. */
  lemma {:induction false} OpenTimesIncrease(d: int, xs: seq<Candle>)
    requires d > 0
    ensures StrictlyIncreasing(Candles(Aggregate(d, EMPTY, xs)))
  {
    if xs != [] {
      var n := |xs| - 1;
      OpenTimesIncrease(d, xs[..n]);
      var l := Aggregate(d, EMPTY, xs[..n]);
      var bs, cs := Candles(l), Candles(AddItem(d, l, xs[n]));
      NonemptyPending(d, xs[..n]);
      if l.pending.Some? {
        assert bs[|bs| - 1] == l.pending.value;
        assert forall k :: 0 <= k < |l.done| ==> cs[k] == bs[k];
      }
    }
  }

  lemma {:induction false} NonemptyPending(d: int, xs: seq<Candle>)
    requires d > 0
    ensures Aggregate(d, EMPTY, xs).pending.None? <==> xs == []
    ensures xs == [] ==> Aggregate(d, EMPTY, xs) == EMPTY
  {
  }

  lemma {:induction false} GroupedExtend(d: int, l: Lane, xs: seq<Candle>, x: Candle)
    requires d > 0 && l.pending.Some? && Grouped(d, Candles(l), xs)
    requires FloorTime(x.openTime, d) == l.pending.value.openTime
    ensures Grouped(d, l.done + [Merge(l.pending.value, x)], xs + [x])
  {
    var bs, o := Candles(l), l.pending.value.openTime;
    var cs, ys := l.done + [Merge(l.pending.value, x)], xs + [x];
    assert ys[..|xs|] == xs && ys[|xs|] == x;
    assert forall i :: 0 <= i < |bs| ==> cs[i].openTime == bs[i].openTime;
    forall i | 0 <= i < |cs| ensures Summarises(cs[i], Bucket(ys, d, cs[i].openTime)) {
      if i < |l.done| {
        assert cs[i] == bs[i] && bs[i].openTime < bs[|bs| - 1].openTime;
        assert Bucket(ys, d, bs[i].openTime) == Bucket(xs, d, bs[i].openTime);
      } else {
        assert bs[i] == l.pending.value;
        MergeSummarises(bs[i], Bucket(xs, d, o), x);
        assert Bucket(ys, d, o) == Bucket(xs, d, o) + [x];
      }
    }
    CoversMore(d, bs, xs, cs, x);
  }

  lemma {:induction false} NoneBefore(d: int, bs: seq<Candle>, xs: seq<Candle>, o: int)
    requires d > 0 && Covers(d, bs, xs)
    requires forall i :: 0 <= i < |bs| ==> bs[i].openTime < o
    ensures Bucket(xs, d, o) == []
  {
    forall k | 0 <= k < |xs| ensures FloorTime(xs[k].openTime, d) != o {
      assert HasBar(bs, FloorTime(xs[k].openTime, d));
    }
    BucketOf(xs, d, o);
  }

  lemma BucketKeeps(d: int, xs: seq<Candle>, x: Candle, o: int)
    requires d > 0 && FloorTime(x.openTime, d) != o
    ensures Bucket(xs + [x], d, o) == Bucket(xs, d, o)
  {
    assert (xs + [x])[..|xs|] == xs;
  }

  lemma {:induction false} KeptSummary(d: int, b: Candle, xs: seq<Candle>, x: Candle)
    requires d > 0 && Summarises(b, Bucket(xs, d, b.openTime)) && FloorTime(x.openTime, d) != b.openTime
    ensures Summarises(b, Bucket(xs + [x], d, b.openTime))
  {
    BucketKeeps(d, xs, x, b.openTime);
  }

  lemma {:induction false} NewSummary(d: int, bs: seq<Candle>, xs: seq<Candle>, x: Candle)
    requires d > 0 && Covers(d, bs, xs)
    requires forall i :: 0 <= i < |bs| ==> bs[i].openTime < FloorTime(x.openTime, d)
    ensures var b := x.(openTime := FloorTime(x.openTime, d)); Summarises(b, Bucket(xs + [x], d, b.openTime))
  {
    var o := FloorTime(x.openTime, d);
    NoneBefore(d, bs, xs, o);
    UnitSummarises(x, o);
    assert (xs + [x])[..|xs|] == xs;
    assert Bucket(xs + [x], d, o) == [x];
  }

  lemma {:induction false} GroupedStart(d: int, bs: seq<Candle>, xs: seq<Candle>, x: Candle)
    requires d > 0 && Grouped(d, bs, xs)
    requires forall i :: 0 <= i < |bs| ==> bs[i].openTime < FloorTime(x.openTime, d)
    ensures Grouped(d, bs + [x.(openTime := FloorTime(x.openTime, d))], xs + [x])
  {
    var cs, ys := bs + [x.(openTime := FloorTime(x.openTime, d))], xs + [x];
    forall i | 0 <= i < |cs| ensures Summarises(cs[i], Bucket(ys, d, cs[i].openTime)) {
      if i < |bs| {
        KeptSummary(d, bs[i], xs, x);
      } else {
        NewSummary(d, bs, xs, x);
      }
    }
    IncreasingMore(bs, cs[|bs|]);
    CoversMore(d, bs, xs, cs, x);
  }

  lemma IncreasingMore(bs: seq<Candle>, b: Candle)
    requires StrictlyIncreasing(bs) && forall i :: 0 <= i < |bs| ==> bs[i].openTime < b.openTime
    ensures StrictlyIncreasing(bs + [b])
  {
  }

  lemma {:induction false} GroupedStep(d: int, l: Lane, xs: seq<Candle>, x: Candle)
    requires d > 0 && Grouped(d, Candles(l), xs)
    requires l.pending.Some? ==> l.pending.value.openTime <= FloorTime(x.openTime, d)
    requires l.pending.None? ==> l.done == []
    ensures Grouped(d, Candles(AddItem(d, l, x)), xs + [x])
    ensures AddItem(d, l, x).pending.value.openTime == FloorTime(x.openTime, d)
  {
    if l.pending.Some? && FloorTime(x.openTime, d) <= l.pending.value.openTime {
      GroupedExtend(d, l, xs, x);
    } else {
      var bs := Candles(l);
      if l.pending.Some? { assert bs[|bs| - 1] == l.pending.value; }
      GroupedStart(d, bs, xs, x);
    }
  }

  lemma {:induction false} LaneIsGrouping(d: int, xs: seq<Candle>)
    requires d > 0 && TimeOrdered(xs)
    ensures Grouped(d, Candles(Aggregate(d, EMPTY, xs)), xs)
    ensures xs != [] ==> Aggregate(d, EMPTY, xs).pending.value.openTime == FloorTime(xs[|xs| - 1].openTime, d)
  {
    if xs != [] {
      var n := |xs| - 1;
      LaneIsGrouping(d, xs[..n]);
      assert xs == xs[..n] + [xs[n]];
      NonemptyPending(d, xs[..n]);
      if n > 0 { FloorTimeMonotone(xs[n - 1].openTime, xs[n].openTime, d); }
      GroupedStep(d, Aggregate(d, EMPTY, xs[..n]), xs[..n], xs[n]);
    }
  }

  /** Coarse bars are the merges of the fine bars of their interval, whatever the order
      of the ticks. */
  lemma {:induction false} CoarseBarsMergeFineBars(fine: int, coarse: int, xs: seq<Candle>)
    requires fine > 0 && coarse > 0 && coarse % fine == 0
    ensures Grouped(coarse, Candles(Aggregate(coarse, EMPTY, xs)), Candles(Aggregate(fine, EMPTY, xs)))
  {
    CoarseFromFine(fine, coarse, xs);
    OpenTimesIncrease(fine, xs);
    LaneIsGrouping(coarse, Candles(Aggregate(fine, EMPTY, xs)));
  }

  /** No tick is lost or counted twice, whatever the order. */
  lemma {:induction false} LaneConserves(d: int, xs: seq<Candle>)
    requires d > 0
    ensures SumTicks(Candles(Aggregate(d, EMPTY, xs))) == SumTicks(xs)
    ensures SumVolume(Candles(Aggregate(d, EMPTY, xs))) == SumVolume(xs)
  {
    if xs != [] {
      var n := |xs| - 1;
      LaneConserves(d, xs[..n]);
      var l := Aggregate(d, EMPTY, xs[..n]);
      var bs, cs := Candles(l), Candles(AddItem(d, l, xs[n]));
      if |cs| == |bs| {
        assert cs[..|cs| - 1] == l.done == bs[..|bs| - 1];
      } else {
        assert cs[..|cs| - 1] == bs;
      }
    }
  }

  /** Of any two timeframes the longer is a whole number of the shorter. */
  lemma TimeframesNest(fine: Timeframe, coarse: Timeframe)
    requires Duration(fine) <= Duration(coarse)
    ensures Duration(coarse) % Duration(fine) == 0
  {
  }

  /** How long they are: a day in nanoseconds, and every other one as a part of the next; a name
      that is none of the six counts as a minute. */
  lemma DurationsFixed(tf: Timeframe)
    ensures Duration("D1") == 86_400_000_000_000
    ensures Duration("D1") == 6 * Duration("H4") && Duration("H4") == 4 * Duration("H1")
    ensures Duration("H1") == 4 * Duration("M15") && Duration("M15") == 3 * Duration("M5")
    ensures Duration("M5") == 5 * Duration("M1")
    ensures tf !in {"M1", "M5", "M15", "H1", "H4", "D1"} ==> Duration(tf) == Duration("M1")
  {
  }

  // ------------------------------------------------------------------ the aggregator

  datatype Bar = Bar(symbol: string, timeframe: Timeframe, closeTime: int, candle: Candle)

  function Key(symbol: string, tf: Timeframe): string { symbol + ":" + tf }

  predicate Plain(tf: Timeframe) { ':' !in tf }

  /** The joined key names one symbol and one timeframe, even for symbols with a colon. */
  lemma {:induction false} KeyInjective(s1: string, t1: Timeframe, s2: string, t2: Timeframe)
    requires Plain(t1) && Plain(t2) && Key(s1, t1) == Key(s2, t2)
    ensures s1 == s2 && t1 == t2
  {
    SplitAtLast(s1, t1, s2, t2, ':');
  }

  /** What one tick does on one timeframe: the bars it completes and the bar it leaves pending. */
  function TickOn(pending: Option<Bar>, symbol: string, tf: Timeframe, t: Tick): (seq<Bar>, Bar) {
    var barOpen := FloorTime(t.time, Duration(tf));
    if pending.Some? && barOpen <= pending.value.candle.openTime then
      ([], pending.value.(candle := Merge(pending.value.candle, Unit(t))))
    else
      (if pending.Some? then [pending.value] else [],
       Bar(symbol, tf, barOpen + Duration(tf), Unit(t).(openTime := barOpen)))
  }

  /** What one tick does on all timeframes, in their order. */
  function TickAll(m: map<string, Bar>, tfs: seq<Timeframe>, symbol: string, t: Tick): (map<string, Bar>, seq<Bar>) {
    if tfs == [] then (m, []) else
      var tf := tfs[|tfs| - 1];
      var (m0, done) := TickAll(m, tfs[..|tfs| - 1], symbol, t);
      var (completed, bar) := TickOn(Lookup(m0, Key(symbol, tf)), symbol, tf, t);
      (m0[Key(symbol, tf) := bar], done + completed)
  }

  predicate PlainAll(tfs: seq<Timeframe>) { forall i :: 0 <= i < |tfs| ==> Plain(tfs[i]) }

  /** Every pending bar sits under the key of its own symbol and timeframe. */
  predicate WellKeyed(m: map<string, Bar>) {
    forall k :: k in m ==> k == Key(m[k].symbol, m[k].timeframe) && Plain(m[k].timeframe)
  }

  /** The candles of one symbol and timeframe among some bars. */
  function Of(bars: seq<Bar>, symbol: string, tf: Timeframe): seq<Candle> {
    if bars == [] then [] else
      var b := bars[|bars| - 1];
      Of(bars[..|bars| - 1], symbol, tf) + (if b.symbol == symbol && b.timeframe == tf then [b.candle] else [])
  }

  lemma {:induction false} OfConcat(xs: seq<Bar>, ys: seq<Bar>, symbol: string, tf: Timeframe)
    ensures Of(xs + ys, symbol, tf) == Of(xs, symbol, tf) + Of(ys, symbol, tf)
  {
    if ys == [] {
      assert xs + ys == xs;
    } else {
      assert (xs + ys)[..|xs + ys| - 1] == xs + ys[..|ys| - 1];
      OfConcat(xs, ys[..|ys| - 1], symbol, tf);
    }
  }

  lemma OfOne(b: Bar, symbol: string, tf: Timeframe)
    ensures Of([b], symbol, tf) == if b.symbol == symbol && b.timeframe == tf then [b.candle] else []
  {
    assert [b][..0] == [];
  }

  function PendingCandle(m: map<string, Bar>, key: string): Option<Candle> {
    if key in m then Some(m[key].candle) else None
  }

  function LaneOf(m: map<string, Bar>, delivered: seq<Bar>, symbol: string, tf: Timeframe): Lane {
    Lane(Of(delivered, symbol, tf), PendingCandle(m, Key(symbol, tf)))
  }

  lemma {:induction false} TickAllKeyed(m: map<string, Bar>, tfs: seq<Timeframe>, symbol: string, t: Tick)
    requires WellKeyed(m) && PlainAll(tfs)
    ensures WellKeyed(TickAll(m, tfs, symbol, t).0)
  {
    if tfs != [] {
      var n := |tfs| - 1;
      TickAllKeyed(m, tfs[..n], symbol, t);
      var m0, k := TickAll(m, tfs[..n], symbol, t).0, Key(symbol, tfs[n]);
      assert Plain(tfs[n]);
      if k in m0 { KeyInjective(m0[k].symbol, m0[k].timeframe, symbol, tfs[n]); }
    }
  }

  /** The lane of another symbol, or of a timeframe not configured, does not notice the tick. */
  lemma {:induction false} TickElsewhere(m: map<string, Bar>, tfs: seq<Timeframe>, symbol: string, t: Tick,
                                         s: string, tf: Timeframe)
    requires WellKeyed(m) && PlainAll(tfs) && Plain(tf) && (s != symbol || tf !in tfs)
    ensures var (m1, done) := TickAll(m, tfs, symbol, t);
      Of(done, s, tf) == [] && PendingCandle(m1, Key(s, tf)) == PendingCandle(m, Key(s, tf))
  {
    if tfs != [] {
      var n := |tfs| - 1;
      var tfn := tfs[n];
      assert Plain(tfn);
      TickElsewhere(m, tfs[..n], symbol, t, s, tf);
      TickAllKeyed(m, tfs[..n], symbol, t);
      var (m0, done) := TickAll(m, tfs[..n], symbol, t);
      var k := Key(symbol, tfn);
      if k == Key(s, tf) { KeyInjective(symbol, tfn, s, tf); }
      if k in m0 {
        KeyInjective(m0[k].symbol, m0[k].timeframe, symbol, tfn);
        OfOne(m0[k], s, tf);
      }
      OfConcat(done, TickOn(Lookup(m0, k), symbol, tfn, t).0, s, tf);
    }
  }

  /** The last timeframe's own lane takes the tick once. */
  lemma TickOnLane(m: map<string, Bar>, s: string, t: Tick, tf: Timeframe, before: seq<Candle>)
    requires WellKeyed(m) && Plain(tf)
    ensures var (completed, bar) := TickOn(Lookup(m, Key(s, tf)), s, tf, t);
      Lane(before + Of(completed, s, tf), Some(bar.candle))
        == AddItem(Duration(tf), Lane(before, PendingCandle(m, Key(s, tf))), Unit(t))
  {
    var k := Key(s, tf);
    if k in m {
      KeyInjective(m[k].symbol, m[k].timeframe, s, tf);
      OfOne(m[k], s, tf);
    }
  }

  /** On a configured timeframe the lane of the tick's symbol takes the tick once. */
  lemma {:induction false} TickHere(m: map<string, Bar>, tfs: seq<Timeframe>, s: string, t: Tick, tf: Timeframe,
                                    before: seq<Candle>)
    requires WellKeyed(m) && PlainAll(tfs) && Distinct(tfs) && tf in tfs
    ensures var (m1, done) := TickAll(m, tfs, s, t);
      Lane(before + Of(done, s, tf), PendingCandle(m1, Key(s, tf)))
        == AddItem(Duration(tf), Lane(before, PendingCandle(m, Key(s, tf))), Unit(t))
  {
    var n := |tfs| - 1;
    var (m0, done0) := TickAll(m, tfs[..n], s, t);
    var k := Key(s, tfs[n]);
    var (completed, bar) := TickOn(Lookup(m0, k), s, tfs[n], t);
    assert Plain(tfs[n]);
    OfConcat(done0, completed, s, tf);
    TickAllKeyed(m, tfs[..n], s, t);
    if tfs[n] == tf {
      TickElsewhere(m, tfs[..n], s, t, s, tf);
      TickOnLane(m0, s, t, tf, before);
      assert before + Of(done0 + completed, s, tf) == before + Of(completed, s, tf);
      assert PendingCandle(m0[k := bar], k) == Some(bar.candle);
    } else {
      TickHere(m, tfs[..n], s, t, tf, before);
      OtherTimeframe(m0, s, t, tfs[n], tf);
      assert before + Of(done0 + completed, s, tf) == before + Of(done0, s, tf);
      assert PendingCandle(m0[k := bar], Key(s, tf)) == PendingCandle(m0, Key(s, tf));
    }
  }

  lemma OtherTimeframe(m: map<string, Bar>, s: string, t: Tick, own: Timeframe, tf: Timeframe)
    requires WellKeyed(m) && Plain(own) && Plain(tf) && own != tf
    ensures Of(TickOn(Lookup(m, Key(s, own)), s, own, t).0, s, tf) == []
    ensures Key(s, own) != Key(s, tf)
  {
    var k := Key(s, own);
    if k == Key(s, tf) { KeyInjective(s, own, s, tf); }
    if k in m {
      KeyInjective(m[k].symbol, m[k].timeframe, s, own);
      OfOne(m[k], s, tf);
    }
  }

  // -------------------------------------------------------------------- whole runs

  datatype Quote = Quote(symbol: string, tick: Tick)

  /** The store and the delivered bars after a stream of ticks on any symbols. */
  function Feed(tfs: seq<Timeframe>, quotes: seq<Quote>): (map<string, Bar>, seq<Bar>) {
    if quotes == [] then (map[], []) else
      var (m, delivered) := Feed(tfs, quotes[..|quotes| - 1]);
      var q := quotes[|quotes| - 1];
      var (m1, done) := TickAll(m, tfs, q.symbol, q.tick);
      (m1, delivered + done)
  }

  function Units(quotes: seq<Quote>, symbol: string): seq<Candle> {
    if quotes == [] then [] else
      var q := quotes[|quotes| - 1];
      Units(quotes[..|quotes| - 1], symbol) + (if q.symbol == symbol then [Unit(q.tick)] else [])
  }

  /** The aggregator is one independent lane for each symbol and configured timeframe. */
  lemma {:induction false} FeedIsLanes(tfs: seq<Timeframe>, quotes: seq<Quote>, s: string, tf: Timeframe)
    requires PlainAll(tfs) && Distinct(tfs) && tf in tfs
    ensures WellKeyed(Feed(tfs, quotes).0)
    ensures LaneOf(Feed(tfs, quotes).0, Feed(tfs, quotes).1, s, tf) == Aggregate(Duration(tf), EMPTY, Units(quotes, s))
  {
    if quotes != [] {
      var n := |quotes| - 1;
      FeedIsLanes(tfs, quotes[..n], s, tf);
      var (m, delivered) := Feed(tfs, quotes[..n]);
      var q := quotes[n];
      var done := TickAll(m, tfs, q.symbol, q.tick).1;
      TickAllKeyed(m, tfs, q.symbol, q.tick);
      OfConcat(delivered, done, s, tf);
      var i :| 0 <= i < |tfs| && tfs[i] == tf;
      assert Plain(tf);
      if q.symbol == s {
        TickHere(m, tfs, s, q.tick, tf, Of(delivered, s, tf));
        AggregateSnoc(Duration(tf), EMPTY, Units(quotes[..n], s), Unit(q.tick));
      } else {
        TickElsewhere(m, tfs, q.symbol, q.tick, s, tf);
        assert Units(quotes, s) == Units(quotes[..n], s);
        assert Of(delivered + done, s, tf) == Of(delivered, s, tf);
      }
    }
  }

  /** Flushed bars, in whatever order the map yields them, complete each lane. */
  lemma {:induction false} FlushCompletesLane(m: map<string, Bar>, order: seq<string>, flushed: seq<Bar>,
                                              s: string, tf: Timeframe)
    requires WellKeyed(m) && Plain(tf) && |flushed| == |order|
    requires forall i :: 0 <= i < |order| ==> order[i] in m && flushed[i] == m[order[i]]
    requires forall i, j :: 0 <= i < j < |order| ==> order[i] != order[j]
    ensures Of(flushed, s, tf) == if Key(s, tf) in order then [m[Key(s, tf)].candle] else []
  {
    if order != [] {
      var n := |order| - 1;
      FlushCompletesLane(m, order[..n], flushed[..n], s, tf);
      assert order == order[..n] + [order[n]];
      var b := flushed[n];
      if b.symbol == s && b.timeframe == tf {
        assert order[n] == Key(s, tf);
      } else if order[n] == Key(s, tf) {
        KeyInjective(b.symbol, b.timeframe, s, tf);
      }
    }
  }

  /** The bars delivered by a stream and a final FlushAll are, for time-ordered ticks,
      exactly one summary per occupied interval, in order. */
  lemma {:induction false} FlushedBars(tfs: seq<Timeframe>, quotes: seq<Quote>, order: seq<string>, flushed: seq<Bar>,
                                       s: string, tf: Timeframe)
    requires PlainAll(tfs) && Distinct(tfs) && tf in tfs && |flushed| == |order|
    requires forall k :: k in order <==> k in Feed(tfs, quotes).0
    requires forall i :: 0 <= i < |order| ==> flushed[i] == Feed(tfs, quotes).0[order[i]]
    requires forall i, j :: 0 <= i < j < |order| ==> order[i] != order[j]
    ensures Of(Feed(tfs, quotes).1 + flushed, s, tf) == Candles(Aggregate(Duration(tf), EMPTY, Units(quotes, s)))
    ensures TimeOrdered(Units(quotes, s))
        ==> Grouped(Duration(tf), Of(Feed(tfs, quotes).1 + flushed, s, tf), Units(quotes, s))
  {
    var (m, delivered) := Feed(tfs, quotes);
    FeedIsLanes(tfs, quotes, s, tf);
    assert Plain(tf) by { var i :| 0 <= i < |tfs| && tfs[i] == tf; }
    FlushCompletesLane(m, order, flushed, s, tf);
    OfConcat(delivered, flushed, s, tf);
    if TimeOrdered(Units(quotes, s)) { LaneIsGrouping(Duration(tf), Units(quotes, s)); }
  }

  /** After any stream on any symbols, the bars of a coarse timeframe, pending one
      included, are the summaries of the bars of a finer one by floored open time, and
      both account for every tick and all volume of the symbol. */
  lemma {:induction false} TimeframesAgree(tfs: seq<Timeframe>, quotes: seq<Quote>, s: string,
                                           fine: Timeframe, coarse: Timeframe)
    requires PlainAll(tfs) && Distinct(tfs) && fine in tfs && coarse in tfs && Duration(fine) <= Duration(coarse)
    ensures var (m, delivered) := Feed(tfs, quotes);
      var fines, coarses := Candles(LaneOf(m, delivered, s, fine)), Candles(LaneOf(m, delivered, s, coarse));
      && Grouped(Duration(coarse), coarses, fines)
      && SumTicks(fines) == SumTicks(coarses) == |Units(quotes, s)|
      && SumVolume(fines) == SumVolume(coarses) == SumVolume(Units(quotes, s))
  {
    FeedIsLanes(tfs, quotes, s, fine);
    FeedIsLanes(tfs, quotes, s, coarse);
    TimeframesNest(fine, coarse);
    CoarseBarsMergeFineBars(Duration(fine), Duration(coarse), Units(quotes, s));
    LaneConserves(Duration(fine), Units(quotes, s));
    LaneConserves(Duration(coarse), Units(quotes, s));
    UnitsCount(quotes, s);
  }

  // ---------------------------------------------------------------- when bars close

  /** A bar closes on a boundary of its timeframe, and its interval is the one that ends there. */
  predicate WellTimed(b: Bar) {
    var d := Duration(b.timeframe);
    b.closeTime % d == 0 && FloorTime(b.closeTime - 1, d) == b.candle.openTime
  }

  predicate AllTimed(bars: seq<Bar>) { forall i :: 0 <= i < |bars| ==> WellTimed(bars[i]) }

  predicate StoreTimed(m: map<string, Bar>) { forall k :: k in m ==> WellTimed(m[k]) }

  lemma NextBoundary(f: int, d: int)
    requires d > 0 && f % d == 0
    ensures (f + d) % d == 0 && FloorTime(f + d - 1, d) == f
  {
    var q := f / d;
    assert f == q * d;
    assert f + d == (q + 1) * d;
    MultipleMod(q + 1, d);
    FloorTimeUnique(f + d - 1, d, f);
  }

  lemma TickOnTimed(pending: Option<Bar>, symbol: string, tf: Timeframe, t: Tick)
    requires pending.Some? ==> WellTimed(pending.value)
    ensures AllTimed(TickOn(pending, symbol, tf, t).0) && WellTimed(TickOn(pending, symbol, tf, t).1)
  {
    NextBoundary(FloorTime(t.time, Duration(tf)), Duration(tf));
  }

  lemma {:induction false} TickAllTimed(m: map<string, Bar>, tfs: seq<Timeframe>, symbol: string, t: Tick)
    requires StoreTimed(m)
    ensures StoreTimed(TickAll(m, tfs, symbol, t).0) && AllTimed(TickAll(m, tfs, symbol, t).1)
    decreases |tfs|
  {
    if tfs != [] {
      var tf := tfs[|tfs| - 1];
      TickAllTimed(m, tfs[..|tfs| - 1], symbol, t);
      var (m0, _) := TickAll(m, tfs[..|tfs| - 1], symbol, t);
      TickOnTimed(Lookup(m0, Key(symbol, tf)), symbol, tf, t);
    }
  }

  /** Every bar, pending or delivered, of every stream. */
  lemma {:induction false} FeedTimed(tfs: seq<Timeframe>, quotes: seq<Quote>)
    ensures StoreTimed(Feed(tfs, quotes).0) && AllTimed(Feed(tfs, quotes).1)
    decreases |quotes|
  {
    if quotes != [] {
      var q := quotes[|quotes| - 1];
      FeedTimed(tfs, quotes[..|quotes| - 1]);
      TickAllTimed(Feed(tfs, quotes[..|quotes| - 1]).0, tfs, q.symbol, q.tick);
    }
  }

  /** The bars of one symbol and timeframe among some bars. */
  function BarsOf(bars: seq<Bar>, symbol: string, tf: Timeframe): seq<Bar>
    decreases |bars|
  {
    if bars == [] then [] else
      var b := bars[|bars| - 1];
      BarsOf(bars[..|bars| - 1], symbol, tf) + (if b.symbol == symbol && b.timeframe == tf then [b] else [])
  }

  lemma {:induction false} BarsOfFacts(bars: seq<Bar>, symbol: string, tf: Timeframe)
    requires AllTimed(bars)
    ensures var bs, cs := BarsOf(bars, symbol, tf), Of(bars, symbol, tf);
      && |bs| == |cs| && AllTimed(bs)
      && forall i :: 0 <= i < |bs| ==> bs[i].candle == cs[i] && bs[i].timeframe == tf
    decreases |bars|
  {
    if bars != [] { BarsOfFacts(bars[..|bars| - 1], symbol, tf); }
  }

  /** A lane's bars, the pending one last. */
  function LaneBars(m: map<string, Bar>, delivered: seq<Bar>, symbol: string, tf: Timeframe): seq<Bar> {
    BarsOf(delivered, symbol, tf) + if Key(symbol, tf) in m then [m[Key(symbol, tf)]] else []
  }

  lemma ClosesBeforeLaterOpen(a: Bar, b: Bar)
    requires WellTimed(a) && WellTimed(b) && a.timeframe == b.timeframe && a.candle.openTime < b.candle.openTime
    ensures a.closeTime <= b.candle.openTime
  {
    var d := Duration(a.timeframe);
    MultiplesApart(b.candle.openTime, a.candle.openTime, d);
    assert a.closeTime - 1 < a.candle.openTime + d;
  }

  /** Over any stream the bars of a lane do not overlap: each opens no earlier than the one before
      it closes. */
  lemma {:induction false} BarsDoNotOverlap(tfs: seq<Timeframe>, quotes: seq<Quote>, s: string, tf: Timeframe)
    requires PlainAll(tfs) && Distinct(tfs) && tf in tfs
    ensures var (m, delivered) := Feed(tfs, quotes);
      var bs := LaneBars(m, delivered, s, tf);
      && AllTimed(bs)
      && (forall i :: 0 <= i < |bs| ==> bs[i].timeframe == tf)
      && forall i, j :: 0 <= i < j < |bs| ==> bs[i].closeTime <= bs[j].candle.openTime
  {
    var (m, delivered) := Feed(tfs, quotes);
    var bs := LaneBars(m, delivered, s, tf);
    FeedTimed(tfs, quotes);
    BarsOfFacts(delivered, s, tf);
    FeedIsLanes(tfs, quotes, s, tf);
    OpenTimesIncrease(Duration(tf), Units(quotes, s));
    var cs := Candles(LaneOf(m, delivered, s, tf));
    var k := Key(s, tf);
    assert Plain(tf) by { var i :| 0 <= i < |tfs| && tfs[i] == tf; }
    if k in m { KeyInjective(m[k].symbol, m[k].timeframe, s, tf); }
    forall i | 0 <= i < |bs| ensures |cs| == |bs| && bs[i].candle == cs[i] && bs[i].timeframe == tf && WellTimed(bs[i]) { }
    forall i, j | 0 <= i < j < |bs| ensures bs[i].closeTime <= bs[j].candle.openTime {
      assert cs[i].openTime < cs[j].openTime;
      ClosesBeforeLaterOpen(bs[i], bs[j]);
    }
  }

  lemma {:induction false} UnitsCount(quotes: seq<Quote>, s: string)
    ensures SumTicks(Units(quotes, s)) == |Units(quotes, s)|
  {
    if quotes != [] {
      var us := Units(quotes[..|quotes| - 1], s);
      UnitsCount(quotes[..|quotes| - 1], s);
      if Units(quotes, s) != us { assert Units(quotes, s)[..|us|] == us; }
    }
  }

  class Aggregator {
    const timeframes: seq<Timeframe>
    var bars: map<string, Bar>
    /** What the onComplete callback has received. */
    var delivered: seq<Bar>

    constructor (timeframes: seq<Timeframe>)
      ensures this.timeframes == timeframes && (bars, delivered) == Feed(timeframes, [])
    {
      this.timeframes := timeframes;
      bars, delivered := map[], [];
    }

    method AddTick(symbol: string, price: real, volume: real, tickTime: int)
      modifies this
      ensures (bars, delivered) ==
        (var (m, done) := TickAll(old(bars), timeframes, symbol, Tick(tickTime, price, volume)); (m, old(delivered) + done))
    {
      var completed: seq<Bar> := [];
      ghost var t := Tick(tickTime, price, volume);
      var i := 0;
      while i < |timeframes|
        invariant 0 <= i <= |timeframes| && delivered == old(delivered)
        invariant (bars, completed) == TickAll(old(bars), timeframes[..i], symbol, t)
      {
        var tf := timeframes[i];
        var k := Key(symbol, tf);
        var barOpen := FloorTime(tickTime, Duration(tf));
        var open := k in bars;
        ghost var m0, done0, step := bars, completed, TickOn(Lookup(bars, k), symbol, tf, t);
        assert timeframes[..i + 1][..i] == timeframes[..i] && timeframes[..i + 1][i] == tf;
        if open && barOpen > bars[k].candle.openTime {
          completed := completed + [bars[k]];
          open := false;
        }
        if !open {
          bars := bars[k := Bar(symbol, tf, barOpen + Duration(tf), Candle(barOpen, price, price, price, price, volume, 1))];
        } else {
          var c := bars[k].candle;
          c := c.(close := price);
          if price > c.high {
            c := c.(high := price);
          }
          if price < c.low {
            c := c.(low := price);
          }
          c := c.(volume := c.volume + volume, tickCount := c.tickCount + 1);
          assert c == Merge(bars[k].candle, Unit(t));
          bars := bars[k := bars[k].(candle := c)];
        }
        assert bars == m0[k := step.1] && completed == done0 + step.0;
        i := i + 1;
      }
      assert timeframes[..i] == timeframes;
      delivered := delivered + completed;
    }

    /** Every pending bar is emitted once; `order` is the order the map yielded the keys in. */
    method FlushAll() returns (flushed: seq<Bar>, ghost order: seq<string>)
      modifies this
      ensures bars == map[] && delivered == old(delivered) + flushed
      ensures |flushed| == |order| && (set i | 0 <= i < |order| :: order[i]) == old(bars).Keys
      ensures forall i, j :: 0 <= i < j < |order| ==> order[i] != order[j]
      ensures forall i :: 0 <= i < |order| ==> order[i] in old(bars) && flushed[i] == old(bars)[order[i]]
    {
      flushed, order := [], [];
      while bars != map[]
        invariant delivered == old(delivered) && |flushed| == |order|
        invariant forall k :: k in bars ==> k in old(bars) && bars[k] == old(bars)[k] && k !in order
        invariant forall k :: k in old(bars) ==> k in bars || k in order
        invariant forall i, j :: 0 <= i < j < |order| ==> order[i] != order[j]
        invariant forall i :: 0 <= i < |order| ==> order[i] in old(bars) && flushed[i] == old(bars)[order[i]]
        decreases bars.Keys
      {
        var k :| k in bars;
        flushed := flushed + [bars[k]];
        order := order + [k];
        bars := bars - {k};
      }
      delivered := delivered + flushed;
    }
  }
}
