/** The backtest simulator: fills, exits, the account and the list of open positions. Prices
    and money are reals; rounding to cents and to price ticks is modelled. */
module Simulator {
  import opened Sequences
  import opened Reals

  // ------------------------------------------------------------------ rounding

  function Cents(x: real): real { HalfEven(x * 100.0) as real / 100.0 }

  function Ticks(x: real): real { HalfEven(x * 100000000.0) as real / 100000000.0 }

  lemma CentsOdd(x: real)
    ensures Cents(-x) == -Cents(x)
  {
    HalfEvenOdd(x * 100.0);
    assert (-x) * 100.0 == -(x * 100.0);
    assert (-HalfEven(x * 100.0)) as real == -(HalfEven(x * 100.0) as real);
  }

  // ------------------------------------------------------------------ directions

  function Upper(c: char): char {
    if 'a' <= c <= 'z' then c - 'a' + 'A' else c
  }

  /** The text contains BUY in any mixture of cases. */
  predicate IsBuy(direction: string) { exists i :: 0 <= i <= |direction| - 3 && BuyAt(direction, i) }

  predicate BuyAt(direction: string, i: nat)
    requires i + 3 <= |direction|
  {
    Upper(direction[i]) == 'B' && Upper(direction[i + 1]) == 'U' && Upper(direction[i + 2]) == 'Y'
  }

  predicate FillsAsBuy(direction: string) { direction == "BUY" || direction == "Direction.BUY" }

  /** The two readings of a direction agree. */
  predicate Consistent(direction: string) { IsBuy(direction) <==> FillsAsBuy(direction) }

  /** Reading a fill as a purchase implies reading the position as one, not the reverse. */
  lemma FillImpliesBuy(direction: string)
    ensures FillsAsBuy(direction) ==> IsBuy(direction)
  {
    if direction == "BUY" {
      assert BuyAt(direction, 0);
    } else if direction == "Direction.BUY" {
      assert BuyAt(direction, 10);
    }
  }

  function Opposite(direction: string): string { if IsBuy(direction) then "SELL" else "BUY" }

  lemma OppositeFills(direction: string)
    ensures FillsAsBuy(Opposite(direction)) <==> !IsBuy(direction)
  {
  }

  // ------------------------------------------------------------------ fills and results

  datatype Config = Config(initial: real, spreadPips: real, slippagePips: real, commissionPerLot: real, pip: real)

  /** What a fill costs against the market price. */
  function FillCost(c: Config): real { Ticks(c.spreadPips * c.pip / 2.0) + c.slippagePips * c.pip }

  function FillPrice(c: Config, price: real, direction: string): real {
    if FillsAsBuy(direction) then price + FillCost(c) else price - FillCost(c)
  }

  datatype Position = Position(id: string, signalId: string, symbol: string, direction: string, entry: real,
                               stop: real, target: real, lots: real, time: int, commission: real)

  datatype Reason = StopLoss | TakeProfit | EndOfBacktest

  datatype Trade = Trade(position: Position, exitPrice: real, reason: Reason, time: int, pnl: real)

  datatype Bar = Bar(high: real, low: real, close: real, time: int)

  datatype Signal = Signal(id: string, symbol: string, direction: string, entryPrice: real, stop: real,
                           target: real, lots: real)

  /** Ten units of account per pip and lot. */
  function Value(c: Config, diff: real, lots: real): real
    requires c.pip != 0.0
  {
    diff / c.pip * 10.0 * lots
  }

  function Pnl(c: Config, p: Position, exitPrice: real): real
    requires c.pip != 0.0
  {
    Cents(Value(c, if IsBuy(p.direction) then exitPrice - p.entry else p.entry - exitPrice, p.lots))
  }

  /** uuid is the fresh identifier the position is given. */
  function Entered(c: Config, uuid: string, s: Signal, time: int): Position {
    Position(uuid, s.id, s.symbol, s.direction, FillPrice(c, s.entryPrice, s.direction), s.stop, s.target, s.lots,
             time, Cents(c.commissionPerLot * s.lots))
  }

  lemma ValueOdd(c: Config, diff: real, lots: real)
    requires c.pip != 0.0
    ensures Value(c, -diff, lots) == -Value(c, diff, lots)
  {
    var q := diff / c.pip;
    assert ((-diff) / c.pip + q) * c.pip == 0.0;
    assert (-diff) / c.pip == -q;
  }

  /** A short position earns to the cent what the long one at the same prices loses. */
  lemma PnlMirrors(c: Config, long: Position, short: Position, exitPrice: real)
    requires c.pip != 0.0 && IsBuy(long.direction) && !IsBuy(short.direction)
    requires long.entry == short.entry && long.lots == short.lots
    ensures Pnl(c, short, exitPrice) == -Pnl(c, long, exitPrice)
  {
    ValueOdd(c, exitPrice - long.entry, long.lots);
    CentsOdd(Value(c, exitPrice - long.entry, long.lots));
    assert -(exitPrice - long.entry) == short.entry - exitPrice;
  }

  /** Opening and closing at one market price loses the two fill costs exactly when the two
      readings of the direction agree; a direction such as "buy" pays nothing. */
  lemma FlatRoundTrip(c: Config, uuid: string, s: Signal, t: int)
    requires c.pip != 0.0
    ensures var p := Entered(c, uuid, s, t);
            Pnl(c, p, FillPrice(c, s.entryPrice, Opposite(s.direction)))
            == if Consistent(s.direction) then -Cents(Value(c, 2.0 * FillCost(c), s.lots)) else 0.0
  {
    FillImpliesBuy(s.direction);
    OppositeFills(s.direction);
    var cost := 2.0 * FillCost(c);
    ValueOdd(c, cost, s.lots);
    CentsOdd(Value(c, cost, s.lots));
    assert 0.0 / c.pip == 0.0;
    assert Value(c, 0.0, s.lots) == 0.0;
    assert Cents(0.0) == 0.0;
  }

  lemma LowerCaseIsInconsistent()
    ensures !Consistent("buy")
  {
    assert BuyAt("buy", 0);
  }

  /** A fill is worse than the market by half the spread and the slippage, up to half a tick of
      rounding; it buys above and sells below. */
  lemma FillIsWorse(c: Config, price: real, direction: string)
    ensures var cost := FillCost(c) - (c.spreadPips / 2.0 + c.slippagePips) * c.pip;
            -0.000000005 <= cost <= 0.000000005
    ensures FillPrice(c, price, direction) - price == if FillsAsBuy(direction) then FillCost(c) else -FillCost(c)
  {
    var half := c.spreadPips * c.pip / 2.0;
    HalfEvenIff(half * 100000000.0, HalfEven(half * 100000000.0));
    assert (c.spreadPips / 2.0 + c.slippagePips) * c.pip == half + c.slippagePips * c.pip;
  }

  /** A pip is worth ten units per lot: a move of n pips in favour of a position earns ten times n
      per lot, to the cent. */
  lemma PipIsWorthTen(c: Config, p: Position, n: real)
    requires c.pip != 0.0
    ensures Pnl(c, p, if IsBuy(p.direction) then p.entry + n * c.pip else p.entry - n * c.pip) == Cents(10.0 * n * p.lots)
  {
    assert n * c.pip / c.pip == n;
    var price := if IsBuy(p.direction) then p.entry + n * c.pip else p.entry - n * c.pip;
    var diff := if IsBuy(p.direction) then price - p.entry else p.entry - price;
    assert diff == n * c.pip;
    assert Value(c, diff, p.lots) == n * 10.0 * p.lots;
  }

  /** Opening charges the commission of the lots, to the nearest cent, and takes the levels of the
      signal as they are. */
  lemma EnteredAsSignalled(c: Config, uuid: string, s: Signal, t: int)
    ensures var p := Entered(c, uuid, s, t);
            && -0.005 <= p.commission - c.commissionPerLot * s.lots <= 0.005
            && p.stop == s.stop && p.target == s.target && p.lots == s.lots && p.direction == s.direction
            && p.id == uuid && p.signalId == s.id && p.symbol == s.symbol && p.time == t
  {
    CentsNear(c.commissionPerLot * s.lots);
  }

  // ------------------------------------------------------------------ exits

  datatype Exit = Exit(price: real, reason: Reason)

  predicate StopHit(p: Position, b: Bar) {
    p.stop > 0.0 && if IsBuy(p.direction) then b.low <= p.stop else b.high >= p.stop
  }

  predicate TargetHit(p: Position, b: Bar) {
    p.target > 0.0 && if IsBuy(p.direction) then b.high >= p.target else b.low <= p.target
  }

  function ExitOf(p: Position, b: Bar): Option<Exit> {
    if StopHit(p, b) then Some(Exit(p.stop, StopLoss))
    else if TargetHit(p, b) then Some(Exit(p.target, TakeProfit))
    else None
  }

  /** With the stop on the losing side of the entry, a stop exit never earns. */
  lemma StopExitLoses(c: Config, p: Position, b: Bar)
    requires c.pip > 0.0 && p.lots >= 0.0 && StopHit(p, b)
    requires if IsBuy(p.direction) then p.stop <= p.entry else p.stop >= p.entry
    ensures Pnl(c, p, ExitOf(p, b).value.price) <= 0.0
  {
    var diff := if IsBuy(p.direction) then p.stop - p.entry else p.entry - p.stop;
    var q := diff / c.pip;
    assert q * c.pip == diff;
    ProductSign(q, c.pip);
    assert (q * 10.0) * p.lots <= 0.0;
    var v := Value(c, diff, p.lots);
    assert v * 100.0 <= 0.0;
    HalfEvenIff(v * 100.0, HalfEven(v * 100.0));
  }

  // ------------------------------------------------------------------ lists of positions

  function Survivors(ps: seq<Position>, b: Bar): seq<Position>
    decreases |ps|
  {
    if ps == [] then []
    else
      var last := ps[|ps| - 1];
      Survivors(ps[..|ps| - 1], b) + if ExitOf(last, b).None? then [last] else []
  }

  function Exits(c: Config, ps: seq<Position>, b: Bar): seq<Trade>
    requires c.pip != 0.0
    decreases |ps|
  {
    if ps == [] then []
    else
      var last := ps[|ps| - 1];
      Exits(c, ps[..|ps| - 1], b) +
      match ExitOf(last, b)
      case None => []
      case Some(e) => [Trade(last, e.price, e.reason, b.time, Pnl(c, last, e.price))]
  }

  function Closings(c: Config, ps: seq<Position>, b: Bar): (r: seq<Trade>)
    requires c.pip != 0.0
    ensures |r| == |ps|
  {
    seq(|ps|, (i: nat) requires i < |ps| => Closing(c, ps[i], b))
  }

  function Closing(c: Config, p: Position, b: Bar): Trade
    requires c.pip != 0.0
  {
    var price := FillPrice(c, b.close, Opposite(p.direction));
    Trade(p, price, EndOfBacktest, b.time, Pnl(c, p, price))
  }

  /** The bar stayed strictly between the levels of the position. */
  predicate Untouched(p: Position, b: Bar) {
    if IsBuy(p.direction) then (p.stop > 0.0 ==> p.stop < b.low) && (p.target > 0.0 ==> b.high < p.target)
    else (p.stop > 0.0 ==> b.high < p.stop) && (p.target > 0.0 ==> p.target < b.low)
  }

  /** The bar reached the price the trade was closed at, and for a target not the stop before it. */
  predicate Reached(t: Trade, b: Bar) {
    var p := t.position;
    match t.reason
    case StopLoss => if IsBuy(p.direction) then b.low <= t.exitPrice else b.high >= t.exitPrice
    case TakeProfit =>
      if IsBuy(p.direction) then b.high >= t.exitPrice && (p.stop > 0.0 ==> p.stop < b.low)
      else b.low <= t.exitPrice && (p.stop > 0.0 ==> b.high < p.stop)
    case EndOfBacktest => false
  }

  /** A position stays open through a bar exactly when the bar stayed between its levels, and every
      one that leaves was reached; a stop comes before a target. */
  lemma {:induction false} BarDecides(c: Config, ps: seq<Position>, b: Bar)
    requires c.pip != 0.0
    ensures forall p :: p in Survivors(ps, b) <==> p in ps && Untouched(p, b)
    ensures forall t :: t in Exits(c, ps, b) ==> t.position in ps && !Untouched(t.position, b) && Reached(t, b)
    decreases |ps|
  {
    if ps != [] {
      var before, last := ps[..|ps| - 1], ps[|ps| - 1];
      BarDecides(c, before, b);
      assert ps == before + [last];
      assert ExitOf(last, b).None? <==> Untouched(last, b);
    }
  }

  lemma {:induction false} SurvivorsConcat(xs: seq<Position>, ys: seq<Position>, b: Bar)
    ensures Survivors(xs + ys, b) == Survivors(xs, b) + Survivors(ys, b)
    decreases |ys|
  {
    if ys == [] {
      assert xs + ys == xs;
    } else {
      SurvivorsConcat(xs, ys[..|ys| - 1], b);
      assert (xs + ys)[..|xs + ys| - 1] == xs + ys[..|ys| - 1];
    }
  }

  function TotalPnl(log: seq<Trade>): real
    decreases |log|
  {
    if log == [] then 0.0 else TotalPnl(log[..|log| - 1]) + log[|log| - 1].pnl
  }

  function TotalCommission(ps: seq<Position>): real
    decreases |ps|
  {
    if ps == [] then 0.0 else TotalCommission(ps[..|ps| - 1]) + ps[|ps| - 1].commission
  }

  function Traded(log: seq<Trade>): (r: seq<Position>)
    ensures |r| == |log|
  {
    seq(|log|, (i: nat) requires i < |log| => log[i].position)
  }

  lemma {:induction false} TotalPnlConcat(xs: seq<Trade>, ys: seq<Trade>)
    ensures TotalPnl(xs + ys) == TotalPnl(xs) + TotalPnl(ys)
    decreases |ys|
  {
    if ys == [] {
      assert xs + ys == xs;
    } else {
      TotalPnlConcat(xs, ys[..|ys| - 1]);
      assert (xs + ys)[..|xs + ys| - 1] == xs + ys[..|ys| - 1];
    }
  }

  lemma {:induction false} TotalCommissionConcat(xs: seq<Position>, ys: seq<Position>)
    ensures TotalCommission(xs + ys) == TotalCommission(xs) + TotalCommission(ys)
    decreases |ys|
  {
    if ys == [] {
      assert xs + ys == xs;
    } else {
      TotalCommissionConcat(xs, ys[..|ys| - 1]);
      assert (xs + ys)[..|xs + ys| - 1] == xs + ys[..|ys| - 1];
    }
  }

  lemma TradedConcat(xs: seq<Trade>, ys: seq<Trade>)
    ensures Traded(xs + ys) == Traded(xs) + Traded(ys)
  {
  }

  /** One more position either survives or leaves one trade behind. */
  lemma BarStep(c: Config, ps: seq<Position>, b: Bar)
    requires c.pip != 0.0 && ps != []
    ensures var before, last := ps[..|ps| - 1], ps[|ps| - 1];
            if ExitOf(last, b).None? then
              Survivors(ps, b) == Survivors(before, b) + [last] && Exits(c, ps, b) == Exits(c, before, b)
            else
              && Survivors(ps, b) == Survivors(before, b)
              && Traded(Exits(c, ps, b)) == Traded(Exits(c, before, b)) + [last]
  {
    var before, last := ps[..|ps| - 1], ps[|ps| - 1];
    if ExitOf(last, b).Some? {
      var e := ExitOf(last, b).value;
      var t := Trade(last, e.price, e.reason, b.time, Pnl(c, last, e.price));
      assert Exits(c, ps, b) == Exits(c, before, b) + [t];
      TradedConcat(Exits(c, before, b), [t]);
      assert Traded([t]) == [last];
    }
  }

  /** A bar splits the open positions into survivors and exits, losing and doubling none. */
  lemma {:induction false} BarSplits(c: Config, ps: seq<Position>, b: Bar)
    requires c.pip != 0.0
    ensures multiset(ps) == multiset(Survivors(ps, b)) + multiset(Traded(Exits(c, ps, b)))
    decreases |ps|
  {
    if ps != [] {
      var before, last := ps[..|ps| - 1], ps[|ps| - 1];
      BarSplits(c, before, b);
      BarStep(c, ps, b);
      assert ps == before + [last];
      assert multiset(ps) == multiset(before) + multiset{last};
      if ExitOf(last, b).None? {
        assert multiset(Survivors(ps, b)) == multiset(Survivors(before, b)) + multiset{last};
      } else {
        assert multiset(Traded(Exits(c, ps, b))) == multiset(Traded(Exits(c, before, b))) + multiset{last};
      }
    }
  }

  lemma {:induction false} BarSplitsCommission(c: Config, ps: seq<Position>, b: Bar)
    requires c.pip != 0.0
    ensures TotalCommission(ps) == TotalCommission(Survivors(ps, b)) + TotalCommission(Traded(Exits(c, ps, b)))
    decreases |ps|
  {
    if ps != [] {
      var before, last := ps[..|ps| - 1], ps[|ps| - 1];
      BarSplitsCommission(c, before, b);
      BarStep(c, ps, b);
      TotalCommissionSnoc(Survivors(before, b), last);
      TotalCommissionSnoc(Traded(Exits(c, before, b)), last);
    }
  }

  lemma TotalCommissionSnoc(ps: seq<Position>, p: Position)
    ensures TotalCommission(ps + [p]) == TotalCommission(ps) + p.commission
  {
    assert (ps + [p])[..|ps|] == ps;
  }

  // ------------------------------------------------------------------ runs

  /** `entered` is every position ever opened, in order. */
  datatype State = State(equity: real, open: seq<Position>, curve: seq<real>, log: seq<Trade>, entered: seq<Position>)

  datatype Event = Open(uuid: string, signal: Signal, time: int) | Process(bar: Bar) | CloseAll(bar: Bar)

  function Start(c: Config): State { State(c.initial, [], [c.initial], [], []) }

  function Next(c: Config, s: State, e: Event): State
    requires c.pip != 0.0
  {
    match e
    case Open(uuid, signal, time) =>
      var p := Entered(c, uuid, signal, time);
      s.(equity := s.equity - p.commission, open := s.open + [p], entered := s.entered + [p])
    case Process(b) =>
      var trades := Exits(c, s.open, b);
      var equity := s.equity + TotalPnl(trades);
      s.(equity := equity, open := Survivors(s.open, b), curve := s.curve + [equity], log := s.log + trades)
    case CloseAll(b) =>
      var trades := Closings(c, s.open, b);
      s.(equity := s.equity + TotalPnl(trades), open := [], log := s.log + trades)
  }

  function Run(c: Config, events: seq<Event>): State
    requires c.pip != 0.0
    decreases |events|
  {
    if events == [] then Start(c) else Next(c, Run(c, events[..|events| - 1]), events[|events| - 1])
  }

  /** The account balances, and every position is open or logged, never both. */
  predicate Balanced(c: Config, s: State) {
    && s.equity == c.initial - TotalCommission(s.entered) + TotalPnl(s.log)
    && multiset(s.entered) == multiset(s.open) + multiset(Traded(s.log))
    && TotalCommission(s.entered) == TotalCommission(s.open) + TotalCommission(Traded(s.log))
  }

  lemma {:induction false} OpenBalanced(c: Config, s: State, e: Event)
    requires c.pip != 0.0 && e.Open? && Balanced(c, s)
    ensures Balanced(c, Next(c, s, e))
  {
    var p := Entered(c, e.uuid, e.signal, e.time);
    TotalCommissionSnoc(s.entered, p);
    TotalCommissionSnoc(s.open, p);
  }

  lemma {:induction false} ProcessBalanced(c: Config, s: State, e: Event)
    requires c.pip != 0.0 && e.Process? && Balanced(c, s)
    ensures Balanced(c, Next(c, s, e))
  {
    var trades := Exits(c, s.open, e.bar);
    TotalPnlConcat(s.log, trades);
    TradedConcat(s.log, trades);
    TotalCommissionConcat(Traded(s.log), Traded(trades));
    BarSplits(c, s.open, e.bar);
    BarSplitsCommission(c, s.open, e.bar);
  }

  lemma {:induction false} CloseAllBalanced(c: Config, s: State, e: Event)
    requires c.pip != 0.0 && e.CloseAll? && Balanced(c, s)
    ensures Balanced(c, Next(c, s, e))
  {
    var trades := Closings(c, s.open, e.bar);
    TotalPnlConcat(s.log, trades);
    TradedConcat(s.log, trades);
    TotalCommissionConcat(Traded(s.log), Traded(trades));
    assert Traded(trades) == s.open;
  }

  /** At every point of every backtest equity is the initial sum, less all commissions, plus
      all logged results, and the open list and the log share out the positions. */
  lemma {:induction false} AccountBalances(c: Config, events: seq<Event>)
    requires c.pip != 0.0
    ensures Balanced(c, Run(c, events))
    decreases |events|
  {
    if events != [] {
      var s, e := Run(c, events[..|events| - 1]), events[|events| - 1];
      AccountBalances(c, events[..|events| - 1]);
      match e {
        case Open(_, _, _) => OpenBalanced(c, s, e);
        case Process(_) => ProcessBalanced(c, s, e);
        case CloseAll(_) => CloseAllBalanced(c, s, e);
      }
    }
  }

  /** A trade closed at the level its reason names, at the result its prices give, rounded to
      a nearest cent. */
  predicate Honest(c: Config, t: Trade)
    requires c.pip != 0.0
  {
    && (t.reason.StopLoss? ==> t.exitPrice == t.position.stop > 0.0)
    && (t.reason.TakeProfit? ==> t.exitPrice == t.position.target > 0.0)
    && var exact := Value(c, if IsBuy(t.position.direction) then t.exitPrice - t.position.entry
                             else t.position.entry - t.exitPrice, t.position.lots);
       -0.005 <= t.pnl - exact <= 0.005
  }

  lemma CentsNear(x: real)
    ensures -0.005 <= Cents(x) - x <= 0.005
  {
    HalfEvenIff(x * 100.0, HalfEven(x * 100.0));
  }

  lemma ExitHonest(c: Config, p: Position, b: Bar)
    requires c.pip != 0.0 && ExitOf(p, b).Some?
    ensures var e := ExitOf(p, b).value; Honest(c, Trade(p, e.price, e.reason, b.time, Pnl(c, p, e.price)))
  {
    var price := ExitOf(p, b).value.price;
    CentsNear(Value(c, if IsBuy(p.direction) then price - p.entry else p.entry - price, p.lots));
  }

  lemma ClosingHonest(c: Config, p: Position, b: Bar)
    requires c.pip != 0.0
    ensures Honest(c, Closing(c, p, b))
  {
    var price := Closing(c, p, b).exitPrice;
    CentsNear(Value(c, if IsBuy(p.direction) then price - p.entry else p.entry - price, p.lots));
  }

  lemma {:induction false} ExitsHonest(c: Config, ps: seq<Position>, b: Bar)
    requires c.pip != 0.0
    ensures forall t :: t in Exits(c, ps, b) ==> Honest(c, t)
    decreases |ps|
  {
    if ps != [] {
      ExitsHonest(c, ps[..|ps| - 1], b);
      if ExitOf(ps[|ps| - 1], b).Some? { ExitHonest(c, ps[|ps| - 1], b); }
    }
  }

  lemma {:induction false} ClosingsHonest(c: Config, ps: seq<Position>, b: Bar)
    requires c.pip != 0.0
    ensures forall t :: t in Closings(c, ps, b) ==> Honest(c, t)
  {
    forall t | t in Closings(c, ps, b) ensures Honest(c, t) {
      var i :| 0 <= i < |ps| && Closings(c, ps, b)[i] == t;
      ClosingHonest(c, ps[i], b);
    }
  }

  /** Every trade of every backtest is booked that way. */
  lemma {:induction false} LogIsHonest(c: Config, events: seq<Event>)
    requires c.pip != 0.0
    ensures forall t :: t in Run(c, events).log ==> Honest(c, t)
    decreases |events|
  {
    if events != [] {
      var s, e := Run(c, events[..|events| - 1]), events[|events| - 1];
      LogIsHonest(c, events[..|events| - 1]);
      match e {
        case Open(_, _, _) =>
        case Process(b) => ExitsHonest(c, s.open, b);
        case CloseAll(b) => ClosingsHonest(c, s.open, b);
      }
    }
  }

  function NetResult(log: seq<Trade>): real
    decreases |log|
  {
    if log == [] then 0.0
    else NetResult(log[..|log| - 1]) + (log[|log| - 1].pnl - log[|log| - 1].position.commission)
  }

  lemma {:induction false} NetIsDifference(log: seq<Trade>)
    ensures NetResult(log) == TotalPnl(log) - TotalCommission(Traded(log))
    decreases |log|
  {
    if log != [] {
      NetIsDifference(log[..|log| - 1]);
      assert Traded(log)[..|log| - 1] == Traded(log[..|log| - 1]);
    }
  }

  /** Once everything is closed the equity is the initial sum plus each trade's result net of
      its commission, and the log holds every position once. */
  lemma {:induction false} ClosedAccount(c: Config, events: seq<Event>, b: Bar)
    requires c.pip != 0.0
    ensures var s := Next(c, Run(c, events), CloseAll(b));
            && s.open == [] && multiset(Traded(s.log)) == multiset(s.entered)
            && s.equity == c.initial + NetResult(s.log)
  {
    AccountBalances(c, events);
    var s := Next(c, Run(c, events), CloseAll(b));
    CloseAllBalanced(c, Run(c, events), CloseAll(b));
    NetIsDifference(s.log);
    assert TotalCommission(s.open) == 0.0;
  }

  lemma {:induction false} DistinctCounts(ps: seq<Position>, p: Position)
    requires Distinct(ps)
    ensures multiset(ps)[p] <= 1
    decreases |ps|
  {
    if ps != [] {
      DistinctCounts(ps[..|ps| - 1], p);
      assert ps == ps[..|ps| - 1] + [ps[|ps| - 1]];
      assert p == ps[|ps| - 1] ==> p !in ps[..|ps| - 1];
    }
  }

  /** Every position ever entered, and with it every trade and every open position, comes from a
      signal of the run. */
  lemma {:induction false} EnteredFromSignals(c: Config, events: seq<Event>, i: nat) returns (k: nat)
    requires c.pip != 0.0 && i < |Run(c, events).entered|
    ensures k < |events| && events[k].Open?
    ensures Run(c, events).entered[i] == Entered(c, events[k].uuid, events[k].signal, events[k].time)
    decreases |events|
  {
    var n := |events| - 1;
    var before := Run(c, events[..n]);
    k := n;
    if i < |before.entered| {
      k := EnteredFromSignals(c, events[..n], i);
      assert events[..n][k] == events[k];
    }
  }

  /** With distinct identifiers each opened position is in exactly one place, once. */
  lemma {:induction false} OnePlace(c: Config, events: seq<Event>, p: Position)
    requires c.pip != 0.0 && Distinct(Run(c, events).entered)
    ensures p in Run(c, events).entered ==> (p in Run(c, events).open <==> p !in Traded(Run(c, events).log))
    ensures multiset(Run(c, events).open)[p] + multiset(Traded(Run(c, events).log))[p] <= 1
  {
    var s := Run(c, events);
    AccountBalances(c, events);
    DistinctCounts(s.entered, p);
    assert multiset(s.entered)[p] == multiset(s.open)[p] + multiset(Traded(s.log))[p];
  }

  function Bars(events: seq<Event>): nat
    decreases |events|
  {
    if events == [] then 0 else Bars(events[..|events| - 1]) + if events[|events| - 1].Process? then 1 else 0
  }

  lemma NextCurve(c: Config, s: State, e: Event)
    requires c.pip != 0.0
    ensures Next(c, s, e).curve == if e.Process? then s.curve + [Next(c, s, e).equity] else s.curve
  {
  }

  lemma CurveStep(c: Config, events: seq<Event>)
    requires c.pip != 0.0 && events != []
    ensures var before, s := Run(c, events[..|events| - 1]), Run(c, events);
            && s.curve == (if events[|events| - 1].Process? then before.curve + [s.equity] else before.curve)
            && Bars(events) == Bars(events[..|events| - 1]) + if events[|events| - 1].Process? then 1 else 0
  {
    NextCurve(c, Run(c, events[..|events| - 1]), events[|events| - 1]);
  }

  lemma {:induction false} CurveLength(c: Config, events: seq<Event>)
    requires c.pip != 0.0
    ensures |Run(c, events).curve| == 1 + Bars(events)
    decreases |events|
  {
    if events != [] {
      CurveLength(c, events[..|events| - 1]);
      CurveStep(c, events);
    }
  }

  lemma {:induction false} CurveOnlyGrows(c: Config, events: seq<Event>, k: nat)
    requires c.pip != 0.0 && k <= |events|
    ensures Run(c, events[..k]).curve <= Run(c, events).curve
    decreases |events|
  {
    if k == |events| {
      assert events[..k] == events;
    } else {
      CurveOnlyGrows(c, events[..|events| - 1], k);
      assert events[..|events| - 1][..k] == events[..k];
      CurveStep(c, events);
    }
  }

  /** The curve holds the initial equity and the equity after each processed bar, in order. */
  lemma CurveIsEquityPerBar(c: Config, events: seq<Event>, k: nat)
    requires c.pip != 0.0 && k <= |events|
    ensures |Run(c, events).curve| == 1 + Bars(events)
    ensures k > 0 && events[k - 1].Process? ==>
              && Bars(events[..k]) <= Bars(events)
              && Run(c, events).curve[Bars(events[..k])] == Run(c, events[..k]).equity
  {
    CurveLength(c, events);
    CurveLength(c, events[..k]);
    CurveOnlyGrows(c, events, k);
    if k > 0 {
      CurveStep(c, events[..k]);
    }
  }

  // ------------------------------------------------------------------ removal by index

  /** The indices of the positions a bar closes, ascending. */
  function Hits(ps: seq<Position>, b: Bar): seq<nat>
    decreases |ps|
  {
    if ps == [] then []
    else Hits(ps[..|ps| - 1], b) + if ExitOf(ps[|ps| - 1], b).Some? then [|ps| - 1] else []
  }

  lemma ExitStep(c: Config, ps: seq<Position>, i: nat, b: Bar)
    requires c.pip != 0.0 && i < |ps|
    ensures var before, after, e := Exits(c, ps[..i], b), Exits(c, ps[..i + 1], b), ExitOf(ps[i], b);
            if e.None? then after == before && Hits(ps[..i + 1], b) == Hits(ps[..i], b)
            else
              var pnl := Pnl(c, ps[i], e.value.price);
              && after == before + [Trade(ps[i], e.value.price, e.value.reason, b.time, pnl)]
              && TotalPnl(after) == TotalPnl(before) + pnl
              && Hits(ps[..i + 1], b) == Hits(ps[..i], b) + [i]
  {
    assert ps[..i + 1][..i] == ps[..i];
    var before, after := Exits(c, ps[..i], b), Exits(c, ps[..i + 1], b);
    if ExitOf(ps[i], b).Some? {
      assert after[..|after| - 1] == before;
    }
  }

  lemma {:induction false} NoHits(ps: seq<Position>, b: Bar)
    requires Hits(ps, b) == []
    ensures Survivors(ps, b) == ps
    decreases |ps|
  {
    if ps != [] { NoHits(ps[..|ps| - 1], b); }
  }

  /** The last hit: the hits before it are the rest, and everything after it survives. */
  lemma {:induction false} LastHit(ps: seq<Position>, b: Bar)
    requires Hits(ps, b) != []
    ensures var h := Hits(ps, b); var i := h[|h| - 1];
            && i < |ps| && ExitOf(ps[i], b).Some?
            && Hits(ps[..i], b) == h[..|h| - 1] && Survivors(ps[i + 1..], b) == ps[i + 1..]
    decreases |ps|
  {
    var n := |ps| - 1;
    var before, h := Hits(ps[..n], b), Hits(ps, b);
    if ExitOf(ps[n], b).Some? {
      assert h == before + [n];
      assert ps[n + 1..] == [];
    } else {
      assert h == before;
      LastHit(ps[..n], b);
      TailSurvives(ps, h[|h| - 1], b);
    }
  }

  lemma {:induction false} TailSurvives(ps: seq<Position>, i: nat, b: Bar)
    requires i < |ps| - 1 && ExitOf(ps[|ps| - 1], b).None?
    requires Survivors(ps[..|ps| - 1][i + 1..], b) == ps[..|ps| - 1][i + 1..]
    ensures ps[..|ps| - 1][..i] == ps[..i] && Survivors(ps[i + 1..], b) == ps[i + 1..]
  {
    var tail := ps[i + 1..];
    assert tail[..|tail| - 1] == ps[..|ps| - 1][i + 1..];
    assert tail == tail[..|tail| - 1] + [ps[|ps| - 1]];
  }

  /** Removing the highest remaining index leaves what filtering from there on leaves. */
  lemma {:induction false} PopKeepsSurvivors(was: seq<Position>, i: nat, m: nat, b: Bar)
    requires i < m <= |was| && ExitOf(was[i], b).Some?
    requires Survivors(was[..m][i + 1..], b) == was[..m][i + 1..]
    ensures var list := was[..m] + Survivors(was[m..], b);
            list[..i] + list[i + 1..] == was[..i] + Survivors(was[i..], b)
  {
    assert was[..m][..i] == was[..i];
    SurvivorsFrom(was, i, m, b);
    PopMiddle(was[..m], Survivors(was[m..], b), i);
  }

  lemma PopMiddle<T>(xs: seq<T>, ys: seq<T>, i: nat)
    requires i < |xs|
    ensures (xs + ys)[..i] + (xs + ys)[i + 1..] == xs[..i] + (xs[i + 1..] + ys)
  {
  }

  lemma {:induction false} SurvivorsFrom(was: seq<Position>, i: nat, m: nat, b: Bar)
    requires i < m <= |was| && ExitOf(was[i], b).Some?
    requires Survivors(was[..m][i + 1..], b) == was[..m][i + 1..]
    ensures Survivors(was[i..], b) == was[..m][i + 1..] + Survivors(was[m..], b)
  {
    var between := was[..m][i + 1..];
    assert was[i..] == [was[i]] + (between + was[m..]);
    SurvivorsConcat([was[i]], between + was[m..], b);
    SurvivorsConcat(between, was[m..], b);
    assert [was[i]][..0] == [];
  }

  /** With j removals to go: the first m positions are untouched and hold the j indices left,
      the others have been filtered. */
  ghost predicate Popping(was: seq<Position>, b: Bar, closed: seq<nat>, j: nat, m: nat, open: seq<Position>) {
    && j <= |closed| && m <= |was|
    && closed[..j] == Hits(was[..m], b)
    && open == was[..m] + Survivors(was[m..], b)
  }

  lemma {:induction false} PopStart(was: seq<Position>, b: Bar)
    ensures Popping(was, b, Hits(was, b), |Hits(was, b)|, |was|, was)
  {
    assert was[..|was|] == was && was[|was|..] == [];
    assert Hits(was, b)[..|Hits(was, b)|] == Hits(was, b);
  }

  lemma {:induction false} PopDone(was: seq<Position>, b: Bar, closed: seq<nat>, m: nat, open: seq<Position>)
    requires Popping(was, b, closed, 0, m, open)
    ensures open == Survivors(was, b)
  {
    var left, right := was[..m], was[m..];
    assert Hits(left, b) == [];
    NoHits(left, b);
    SurvivorsConcat(left, right, b);
    assert left + right == was;
  }

  lemma {:induction false} PopStep(was: seq<Position>, b: Bar, closed: seq<nat>, j: nat, m: nat, open: seq<Position>)
    requires j > 0 && Popping(was, b, closed, j, m, open)
    ensures var i := closed[j - 1]; i < |open| && Popping(was, b, closed, j - 1, i, open[..i] + open[i + 1..])
  {
    var i := closed[j - 1];
    LastHit(was[..m], b);
    PopKeepsSurvivors(was, i, m, b);
    assert closed[..j][..j - 1] == closed[..j - 1];
    assert was[..m][..i] == was[..i];
  }

  // ------------------------------------------------------------------ the simulator

  class TradeSimulator {
    const config: Config
    var equity: real
    var openPositions: seq<Position>
    var equityCurve: seq<real>
    var tradeLog: seq<Trade>
    ghost var entered: seq<Position>

    ghost predicate Valid() { config.pip != 0.0 }

    ghost function Snapshot(): State
      reads this
    {
      State(equity, openPositions, equityCurve, tradeLog, entered)
    }

    constructor (config: Config)
      requires config.pip != 0.0
      ensures Valid() && Snapshot() == Start(config) && this.config == config
    {
      this.config := config;
      equity, openPositions, equityCurve, tradeLog, entered := config.initial, [], [config.initial], [], [];
    }

    method OpenPosition(uuid: string, signal: Signal, time: int)
      requires Valid()
      modifies this
      ensures Snapshot() == Next(config, old(Snapshot()), Open(uuid, signal, time))
    {
      var position := Entered(config, uuid, signal, time);
      equity := equity - position.commission;
      openPositions := openPositions + [position];
      entered := entered + [position];
    }

    method ClosePosition(p: Position, exitPrice: real, reason: Reason, time: int)
      requires Valid()
      modifies this`equity, this`tradeLog
      ensures equity == old(equity) + Pnl(config, p, exitPrice)
      ensures tradeLog == old(tradeLog) + [Trade(p, exitPrice, reason, time, Pnl(config, p, exitPrice))]
    {
      var pnl := Pnl(config, p, exitPrice);
      equity := equity + pnl;
      tradeLog := tradeLog + [Trade(p, exitPrice, reason, time, pnl)];
    }

    /** Positions leave by index, highest first; what is left is the survivors in order. */
    method ProcessBar(b: Bar)
      requires Valid()
      modifies this
      ensures Snapshot() == Next(config, old(Snapshot()), Process(b))
    {
      var closed := CloseHits(b);
      RemoveAll(closed, b);
      equityCurve := equityCurve + [equity];
    }

    method RemoveAll(closed: seq<nat>, b: Bar)
      requires closed == Hits(openPositions, b)
      modifies this`openPositions
      ensures openPositions == Survivors(old(openPositions), b)
    {
      ghost var was := openPositions;
      ghost var m: nat := |was|;
      PopStart(was, b);
      var j: nat := |closed|;
      while j > 0
        invariant Popping(was, b, closed, j, m, openPositions)
      {
        PopStep(was, b, closed, j, m, openPositions);
        j := j - 1;
        var i := closed[j];
        openPositions := openPositions[..i] + openPositions[i + 1..];
        m := i;
      }
      PopDone(was, b, closed, m, openPositions);
    }

    /** Books the exits of a bar and returns the indices that left, in ascending order. */
    method CloseHits(b: Bar) returns (closed: seq<nat>)
      requires Valid()
      modifies this`equity, this`tradeLog
      ensures closed == Hits(openPositions, b)
      ensures equity == old(equity) + TotalPnl(Exits(config, openPositions, b))
      ensures tradeLog == old(tradeLog) + Exits(config, openPositions, b)
    {
      closed := [];
      for i := 0 to |openPositions|
        invariant closed == Hits(openPositions[..i], b)
        invariant equity == old(equity) + TotalPnl(Exits(config, openPositions[..i], b))
        invariant tradeLog == old(tradeLog) + Exits(config, openPositions[..i], b)
      {
        var p := openPositions[i];
        ExitStep(config, openPositions, i, b);
        var exit := ExitOf(p, b);
        if exit.Some? {
          ClosePosition(p, exit.value.price, exit.value.reason, b.time);
          closed := closed + [i];
        }
      }
      assert openPositions[..|openPositions|] == openPositions;
    }

    method CloseAllPositions(b: Bar)
      requires Valid()
      modifies this
      ensures Snapshot() == Next(config, old(Snapshot()), CloseAll(b))
    {
      ghost var trades := Closings(config, openPositions, b);
      for i := 0 to |openPositions|
        invariant openPositions == old(openPositions) && equityCurve == old(equityCurve) && entered == old(entered)
        invariant equity == old(equity) + TotalPnl(trades[..i])
        invariant tradeLog == old(tradeLog) + trades[..i]
      {
        var p := openPositions[i];
        assert trades[..i + 1][..i] == trades[..i];
        ClosePosition(p, FillPrice(config, b.close, Opposite(p.direction)), EndOfBacktest, b.time);
      }
      assert trades[..|trades|] == trades;
      openPositions := [];
    }
  }
}
