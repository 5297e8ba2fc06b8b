/** The position tracker: which tickets are known, which are reported closed, and how trailing
    stops move along a price path. */
module PositionTracker {
  import opened Sequences

  datatype Side = Buy | Sell

  /** A stop of zero means none. */
  datatype Position = Position(ticket: int, symbol: string, side: Side, priceOpen: real, priceCurrent: real,
                               stop: real, profit: real)

  datatype Config = Config(trailing: bool, trailPips: real, activationPips: real)

  // ------------------------------------------------------------------ trailing stops

  predicate Contains(text: string, part: string) { exists i :: 0 <= i <= |text| && PartAt(text, part, i) }

  predicate PartAt(text: string, part: string, i: nat) {
    i + |part| <= |text| && text[i..i + |part|] == part
  }

  /** The size of a pip from the broker's digits, or guessed from the symbol without them. */
  function PipSize(digits: Option<int>, symbol: string): (r: real)
    ensures r > 0.0
  {
    match digits
    case Some(d) => if d <= 3 then 0.01 else 0.0001
    case None =>
      if Contains(symbol, "JPY") || Contains(symbol, "XAU") || Contains(symbol, "XAG")
         || Contains(symbol, "BTC") || Contains(symbol, "ETH") then 0.01
      else 0.0001
  }

  /** The smallest price step of an instrument quoted to so many decimals. */
  function Point(digits: nat): (r: real)
    ensures r > 0.0
  {
    if digits == 0 then 1.0 else Point(digits - 1) / 10.0
  }

  /** A pip is one step of an instrument with two or four decimals and ten steps of one with three
      or five. */
  lemma PipInPoints(digits: nat, symbol: string)
    ensures digits == 2 || digits == 4 ==> PipSize(Some(digits), symbol) == Point(digits)
    ensures digits == 3 || digits == 5 ==> PipSize(Some(digits), symbol) == 10.0 * Point(digits)
  {
    assert Point(1) == 0.1;
    assert Point(2) == Point(1) / 10.0 && Point(3) == Point(2) / 10.0;
    assert Point(4) == Point(3) / 10.0 && Point(5) == Point(4) / 10.0;
  }

  /** Without the broker's decimals a symbol of the yen, a metal or a coin has the pip of one with
      two, any other that of one with four. */
  lemma PipGuessed(symbol: string)
    ensures var wide := exists part :: part in {"JPY", "XAU", "XAG", "BTC", "ETH"} && Contains(symbol, part);
            PipSize(None, symbol) == if wide then Point(2) else Point(4)
  {
    PipInPoints(2, symbol);
    PipInPoints(4, symbol);
  }

  function Distance(pips: real, pip: real): real { pips * pip }

  /** The stop a poll asks for, None when the position has not earned enough. */
  function Candidate(c: Config, p: Position, pip: real): Option<real>
    requires pip > 0.0
  {
    if p.profit <= 0.0 || p.priceOpen == 0.0 || p.priceCurrent == 0.0 then None
    else
      var gain := if p.side == Buy then p.priceCurrent - p.priceOpen else p.priceOpen - p.priceCurrent;
      if gain / pip < c.activationPips then None
      else if p.side == Buy then Some(p.priceCurrent - Distance(c.trailPips, pip))
      else Some(p.priceCurrent + Distance(c.trailPips, pip))
  }

  /** Whether a candidate is nearer the price than the present stop. */
  predicate Improves(side: Side, candidate: real, stop: real) {
    if side == Buy then candidate > stop else stop == 0.0 || candidate < stop
  }

  function Request(c: Config, p: Position, pip: real): Option<real>
    requires pip > 0.0
  {
    var s := Candidate(c, p, pip);
    if s.Some? && Improves(p.side, s.value, p.stop) then s else None
  }

  /** One poll of a price path: the quoted profit and price, and whether the broker would make
      a change now. */
  datatype Quote = Quote(profit: real, price: real, obeyed: bool)

  function At(p: Position, stop: real, q: Quote): Position {
    p.(stop := stop, profit := q.profit, priceCurrent := q.price)
  }

  /** The broker's stop after a path of polls. */
  function StopAfter(c: Config, p: Position, pip: real, path: seq<Quote>): real
    requires pip > 0.0
    decreases |path|
  {
    if path == [] then p.stop
    else
      var before, q := StopAfter(c, p, pip, path[..|path| - 1]), path[|path| - 1];
      var r := Request(c, At(p, before, q), pip);
      if r.Some? && q.obeyed then r.value else before
  }

  /** What poll i asks for, whatever the stop is by then. */
  function Asked(c: Config, p: Position, pip: real, q: Quote): Option<real>
    requires pip > 0.0
  {
    if q.obeyed then Candidate(c, At(p, 0.0, q), pip) else None
  }

  lemma AskedAnyStop(c: Config, p: Position, pip: real, q: Quote, stop: real)
    requires pip > 0.0
    ensures Candidate(c, At(p, stop, q), pip) == Candidate(c, At(p, 0.0, q), pip)
  {
  }

  /** The stop is one of the levels asked for, or where it started. */
  lemma {:induction false} StopIsAsked(c: Config, p: Position, pip: real, path: seq<Quote>) returns (i: int)
    requires pip > 0.0
    ensures i == -1 || 0 <= i < |path|
    ensures i == -1 ==> StopAfter(c, p, pip, path) == p.stop
    ensures i >= 0 ==> Asked(c, p, pip, path[i]) == Some(StopAfter(c, p, pip, path))
    decreases |path|
  {
    i := -1;
    if path != [] {
      var n := |path| - 1;
      i := StopIsAsked(c, p, pip, path[..n]);
      var before := StopAfter(c, p, pip, path[..n]);
      AskedAnyStop(c, p, pip, path[n], before);
      var r := Request(c, At(p, before, path[n]), pip);
      if r.Some? && path[n].obeyed {
        i := n;
      } else if i >= 0 {
        assert path[..n][i] == path[i];
      }
    }
  }

  /** A long stop is the maximum of its start and every level asked for and obeyed. */
  lemma {:induction false} BuyStopIsMaximum(c: Config, p: Position, pip: real, path: seq<Quote>)
    requires pip > 0.0 && p.side == Buy
    ensures StopAfter(c, p, pip, path) >= p.stop
    ensures forall i :: 0 <= i < |path| && Asked(c, p, pip, path[i]).Some? ==>
              StopAfter(c, p, pip, path) >= Asked(c, p, pip, path[i]).value
    decreases |path|
  {
    if path != [] {
      var n := |path| - 1;
      BuyStopIsMaximum(c, p, pip, path[..n]);
      var before := StopAfter(c, p, pip, path[..n]);
      AskedAnyStop(c, p, pip, path[n], before);
      forall i | 0 <= i < |path| && Asked(c, p, pip, path[i]).Some?
        ensures StopAfter(c, p, pip, path) >= Asked(c, p, pip, path[i]).value
      {
        if i < n { assert path[..n][i] == path[i]; }
      }
    }
  }

  predicate PositivePrices(path: seq<Quote>) {
    forall i :: 0 <= i < |path| ==> path[i].price > 0.0
  }

  /** A short stop is the minimum of the levels asked for and obeyed and of its start, where a
      start of zero counts for nothing. */
  lemma {:induction false} SellStopIsMinimum(c: Config, p: Position, pip: real, path: seq<Quote>)
    requires pip > 0.0 && p.side == Sell && c.trailPips >= 0.0 && PositivePrices(path)
    ensures p.stop != 0.0 ==> StopAfter(c, p, pip, path) != 0.0 && StopAfter(c, p, pip, path) <= p.stop
    ensures forall i :: 0 <= i < |path| && Asked(c, p, pip, path[i]).Some? ==>
              StopAfter(c, p, pip, path) != 0.0 && StopAfter(c, p, pip, path) <= Asked(c, p, pip, path[i]).value
    decreases |path|
  {
    if path != [] {
      var n := |path| - 1;
      SellStopIsMinimum(c, p, pip, path[..n]);
      var before := StopAfter(c, p, pip, path[..n]);
      AskedAnyStop(c, p, pip, path[n], before);
      assert Distance(c.trailPips, pip) >= 0.0;
      forall i | 0 <= i < |path| && Asked(c, p, pip, path[i]).Some?
        ensures StopAfter(c, p, pip, path) != 0.0 && StopAfter(c, p, pip, path) <= Asked(c, p, pip, path[i]).value
      {
        if i < n { assert path[..n][i] == path[i]; }
      }
    }
  }

  /** Whatever the broker refuses, a stop never loosens between two points of a path. */
  lemma {:induction false} StopsNeverLoosen(c: Config, p: Position, pip: real, path: seq<Quote>, n: nat)
    requires pip > 0.0 && n <= |path|
    requires p.side == Sell ==> c.trailPips >= 0.0 && PositivePrices(path)
    ensures var early, late := StopAfter(c, p, pip, path[..n]), StopAfter(c, p, pip, path);
            if p.side == Buy then late >= early else early != 0.0 ==> late != 0.0 && late <= early
    decreases |path|
  {
    if n == |path| {
      assert path[..n] == path;
    } else {
      var m := |path| - 1;
      StopsNeverLoosen(c, p, pip, path[..m], n);
      assert path[..m][..n] == path[..n];
      assert Distance(c.trailPips, pip) >= 0.0 || p.side == Buy;
      assert path[m].price > 0.0 || p.side == Buy;
    }
  }

  /** A level is asked for exactly when the quote is in profit by the activation distance, and it
      lies the trail behind the price quoted, on the losing side. */
  lemma AskedIff(c: Config, p: Position, pip: real, q: Quote)
    requires pip > 0.0 && q.obeyed
    ensures Asked(c, p, pip, q).Some? <==>
              && q.profit > 0.0 && p.priceOpen != 0.0 && q.price != 0.0
              && Distance(c.activationPips, pip) <= if p.side == Buy then q.price - p.priceOpen else p.priceOpen - q.price
    ensures Asked(c, p, pip, q).Some? ==>
              Distance(c.trailPips, pip) == if p.side == Buy then q.price - Asked(c, p, pip, q).value
                                            else Asked(c, p, pip, q).value - q.price
  {
    var gain := if p.side == Buy then q.price - p.priceOpen else p.priceOpen - q.price;
    assert gain / pip * pip == gain;
    DistanceOrder(gain / pip, c.activationPips, pip);
  }

  /** How far in profit a level asked for is, at least. */
  lemma AskedLevel(c: Config, p: Position, pip: real, q: Quote)
    requires pip > 0.0 && Asked(c, p, pip, q).Some?
    ensures var level := Asked(c, p, pip, q).value;
            if p.side == Buy then level >= p.priceOpen + Distance(c.activationPips, pip) - Distance(c.trailPips, pip)
            else level <= p.priceOpen - Distance(c.activationPips, pip) + Distance(c.trailPips, pip)
  {
    var gain := if p.side == Buy then q.price - p.priceOpen else p.priceOpen - q.price;
    var g := gain / pip;
    assert g * pip == gain;
    assert (g - c.activationPips) * pip >= 0.0;
  }

  lemma DistanceOrder(a: real, b: real, pip: real)
    requires pip > 0.0
    ensures a >= b <==> Distance(a, pip) >= Distance(b, pip)
  {
    if a >= b { assert (a - b) * pip >= 0.0; } else { assert (b - a) * pip > 0.0; }
  }

  /** The quote that just reaches the activation distance. */
  function Threshold(c: Config, p: Position, pip: real): Quote {
    var d := Distance(c.activationPips, pip);
    Quote(1.0, if p.side == Buy then p.priceOpen + d else p.priceOpen - d, true)
  }

  predicate BreakEven(p: Position, level: real) {
    if p.side == Buy then level >= p.priceOpen else level <= p.priceOpen
  }

  /** Every level asked for is at break-even or better exactly when activation is no closer than
      the trail; with the default 30 and 50 pips it is not. */
  lemma BreakEvenIff(c: Config, p: Position, pip: real)
    requires pip > 0.0 && p.priceOpen != 0.0 && Threshold(c, p, pip).price != 0.0
    ensures (forall q: Quote :: Asked(c, p, pip, q).Some? ==> BreakEven(p, Asked(c, p, pip, q).value))
            <==> c.activationPips >= c.trailPips
  {
    DistanceOrder(c.activationPips, c.trailPips, pip);
    forall q: Quote | c.activationPips >= c.trailPips && Asked(c, p, pip, q).Some?
      ensures BreakEven(p, Asked(c, p, pip, q).value)
    {
      AskedLevel(c, p, pip, q);
    }
    var q := Threshold(c, p, pip);
    var d := Distance(c.activationPips, pip);
    assert d / pip == c.activationPips;
    assert Asked(c, p, pip, q) == Some(if p.side == Buy then p.priceOpen + d - Distance(c.trailPips, pip)
                                       else p.priceOpen - d + Distance(c.trailPips, pip));
  }

  // ------------------------------------------------------------------ known and closed tickets

  function Tickets(ps: seq<Position>): set<int> { set p | p in ps :: p.ticket }

  predicate DistinctTickets(ps: seq<Position>) {
    forall i, j :: 0 <= i < j < |ps| ==> ps[i].ticket != ps[j].ticket
  }

  /** What the broker's history tells about a closed ticket, if anything. */
  datatype Deal = Deal(profit: real, price: real)

  function Ended(p: Position, deals: map<int, Deal>): Position {
    if p.ticket in deals then p.(profit := deals[p.ticket].profit, priceCurrent := deals[p.ticket].price) else p
  }

  function Still(known: seq<Position>, current: set<int>): seq<Position>
    decreases |known|
  {
    if known == [] then []
    else
      var p := known[|known| - 1];
      Still(known[..|known| - 1], current) + if p.ticket in current then [p] else []
  }

  function Gone(known: seq<Position>, current: set<int>, deals: map<int, Deal>): seq<Position>
    decreases |known|
  {
    if known == [] then []
    else
      var p := known[|known| - 1];
      Gone(known[..|known| - 1], current, deals) + if p.ticket in current then [] else [Ended(p, deals)]
  }

  /** A dictionary assignment: in place for a known ticket, at the end for a new one. */
  function Put(known: seq<Position>, p: Position): seq<Position>
    decreases |known|
  {
    if known == [] then [p]
    else
      var last := known[|known| - 1];
      if last.ticket == p.ticket then known[..|known| - 1] + [p] else Put(known[..|known| - 1], p) + [last]
  }

  /** Put as a dictionary does it keeps the order of what is there. */
  function PutAll(known: seq<Position>, ps: seq<Position>): seq<Position>
    decreases |ps|
  {
    if ps == [] then known else Put(PutAll(known, ps[..|ps| - 1]), ps[|ps| - 1])
  }

  lemma TicketsSnoc(ps: seq<Position>, p: Position)
    ensures Tickets(ps + [p]) == Tickets(ps) + {p.ticket}
  {
    forall t | t in Tickets(ps) + {p.ticket} ensures t in Tickets(ps + [p]) {
      if t in Tickets(ps) {
        var q :| q in ps && q.ticket == t;
        assert q in ps + [p];
      } else {
        assert p in ps + [p];
      }
    }
  }

  lemma TicketsSplit(ps: seq<Position>)
    requires ps != []
    ensures Tickets(ps) == Tickets(ps[..|ps| - 1]) + {ps[|ps| - 1].ticket}
  {
    TicketsSnoc(ps[..|ps| - 1], ps[|ps| - 1]);
    assert ps == ps[..|ps| - 1] + [ps[|ps| - 1]];
  }

  lemma DistinctSnoc(ps: seq<Position>, p: Position)
    ensures DistinctTickets(ps + [p]) <==> DistinctTickets(ps) && p.ticket !in Tickets(ps)
  {
    var all := ps + [p];
    if DistinctTickets(all) {
      forall i, j | 0 <= i < j < |ps| ensures ps[i].ticket != ps[j].ticket {
        assert all[i] == ps[i] && all[j] == ps[j];
      }
      forall i | 0 <= i < |ps| ensures ps[i].ticket != p.ticket {
        assert all[i] == ps[i] && all[|ps|] == p;
      }
    }
    if DistinctTickets(ps) && p.ticket !in Tickets(ps) {
      forall i, j | 0 <= i < j < |all| ensures all[i].ticket != all[j].ticket {
        assert all[i] == ps[i] && ps[i] in ps;
      }
    }
  }

  lemma DistinctSplit(ps: seq<Position>)
    requires ps != []
    ensures DistinctTickets(ps) <==> DistinctTickets(ps[..|ps| - 1]) && ps[|ps| - 1].ticket !in Tickets(ps[..|ps| - 1])
  {
    DistinctSnoc(ps[..|ps| - 1], ps[|ps| - 1]);
    assert ps == ps[..|ps| - 1] + [ps[|ps| - 1]];
  }

  /** One more element of a dictionary under Still and Gone. */
  lemma {:induction false} FilterStep(was: seq<Position>, i: nat, current: set<int>, deals: map<int, Deal>)
    requires i < |was|
    ensures if was[i].ticket in current then
              && Still(was[..i + 1], current) == Still(was[..i], current) + [was[i]]
              && Gone(was[..i + 1], current, deals) == Gone(was[..i], current, deals)
            else
              && Still(was[..i + 1], current) == Still(was[..i], current)
              && Gone(was[..i + 1], current, deals) == Gone(was[..i], current, deals) + [Ended(was[i], deals)]
  {
    assert was[..i + 1][..i] == was[..i];
  }

  lemma {:induction false} StillFacts(known: seq<Position>, current: set<int>)
    requires DistinctTickets(known)
    ensures DistinctTickets(Still(known, current)) && Tickets(Still(known, current)) == Tickets(known) * current
    decreases |known|
  {
    assert Tickets([]) == {};
    if known != [] {
      var before, p := known[..|known| - 1], known[|known| - 1];
      TicketsSplit(known);
      DistinctSplit(known);
      StillFacts(before, current);
      FilterStep(known, |known| - 1, current, map[]);
      assert known[..|known| - 1 + 1] == known;
      TicketsSnoc(Still(before, current), p);
      DistinctSnoc(Still(before, current), p);
    }
  }

  lemma {:induction false} PutFacts(known: seq<Position>, p: Position)
    requires DistinctTickets(known)
    ensures DistinctTickets(Put(known, p)) && Tickets(Put(known, p)) == Tickets(known) + {p.ticket}
    decreases |known|
  {
    if known == [] {
      assert Put(known, p) == [] + [p];
      TicketsSnoc([], p);
    } else {
      var before, last := known[..|known| - 1], known[|known| - 1];
      TicketsSplit(known);
      DistinctSplit(known);
      if last.ticket == p.ticket {
        TicketsSnoc(before, p);
        DistinctSnoc(before, p);
      } else {
        PutFacts(before, p);
        TicketsSnoc(Put(before, p), last);
        DistinctSnoc(Put(before, p), last);
      }
    }
  }

  lemma {:induction false} PutData(known: seq<Position>, p: Position, q: Position)
    requires DistinctTickets(known)
    ensures q in Put(known, p) <==> q == p || (q in known && q.ticket != p.ticket)
    decreases |known|
  {
    if known != [] {
      var before, last := known[..|known| - 1], known[|known| - 1];
      DistinctSplit(known);
      assert known == before + [last];
      assert q in known <==> q in before || q == last;
      if last.ticket != p.ticket { PutData(before, p, q); }
    }
  }

  lemma {:induction false} PutAllFacts(known: seq<Position>, ps: seq<Position>)
    requires DistinctTickets(known)
    ensures DistinctTickets(PutAll(known, ps)) && Tickets(PutAll(known, ps)) == Tickets(known) + Tickets(ps)
    decreases |ps|
  {
    if ps != [] {
      PutAllFacts(known, ps[..|ps| - 1]);
      PutFacts(PutAll(known, ps[..|ps| - 1]), ps[|ps| - 1]);
      TicketsSplit(ps);
    }
  }

  lemma {:induction false} PutAllData(known: seq<Position>, ps: seq<Position>, q: Position)
    requires DistinctTickets(known) && DistinctTickets(ps)
    ensures q in PutAll(known, ps) <==> q in ps || (q in known && q.ticket !in Tickets(ps))
    decreases |ps|
  {
    if ps != [] {
      var before, p := ps[..|ps| - 1], ps[|ps| - 1];
      DistinctSplit(ps);
      TicketsSplit(ps);
      PutAllFacts(known, before);
      PutAllData(known, before, q);
      PutData(PutAll(known, before), p, q);
      assert ps == before + [p];
      assert q in ps <==> q in before || q == p;
      assert q in before ==> q.ticket in Tickets(before);
    }
  }

  // ------------------------------------------------------------------ runs of polls

  datatype Answer = Accepts | Declines | Raises

  /** A polled position with what the broker would say about it during this update. */
  datatype Polled = Polled(position: Position, digits: Option<int>, answer: Answer)

  datatype Poll = Unavailable | Snapshot(polled: seq<Polled>, deals: map<int, Deal>)

  function Positions(polled: seq<Polled>): (r: seq<Position>)
    ensures |r| == |polled|
  {
    seq(|polled|, (i: nat) requires i < |polled| => polled[i].position)
  }

  datatype Move = Move(ticket: int, stop: real)

  datatype Trailed = Trailed(moves: seq<Move>, raised: bool)

  /** The stops moved by one update, up to a request that raises. */
  function Trail(c: Config, polled: seq<Polled>): Trailed
    decreases |polled|
  {
    if polled == [] then Trailed([], false)
    else
      var before, q := Trail(c, polled[..|polled| - 1]), polled[|polled| - 1];
      var r := Request(c, q.position, PipSize(q.digits, q.position.symbol));
      if before.raised || r.None? || q.answer == Declines then before
      else if q.answer == Raises then Trailed(before.moves, true)
      else Trailed(before.moves + [Move(q.position.ticket, r.value)], false)
  }

  datatype State = State(known: seq<Position>, closed: seq<Position>)

  function Newly(s: State, poll: Poll): seq<Position>
    requires poll.Snapshot?
  {
    Gone(s.known, Tickets(Positions(poll.polled)), poll.deals)
  }

  function Next(s: State, poll: Poll): State {
    match poll
    case Unavailable => s
    case Snapshot(polled, deals) =>
      var ps := Positions(polled);
      State(PutAll(Still(s.known, Tickets(ps)), ps), s.closed + Newly(s, poll))
  }

  /** Whether the update comes back to its caller; if not, the closings it saw are only in the
      tracker's own list. */
  predicate Returns(c: Config, poll: Poll) {
    poll.Snapshot? && !(c.trailing && Trail(c, poll.polled).raised)
  }

  function Run(polls: seq<Poll>): State
    decreases |polls|
  {
    if polls == [] then State([], []) else Next(Run(polls[..|polls| - 1]), polls[|polls| - 1])
  }

  /** The tickets of the last poll that was answered. */
  function LastSeen(polls: seq<Poll>): set<int>
    decreases |polls|
  {
    if polls == [] then {}
    else
      match polls[|polls| - 1]
      case Unavailable => LastSeen(polls[..|polls| - 1])
      case Snapshot(polled, _) => Tickets(Positions(polled))
  }

  /** How often a ticket was there in one answered poll and gone in the next. */
  function Vanishings(polls: seq<Poll>, t: int): nat
    decreases |polls|
  {
    if polls == [] then 0
    else
      var before := polls[..|polls| - 1];
      Vanishings(before, t) + if t in LastSeen(before) && t !in LastSeen(polls) then 1 else 0
  }

  function Reports(log: seq<Position>, t: int): nat
    decreases |log|
  {
    if log == [] then 0 else Reports(log[..|log| - 1], t) + if log[|log| - 1].ticket == t then 1 else 0
  }

  lemma {:induction false} ReportsConcat(xs: seq<Position>, ys: seq<Position>, t: int)
    ensures Reports(xs + ys, t) == Reports(xs, t) + Reports(ys, t)
    decreases |ys|
  {
    if ys == [] {
      assert xs + ys == xs;
    } else {
      ReportsConcat(xs, ys[..|ys| - 1], t);
      assert (xs + ys)[..|xs + ys| - 1] == xs + ys[..|ys| - 1];
    }
  }

  lemma ReportsSnoc(xs: seq<Position>, p: Position, t: int)
    ensures Reports(xs + [p], t) == Reports(xs, t) + if p.ticket == t then 1 else 0
  {
    assert (xs + [p])[..|xs|] == xs;
  }

  lemma {:induction false} GoneReports(known: seq<Position>, current: set<int>, deals: map<int, Deal>, t: int)
    ensures Reports(Gone(known, current, deals), t) == if t in current then 0 else Reports(known, t)
    decreases |known|
  {
    if known != [] {
      var before, p := known[..|known| - 1], known[|known| - 1];
      GoneReports(before, current, deals, t);
      ReportsSnoc(Gone(before, current, deals), Ended(p, deals), t);
      assert p.ticket in current ==> Gone(known, current, deals) == Gone(before, current, deals);
    }
  }

  lemma {:induction false} DistinctReports(known: seq<Position>, t: int)
    requires DistinctTickets(known)
    ensures Reports(known, t) == if t in Tickets(known) then 1 else 0
    decreases |known|
  {
    if known != [] {
      TicketsSplit(known);
      DistinctSplit(known);
      DistinctReports(known[..|known| - 1], t);
    }
  }

  /** After every answered poll the known tickets are the polled ones, each once, and a ticket
      has been reported closed exactly as often as it vanished. */
  lemma {:induction false} ReportedOncePerVanishing(polls: seq<Poll>, t: int)
    ensures DistinctTickets(Run(polls).known) && Tickets(Run(polls).known) == LastSeen(polls)
    ensures Reports(Run(polls).closed, t) == Vanishings(polls, t)
    decreases |polls|
  {
    if polls != [] {
      var before, poll := polls[..|polls| - 1], polls[|polls| - 1];
      ReportedOncePerVanishing(before, t);
      var s := Run(before);
      if poll.Snapshot? {
        var ps := Positions(poll.polled);
        StillFacts(s.known, Tickets(ps));
        PutAllFacts(Still(s.known, Tickets(ps)), ps);
        GoneReports(s.known, Tickets(ps), poll.deals, t);
        DistinctReports(s.known, t);
        ReportsConcat(s.closed, Newly(s, poll), t);
      }
    }
  }

  /** What is known is what the last poll said, so a closing report starts from the last data
      seen of its ticket. */
  lemma {:induction false} KnownIsLastPoll(polls: seq<Poll>, poll: Poll, q: Position)
    requires poll.Snapshot? && DistinctTickets(Positions(poll.polled))
    ensures q in Run(polls + [poll]).known <==> q in Positions(poll.polled)
  {
    var s, ps := Run(polls), Positions(poll.polled);
    assert (polls + [poll])[..|polls|] == polls;
    ReportedOncePerVanishing(polls, q.ticket);
    StillFacts(s.known, Tickets(ps));
    PutAllData(Still(s.known, Tickets(ps)), ps, q);
    assert q in Still(s.known, Tickets(ps)) ==> q.ticket in Tickets(Still(s.known, Tickets(ps)));
  }

  /** A closing reported tells the broker's result and price where there are any and the last ones
      seen otherwise; everything else is as last seen. */
  lemma {:induction false} ReportsTellDeals(known: seq<Position>, current: set<int>, deals: map<int, Deal>)
    ensures forall r :: r in Gone(known, current, deals) ==>
              exists p :: p in known && IsReportOf(p, r, current, deals)
    decreases |known|
  {
    if known != [] {
      var before, p := known[..|known| - 1], known[|known| - 1];
      ReportsTellDeals(before, current, deals);
      assert known == before + [p];
      forall r | r in Gone(known, current, deals) ensures exists p :: p in known && IsReportOf(p, r, current, deals) {
        if r in Gone(before, current, deals) {
          var q :| q in before && IsReportOf(q, r, current, deals);
          assert q in known;
        } else {
          assert p in known && IsReportOf(p, r, current, deals);
        }
      }
    }
  }

  /** r is the report of p. */
  predicate IsReportOf(p: Position, r: Position, current: set<int>, deals: map<int, Deal>) {
    && p.ticket !in current && r.ticket == p.ticket && r.symbol == p.symbol && r.side == p.side
    && r.priceOpen == p.priceOpen && r.stop == p.stop
    && (p.ticket in deals ==> r.profit == deals[p.ticket].profit && r.priceCurrent == deals[p.ticket].price)
    && (p.ticket !in deals ==> r.profit == p.profit && r.priceCurrent == p.priceCurrent)
  }

  /** Every stop moved belongs to a polled position whose broker accepted it, and improves it. */
  lemma {:induction false} MovesImprove(c: Config, polled: seq<Polled>)
    ensures forall mv :: mv in Trail(c, polled).moves ==>
              exists q :: q in polled && q.answer == Accepts && q.position.ticket == mv.ticket
                          && Improves(q.position.side, mv.stop, q.position.stop)
    decreases |polled|
  {
    if polled != [] {
      var n := |polled| - 1;
      MovesImprove(c, polled[..n]);
      assert polled == polled[..n] + [polled[n]];
      forall mv | mv in Trail(c, polled).moves
        ensures exists q :: q in polled && q.answer == Accepts && q.position.ticket == mv.ticket
                            && Improves(q.position.side, mv.stop, q.position.stop)
      {
        if mv in Trail(c, polled[..n]).moves {
          var q :| q in polled[..n] && q.answer == Accepts && q.position.ticket == mv.ticket
                   && Improves(q.position.side, mv.stop, q.position.stop);
          assert q in polled;
        } else {
          assert polled[n] in polled;
        }
      }
    }
  }

  // ------------------------------------------------------------------ the tracker

  /** Removing one ticket from a dictionary. */
  function Without(known: seq<Position>, ticket: int): seq<Position>
    decreases |known|
  {
    if known == [] then []
    else
      var p := known[|known| - 1];
      Without(known[..|known| - 1], ticket) + if p.ticket == ticket then [] else [p]
  }

  lemma {:induction false} WithoutAbsent(known: seq<Position>, ticket: int)
    requires ticket !in Tickets(known)
    ensures Without(known, ticket) == known
  {
    forall i | 0 <= i < |known| ensures known[i].ticket != ticket { assert known[i] in known; }
    WithoutNone(known, ticket);
  }

  lemma {:induction false} WithoutNone(known: seq<Position>, ticket: int)
    requires forall i :: 0 <= i < |known| ==> known[i].ticket != ticket
    ensures Without(known, ticket) == known
    decreases |known|
  {
    if known != [] {
      var before, p := known[..|known| - 1], known[|known| - 1];
      WithoutNone(before, ticket);
      assert Without(known, ticket) == before + [p];
    }
  }

  lemma {:induction false} WithoutConcat(xs: seq<Position>, ys: seq<Position>, ticket: int)
    ensures Without(xs + ys, ticket) == Without(xs, ticket) + Without(ys, ticket)
    decreases |ys|
  {
    if ys == [] {
      assert xs + ys == xs;
    } else {
      WithoutConcat(xs, ys[..|ys| - 1], ticket);
      assert (xs + ys)[..|xs + ys| - 1] == xs + ys[..|ys| - 1];
    }
  }

  /** Deleting the ticket under the loop's hand leaves the earlier survivors and the rest. */
  lemma {:induction false} DeleteOne(was: seq<Position>, i: nat, current: set<int>)
    requires i < |was| && DistinctTickets(was)
    ensures Without(Still(was[..i], current) + was[i..], was[i].ticket) == Still(was[..i], current) + was[i + 1..]
  {
    var kept, p, rest := Still(was[..i], current), was[i], was[i + 1..];
    StillFacts(was[..i], current);
    NowhereElse(was, i);
    assert was[i..] == [p] + rest;
    WithoutConcat(kept, was[i..], p.ticket);
    WithoutConcat([p], rest, p.ticket);
    WithoutAbsent(kept, p.ticket);
    WithoutAbsent(rest, p.ticket);
    assert Without([p], p.ticket) == [] by { assert [p][..0] == []; }
    assert [] + rest == rest;
  }

  lemma {:induction false} NowhereElse(was: seq<Position>, i: nat)
    requires i < |was| && DistinctTickets(was)
    ensures was[i].ticket !in Tickets(was[..i]) && was[i].ticket !in Tickets(was[i + 1..])
    ensures DistinctTickets(was[..i])
  {
    forall q | q in was[..i] ensures q.ticket != was[i].ticket {
      var k :| 0 <= k < i && was[..i][k] == q;
      assert was[k] == q;
    }
    forall q | q in was[i + 1..] ensures q.ticket != was[i].ticket {
      var k :| 0 <= k < |was[i + 1..]| && was[i + 1..][k] == q;
      assert was[i + 1 + k] == q;
    }
  }

  /** The removal loop before element i: earlier survivors, then the rest. */
  ghost predicate Removing(was: seq<Position>, i: nat, current: set<int>, deals: map<int, Deal>,
                           known: seq<Position>, gone: seq<Position>)
  {
    i <= |was| && known == Still(was[..i], current) + was[i..] && gone == Gone(was[..i], current, deals)
  }

  lemma {:induction false} RemoveStep(was: seq<Position>, i: nat, current: set<int>, deals: map<int, Deal>,
                   known: seq<Position>, gone: seq<Position>)
    requires i < |was| && DistinctTickets(was) && Removing(was, i, current, deals, known, gone)
    ensures if was[i].ticket in current then Removing(was, i + 1, current, deals, known, gone)
            else Removing(was, i + 1, current, deals, Without(known, was[i].ticket), gone + [Ended(was[i], deals)])
  {
    FilterStep(was, i, current, deals);
    if was[i].ticket in current {
      assert was[i..] == [was[i]] + was[i + 1..];
    } else {
      DeleteOne(was, i, current);
    }
  }

  class Tracker {
    const config: Config
    var knownPositions: seq<Position>
    var closedPositions: seq<Position>

    ghost predicate Valid()
      reads this
    {
      DistinctTickets(knownPositions)
    }

    ghost function Snapshot(): State
      reads this
    {
      State(knownPositions, closedPositions)
    }

    constructor (config: Config)
      ensures Valid() && Snapshot() == State([], []) && this.config == config
    {
      this.config := config;
      knownPositions, closedPositions := [], [];
    }

    /** `result` is None when a call to the broker raises out of the update. */
    method Update(poll: Poll) returns (result: Option<seq<Position>>, moves: seq<Move>)
      requires Valid()
      modifies this
      ensures Valid() && Snapshot() == Next(old(Snapshot()), poll)
      ensures result == if Returns(config, poll) then Some(Newly(old(Snapshot()), poll)) else None
      ensures moves == if poll.Snapshot? && config.trailing then Trail(config, poll.polled).moves else []
    {
      if poll.Unavailable? {
        return None, [];
      }
      var ps := Positions(poll.polled);
      var newlyClosed := RemoveClosed(Tickets(ps), poll.deals);
      ghost var kept := knownPositions;
      StillFacts(old(knownPositions), Tickets(ps));
      for i := 0 to |ps|
        invariant knownPositions == PutAll(kept, ps[..i])
        invariant closedPositions == old(closedPositions) + newlyClosed
      {
        assert ps[..i + 1][..i] == ps[..i];
        knownPositions := Put(knownPositions, ps[i]);
      }
      assert ps[..|ps|] == ps;
      PutAllFacts(kept, ps);
      moves := [];
      if config.trailing {
        var raised;
        moves, raised := UpdateTrailingStops(poll.polled);
        if raised {
          return None, moves;
        }
      }
      result := Some(newlyClosed);
    }

    method RemoveClosed(current: set<int>, deals: map<int, Deal>) returns (newlyClosed: seq<Position>)
      requires Valid()
      modifies this
      ensures knownPositions == Still(old(knownPositions), current)
      ensures newlyClosed == Gone(old(knownPositions), current, deals)
      ensures closedPositions == old(closedPositions) + newlyClosed
    {
      var was := knownPositions;
      newlyClosed := [];
      for i := 0 to |was|
        invariant Removing(was, i, current, deals, knownPositions, newlyClosed)
        invariant closedPositions == old(closedPositions) + newlyClosed
      {
        var p := was[i];
        RemoveStep(was, i, current, deals, knownPositions, newlyClosed);
        if p.ticket !in current {
          var ended := Ended(p, deals);
          newlyClosed := newlyClosed + [ended];
          closedPositions := closedPositions + [ended];
          knownPositions := Without(knownPositions, p.ticket);
        }
      }
      assert was[..|was|] == was;
    }

    method UpdateTrailingStops(polled: seq<Polled>) returns (moves: seq<Move>, raised: bool)
      ensures Trailed(moves, raised) == Trail(config, polled)
    {
      moves := [];
      for i := 0 to |polled|
        invariant Trailed(moves, false) == Trail(config, polled[..i])
      {
        assert polled[..i + 1][..i] == polled[..i];
        var p, answer := polled[i].position, polled[i].answer;
        var request: Option<real> := None;
        if p.profit > 0.0 && p.priceOpen != 0.0 && p.priceCurrent != 0.0 {
          var pip := PipSize(polled[i].digits, p.symbol);
          if p.side == Buy {
            var level := p.priceCurrent - Distance(config.trailPips, pip);
            if (p.priceCurrent - p.priceOpen) / pip >= config.activationPips && level > p.stop {
              request := Some(level);
            }
          } else {
            var level := p.priceCurrent + Distance(config.trailPips, pip);
            if (p.priceOpen - p.priceCurrent) / pip >= config.activationPips && (p.stop == 0.0 || level < p.stop) {
              request := Some(level);
            }
          }
          assert request == Request(config, p, pip);
        }
        if request.Some? && answer == Raises {
          RaisedStays(config, polled, i + 1);
          return moves, true;
        }
        if request.Some? && answer == Accepts {
          moves := moves + [Move(p.ticket, request.value)];
        }
      }
      assert polled[..|polled|] == polled;
      raised := false;
    }
  }

  lemma {:induction false} RaisedStays(c: Config, polled: seq<Polled>, n: nat)
    requires n <= |polled| && Trail(c, polled[..n]).raised
    ensures Trail(c, polled) == Trail(c, polled[..n])
    decreases |polled|
  {
    if n == |polled| {
      assert polled[..n] == polled;
    } else {
      assert polled[..|polled| - 1][..n] == polled[..n];
      RaisedStays(c, polled[..|polled| - 1], n);
    }
  }
}
