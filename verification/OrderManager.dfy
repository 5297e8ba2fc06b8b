/** The order manager: validation, the duplicate guard, the lot clamp, and whole runs of
    serialized calls against a broker that may refuse, raise or misreport. */
module OrderManager {
  import opened Reals
  import opened Sequences

  /** A missing symbol or target is None; other missing numbers read as zero. */
  datatype Signal = Signal(id: string, symbol: Option<string>, direction: string, lots: real, stopLoss: real,
                           takeProfit: Option<real>, entryPrice: real, timestampMs: Option<int>, limitOrder: bool)

  datatype Info = Unreachable | Unknown | Known(spread: int, volumeMin: real, volumeStep: real)

  datatype Account = Account(balance: real, equity: real, profit: real)

  datatype Reply = Raised | Refused | Done

  /** What clock and broker answer during one call. `positions` is None when the lookup
      raises; `accepted` says whether the broker in fact took the order. */
  datatype World = World(validatedAt: real, positions: Option<nat>, spreadInfo: Info, marginInfo: Info,
                         marginFree: bool, account: Option<Account>, registeredAt: real, orderInfo: Info,
                         reply: Reply, accepted: bool, cleanedAt: real)

  datatype Config = Config(maxLot: real, maxPositions: int, window: real, maxSpread: int, maxAge: real,
                           maxDailyLoss: real, maxDrawdown: real)

  datatype Reason = Duplicate | TooOld | BadDirection | NoLots | NoStop | StopSide | TargetSide
                  | PositionLimit | Spread | Margin | Drawdown | DailyLoss

  datatype Outcome = Rejected(reason: Reason) | Interrupted | Filled | Pending | Declined

  // ------------------------------------------------------------------ lots

  /** Decimal's a // b for b > 0: the quotient cut towards zero. */
  function Truncated(a: real, b: real): int
    requires b > 0.0
  {
    if a >= 0.0 then (a / b).Floor else -((-a) / b).Floor
  }

  function Times(k: int, step: real): real { Product(k as real, step) }

  function Clamp(maxLot: real, lots: real, info: Info): real {
    var target := Min(lots, maxLot);
    if !info.Known? then target
    else
      var stepped := if info.volumeStep > 0.0 then Times(Truncated(target, info.volumeStep), info.volumeStep)
                     else target;
      Max(stepped, info.volumeMin)
  }

  lemma TruncatedBounds(a: real, b: real)
    requires b > 0.0 && a >= 0.0
    ensures Truncated(a, b) >= 0
    ensures Times(Truncated(a, b), b) <= a < Times(Truncated(a, b), b) + b
  {
    var q := a / b;
    assert Product(q, b) == a;
    ProductSign(q, b);
    FloorBounds(q, b, a);
    assert q >= 0.0 && Truncated(a, b) == q.Floor;
  }

  lemma FloorBounds(q: real, b: real, a: real)
    requires b > 0.0 && Product(q, b) == a
    ensures Times(q.Floor, b) <= a < Times(q.Floor, b) + b
  {
    WithinOne(q.Floor as real, q, b);
  }

  lemma WithinOne(r: real, q: real, b: real)
    requires b > 0.0 && r <= q < r + 1.0
    ensures Product(r, b) <= Product(q, b)
    ensures Product(q, b) < Product(r, b) + b
  {
    ProductOrder(r, q, b);
    ProductOrder(q, r + 1.0, b);
    OneMore(r, b);
  }

  lemma OneMore(r: real, b: real)
    ensures Product(r + 1.0, b) == Product(r, b) + b
  {
  }

  lemma TimesAbove(j: int, k: int, b: real)
    requires b > 0.0 && j > k
    ensures Times(j, b) >= Times(k, b) + b
  {
    ProductOrder(k as real + 1.0, j as real, b);
    OneMore(k as real, b);
  }

  lemma TruncatedExact(k: nat, b: real)
    requires b > 0.0
    ensures Times(k, b) >= 0.0 && Truncated(Times(k, b), b) == k
  {
    assert Times(k, b) / b == k as real;
  }

  lemma TruncatedMonotone(a: real, c: real, b: real)
    requires b > 0.0 && 0.0 <= a <= c
    ensures Times(Truncated(a, b), b) <= Times(Truncated(c, b), b)
  {
    TruncatedBounds(a, b);
    TruncatedBounds(c, b);
    TimesOrdered(Truncated(a, b), Truncated(c, b), b, a, c);
  }

  lemma TimesOrdered(j: int, k: int, b: real, a: real, c: real)
    requires b > 0.0 && a <= c && Times(j, b) <= a && c < Times(k, b) + b
    ensures Times(j, b) <= Times(k, b)
  {
    if j > k { TimesAbove(j, k, b); }
    if j < k { TimesAbove(k, j, b); }
  }

  /** The clamped lots are the broker's minimum, or the greatest multiple of the step that the
      request and the maximum allow and that is no smaller. */
  lemma ClampIsBest(maxLot: real, lots: real, info: Info)
    requires maxLot >= 0.0 && lots >= 0.0
    ensures info.Known? && info.volumeStep > 0.0 ==>
              var k := Truncated(Min(lots, maxLot), info.volumeStep);
              && Times(k, info.volumeStep) <= Min(lots, maxLot) < Times(k, info.volumeStep) + info.volumeStep
              && (Clamp(maxLot, lots, info) == info.volumeMin
                  || (Clamp(maxLot, lots, info) == Times(k, info.volumeStep) && Times(k, info.volumeStep) > info.volumeMin))
    ensures info.Known? ==>
              info.volumeMin <= Clamp(maxLot, lots, info) <= Max(Min(lots, maxLot), info.volumeMin)
    ensures !info.Known? ==> Clamp(maxLot, lots, info) == Min(lots, maxLot)
  {
    if info.Known? && info.volumeStep > 0.0 { TruncatedBounds(Min(lots, maxLot), info.volumeStep); }
  }

  /** The maximum is exceeded exactly when the broker's minimum lies above it. */
  lemma ClampExceedsIff(maxLot: real, lots: real, info: Info)
    requires maxLot >= 0.0 && lots >= 0.0
    ensures Clamp(maxLot, lots, info) > maxLot <==> info.Known? && info.volumeMin > maxLot
  {
    ClampIsBest(maxLot, lots, info);
  }

  /** Clamping is done twice, for the margin check and for the order; the second time changes
      nothing. */
  lemma ClampIdempotent(maxLot: real, lots: real, info: Info)
    requires maxLot >= 0.0 && lots >= 0.0
    ensures Clamp(maxLot, Clamp(maxLot, lots, info), info) == Clamp(maxLot, lots, info)
  {
    if info.Known? && info.volumeStep > 0.0 {
      var target, step := Min(lots, maxLot), info.volumeStep;
      TruncatedBounds(target, step);
      var k := Truncated(target, step);
      if Times(k, step) >= info.volumeMin {
        TruncatedExact(k, step);
      } else {
        var again := Min(info.volumeMin, maxLot);
        if again >= 0.0 {
          TruncatedBounds(again, step);
        }
      }
    }
  }

  lemma ClampMonotone(maxLot: real, a: real, b: real, info: Info)
    requires maxLot >= 0.0 && 0.0 <= a <= b
    ensures Clamp(maxLot, a, info) <= Clamp(maxLot, b, info)
  {
    if info.Known? && info.volumeStep > 0.0 {
      TruncatedMonotone(Min(a, maxLot), Min(b, maxLot), info.volumeStep);
    }
  }

  // ------------------------------------------------------------------ validation

  /** The first objection, in the order the code looks for them. */
  function Objection(c: Config, sig: Signal, w: World): Option<Outcome> {
    if sig.timestampMs.Some? && c.maxAge > 0.0
       && w.validatedAt - sig.timestampMs.value as real / 1000.0 > c.maxAge then Some(Rejected(TooOld))
    else if sig.direction !in {"BUY", "SELL"} then Some(Rejected(BadDirection))
    else if sig.lots <= 0.0 then Some(Rejected(NoLots))
    else if sig.stopLoss <= 0.0 then Some(Rejected(NoStop))
    else if !StopBeyond(sig) then Some(Rejected(StopSide))
    else if !TargetBeyond(sig) then Some(Rejected(TargetSide))
    else if w.positions.None? then Some(Interrupted)
    else if w.positions.value >= c.maxPositions then Some(Rejected(PositionLimit))
    else if w.spreadInfo.Unreachable? then Some(Interrupted)
    else if w.spreadInfo.Known? && w.spreadInfo.spread > c.maxSpread then Some(Rejected(Spread))
    else if w.marginInfo.Unreachable? then Some(Interrupted)
    else if Named(sig) && Clamp(c.maxLot, sig.lots, w.marginInfo) > 0.0 && !w.marginFree then Some(Rejected(Margin))
    else if w.account.None? || w.account.value.balance <= 0.0 then None
    else if DrawdownPct(w.account.value) >= c.maxDrawdown then Some(Rejected(Drawdown))
    else if LossPct(w.account.value) >= c.maxDailyLoss then Some(Rejected(DailyLoss))
    else None
  }

  predicate Named(sig: Signal) { sig.symbol.Some? && sig.symbol.value != "" }

  /** With an entry price, the stop is on the losing side of it. */
  predicate StopBeyond(sig: Signal) {
    sig.entryPrice > 0.0 ==>
      if sig.direction == "BUY" then sig.stopLoss < sig.entryPrice else sig.stopLoss > sig.entryPrice
  }

  predicate TargetBeyond(sig: Signal) {
    sig.entryPrice > 0.0 && sig.takeProfit.Some? && sig.takeProfit.value > 0.0 ==>
      if sig.direction == "BUY" then sig.takeProfit.value > sig.entryPrice else sig.takeProfit.value < sig.entryPrice
  }

  function DrawdownPct(a: Account): real
    requires a.balance > 0.0
  {
    (a.balance - a.equity) / a.balance * 100.0
  }

  function LossPct(a: Account): real
    requires a.balance > 0.0
  {
    if a.profit < 0.0 then a.profit / a.balance * -100.0 else 0.0
  }

  // ------------------------------------------------------------------ one call

  function Pruned(recent: map<string, real>, now: real, window: real): map<string, real> {
    map id | id in recent && now - recent[id] <= window :: recent[id]
  }

  /** `sent` holds the lots handed to the broker; a signal can be registered and still stop
      before that. */
  datatype Turn = Turn(recent: map<string, real>, outcome: Outcome, registered: bool, sent: Option<real>, cleaned: bool)

  function Execute(c: Config, recent: map<string, real>, sig: Signal, w: World): Turn {
    if sig.id in recent then Turn(recent, Rejected(Duplicate), false, None, false)
    else
      var objection := Objection(c, sig, w);
      if objection.Some? then Turn(recent, objection.value, false, None, false)
      else
        var kept := recent[sig.id := w.registeredAt];
        if sig.symbol.None? || w.orderInfo.Unreachable? || sig.takeProfit.None? then
          Turn(kept, Interrupted, true, None, false)
        else
          var lots := Some(Clamp(c.maxLot, sig.lots, w.orderInfo));
          if w.reply == Raised then Turn(kept, Interrupted, true, lots, false)
          else
            var outcome := if w.reply == Refused then Declined else if sig.limitOrder then Pending else Filled;
            Turn(Pruned(kept, w.cleanedAt, c.window), outcome, true, lots, true)
  }

  /** What a call does to the table, by cases. */
  lemma TurnCases(c: Config, recent: map<string, real>, sig: Signal, w: World)
    ensures var t, kept := Execute(c, recent, sig, w), recent[sig.id := w.registeredAt];
            && (t.outcome == Rejected(Duplicate) <==> sig.id in recent)
            && (t.registered ==> sig.id !in recent)
            && (t.cleaned ==> t.registered)
            && t.recent == if !t.registered then recent else if t.cleaned then Pruned(kept, w.cleanedAt, c.window) else kept
  {
  }

  /** The rules a signal has to meet, stated without the order of the checks. */
  predicate Permitted(c: Config, sig: Signal, w: World) {
    && (sig.timestampMs.Some? && c.maxAge > 0.0 ==> w.validatedAt <= sig.timestampMs.value as real / 1000.0 + c.maxAge)
    && sig.direction in {"BUY", "SELL"} && sig.lots > 0.0 && sig.stopLoss > 0.0
    && (sig.entryPrice > 0.0 ==> OnLosingSide(sig, sig.stopLoss))
    && (sig.entryPrice > 0.0 && sig.takeProfit.Some? && sig.takeProfit.value > 0.0 ==>
          sig.takeProfit.value != sig.entryPrice && !OnLosingSide(sig, sig.takeProfit.value))
    && w.positions.Some? && w.positions.value < c.maxPositions
    && !w.spreadInfo.Unreachable? && (w.spreadInfo.Known? ==> w.spreadInfo.spread <= c.maxSpread)
    && !w.marginInfo.Unreachable?
    && (Named(sig) && Clamp(c.maxLot, sig.lots, w.marginInfo) > 0.0 ==> w.marginFree)
    && (w.account.Some? ==> Healthy(c, w.account.value))
  }

  predicate OnLosingSide(sig: Signal, price: real) {
    if sig.direction == "BUY" then price < sig.entryPrice else price > sig.entryPrice
  }

  /** Drawdown and loss below their limits, multiplied out. */
  predicate Healthy(c: Config, a: Account) {
    a.balance > 0.0 ==>
      && Product(a.balance - a.equity, 100.0) < Product(c.maxDrawdown, a.balance)
      && Product(Max(-a.profit, 0.0), 100.0) < Product(c.maxDailyLoss, a.balance)
  }

  lemma HealthyIff(c: Config, a: Account)
    requires a.balance > 0.0
    ensures Healthy(c, a) <==> DrawdownPct(a) < c.maxDrawdown && LossPct(a) < c.maxDailyLoss
  {
    PercentBelow(a.balance - a.equity, a.balance, c.maxDrawdown);
    PercentBelow(Max(-a.profit, 0.0), a.balance, c.maxDailyLoss);
    NegatedPercent(a.profit, a.balance);
    assert 0.0 / a.balance == 0.0;
  }

  lemma NegatedPercent(x: real, b: real)
    requires b > 0.0
    ensures x / b * -100.0 == (-x) / b * 100.0
  {
    assert (x / b + (-x) / b) * b == 0.0;
    ProductSign(x / b + (-x) / b, b);
  }

  lemma NoObjectionIff(c: Config, sig: Signal, w: World)
    ensures Objection(c, sig, w).None? <==> Permitted(c, sig, w)
  {
    if w.account.Some? && w.account.value.balance > 0.0 { HealthyIff(c, w.account.value); }
  }

  /** The rule a reason names. */
  predicate Breaks(c: Config, recent: map<string, real>, sig: Signal, w: World, r: Reason) {
    match r
    case Duplicate => sig.id in recent
    case TooOld => c.maxAge > 0.0 && sig.timestampMs.Some?
                   && w.validatedAt > sig.timestampMs.value as real / 1000.0 + c.maxAge
    case BadDirection => sig.direction !in {"BUY", "SELL"}
    case NoLots => sig.lots <= 0.0
    case NoStop => sig.stopLoss <= 0.0
    case StopSide => sig.entryPrice > 0.0 && !OnLosingSide(sig, sig.stopLoss)
    case TargetSide => sig.entryPrice > 0.0 && sig.takeProfit.Some? && sig.takeProfit.value > 0.0
                       && (sig.takeProfit.value == sig.entryPrice || OnLosingSide(sig, sig.takeProfit.value))
    case PositionLimit => w.positions.Some? && w.positions.value >= c.maxPositions
    case Spread => w.spreadInfo.Known? && w.spreadInfo.spread > c.maxSpread
    case Margin => Named(sig) && !w.marginFree && Clamp(c.maxLot, sig.lots, w.marginInfo) > 0.0
    case Drawdown => w.account.Some? && w.account.value.balance > 0.0
                     && Product(w.account.value.balance - w.account.value.equity, 100.0)
                        >= Product(c.maxDrawdown, w.account.value.balance)
    case DailyLoss => w.account.Some? && w.account.value.balance > 0.0
                      && Product(Max(-w.account.value.profit, 0.0), 100.0)
                         >= Product(c.maxDailyLoss, w.account.value.balance)
  }

  /** The reason given for a rejection is a rule the signal breaks. */
  lemma ReasonIsTrue(c: Config, recent: map<string, real>, sig: Signal, w: World)
    requires Execute(c, recent, sig, w).outcome.Rejected?
    ensures Breaks(c, recent, sig, w, Execute(c, recent, sig, w).outcome.reason)
  {
    if w.account.Some? && w.account.value.balance > 0.0 {
      var a := w.account.value;
      PercentBelow(a.balance - a.equity, a.balance, c.maxDrawdown);
      PercentBelow(Max(-a.profit, 0.0), a.balance, c.maxDailyLoss);
      NegatedPercent(a.profit, a.balance);
      assert 0.0 / a.balance == 0.0;
    }
  }

  /** An order reaches the broker exactly when its id is not remembered, every rule is met and
      nothing is missing; its lots are then permitted. */
  lemma SentIff(c: Config, recent: map<string, real>, sig: Signal, w: World)
    ensures Execute(c, recent, sig, w).sent.Some? <==>
              && sig.id !in recent && Permitted(c, sig, w)
              && sig.symbol.Some? && sig.takeProfit.Some? && !w.orderInfo.Unreachable?
    ensures Execute(c, recent, sig, w).sent.Some? && c.maxLot >= 0.0 ==>
              var lots := Execute(c, recent, sig, w).sent.value;
              lots <= c.maxLot || (w.orderInfo.Known? && lots == w.orderInfo.volumeMin)
  {
    NoObjectionIff(c, sig, w);
    if c.maxLot >= 0.0 && sig.lots >= 0.0 {
      ClampIsBest(c.maxLot, sig.lots, w.orderInfo);
    }
  }

  /** How many lots an order asks for: as requested up to the maximum, cut to the greatest multiple
      of the step below, and no less than the broker's minimum. */
  lemma SentLotsAreBest(c: Config, recent: map<string, real>, sig: Signal, w: World)
    requires Execute(c, recent, sig, w).sent.Some? && c.maxLot >= 0.0
    ensures var lots, target := Execute(c, recent, sig, w).sent.value, Min(sig.lots, c.maxLot);
            match w.orderInfo
            case Unreachable => false
            case Unknown => lots == target
            case Known(_, least, step) =>
              if step <= 0.0 then lots == Max(target, least)
              else exists k: int :: Times(k, step) <= target < Times(k, step) + step && lots == Max(Times(k, step), least)
  {
    SentIff(c, recent, sig, w);
    ClampIsBest(c.maxLot, sig.lots, w.orderInfo);
    if w.orderInfo.Known? && w.orderInfo.volumeStep > 0.0 {
      var k := Truncated(Min(sig.lots, c.maxLot), w.orderInfo.volumeStep);
      assert Times(k, w.orderInfo.volumeStep) <= Min(sig.lots, c.maxLot);
    }
  }

  /** What the caller is told about an order that was sent, and when it is told a reason instead. */
  lemma OutcomeTells(c: Config, recent: map<string, real>, sig: Signal, w: World)
    ensures var t := Execute(c, recent, sig, w);
            if t.sent.Some? then
              && (t.outcome == Filled <==> w.reply == Done && !sig.limitOrder)
              && (t.outcome == Pending <==> w.reply == Done && sig.limitOrder)
              && (t.outcome == Declined <==> w.reply == Refused)
              && (t.outcome == Interrupted <==> w.reply == Raised)
            else t.outcome.Rejected? || t.outcome == Interrupted
    ensures Execute(c, recent, sig, w).registered <==> sig.id !in recent && Permitted(c, sig, w)
  {
    NoObjectionIff(c, sig, w);
  }

  lemma PercentBelow(x: real, b: real, limit: real)
    requires b > 0.0
    ensures x / b * 100.0 < limit <==> Product(x, 100.0) < Product(limit, b)
  {
    assert x / b * b == x;
    ProductMonotone(x / b * 100.0, limit, b);
    assert x / b * 100.0 * b == x * 100.0;
  }

  // ------------------------------------------------------------------ runs

  datatype Entry = Entry(id: string, at: real)

  /** `open` and `pending` are the broker's true counts. `late` counts pending orders that
      filled on their own, `blind` positions opened by a call that was told too few. */
  datatype State = State(recent: map<string, real>, log: seq<Entry>, cleaned: Option<real>, now: real,
                         open: nat, pending: nat, late: nat, blind: nat)

  datatype Event = Call(sig: Signal, w: World) | PositionCloses | PendingFills | PendingCancelled

  function Initial(open: nat): State { State(map[], [], None, 0.0, open, 0, 0, 0) }

  function Next(c: Config, s: State, e: Event): Option<State> {
    match e
    case PositionCloses => if s.open == 0 then None else Some(s.(open := s.open - 1))
    case PendingCancelled => if s.pending == 0 then None else Some(s.(pending := s.pending - 1))
    case PendingFills =>
      if s.pending == 0 then None
      else Some(s.(pending := s.pending - 1, open := s.open + 1, late := s.late + 1))
    case Call(sig, w) =>
      if !(s.now <= w.validatedAt <= w.registeredAt <= w.cleanedAt) then None
      else
        var t := Execute(c, s.recent, sig, w);
        var market := t.sent.Some? && w.accepted && !sig.limitOrder;
        Some(State(
          t.recent,
          if t.registered then s.log + [Entry(sig.id, w.registeredAt)] else s.log,
          if t.cleaned then Some(w.cleanedAt) else s.cleaned,
          w.cleanedAt,
          if market then s.open + 1 else s.open,
          if t.sent.Some? && w.accepted && sig.limitOrder then s.pending + 1 else s.pending,
          s.late,
          if market && w.positions.value < s.open then s.blind + 1 else s.blind))
  }

  function Run(c: Config, s: State, events: seq<Event>): Option<State>
    decreases |events|
  {
    if events == [] then Some(s)
    else
      var before := Run(c, s, events[..|events| - 1]);
      if before.None? then None else Next(c, before.value, events[|events| - 1])
  }

  // -- the duplicate guard

  /** Every submission is still remembered, or its window had passed at some clean-up. */
  predicate Guarded(c: Config, s: State) {
    && (s.cleaned.Some? ==> s.cleaned.value <= s.now)
    && (forall i :: 0 <= i < |s.log| ==> s.log[i].at <= s.now)
    && (forall i :: 0 <= i < |s.log| ==>
          (s.log[i].id in s.recent && s.recent[s.log[i].id] >= s.log[i].at)
          || (s.cleaned.Some? && s.cleaned.value - s.log[i].at > c.window))
  }

  predicate SpacedApart(c: Config, log: seq<Entry>) {
    forall i, j :: 0 <= i < j < |log| && log[i].id == log[j].id ==> log[j].at - log[i].at > c.window
  }

  lemma StepGuarded(c: Config, s: State, e: Event, s1: State)
    requires Guarded(c, s) && Next(c, s, e) == Some(s1)
    ensures Guarded(c, s1)
  {
    if e.Call? {
      TurnCases(c, s.recent, e.sig, e.w);
      forall i | 0 <= i < |s1.log|
        ensures s1.log[i].at <= s1.now
        ensures (s1.log[i].id in s1.recent && s1.recent[s1.log[i].id] >= s1.log[i].at)
             || (s1.cleaned.Some? && s1.cleaned.value - s1.log[i].at > c.window)
      {
        if i < |s.log| { assert s1.log[i] == s.log[i]; }
      }
    }
  }

  lemma StepSpaced(c: Config, s: State, e: Event, s1: State)
    requires Guarded(c, s) && SpacedApart(c, s.log) && Next(c, s, e) == Some(s1)
    ensures SpacedApart(c, s1.log)
  {
    forall i, j | 0 <= i < j < |s1.log| && s1.log[i].id == s1.log[j].id
      ensures s1.log[j].at - s1.log[i].at > c.window
    {
      assert s1.log[i] == s.log[i];
      if j < |s.log| { assert s1.log[j] == s.log[j]; }
    }
  }

  /** In every run, two submissions of one signal are more than the window apart, whatever the
      broker answers or raises in between. */
  lemma {:induction false} DuplicatesSpaced(c: Config, open: nat, events: seq<Event>, s: State)
    requires Run(c, Initial(open), events) == Some(s)
    ensures Guarded(c, s) && SpacedApart(c, s.log)
    decreases |events|
  {
    if events != [] {
      var before := Run(c, Initial(open), events[..|events| - 1]).value;
      DuplicatesSpaced(c, open, events[..|events| - 1], before);
      StepGuarded(c, before, events[|events| - 1], s);
      StepSpaced(c, before, events[|events| - 1], s);
    }
  }

  function Latest(log: seq<Entry>, id: string): Option<real>
    decreases |log|
  {
    if log == [] then None
    else if log[|log| - 1].id == id then Some(log[|log| - 1].at)
    else Latest(log[..|log| - 1], id)
  }

  lemma LatestStep(log: seq<Entry>, e: Entry, id: string)
    ensures Latest(log + [e], id) == if e.id == id then Some(e.at) else Latest(log, id)
  {
    assert (log + [e])[..|log|] == log;
  }

  /** An id is refused exactly from its latest submission until a clean-up that finds it past
      its window. */
  predicate Blocked(c: Config, s: State, id: string) {
    && Latest(s.log, id).Some?
    && !(s.cleaned.Some? && s.cleaned.value - Latest(s.log, id).value > c.window)
  }

  predicate RemembersId(c: Config, s: State, id: string) {
    && (Latest(s.log, id).Some? ==> Latest(s.log, id).value <= s.now)
    && (s.cleaned.Some? ==> s.cleaned.value <= s.now)
    && (id in s.recent <==> Blocked(c, s, id))
    && (id in s.recent ==> s.recent[id] == Latest(s.log, id).value)
  }

  lemma StepRemembers(c: Config, s: State, e: Event, s1: State, id: string)
    requires c.window >= 0.0 && Next(c, s, e) == Some(s1)
    requires RemembersId(c, s, id)
    ensures RemembersId(c, s1, id)
  {
    if e.Call? {
      LatestStep(s.log, Entry(e.sig.id, e.w.registeredAt), id);
      TurnCases(c, s.recent, e.sig, e.w);
      var t := Execute(c, s.recent, e.sig, e.w);
      if t.registered && e.sig.id == id {
        assert Latest(s1.log, id) == Some(e.w.registeredAt);
      } else {
        assert Latest(s1.log, id) == Latest(s.log, id);
      }
    }
  }

  /** What the table remembers, stated on the log alone. Only a call that comes back from the
      broker cleans up, so an id can stay refused long after its window. */
  lemma {:induction false} RefusedIff(c: Config, open: nat, events: seq<Event>, s: State, id: string)
    requires c.window >= 0.0 && Run(c, Initial(open), events) == Some(s)
    ensures RemembersId(c, s, id)
    ensures forall sig: Signal, w: World {:trigger Execute(c, s.recent, sig, w)} :: sig.id == id ==>
              (Execute(c, s.recent, sig, w).outcome == Rejected(Duplicate) <==> Blocked(c, s, id))
    decreases |events|
  {
    if events != [] {
      var before := Run(c, Initial(open), events[..|events| - 1]).value;
      RefusedIff(c, open, events[..|events| - 1], before, id);
      StepRemembers(c, before, events[|events| - 1], s, id);
    }
    forall sig: Signal, w: World | sig.id == id
      ensures Execute(c, s.recent, sig, w).outcome == Rejected(Duplicate) <==> Blocked(c, s, id)
    {
      TurnCases(c, s.recent, sig, w);
    }
  }

  // -- the position limit

  predicate Bounded(c: Config, open0: nat, s: State) {
    s.open <= (if open0 >= c.maxPositions then open0 else c.maxPositions) + s.late + s.blind
  }

  lemma StepBounded(c: Config, open0: nat, s: State, e: Event, s1: State)
    requires Bounded(c, open0, s) && Next(c, s, e) == Some(s1)
    ensures Bounded(c, open0, s1)
  {
    if e.Call? && Execute(c, s.recent, e.sig, e.w).sent.Some? {
      SentIff(c, s.recent, e.sig, e.w);
    }
  }

  /** Open positions exceed the limit only by pending orders that filled later and by orders
      sent when the broker reported too few positions. */
  lemma {:induction false} PositionsBound(c: Config, open0: nat, events: seq<Event>, s: State)
    requires Run(c, Initial(open0), events) == Some(s)
    ensures Bounded(c, open0, s)
    decreases |events|
  {
    if events != [] {
      var before := Run(c, Initial(open0), events[..|events| - 1]).value;
      PositionsBound(c, open0, events[..|events| - 1], before);
      StepBounded(c, open0, before, events[|events| - 1], s);
    }
  }

  predicate MarketOnly(events: seq<Event>) {
    forall i :: 0 <= i < |events| && events[i].Call? ==> !events[i].sig.limitOrder
  }

  /** The true number of positions was reported to every call. */
  predicate Truthful(c: Config, s: State, events: seq<Event>) {
    forall i :: 0 <= i < |events| && events[i].Call? && Run(c, s, events[..i]).Some? && events[i].w.positions.Some? ==>
      events[i].w.positions.value >= Run(c, s, events[..i]).value.open
  }

  lemma {:induction false} NothingPending(c: Config, open0: nat, events: seq<Event>, s: State)
    requires Run(c, Initial(open0), events) == Some(s)
    requires MarketOnly(events) && Truthful(c, Initial(open0), events)
    ensures s.pending == 0 && s.late == 0 && s.blind == 0
    decreases |events|
  {
    if events != [] {
      var n := |events| - 1;
      var before := Run(c, Initial(open0), events[..n]).value;
      TruthfulPrefix(c, Initial(open0), events);
      NothingPending(c, open0, events[..n], before);
    }
  }

  lemma TruthfulPrefix(c: Config, s: State, events: seq<Event>)
    requires events != [] && Truthful(c, s, events)
    ensures Truthful(c, s, events[..|events| - 1])
  {
    var before := events[..|events| - 1];
    forall i | 0 <= i < |before| && before[i].Call? && Run(c, s, before[..i]).Some? && before[i].w.positions.Some?
      ensures before[i].w.positions.value >= Run(c, s, before[..i]).value.open
    {
      assert before[..i] == events[..i];
    }
  }

  /** With market orders only and true reports the limit holds throughout. */
  lemma LimitKept(c: Config, open0: nat, events: seq<Event>, s: State)
    requires Run(c, Initial(open0), events) == Some(s)
    requires MarketOnly(events) && Truthful(c, Initial(open0), events)
    ensures s.open <= if open0 >= c.maxPositions then open0 else c.maxPositions
  {
    PositionsBound(c, open0, events, s);
    NothingPending(c, open0, events, s);
  }

  /** Open positions and those that pending orders may still open. */
  function Exposure(s: State): nat { s.open + s.pending }

  predicate NoCalls(events: seq<Event>) { forall i :: 0 <= i < |events| ==> !events[i].Call? }

  lemma {:induction false} NoCallsBound(c: Config, s: State, events: seq<Event>)
    requires NoCalls(events) && Run(c, s, events).Some?
    ensures Exposure(Run(c, s, events).value) <= Exposure(s)
    decreases |events|
  {
    if events != [] { NoCallsBound(c, s, events[..|events| - 1]); }
  }

  function Fills(n: nat): (r: seq<Event>)
    ensures |r| == n && NoCalls(r)
  {
    seq(n, _ => PendingFills)
  }

  lemma {:induction false} AllFill(c: Config, s: State, n: nat)
    requires n <= s.pending
    ensures Run(c, s, Fills(n)) == Some(s.(pending := s.pending - n, open := s.open + n, late := s.late + n))
    decreases n
  {
    if n > 0 {
      AllFill(c, s, n - 1);
      assert Fills(n)[..n - 1] == Fills(n - 1);
    }
  }

  /** Whatever happens without further calls stays within the limit exactly when open and pending
      together do. */
  lemma {:induction false} SafeWithoutCallsIff(c: Config, s: State)
    ensures (forall events: seq<Event> :: NoCalls(events) && Run(c, s, events).Some? ==>
               Run(c, s, events).value.open <= c.maxPositions)
       <==> Exposure(s) <= c.maxPositions
  {
    if Exposure(s) <= c.maxPositions {
      forall events: seq<Event> | NoCalls(events) && Run(c, s, events).Some?
        ensures Run(c, s, events).value.open <= c.maxPositions
      {
        NoCallsBound(c, s, events);
      }
    } else {
      AllFill(c, s, s.pending);
    }
  }

  /** The event is a call that sends an order the broker accepts. */
  predicate Accepts(c: Config, s: State, e: Event) {
    e.Call? && e.w.accepted && Execute(c, s.recent, e.sig, e.w).sent.Some?
  }

  lemma {:induction false} PrefixRuns(c: Config, s: State, events: seq<Event>, k: nat)
    requires Run(c, s, events).Some? && k <= |events|
    ensures Run(c, s, events[..k]).Some?
    decreases |events|
  {
    if k == |events| {
      assert events[..k] == events;
    } else {
      PrefixRuns(c, s, events[..|events| - 1], k);
      assert events[..|events| - 1][..k] == events[..k];
    }
  }

  function StateAt(c: Config, s: State, events: seq<Event>, k: nat): State
    requires Run(c, s, events).Some? && k <= |events|
  {
    PrefixRuns(c, s, events, k);
    Run(c, s, events[..k]).value
  }

  lemma StateStep(c: Config, s: State, events: seq<Event>, k: nat)
    requires Run(c, s, events).Some? && k < |events|
    ensures Next(c, StateAt(c, s, events, k), events[k]) == Some(StateAt(c, s, events, k + 1))
  {
    PrefixRuns(c, s, events, k + 1);
    assert events[..k + 1][..k] == events[..k];
  }

  lemma ExposureStep(c: Config, s: State, e: Event, s1: State)
    requires Next(c, s, e) == Some(s1)
    ensures Accepts(c, s, e) ==> Exposure(s1) == Exposure(s) + 1
    ensures !Accepts(c, s, e) ==> Exposure(s1) <= Exposure(s)
  {
  }

  /** A run keeps open and pending within the limit throughout exactly when it starts there and
      every order accepted found fewer than the limit of both together. The code only compares
      the open ones, as the broker reports them. */
  lemma {:induction false} RunSafeIff(c: Config, s: State, events: seq<Event>)
    requires Run(c, s, events).Some?
    ensures (forall k :: 0 <= k <= |events| ==> Exposure(StateAt(c, s, events, k)) <= c.maxPositions)
       <==> Exposure(s) <= c.maxPositions
            && forall k :: 0 <= k < |events| && Accepts(c, StateAt(c, s, events, k), events[k]) ==>
                 Exposure(StateAt(c, s, events, k)) < c.maxPositions
  {
    assert events[..0] == [] && StateAt(c, s, events, 0) == s;
    if forall k :: 0 <= k <= |events| ==> Exposure(StateAt(c, s, events, k)) <= c.maxPositions {
      forall k | 0 <= k < |events| && Accepts(c, StateAt(c, s, events, k), events[k])
        ensures Exposure(StateAt(c, s, events, k)) < c.maxPositions
      {
        StateStep(c, s, events, k);
        ExposureStep(c, StateAt(c, s, events, k), events[k], StateAt(c, s, events, k + 1));
        assert Exposure(StateAt(c, s, events, k + 1)) <= c.maxPositions;
      }
    }
    if Exposure(s) <= c.maxPositions
       && forall k :: 0 <= k < |events| && Accepts(c, StateAt(c, s, events, k), events[k]) ==>
            Exposure(StateAt(c, s, events, k)) < c.maxPositions {
      forall k | 0 <= k <= |events| ensures Exposure(StateAt(c, s, events, k)) <= c.maxPositions {
        StaysSafe(c, s, events, k);
      }
    }
  }

  lemma {:induction false} StaysSafe(c: Config, s: State, events: seq<Event>, n: nat)
    requires Run(c, s, events).Some? && n <= |events| && Exposure(s) <= c.maxPositions
    requires forall k :: 0 <= k < |events| && Accepts(c, StateAt(c, s, events, k), events[k]) ==>
               Exposure(StateAt(c, s, events, k)) < c.maxPositions
    ensures Exposure(StateAt(c, s, events, n)) <= c.maxPositions
    decreases n
  {
    if n == 0 {
      assert events[..0] == [];
    } else {
      StaysSafe(c, s, events, n - 1);
      StateStep(c, s, events, n - 1);
      ExposureStep(c, StateAt(c, s, events, n - 1), events[n - 1], StateAt(c, s, events, n));
    }
  }

  function Id(k: nat): (r: string)
    ensures |r| == k
  {
    seq(k, _ => 'a')
  }

  function Order(id: string, limitOrder: bool): Signal {
    Signal(id, Some("EURUSD"), "BUY", 0.1, 1.0, Some(2.0), 0.0, None, limitOrder)
  }

  function Reported(n: nat): World {
    World(1.0, Some(n), Unknown, Unknown, true, None, 1.0, Unknown, Done, true, 1.0)
  }

  /** n different orders, each on a report of no open positions. */
  function Orders(n: nat, limitOrder: bool): (r: seq<Event>)
    ensures |r| == n
  {
    seq(n, k requires 0 <= k => Call(Order(Id(k), limitOrder), Reported(0)))
  }

  lemma {:induction false} OrdersRun(c: Config, n: nat, limitOrder: bool)
    requires c.maxPositions >= 1
    ensures Run(c, Initial(0), Orders(n, limitOrder)).Some?
    ensures var s := Run(c, Initial(0), Orders(n, limitOrder)).value;
            && s.open == (if limitOrder then 0 else n) && s.pending == (if limitOrder then n else 0)
            && s.now <= 1.0 && forall id :: id in s.recent ==> |id| < n
    decreases n
  {
    if n > 0 {
      OrdersRun(c, n - 1, limitOrder);
      assert Orders(n, limitOrder)[..n - 1] == Orders(n - 1, limitOrder);
      var s := Run(c, Initial(0), Orders(n - 1, limitOrder)).value;
      SentIff(c, s.recent, Order(Id(n - 1), limitOrder), Reported(0));
      TurnCases(c, s.recent, Order(Id(n - 1), limitOrder), Reported(0));
    }
  }

  /** Limit orders are checked when placed and not counted until they fill: under any limit one
      order more than the limit passes on true reports, and all of them may fill. */
  lemma {:induction false} LimitOrdersSlipThrough(c: Config)
    requires c.maxPositions >= 1
    ensures var calls := Orders(c.maxPositions + 1, true);
            && Truthful(c, Initial(0), calls) && Run(c, Initial(0), calls).Some?
            && var s := Run(c, Initial(0), calls).value;
               && Run(c, s, Fills(c.maxPositions + 1)).Some?
               && Run(c, s, Fills(c.maxPositions + 1)).value.open == c.maxPositions + 1
  {
    var n: nat := c.maxPositions + 1;
    OrdersRun(c, n, true);
    AllFill(c, Run(c, Initial(0), Orders(n, true)).value, n);
    forall i | 0 <= i < n ensures Run(c, Initial(0), Orders(n, true)[..i]).Some?
                          ensures Run(c, Initial(0), Orders(n, true)[..i]).value.open == 0 {
      assert Orders(n, true)[..i] == Orders(i, true);
      OrdersRun(c, i, true);
    }
  }

  /** A lookup that fails reads as no positions, and so lets any number of market orders through. */
  lemma {:induction false} MisreportSlipsThrough(c: Config, n: nat)
    requires c.maxPositions >= 1
    ensures MarketOnly(Orders(n, false)) && Run(c, Initial(0), Orders(n, false)).Some?
    ensures Run(c, Initial(0), Orders(n, false)).value.open == n
  {
    OrdersRun(c, n, false);
  }

  // ------------------------------------------------------------------ the manager

  class Manager {
    const config: Config
    var recentSignals: map<string, real>

    constructor (config: Config)
      ensures recentSignals == map[] && this.config == config
    {
      this.config := config;
      recentSignals := map[];
    }

    method ClampLotSize(lots: real, info: Info) returns (r: real)
      ensures r == Clamp(config.maxLot, lots, info)
    {
      r := lots;
      if r > config.maxLot {
        r := config.maxLot;
      }
      if info.Known? {
        if info.volumeStep > 0.0 {
          r := Times(Truncated(r, info.volumeStep), info.volumeStep);
        }
        if r < info.volumeMin {
          r := info.volumeMin;
        }
      }
    }

    /** Deletes the expired entries one by one. */
    method CleanupOldSignals(now: real)
      modifies this
      ensures recentSignals == Pruned(old(recentSignals), now, config.window)
    {
      var expired := set id | id in recentSignals && now - recentSignals[id] > config.window;
      ghost var was := recentSignals;
      while expired != {}
        invariant recentSignals == map id | id in was && (id in expired || now - was[id] <= config.window) :: was[id]
        invariant forall id :: id in expired ==> id in was && now - was[id] > config.window
      {
        var id :| id in expired;
        recentSignals := recentSignals - {id};
        expired := expired - {id};
      }
    }

    method ValidateSignal(sig: Signal, w: World) returns (r: Option<Outcome>)
      ensures r == Objection(config, sig, w)
    {
      if sig.timestampMs.Some? && config.maxAge > 0.0 {
        var age := w.validatedAt - sig.timestampMs.value as real / 1000.0;
        if age > config.maxAge { return Some(Rejected(TooOld)); }
      }
      if sig.direction !in {"BUY", "SELL"} { return Some(Rejected(BadDirection)); }
      if sig.lots <= 0.0 { return Some(Rejected(NoLots)); }
      if sig.stopLoss <= 0.0 { return Some(Rejected(NoStop)); }
      var target := if sig.takeProfit.Some? then sig.takeProfit.value else 0.0;
      if sig.entryPrice > 0.0 {
        if sig.direction == "BUY" {
          if sig.stopLoss >= sig.entryPrice { return Some(Rejected(StopSide)); }
          if target > 0.0 && target <= sig.entryPrice { return Some(Rejected(TargetSide)); }
        } else {
          if sig.stopLoss <= sig.entryPrice { return Some(Rejected(StopSide)); }
          if target > 0.0 && target >= sig.entryPrice { return Some(Rejected(TargetSide)); }
        }
      }
      if w.positions.None? { return Some(Interrupted); }
      if w.positions.value >= config.maxPositions { return Some(Rejected(PositionLimit)); }
      if w.spreadInfo.Unreachable? { return Some(Interrupted); }
      if w.spreadInfo.Known? && w.spreadInfo.spread > config.maxSpread { return Some(Rejected(Spread)); }
      if w.marginInfo.Unreachable? { return Some(Interrupted); }
      var lots := ClampLotSize(sig.lots, w.marginInfo);
      if Named(sig) && lots > 0.0 && !w.marginFree { return Some(Rejected(Margin)); }
      if w.account.Some? && w.account.value.balance > 0.0 {
        var a := w.account.value;
        if DrawdownPct(a) >= config.maxDrawdown { return Some(Rejected(Drawdown)); }
        if LossPct(a) >= config.maxDailyLoss { return Some(Rejected(DailyLoss)); }
      }
      return None;
    }

    method ExecuteSignal(sig: Signal, w: World) returns (outcome: Outcome, sent: Option<real>)
      modifies this
      ensures var t := Execute(config, old(recentSignals), sig, w);
              recentSignals == t.recent && outcome == t.outcome && sent == t.sent
    {
      if sig.id in recentSignals {
        return Rejected(Duplicate), None;
      }
      var objection := ValidateSignal(sig, w);
      if objection.Some? {
        return objection.value, None;
      }
      recentSignals := recentSignals[sig.id := w.registeredAt];
      if sig.symbol.None? || w.orderInfo.Unreachable? {
        return Interrupted, None;
      }
      var lots := ClampLotSize(sig.lots, w.orderInfo);
      if sig.takeProfit.None? {
        return Interrupted, None;
      }
      sent := Some(lots);
      if w.reply == Raised {
        return Interrupted, sent;
      }
      outcome := if w.reply == Refused then Declined else if sig.limitOrder then Pending else Filled;
      CleanupOldSignals(w.cleanedAt);
    }
  }
}
