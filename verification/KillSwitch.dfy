/** The global trading stop: one Redis register, read by every process through a cache
    that lives for `ttl` seconds, on one nondecreasing clock. */
module KillSwitch {
  import opened Sequences

  /** Absent also stands for an empty value; Corrupt is anything that is not JSON. */
  datatype Register = Absent | Payload(active: bool, reason: string) | Corrupt

  /** What one process keeps; it starts blocked and disconnected. */
  datatype Proc = Proc(connected: bool, active: bool, reason: string, ts: real)

  const START: Proc := Proc(false, true, "", 0.0)

  /** How a Redis read ends: well, in an error the code catches, or in one it lets through. */
  datatype Read = ReadOk | ReadCaught | ReadRaised

  datatype Answer = Answer(active: bool, reason: string)

  predicate Blocking(g: Register) { g.Corrupt? || (g.Payload? && g.active) }

  function Observed(g: Register): Answer {
    match g
    case Absent => Answer(false, "")
    case Payload(active, reason) => Answer(active, reason)
    case Corrupt => Answer(true, "Corrupt kill switch data in Redis")
  }

  function Connected(p: Proc, ok: bool, now: real): Proc {
    if ok then p.(connected := true, active := false, ts := now) else p.(connected := false)
  }

  function Activated(p: Proc, g: Register, reason: string, ok: bool, now: real): (Proc, Register) {
    (p.(active := true, reason := reason, ts := now), if p.connected && ok then Payload(true, reason) else g)
  }

  function Deactivated(p: Proc, g: Register, ok: bool, now: real): (Proc, Register) {
    (p.(active := false, reason := "", ts := now), if p.connected && ok then Absent else g)
  }

  /** None: the exception reached the caller. */
  function Asked(ttl: real, p: Proc, g: Register, read: Read, now: real): (Proc, Option<Answer>) {
    if now - p.ts < ttl then (p, Some(Answer(p.active, p.reason)))
    else if !p.connected || read.ReadCaught? then (p.(ts := now), Some(Answer(p.active, p.reason)))
    else if read.ReadRaised? then (p, None)
    else
      var a := Observed(g);
      (p.(active := a.active, reason := a.reason, ts := now), Some(a))
  }

  // ------------------------------------------------------------------ many processes

  type Pid = nat

  datatype System = System(register: Register, procs: map<Pid, Proc>, clock: real)

  /** `ok` is whether the Redis command took effect. Overwrite is any other writer of the key. */
  datatype Event =
    | Connect(now: real, pid: Pid, ok: bool)
    | Activate(now: real, pid: Pid, reason: string, ok: bool)
    | Deactivate(now: real, pid: Pid, ok: bool)
    | Ask(now: real, pid: Pid, read: Read)
    | Overwrite(now: real, value: Register)

  function ProcOf(s: System, pid: Pid): Proc { if pid in s.procs then s.procs[pid] else START }

  function With(s: System, pid: Pid, p: Proc, g: Register, now: real): System {
    System(g, s.procs[pid := p], now)
  }

  function Next(ttl: real, s: System, e: Event): System {
    match e
    case Connect(now, pid, ok) => With(s, pid, Connected(ProcOf(s, pid), ok, now), s.register, now)
    case Activate(now, pid, reason, ok) =>
      var (p, g) := Activated(ProcOf(s, pid), s.register, reason, ok, now); With(s, pid, p, g, now)
    case Deactivate(now, pid, ok) =>
      var (p, g) := Deactivated(ProcOf(s, pid), s.register, ok, now); With(s, pid, p, g, now)
    case Ask(now, pid, read) =>
      With(s, pid, Asked(ttl, ProcOf(s, pid), s.register, read, now).0, s.register, now)
    case Overwrite(now, value) => s.(register := value, clock := now)
  }

  function Run(ttl: real, s: System, es: seq<Event>): System {
    if es == [] then s else Next(ttl, Run(ttl, s, es[..|es| - 1]), es[|es| - 1])
  }

  /** Times go forward. */
  predicate Forward(from: real, es: seq<Event>) {
    && (forall i :: 0 <= i < |es| ==> from <= es[i].now)
    && (forall i, j :: 0 <= i < j < |es| ==> es[i].now <= es[j].now)
  }

  /** The register blocks at the start and after every event. */
  predicate StaysBlocking(ttl: real, s: System, es: seq<Event>) {
    forall k :: 0 <= k <= |es| ==> Blocking(Run(ttl, s, es[..k]).register)
  }

  predicate Sane(s: System) {
    && 0.0 <= s.clock
    && forall pid :: pid in s.procs ==> s.procs[pid].ts <= s.clock
  }

  /** The ways a process keeps or takes up an open cache without having read the register. */
  predicate Excuse(e: Event, q: Pid) {
    match e
    case Connect(_, pid, ok) => pid == q && ok
    case Deactivate(_, pid, ok) => pid == q && !ok
    case Ask(_, pid, read) => pid == q && read.ReadCaught?
    case _ => false
  }

  /** While the register blocks, an open cache of a connected process dates from before, or
      from an excuse. */
  lemma {:induction false} OpenCacheIsOld(ttl: real, s: System, es: seq<Event>, q: Pid)
    requires Sane(s) && Forward(s.clock, es) && StaysBlocking(ttl, s, es)
    ensures var p := ProcOf(Run(ttl, s, es), q);
      p.connected && !p.active ==>
        p.ts <= s.clock || exists i :: 0 <= i < |es| && Excuse(es[i], q) && es[i].now == p.ts
  {
    if es != [] {
      var n := |es| - 1;
      var e, s0 := es[n], Run(ttl, s, es[..n]);
      forall k | 0 <= k <= n ensures Blocking(Run(ttl, s, es[..n][..k]).register) {
        assert es[..n][..k] == es[..k];
      }
      assert es[..|es|] == es;
      OpenCacheIsOld(ttl, s, es[..n], q);
      var p0, p := ProcOf(s0, q), ProcOf(Next(ttl, s0, e), q);
      if p.connected && !p.active && p.ts > s.clock {
        if p.ts == p0.ts && p0.connected && !p0.active {
          var i :| 0 <= i < n && Excuse(es[..n][i], q) && es[..n][i].now == p0.ts;
          assert Excuse(es[i], q) && es[i].now == p.ts;
        } else {
          assert Blocking(s0.register) by { assert es[..n] == es[..n]; }
          assert Excuse(es[n], q) && es[n].now == p.ts;
        }
      }
    }
  }

  /** Propagation: once the register has blocked for a whole TTL, every question of every
      connected process that may read the register is answered "active", unless within the
      last TTL that process connected, failed to delete the key, or failed to read it. */
  lemma {:induction false} Propagation(ttl: real, s: System, es: seq<Event>, q: Pid, now: real)
    requires Sane(s) && Forward(s.clock, es) && StaysBlocking(ttl, s, es)
    requires ProcOf(Run(ttl, s, es), q).connected
    requires s.clock + ttl <= now && forall i :: 0 <= i < |es| ==> es[i].now <= now
    requires forall i :: 0 <= i < |es| && Excuse(es[i], q) ==> es[i].now + ttl <= now
    ensures var s1 := Run(ttl, s, es);
      var a := Asked(ttl, ProcOf(s1, q), s1.register, ReadOk, now).1;
      a.Some? && a.value.active
  {
    OpenCacheIsOld(ttl, s, es, q);
    assert es[..|es|] == es;
  }

  /** The register is open at the start and after every event. */
  predicate StaysOpen(ttl: real, s: System, es: seq<Event>) {
    forall k :: 0 <= k <= |es| ==> !Blocking(Run(ttl, s, es[..k]).register)
  }

  /** The ways a process keeps or takes up a closed cache without having read the register: its own
      activation, which cannot have reached an open register, and a failed read. */
  predicate ClosedExcuse(e: Event, q: Pid) {
    match e
    case Activate(_, pid, _, _) => pid == q
    case Ask(_, pid, read) => pid == q && read.ReadCaught?
    case _ => false
  }

  /** While the register is open, a closed cache of a connected process dates from before, or from
      an excuse. */
  lemma {:induction false} ClosedCacheIsOld(ttl: real, s: System, es: seq<Event>, q: Pid)
    requires Sane(s) && Forward(s.clock, es) && StaysOpen(ttl, s, es)
    ensures var p := ProcOf(Run(ttl, s, es), q);
      p.connected && p.active ==>
        p.ts <= s.clock || exists i :: 0 <= i < |es| && ClosedExcuse(es[i], q) && es[i].now == p.ts
  {
    if es != [] {
      var n := |es| - 1;
      var e, s0 := es[n], Run(ttl, s, es[..n]);
      forall k | 0 <= k <= n ensures !Blocking(Run(ttl, s, es[..n][..k]).register) {
        assert es[..n][..k] == es[..k];
      }
      assert es[..|es|] == es;
      assert !Blocking(s0.register);
      ClosedCacheIsOld(ttl, s, es[..n], q);
      var p0, p := ProcOf(s0, q), ProcOf(Run(ttl, s, es), q);
      if p.connected && p.active {
        if p0 == p && p0.ts > s.clock {
          var i :| 0 <= i < n && ClosedExcuse(es[..n][i], q) && es[..n][i].now == p0.ts;
          assert ClosedExcuse(es[i], q);
        } else if p0 != p {
          assert ClosedExcuse(e, q);
        }
      }
    }
  }

  /** The dual of Propagation: once the register has been open for a whole TTL, every question of a
      connected process that may read it is answered "inactive", unless within the last TTL that
      process activated without reaching the register, or failed to read it. */
  lemma {:induction false} ReleasePropagates(ttl: real, s: System, es: seq<Event>, q: Pid, now: real)
    requires Sane(s) && Forward(s.clock, es) && StaysOpen(ttl, s, es)
    requires ProcOf(Run(ttl, s, es), q).connected
    requires s.clock + ttl <= now && forall i :: 0 <= i < |es| ==> es[i].now <= now
    requires forall i :: 0 <= i < |es| && ClosedExcuse(es[i], q) ==> es[i].now + ttl <= now
    ensures var s1 := Run(ttl, s, es);
      var a := Asked(ttl, ProcOf(s1, q), s1.register, ReadOk, now).1;
      a.Some? && !a.value.active
  {
    ClosedCacheIsOld(ttl, s, es, q);
    assert es[..|es|] == es;
    var p := ProcOf(Run(ttl, s, es), q);
    if p.connected && p.active && p.ts > s.clock {
      var i :| 0 <= i < |es| && ClosedExcuse(es[i], q) && es[i].now == p.ts;
    }
  }

  /** The event is q's own activation or deactivation, at t, and its answer from then on. */
  predicate OwnWord(e: Event, q: Pid, a: Answer) {
    match e
    case Activate(_, pid, reason, _) => pid == q && a == Answer(true, reason)
    case Deactivate(_, pid, _) => pid == q && a == Answer(false, "")
    case _ => false
  }

  lemma {:induction false} OwnWordKept(ttl: real, s: System, e: Event, q: Pid, a: Answer, es: seq<Event>, now: real)
    requires OwnWord(e, q, a)
    requires forall i :: 0 <= i < |es| ==> es[i].now <= now
    requires forall i :: 0 <= i < |es| && OwnedBy(es[i], q) ==> es[i].Ask?
    requires now < e.now + ttl || !ProcOf(s, q).connected
    ensures var p := ProcOf(Run(ttl, Next(ttl, s, e), es), q);
      && p.connected == ProcOf(s, q).connected && Answer(p.active, p.reason) == a
      && (p.connected ==> p.ts == e.now)
  {
    if es != [] {
      OwnWordKept(ttl, s, e, q, a, es[..|es| - 1], now);
      assert es[|es| - 1].now <= now;
      assert OwnedBy(es[|es| - 1], q) ==> es[|es| - 1].Ask?;
    }
  }

  /** A process hears its own word at once, whether or not Redis took it: after deactivating it
      answers "inactive" without a reason, after activating "active" with the reason given, for a
      TTL, and if it is disconnected for ever. */
  lemma {:induction false} OwnWordHolds(ttl: real, s: System, e: Event, q: Pid, a: Answer, es: seq<Event>, read: Read, now: real)
    requires OwnWord(e, q, a)
    requires forall i :: 0 <= i < |es| ==> es[i].now <= now
    requires forall i :: 0 <= i < |es| && OwnedBy(es[i], q) ==> es[i].Ask?
    requires now < e.now + ttl || !ProcOf(s, q).connected
    ensures var s1 := Run(ttl, Next(ttl, s, e), es);
      Asked(ttl, ProcOf(s1, q), s1.register, read, now).1 == Some(a)
  {
    OwnWordKept(ttl, s, e, q, a, es, now);
  }

  /** The others hear the reason: a stale cache that may read a blocking register repeats what the
      register says. */
  lemma ReasonIsHeard(ttl: real, p: Proc, reason: string, now: real)
    requires p.connected && now - p.ts >= ttl
    ensures Asked(ttl, p, Payload(true, reason), ReadOk, now).1 == Some(Answer(true, reason))
  {
  }

  /** The TTL is exact: whatever happens before it has passed, a process that read the
      register just before it was set still lets trading through. */
  lemma StaleForTtl(ttl: real, s: System, q: Pid, other: Pid, reason: string, now: real)
    requires q != other && ProcOf(s, q).connected && ProcOf(s, other).connected && !Blocking(s.register)
    requires s.clock - ProcOf(s, q).ts >= ttl && ttl > 0.0
    requires s.clock <= now < s.clock + ttl
    ensures var s1 := Run(ttl, s, [Ask(s.clock, q, ReadOk), Activate(s.clock, other, reason, true)]);
      && s1.register == Payload(true, reason)
      && (var a := Asked(ttl, ProcOf(s1, q), s1.register, ReadOk, now).1; a.Some? && !a.value.active)
  {
    var e, f := Ask(s.clock, q, ReadOk), Activate(s.clock, other, reason, true);
    assert [e, f][..1] == [e] && [e][..0] == [];
    assert Run(ttl, s, [e]) == Next(ttl, Run(ttl, s, []), e);
    assert Run(ttl, s, [e, f]) == Next(ttl, Run(ttl, s, [e]), f);
  }

  /** Connecting while the switch is on opens it for exactly one TTL. */
  lemma ConnectOpensForTtl(ttl: real, p: Proc, g: Register, connectedAt: real, now: real)
    requires Blocking(g) && connectedAt <= now
    ensures var a := Asked(ttl, Connected(p, true, connectedAt), g, ReadOk, now).1;
      a.Some? && (a.value.active <==> now - connectedAt >= ttl)
  {
  }

  predicate OwnedBy(e: Event, q: Pid) { !e.Overwrite? && e.pid == q }

  /** A disconnected process repeats its cached answer whatever the others and the register
      do, until it connects, activates or deactivates itself. */
  lemma {:induction false} DisconnectedFrozen(ttl: real, s: System, es: seq<Event>, q: Pid, read: Read, now: real)
    requires !ProcOf(s, q).connected
    requires forall i :: 0 <= i < |es| && OwnedBy(es[i], q) ==> es[i].Ask?
    ensures !ProcOf(Run(ttl, s, es), q).connected
    ensures var s1 := Run(ttl, s, es);
      Asked(ttl, ProcOf(s1, q), s1.register, read, now).1
        == Some(Answer(ProcOf(s, q).active, ProcOf(s, q).reason))
  {
    if es != [] {
      DisconnectedFrozen(ttl, s, es[..|es| - 1], q, read, now);
      assert OwnedBy(es[|es| - 1], q) ==> es[|es| - 1].Ask?;
    }
  }

  /** A process none of whose connects succeeded answers "active" until it deactivates. */
  lemma {:induction false} FailClosed(ttl: real, s: System, es: seq<Event>, q: Pid, read: Read, now: real)
    requires q !in s.procs
    requires forall i :: 0 <= i < |es| && OwnedBy(es[i], q) ==>
               !es[i].Deactivate? && (es[i].Connect? ==> !es[i].ok)
    ensures var p := ProcOf(Run(ttl, s, es), q);
      !p.connected && p.active
    ensures var s1 := Run(ttl, s, es);
      var a := Asked(ttl, ProcOf(s1, q), s1.register, read, now).1;
      a.Some? && a.value.active
  {
    if es != [] {
      FailClosed(ttl, s, es[..|es| - 1], q, read, now);
      var e := es[|es| - 1];
      assert OwnedBy(e, q) ==> !e.Deactivate? && (e.Connect? ==> !e.ok);
    }
  }

  /** The switch is meant to fail closed. When Redis goes away at a reconnect it stays
      closed exactly if the cache was closed; a connected open process stays open for ever. */
  lemma {:induction false} LostRedisIff(ttl: real, s: System, q: Pid, at: real, es: seq<Event>, read: Read, now: real)
    requires forall i :: 0 <= i < |es| && OwnedBy(es[i], q) ==> es[i].Ask?
    ensures var s1 := Run(ttl, Next(ttl, s, Connect(at, q, false)), es);
      var a := Asked(ttl, ProcOf(s1, q), s1.register, read, now).1;
      a.Some? && (a.value.active <==> ProcOf(s, q).active)
  {
    DisconnectedFrozen(ttl, Next(ttl, s, Connect(at, q, false)), es, q, read, now);
  }

  /** The cache outlives every read that fails: a connected process whose reads all fail repeats
      its answer, open or not, whatever the register says, for as long as that lasts. */
  lemma {:induction false} FailedReadsFreeze(ttl: real, s: System, es: seq<Event>, q: Pid, now: real)
    requires ProcOf(s, q).connected
    requires forall i :: 0 <= i < |es| && OwnedBy(es[i], q) ==> es[i].Ask? && es[i].read.ReadCaught?
    ensures ProcOf(Run(ttl, s, es), q).connected
    ensures var s1 := Run(ttl, s, es);
      Asked(ttl, ProcOf(s1, q), s1.register, ReadCaught, now).1
        == Some(Answer(ProcOf(s, q).active, ProcOf(s, q).reason))
  {
    if es != [] {
      FailedReadsFreeze(ttl, s, es[..|es| - 1], q, now);
      var e := es[|es| - 1];
      assert OwnedBy(e, q) ==> e.Ask? && e.read.ReadCaught?;
    }
  }

  // ---------------------------------------------------------------- one process's code

  class RedisKey {
    var value: Register

    constructor ()
      ensures value == Absent
    {
      value := Absent;
    }
  }

  class Switch {
    const key: RedisKey
    const ttl: real
    var connected: bool
    var cachedActive: bool
    var cachedReason: string
    var cacheTs: real

    function View(): Proc
      reads this
    {
      Proc(connected, cachedActive, cachedReason, cacheTs)
    }

    constructor (key: RedisKey, ttl: real)
      ensures this.key == key && this.ttl == ttl && View() == START
    {
      this.key, this.ttl := key, ttl;
      connected, cachedActive, cachedReason, cacheTs := false, true, "", 0.0;
    }

    method Connect(ok: bool, now: real)
      modifies this
      ensures View() == Connected(old(View()), ok, now)
    {
      connected := true;
      if ok {
        cachedActive := false;
        cacheTs := now;
      } else {
        connected := false;
      }
    }

    method Activate(reason: string, ok: bool, now: real)
      modifies this, key
      ensures (View(), key.value) == Activated(old(View()), old(key.value), reason, ok, now)
    {
      cachedActive, cachedReason, cacheTs := true, reason, now;
      if connected && ok {
        key.value := Payload(true, reason);
      }
    }

    method Deactivate(ok: bool, now: real)
      modifies this, key
      ensures (View(), key.value) == Deactivated(old(View()), old(key.value), ok, now)
    {
      cachedActive, cachedReason, cacheTs := false, "", now;
      if connected && ok {
        key.value := Absent;
      }
    }

    method IsActive(read: Read, now: real) returns (a: Option<Answer>)
      modifies this
      ensures (View(), a) == Asked(ttl, old(View()), key.value, read, now)
    {
      if now - cacheTs < ttl {
        return Some(Answer(cachedActive, cachedReason));
      }
      if connected {
        match read
        case ReadOk =>
          match key.value {
            case Absent => cachedActive, cachedReason := false, "";
            case Payload(active, reason) => cachedActive, cachedReason := active, reason;
            case Corrupt => cachedActive, cachedReason := true, "Corrupt kill switch data in Redis";
          }
        case ReadCaught =>
        case ReadRaised => return None;
      }
      cacheTs := now;
      a := Some(Answer(cachedActive, cachedReason));
    }

    /** A breached limit stops trading here at once and, if Redis takes it, everywhere. */
    method AutoCheck(dailyLoss: real, maxDailyLoss: real, drawdown: real, maxDrawdown: real, ok: bool, now: real)
      modifies this, key
      ensures dailyLoss >= maxDailyLoss || drawdown >= maxDrawdown ==>
                cachedActive && cacheTs == now && (old(connected) && ok ==> Blocking(key.value))
      ensures dailyLoss < maxDailyLoss && drawdown < maxDrawdown ==>
                View() == old(View()) && key.value == old(key.value)
      ensures connected == old(connected)
    {
      if dailyLoss >= maxDailyLoss {
        Activate("daily loss limit reached", ok, now);
      } else if drawdown >= maxDrawdown {
        Activate("maximum drawdown exceeded", ok, now);
      }
    }
  }
}
