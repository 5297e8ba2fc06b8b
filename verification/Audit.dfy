/** The tamper-evident audit trail: a chain of hashes over '|'-joined payloads, and its
    PostgreSQL form with a bounded buffer. Details and times are their rendered strings;
    the hash is a parameter about which nothing is assumed. */
module Audit {
  import opened Sequences

  type Hash = string -> string

  datatype Entry = Entry(service: string, action: string, entityType: Option<string>, entityId: Option<string>,
                         details: string, time: string, prevHash: string, hash: string)

  predicate NoBar(s: string) { '|' !in s }

  function Payload(prev: string, service: string, action: string, details: string, time: string): string {
    prev + "|" + service + "|" + action + "|" + details + "|" + time
  }

  function PayloadOf(e: Entry): string { Payload(e.prevHash, e.service, e.action, e.details, e.time) }

  // -------------------------------------------------------------- reading a payload

  /** Everything but the details is free of bars. */
  predicate Readable(prev: string, service: string, action: string, time: string) {
    NoBar(prev) && NoBar(service) && NoBar(action) && NoBar(time)
  }

  /** The joined payload determines all five fields, whatever bars the details contain. */
  lemma {:induction false} PayloadDecodes(p1: string, s1: string, a1: string, d1: string, t1: string,
                                          p2: string, s2: string, a2: string, d2: string, t2: string)
    requires Readable(p1, s1, a1, t1) && Readable(p2, s2, a2, t2)
    requires Payload(p1, s1, a1, d1, t1) == Payload(p2, s2, a2, d2, t2)
    ensures p1 == p2 && s1 == s2 && a1 == a2 && d1 == d2 && t1 == t2
  {
    SplitAtLast(p1 + "|" + s1 + "|" + a1 + "|" + d1, t1, p2 + "|" + s2 + "|" + a2 + "|" + d2, t2, '|');
    var x1, x2 := a1 + "|" + d1, a2 + "|" + d2;
    assert p1 + "|" + (s1 + "|" + x1) == p1 + "|" + s1 + "|" + a1 + "|" + d1;
    assert p2 + "|" + (s2 + "|" + x2) == p2 + "|" + s2 + "|" + a2 + "|" + d2;
    SplitAtFirst(p1, s1 + "|" + x1, p2, s2 + "|" + x2, '|');
    SplitAtFirst(s1, x1, s2, x2, '|');
    SplitAtFirst(a1, d1, a2, d2, '|');
  }

  /** The condition is needed: an entry whose service or action has a bar always shares its
      payload with a different entry. */
  lemma {:induction false} BarIsAmbiguous(prev: string, service: string, action: string, details: string, time: string)
    returns (s: string, a: string, d: string)
    requires !NoBar(service) || !NoBar(action)
    ensures Payload(prev, s, a, d, time) == Payload(prev, service, action, details, time)
    ensures (s, a, d) != (service, action, details)
  {
    if !NoBar(service) {
      var i :| 0 <= i < |service| && service[i] == '|';
      s, a, d := service[..i], service[i + 1..], action + "|" + details;
      assert service == s + "|" + a;
    } else {
      var i :| 0 <= i < |action| && action[i] == '|';
      s, a, d := service, action[..i], action[i + 1..] + "|" + details;
      assert action == a + "|" + action[i + 1..];
    }
    assert s + "|" + a + "|" + d == service + "|" + action + "|" + details;
    Regroup(prev, s, a, d, time);
    Regroup(prev, service, action, details, time);
  }

  lemma Regroup(prev: string, service: string, action: string, details: string, time: string)
    ensures Payload(prev, service, action, details, time)
         == prev + "|" + (service + "|" + action + "|" + details) + "|" + time
  {
  }

  // ----------------------------------------------------------------------- the chain

  const GENESIS: string := "GENESIS"

  function LastHash(es: seq<Entry>): string { if es == [] then GENESIS else es[|es| - 1].hash }

  /** Each entry carries its predecessor's hash and the hash of its own payload. */
  predicate Chain(h: Hash, es: seq<Entry>) {
    forall i :: 0 <= i < |es| ==> es[i].prevHash == LastHash(es[..i]) && es[i].hash == h(PayloadOf(es[i]))
  }

  function NewEntry(h: Hash, service: string, prev: string, action: string, details: string, time: string,
                    entityType: Option<string>, entityId: Option<string>): Entry {
    Entry(service, action, entityType, entityId, details, time, prev, h(Payload(prev, service, action, details, time)))
  }

  lemma {:induction false} ChainGrows(h: Hash, es: seq<Entry>, service: string, action: string, details: string,
                                      time: string, entityType: Option<string>, entityId: Option<string>)
    requires Chain(h, es)
    ensures Chain(h, es + [NewEntry(h, service, LastHash(es), action, details, time, entityType, entityId)])
  {
    var fs := es + [NewEntry(h, service, LastHash(es), action, details, time, entityType, entityId)];
    forall i | 0 <= i < |fs| ensures fs[i].prevHash == LastHash(fs[..i]) && fs[i].hash == h(PayloadOf(fs[i])) {
      assert fs[..i] == es[..i];
      if i == |es| { assert es[..i] == es; }
    }
  }

  ghost predicate ReadableEntries(es: seq<Entry>) {
    forall i :: 0 <= i < |es| ==> Readable(es[i].prevHash, es[i].service, es[i].action, es[i].time)
  }

  /** Equality of the fields the hash covers. */
  predicate SameHashed(e: Entry, f: Entry) {
    && e.service == f.service && e.action == f.action && e.details == f.details && e.time == f.time
    && e.prevHash == f.prevHash && e.hash == f.hash
  }

  ghost predicate SameChain(es: seq<Entry>, fs: seq<Entry>) {
    |es| == |fs| && forall i :: 0 <= i < |es| ==> SameHashed(es[i], fs[i])
  }

  lemma {:induction false} ChainPrefix(h: Hash, es: seq<Entry>, n: nat)
    requires n <= |es| && Chain(h, es)
    ensures Chain(h, es[..n])
  {
    forall i | 0 <= i < n ensures es[..n][i].prevHash == LastHash(es[..n][..i]) {
      assert es[..n][..i] == es[..i];
    }
  }

  /** No payload of the one chain collides with a different payload of the other, and none hashes
      to the mark of an empty chain. */
  ghost predicate NoClash(h: Hash, es: seq<Entry>, fs: seq<Entry>) {
    && (forall i, j :: 0 <= i < |es| && 0 <= j < |fs| && h(PayloadOf(es[i])) == h(PayloadOf(fs[j])) ==>
          PayloadOf(es[i]) == PayloadOf(fs[j]))
    && (forall i :: 0 <= i < |es| ==> h(PayloadOf(es[i])) != GENESIS)
    && (forall j :: 0 <= j < |fs| ==> h(PayloadOf(fs[j])) != GENESIS)
  }

  lemma {:induction false} NoClashPrefix(h: Hash, es: seq<Entry>, fs: seq<Entry>)
    requires NoClash(h, es, fs) && es != [] && fs != []
    ensures NoClash(h, es[..|es| - 1], fs[..|fs| - 1])
  {
  }

  /** The last entries of two chains with one last hash agree, and so do the chains before. */
  lemma {:induction false} PeelLast(h: Hash, es: seq<Entry>, fs: seq<Entry>)
    requires Chain(h, es) && Chain(h, fs) && ReadableEntries(es) && ReadableEntries(fs) && NoClash(h, es, fs)
    requires es != [] && fs != [] && LastHash(es) == LastHash(fs)
    ensures SameHashed(es[|es| - 1], fs[|fs| - 1])
    ensures LastHash(es[..|es| - 1]) == LastHash(fs[..|fs| - 1])
  {
    var e, f := es[|es| - 1], fs[|fs| - 1];
    PayloadDecodes(e.prevHash, e.service, e.action, e.details, e.time,
                   f.prevHash, f.service, f.action, f.details, f.time);
  }

  lemma {:induction false} SameChainGrows(es: seq<Entry>, fs: seq<Entry>)
    requires es != [] && fs != [] && SameChain(es[..|es| - 1], fs[..|fs| - 1])
    requires SameHashed(es[|es| - 1], fs[|fs| - 1])
    ensures SameChain(es, fs)
  {
    var n := |es| - 1;
    forall i | 0 <= i < |es| ensures SameHashed(es[i], fs[i]) {
      if i < n { assert SameHashed(es[..n][i], fs[..n][i]); }
    }
  }

  ghost predicate Twins(h: Hash, es: seq<Entry>, fs: seq<Entry>) {
    && Chain(h, es) && Chain(h, fs) && ReadableEntries(es) && ReadableEntries(fs) && NoClash(h, es, fs)
    && LastHash(es) == LastHash(fs)
  }

  lemma {:induction false} TwinsPeel(h: Hash, es: seq<Entry>, fs: seq<Entry>)
    requires Twins(h, es, fs) && es != [] && fs != []
    ensures SameHashed(es[|es| - 1], fs[|fs| - 1]) && Twins(h, es[..|es| - 1], fs[..|fs| - 1])
  {
    PeelLast(h, es, fs);
    ChainPrefix(h, es, |es| - 1);
    ChainPrefix(h, fs, |fs| - 1);
    ReadablePrefix(es);
    ReadablePrefix(fs);
    NoClashPrefix(h, es, fs);
  }

  lemma {:induction false} TwinsEmpty(h: Hash, es: seq<Entry>, fs: seq<Entry>)
    requires Twins(h, es, fs)
    ensures es == [] <==> fs == []
  {
  }

  lemma {:induction false} SameChains(h: Hash, es: seq<Entry>, fs: seq<Entry>)
    requires Twins(h, es, fs)
    ensures SameChain(es, fs)
    decreases |es|
  {
    TwinsEmpty(h, es, fs);
    if es != [] {
      TwinsPeel(h, es, fs);
      SameChains(h, es[..|es| - 1], fs[..|fs| - 1]);
      SameChainGrows(es, fs);
    }
  }

  lemma {:induction false} ReadablePrefix(es: seq<Entry>)
    requires es != [] && ReadableEntries(es)
    ensures ReadableEntries(es[..|es| - 1])
  {
  }

  /** Two chains with the same last hash are equal in length and in every hashed field, or the
      chains themselves exhibit a collision: an entry of the one and an entry of the other with
      different payloads and one hash, or an entry that hashes to the start mark. */
  lemma {:induction false} LastHashDeterminesChain(h: Hash, es: seq<Entry>, fs: seq<Entry>)
    requires Chain(h, es) && Chain(h, fs) && ReadableEntries(es) && ReadableEntries(fs)
    requires LastHash(es) == LastHash(fs)
    ensures SameChain(es, fs) || !NoClash(h, es, fs)
  {
    if NoClash(h, es, fs) { SameChains(h, es, fs); }
  }

  /** What the chain does not protect: rewriting the entity of any entry leaves a chain
      with the same last hash. */
  lemma {:induction false} EntityUnprotected(h: Hash, es: seq<Entry>, i: nat, t: Option<string>, id: Option<string>)
    requires Chain(h, es) && i < |es|
    ensures var fs := es[i := es[i].(entityType := t, entityId := id)];
      Chain(h, fs) && LastHash(fs) == LastHash(es)
  {
    var fs := es[i := es[i].(entityType := t, entityId := id)];
    forall k | 0 <= k < |fs| ensures fs[k].prevHash == LastHash(fs[..k]) && fs[k].hash == h(PayloadOf(fs[k])) {
      SameLastHash(es, fs, k);
      assert es[k].prevHash == LastHash(es[..k]);
    }
  }

  lemma {:induction false} SameLastHash(es: seq<Entry>, fs: seq<Entry>, k: nat)
    requires k <= |es| == |fs| && forall j :: 0 <= j < |es| ==> es[j].hash == fs[j].hash
    ensures LastHash(fs[..k]) == LastHash(es[..k])
  {
  }

  // ------------------------------------------------------- the buffered PostgreSQL form

  /** `db` holds the rows inserted, in order, `dropped` what the full buffer gave up and
      `logged` every entry made; the last two are history. */
  datatype Store = Store(lastHash: string, buffer: seq<Entry>, db: seq<Entry>,
                         dropped: seq<Entry>, logged: seq<Entry>)

  const EMPTY: Store := Store(GENESIS, [], [], [], [])

  /** A full buffer gives up its oldest entry. */
  function Persisted(capacity: nat, s: Store, e: Entry): Store
    requires capacity >= 1
  {
    if |s.buffer| >= capacity then
      s.(buffer := s.buffer[1..] + [e], dropped := s.dropped + [s.buffer[0]])
    else s.(buffer := s.buffer + [e])
  }

  function Logged(capacity: nat, s: Store, e: Entry): Store
    requires capacity >= 1
  {
    Persisted(capacity, s.(lastHash := e.hash, logged := s.logged + [e]), e)
  }

  /** The entries of a list whose write came out as `wanted`. */
  function Select(es: seq<Entry>, ok: seq<bool>, wanted: bool): seq<Entry>
    requires |es| == |ok|
  {
    if es == [] then [] else
      var n := |es| - 1;
      Select(es[..n], ok[..n], wanted) + (if ok[n] == wanted then [es[n]] else [])
  }

  function Flushed(s: Store, ok: seq<bool>): Store
    requires |ok| == |s.buffer|
  {
    s.(buffer := Select(s.buffer, ok, false), db := s.db + Select(s.buffer, ok, true))
  }

  /** list.remove: the first equal entry goes. */
  function RemoveFirst(es: seq<Entry>, e: Entry): seq<Entry> {
    if es == [] then [] else if es[0] == e then es[1..] else [es[0]] + RemoveFirst(es[1..], e)
  }

  /** log_async with a connection: log, try to write, forget the entry if it was written. */
  function LoggedNow(capacity: nat, s: Store, e: Entry, ok: bool): Store
    requires capacity >= 1
  {
    var s1 := Logged(capacity, s, e);
    if ok then s1.(db := s1.db + [e], buffer := RemoveFirst(s1.buffer, e)) else s1
  }

  datatype Op =
    | Log(action: string, details: string, time: string, entityType: Option<string>, entityId: Option<string>)
    | LogNow(action: string, details: string, time: string, entityType: Option<string>, entityId: Option<string>, ok: bool)
    | Flush(outcomes: nat -> bool)

  function Outcomes(n: nat, outcomes: nat -> bool): (r: seq<bool>)
    ensures |r| == n
  {
    seq(n, (i: nat) => outcomes(i))
  }

  function Step(h: Hash, service: string, capacity: nat, s: Store, op: Op): Store
    requires capacity >= 1
  {
    match op
    case Log(a, d, t, ty, id) => Logged(capacity, s, NewEntry(h, service, s.lastHash, a, d, t, ty, id))
    case LogNow(a, d, t, ty, id, ok) => LoggedNow(capacity, s, NewEntry(h, service, s.lastHash, a, d, t, ty, id), ok)
    case Flush(outcomes) => Flushed(s, Outcomes(|s.buffer|, outcomes))
  }

  function Run(h: Hash, service: string, capacity: nat, ops: seq<Op>): Store
    requires capacity >= 1
  {
    if ops == [] then EMPTY
    else Step(h, service, capacity, Run(h, service, capacity, ops[..|ops| - 1]), ops[|ops| - 1])
  }

  /** es is what fs holds at the positions at, in their order. */
  ghost predicate PickedAt(es: seq<Entry>, fs: seq<Entry>, at: seq<nat>) {
    && |at| == |es|
    && (forall i :: 0 <= i < |at| ==> at[i] < |fs| && es[i] == fs[at[i]])
    && (forall i, j :: 0 <= i < j < |at| ==> at[i] < at[j])
  }

  /** es keeps the order of fs. */
  ghost predicate Subsequence(es: seq<Entry>, fs: seq<Entry>) {
    exists at :: PickedAt(es, fs, at)
  }

  lemma {:induction false} SubsequenceSelf(es: seq<Entry>)
    ensures Subsequence(es, es)
  {
    assert PickedAt(es, es, seq(|es|, (i: nat) => i));
  }

  lemma {:induction false} SubsequenceTrans(es: seq<Entry>, fs: seq<Entry>, gs: seq<Entry>)
    requires Subsequence(es, fs) && Subsequence(fs, gs)
    ensures Subsequence(es, gs)
  {
    var p :| PickedAt(es, fs, p);
    var q :| PickedAt(fs, gs, q);
    assert PickedAt(es, gs, seq(|p|, (i: nat) requires i < |p| && p[i] < |q| => q[p[i]]));
  }

  lemma {:induction false} SubsequenceAppend(es: seq<Entry>, fs: seq<Entry>, e: Entry)
    requires Subsequence(es, fs)
    ensures Subsequence(es + [e], fs + [e]) && Subsequence(es, fs + [e])
  {
    var p :| PickedAt(es, fs, p);
    assert PickedAt(es, fs + [e], p);
    var n: nat := |fs|;
    assert PickedAt(es + [e], fs + [e], p + [n]);
  }

  lemma {:induction false} SubsequenceTail(es: seq<Entry>)
    requires es != []
    ensures Subsequence(es[1..], es)
  {
    assert PickedAt(es[1..], es, seq(|es| - 1, (i: nat) => i + 1));
  }

  lemma {:induction false} SelectKeepsOrder(es: seq<Entry>, ok: seq<bool>, wanted: bool)
    requires |es| == |ok|
    ensures Subsequence(Select(es, ok, wanted), es)
  {
    if es == [] {
      SubsequenceSelf(es);
    } else {
      var n := |es| - 1;
      SelectKeepsOrder(es[..n], ok[..n], wanted);
      var picked := Select(es[..n], ok[..n], wanted);
      SubsequenceAppend(picked, es[..n], es[n]);
      assert es == es[..n] + [es[n]];
      assert Select(es, ok, wanted) == if ok[n] == wanted then picked + [es[n]] else picked;
    }
  }

  lemma {:induction false} RemoveKeepsOrder(es: seq<Entry>, e: Entry)
    ensures Subsequence(RemoveFirst(es, e), es)
  {
    if es == [] {
      SubsequenceSelf(es);
    } else if es[0] == e {
      SubsequenceTail(es);
    } else {
      RemoveKeepsOrder(es[1..], e);
      SubsequenceCons(RemoveFirst(es[1..], e), es[1..], es[0]);
      assert es == [es[0]] + es[1..];
    }
  }

  lemma {:induction false} SubsequenceCons(es: seq<Entry>, fs: seq<Entry>, e: Entry)
    requires Subsequence(es, fs)
    ensures Subsequence([e] + es, [e] + fs)
  {
    var p :| PickedAt(es, fs, p);
    var q: seq<nat> := [0] + seq(|p|, (i: nat) requires i < |p| => p[i] + 1);
    assert PickedAt([e] + es, [e] + fs, q);
  }

  // ------------------------------------------------------------ what every run keeps

  /** Every logged entry is in one place: written, waiting, or given up by the full buffer. */
  ghost predicate Accounted(s: Store) {
    multiset(s.logged) == multiset(s.db) + multiset(s.buffer) + multiset(s.dropped)
  }

  ghost predicate Inv(h: Hash, capacity: nat, s: Store) {
    && Accounted(s)
    && Chain(h, s.logged) && s.lastHash == LastHash(s.logged)
    && |s.buffer| <= capacity
    && Subsequence(s.buffer, s.logged)
  }

  lemma {:induction false} SelectCounts(es: seq<Entry>, ok: seq<bool>)
    requires |es| == |ok|
    ensures multiset(Select(es, ok, true)) + multiset(Select(es, ok, false)) == multiset(es)
  {
    if es != [] {
      var n := |es| - 1;
      SelectCounts(es[..n], ok[..n]);
      assert es == es[..n] + [es[n]];
    }
  }

  lemma {:induction false} RemoveFirstCounts(es: seq<Entry>, e: Entry)
    requires e in es
    ensures multiset(RemoveFirst(es, e)) + multiset{e} == multiset(es)
  {
    assert es == [es[0]] + es[1..];
    if es[0] != e { RemoveFirstCounts(es[1..], e); }
  }

  lemma {:induction false} LoggedAccounted(capacity: nat, s: Store, e: Entry)
    requires capacity >= 1 && Accounted(s)
    ensures Accounted(Logged(capacity, s, e))
  {
    if |s.buffer| >= capacity {
      assert s.buffer == [s.buffer[0]] + s.buffer[1..];
      assert multiset(s.buffer) == multiset{s.buffer[0]} + multiset(s.buffer[1..]);
    }
  }

  lemma {:induction false} LoggedKeepsOrder(capacity: nat, s: Store, e: Entry)
    requires capacity >= 1 && Subsequence(s.buffer, s.logged)
    ensures Subsequence(Logged(capacity, s, e).buffer, s.logged + [e])
  {
    if |s.buffer| >= capacity {
      SubsequenceTail(s.buffer);
      SubsequenceTrans(s.buffer[1..], s.buffer, s.logged);
      SubsequenceAppend(s.buffer[1..], s.logged, e);
    } else {
      SubsequenceAppend(s.buffer, s.logged, e);
    }
  }

  lemma {:induction false} LoggedInv(h: Hash, capacity: nat, s: Store, e: Entry)
    requires capacity >= 1 && Inv(h, capacity, s)
    requires Chain(h, s.logged + [e])
    ensures Inv(h, capacity, Logged(capacity, s, e))
    ensures e in Logged(capacity, s, e).buffer
  {
    LoggedAccounted(capacity, s, e);
    LoggedKeepsOrder(capacity, s, e);
  }

  lemma {:induction false} FlushedInv(h: Hash, capacity: nat, s: Store, ok: seq<bool>)
    requires Inv(h, capacity, s) && |ok| == |s.buffer|
    ensures Inv(h, capacity, Flushed(s, ok))
  {
    var s1 := Flushed(s, ok);
    SelectCounts(s.buffer, ok);
    SelectKeepsOrder(s.buffer, ok, false);
    SubsequenceTrans(s1.buffer, s.buffer, s.logged);
    SubsequenceShorter(s1.buffer, s.buffer);
  }

  lemma {:induction false} SubsequenceShorter(es: seq<Entry>, fs: seq<Entry>)
    requires Subsequence(es, fs)
    ensures |es| <= |fs|
  {
    var p :| PickedAt(es, fs, p);
    Increasing(p, |fs|);
  }

  lemma {:induction false} Increasing(p: seq<nat>, n: nat)
    requires forall i :: 0 <= i < |p| ==> p[i] < n
    requires forall i, j :: 0 <= i < j < |p| ==> p[i] < p[j]
    ensures |p| <= n
  {
    if p != [] { Increasing(p[..|p| - 1], p[|p| - 1]); }
  }

  lemma {:induction false} WrittenNowInv(h: Hash, capacity: nat, s: Store, e: Entry)
    requires Inv(h, capacity, s) && e in s.buffer
    ensures Inv(h, capacity, s.(db := s.db + [e], buffer := RemoveFirst(s.buffer, e)))
  {
    RemoveFirstCounts(s.buffer, e);
    RemoveKeepsOrder(s.buffer, e);
    SubsequenceTrans(RemoveFirst(s.buffer, e), s.buffer, s.logged);
    SubsequenceShorter(RemoveFirst(s.buffer, e), s.buffer);
  }

  /** Over any mix of log, log_async and flush with any write failures: no entry is lost
      or written twice without being counted, the log is one chain, and what waits in the
      bounded buffer keeps the order it was logged in. */
  lemma {:induction false} RunInv(h: Hash, service: string, capacity: nat, ops: seq<Op>)
    requires capacity >= 1
    ensures Inv(h, capacity, Run(h, service, capacity, ops))
  {
    if ops == [] {
      SubsequenceSelf([]);
    } else {
      var s, op := Run(h, service, capacity, ops[..|ops| - 1]), ops[|ops| - 1];
      RunInv(h, service, capacity, ops[..|ops| - 1]);
      match op
      case Log(a, d, t, ty, id) =>
        ChainGrows(h, s.logged, service, a, d, t, ty, id);
        LoggedInv(h, capacity, s, NewEntry(h, service, s.lastHash, a, d, t, ty, id));
      case LogNow(a, d, t, ty, id, ok) =>
        var e := NewEntry(h, service, s.lastHash, a, d, t, ty, id);
        ChainGrows(h, s.logged, service, a, d, t, ty, id);
        LoggedInv(h, capacity, s, e);
        if ok { WrittenNowInv(h, capacity, Logged(capacity, s, e), e); }
      case Flush(outcomes) =>
        FlushedInv(h, capacity, s, Outcomes(|s.buffer|, outcomes));
    }
  }

  predicate PlainOps(ops: seq<Op>) {
    forall i :: 0 <= i < |ops| && !ops[i].Flush? ==> NoBar(ops[i].action) && NoBar(ops[i].time)
  }

  lemma {:induction false} RunReadable(h: Hash, service: string, capacity: nat, ops: seq<Op>)
    requires capacity >= 1 && NoBar(service) && PlainOps(ops) && forall x :: NoBar(h(x))
    ensures ReadableEntries(Run(h, service, capacity, ops).logged)
    ensures NoBar(Run(h, service, capacity, ops).lastHash)
  {
    if ops != [] {
      RunReadable(h, service, capacity, ops[..|ops| - 1]);
      assert ops[|ops| - 1].Flush? || (NoBar(ops[|ops| - 1].action) && NoBar(ops[|ops| - 1].time));
    }
  }

  /** Two trails that end in the same hash logged the same services, actions, details and
      times in the same order, whatever was flushed, lost or dropped on the way, unless the
      entries they logged exhibit a collision. */
  lemma {:induction false} TrailsAgree(h: Hash, service1: string, capacity1: nat, ops1: seq<Op>,
                                       service2: string, capacity2: nat, ops2: seq<Op>)
    requires capacity1 >= 1 && NoBar(service1) && PlainOps(ops1)
    requires capacity2 >= 1 && NoBar(service2) && PlainOps(ops2)
    requires forall x :: NoBar(h(x))
    requires Run(h, service1, capacity1, ops1).lastHash == Run(h, service2, capacity2, ops2).lastHash
    ensures var es, fs := Run(h, service1, capacity1, ops1).logged, Run(h, service2, capacity2, ops2).logged;
            SameChain(es, fs) || !NoClash(h, es, fs)
  {
    RunInv(h, service1, capacity1, ops1);
    RunInv(h, service2, capacity2, ops2);
    RunReadable(h, service1, capacity1, ops1);
    RunReadable(h, service2, capacity2, ops2);
    LastHashDeterminesChain(h, Run(h, service1, capacity1, ops1).logged, Run(h, service2, capacity2, ops2).logged);
  }

  // ---------------------------------------------------------------- what a write's outcome means

  function Trues(ok: seq<bool>): nat
    decreases |ok|
  {
    if ok == [] then 0 else Trues(ok[..|ok| - 1]) + if ok[|ok| - 1] then 1 else 0
  }

  lemma {:induction false} SelectByOutcome(es: seq<Entry>, ok: seq<bool>, wanted: bool)
    requires |es| == |ok|
    ensures (forall i :: 0 <= i < |ok| ==> ok[i] == wanted) ==> Select(es, ok, wanted) == es
    ensures (forall i :: 0 <= i < |ok| ==> ok[i] != wanted) ==> Select(es, ok, wanted) == []
    ensures |Select(es, ok, true)| == Trues(ok)
    decreases |es|
  {
    if es != [] {
      var n := |es| - 1;
      SelectByOutcome(es[..n], ok[..n], wanted);
      assert es == es[..n] + [es[n]];
    }
  }

  /** A flush whose writes all succeed empties the buffer into the database in order, one whose
      writes all fail changes nothing, and the rows added are as many as the successes. */
  lemma {:induction false} FlushByOutcome(s: Store, ok: seq<bool>)
    requires |ok| == |s.buffer|
    ensures (forall i :: 0 <= i < |ok| ==> ok[i]) ==>
              Flushed(s, ok) == s.(buffer := [], db := s.db + s.buffer)
    ensures (forall i :: 0 <= i < |ok| ==> !ok[i]) ==> Flushed(s, ok) == s
    ensures |Flushed(s, ok).db| == |s.db| + Trues(ok)
  {
    SelectByOutcome(s.buffer, ok, true);
    SelectByOutcome(s.buffer, ok, false);
  }

  lemma {:induction false} RemoveOnly(es: seq<Entry>, e: Entry)
    requires e !in es
    ensures RemoveFirst(es + [e], e) == es
  {
    if es != [] {
      assert (es + [e])[1..] == es[1..] + [e];
      RemoveOnly(es[1..], e);
    }
  }

  /** What log_async leaves: after a successful write the entry is a row and the buffer is as
      before, except that a full one has given up its oldest entry on the way; after a failed one
      the entry waits behind the others. */
  lemma {:induction false} LoggedNowByOutcome(capacity: nat, s: Store, e: Entry)
    requires capacity >= 1 && e !in s.buffer && |s.buffer| <= capacity
    ensures var kept := if |s.buffer| == capacity then s.buffer[1..] else s.buffer;
            && LoggedNow(capacity, s, e, true).buffer == kept
            && LoggedNow(capacity, s, e, true).db == s.db + [e]
            && LoggedNow(capacity, s, e, false).buffer == kept + [e]
            && LoggedNow(capacity, s, e, false).db == s.db
  {
    RemoveOnly(if |s.buffer| == capacity then s.buffer[1..] else s.buffer, e);
  }

  /** No write of the operation succeeds. */
  ghost predicate Fails(op: Op) {
    match op
    case Log(_, _, _, _, _) => true
    case LogNow(_, _, _, _, _, ok) => !ok
    case Flush(outcomes) => forall i: nat :: !outcomes(i)
  }

  /** The last n entries, or all of them. */
  function Suffix(es: seq<Entry>, n: nat): seq<Entry> {
    if |es| <= n then es else es[|es| - n..]
  }

  lemma AllFalse(n: nat, outcomes: nat -> bool)
    requires forall i: nat :: !outcomes(i)
    ensures forall i :: 0 <= i < n ==> !Outcomes(n, outcomes)[i]
  {
    forall i: nat | i < n ensures !Outcomes(n, outcomes)[i] {
      assert !outcomes(i);
    }
  }

  /** With a database that takes nothing no row appears, and the buffer is the last entries logged,
      as many as it holds. */
  lemma {:induction false} NothingWrittenBufferIsSuffix(h: Hash, service: string, capacity: nat, ops: seq<Op>)
    requires capacity >= 1 && forall k :: 0 <= k < |ops| ==> Fails(ops[k])
    ensures var s := Run(h, service, capacity, ops); s.db == [] && s.buffer == Suffix(s.logged, capacity)
    decreases |ops|
  {
    if ops != [] {
      var n := |ops| - 1;
      var before, op := ops[..n], ops[n];
      NothingWrittenBufferIsSuffix(h, service, capacity, before);
      var s := Run(h, service, capacity, before);
      if op.Flush? {
        assert Fails(op);
        AllFalse(|s.buffer|, op.outcomes);
        FlushByOutcome(s, Outcomes(|s.buffer|, op.outcomes));
      } else {
        var e := NewEntry(h, service, s.lastHash, op.action, op.details, op.time, op.entityType, op.entityId);
        SuffixGrows(s.logged, capacity, e);
      }
    }
  }

  lemma SuffixGrows(es: seq<Entry>, n: nat, e: Entry)
    requires n >= 1
    ensures var b := Suffix(es, n);
            Suffix(es + [e], n) == if |b| >= n then b[1..] + [e] else b + [e]
  {
  }

  /** The trail as the service holds it. Write outcomes are parameters. */
  class PostgresAuditTrail {
    const h: Hash
    const service: string
    const capacity: nat
    var hasPool: bool
    var lastHash: string
    var buffer: seq<Entry>
    var db: seq<Entry>
    ghost var dropped: seq<Entry>
    ghost var logged: seq<Entry>

    ghost function View(): Store
      reads this
    {
      Store(lastHash, buffer, db, dropped, logged)
    }

    constructor (h: Hash, service: string, capacity: nat)
      ensures this.h == h && this.service == service && this.capacity == capacity && View() == EMPTY && !hasPool
    {
      this.h, this.service, this.capacity := h, service, capacity;
      hasPool, lastHash, buffer, db, dropped, logged := false, GENESIS, [], [], [], [];
    }

    method Log(action: string, details: string, time: string, entityType: Option<string>, entityId: Option<string>)
      returns (entry: Entry)
      requires capacity >= 1
      modifies this
      ensures entry == NewEntry(h, service, old(lastHash), action, details, time, entityType, entityId)
      ensures View() == Logged(capacity, old(View()), entry) && hasPool == old(hasPool)
    {
      var hash := h(Payload(lastHash, service, action, details, time));
      entry := Entry(service, action, entityType, entityId, details, time, lastHash, hash);
      lastHash := hash;
      logged := logged + [entry];
      Persist(entry);
    }

    method Persist(entry: Entry)
      requires capacity >= 1
      modifies this
      ensures View() == Persisted(capacity, old(View()), entry) && hasPool == old(hasPool)
    {
      if |buffer| >= capacity {
        dropped := dropped + [buffer[0]];
        buffer := buffer[1..];
      }
      buffer := buffer + [entry];
    }

    method LogAsync(action: string, details: string, time: string, entityType: Option<string>,
                    entityId: Option<string>, ok: bool)
      returns (entry: Entry)
      requires capacity >= 1
      modifies this
      ensures entry == NewEntry(h, service, old(lastHash), action, details, time, entityType, entityId)
      ensures View() == LoggedNow(capacity, old(View()), entry, hasPool && ok)
    {
      entry := Log(action, details, time, entityType, entityId);
      if hasPool && ok {
        db := db + [entry];
        if entry in buffer {
          buffer := RemoveFirst(buffer, entry);
        } else {
          RemoveAbsent(buffer, entry);
        }
      }
    }

    method Flush(ok: seq<bool>) returns (written: nat)
      requires |ok| == |buffer|
      modifies this
      ensures View() == if old(hasPool) then Flushed(old(View()), ok) else old(View())
      ensures written == if old(hasPool) then Trues(ok) else 0
      ensures written + |buffer| == if old(hasPool) then |old(buffer)| else |buffer|
    {
      if |buffer| == 0 || !hasPool {
        return 0;
      }
      written := 0;
      var remaining := [];
      var i := 0;
      while i < |buffer|
        invariant 0 <= i <= |buffer| && buffer == old(buffer) && View() == old(View()).(db := db)
        invariant remaining == Select(buffer[..i], ok[..i], false)
        invariant db == old(db) + Select(buffer[..i], ok[..i], true)
        invariant written + |remaining| == i && written == Trues(ok[..i])
      {
        assert buffer[..i + 1][..i] == buffer[..i] && ok[..i + 1][..i] == ok[..i];
        if ok[i] {
          db := db + [buffer[i]];
          written := written + 1;
        } else {
          remaining := remaining + [buffer[i]];
        }
        i := i + 1;
      }
      assert buffer[..i] == buffer && ok[..i] == ok;
      buffer := remaining;
    }
  }

  lemma {:induction false} RemoveAbsent(es: seq<Entry>, e: Entry)
    requires e !in es
    ensures RemoveFirst(es, e) == es
  {
    if es != [] { RemoveAbsent(es[1..], e); }
  }
}
