/** The token bucket in its three forms: in memory (Python and Go) and as a Redis
    script. Times are reals on one nondecreasing clock. */
module TokenBucket {
  import opened Sequences
  import opened Reals

  /** What one limiter is run with: capacity and tokens per second. */
  datatype Limits = Limits(max: real, rate: real) {
    predicate Valid() { max >= 1.0 && rate > 0.0 }
  }

  datatype Config = Config(requests: nat, window: nat, burst: nat) {
    /** A zero window or zero requests makes the source divide by zero. */
    predicate Valid() { requests >= 1 && window >= 1 }

    function Max(): nat { requests + burst }

    function Limiter(): (l: Limits)
      requires Valid()
      ensures l.Valid() && l.rate * window as real == requests as real
    {
      Limits(Max() as real, requests as real / window as real)
    }
  }

  /** Python's int() and Redis's conversion of Lua numbers drop the fraction. */
  function Truncate(x: real): int { if x >= 0.0 then x.Floor else -((-x).Floor) }

  predicate Sorted(ts: seq<real>) {
    forall i, j :: 0 <= i < j < |ts| ==> ts[i] <= ts[j]
  }

  // ----------------------------------------------------------- the memory bucket

  datatype Bucket = Bucket(tokens: real, last: real)

  datatype Answer = Answer(allowed: bool, retryAfter: real, remaining: int)

  /** Tokens that flow in during `elapsed` seconds. */
  function Gain(c: Limits, elapsed: real): real { elapsed * c.rate }

  lemma GainNonneg(c: Limits, elapsed: real)
    requires c.Valid() && elapsed >= 0.0
    ensures Gain(c, elapsed) >= 0.0
  {
  }

  lemma GainAdd(c: Limits, x: real, y: real)
    ensures Gain(c, x + y) == Gain(c, x) + Gain(c, y)
  {
  }

  /** Tokens at hand when a check arrives. */
  function Available(c: Limits, b: Option<Bucket>, now: real): real
    requires c.Valid()
  {
    if b.None? then c.max
    else Min(c.max, b.value.tokens + Gain(c, now - b.value.last))
  }

  function CheckOnce(c: Limits, b: Option<Bucket>, now: real): (Bucket, Answer)
    requires c.Valid()
  {
    var tokens := Available(c, b, now);
    if tokens >= 1.0 then
      (Bucket(tokens - 1.0, now), Answer(true, 0.0, Truncate(tokens - 1.0)))
    else
      (Bucket(tokens, now), Answer(false, (1.0 - tokens) / c.rate, Truncate(tokens)))
  }

  function After(c: Limits, b: Option<Bucket>, ts: seq<real>): Option<Bucket>
    requires c.Valid()
    decreases |ts|
  {
    if ts == [] then b else After(c, Some(CheckOnce(c, b, ts[0]).0), ts[1..])
  }

  function Answers(c: Limits, b: Option<Bucket>, ts: seq<real>): (r: seq<Answer>)
    requires c.Valid()
    ensures |r| == |ts|
    decreases |ts|
  {
    if ts == [] then [] else
      var (b1, a) := CheckOnce(c, b, ts[0]);
      [a] + Answers(c, Some(b1), ts[1..])
  }

  function Admitted(answers: seq<Answer>): nat {
    if answers == [] then 0 else (if answers[0].allowed then 1 else 0) + Admitted(answers[1..])
  }

  /** What every bucket that checks up to `now` can have produced looks like. */
  predicate Ready(c: Limits, b: Option<Bucket>, now: real) {
    b.Some? ==> 0.0 <= b.value.tokens <= c.max && b.value.last <= now
  }

  lemma CheckOnceReady(c: Limits, b: Option<Bucket>, now: real)
    requires c.Valid() && Ready(c, b, now)
    ensures 0.0 <= Available(c, b, now) <= c.max
    ensures Ready(c, Some(CheckOnce(c, b, now).0), now)
    ensures b.Some? ==> Available(c, b, now) <= b.value.tokens + Gain(c, now - b.value.last)
  {
    if b.Some? { GainNonneg(c, now - b.value.last); }
  }

  /** Tokens admitted plus tokens left never exceed tokens at hand plus what the clock refilled. */
  lemma {:induction false} Budget(c: Limits, b: Option<Bucket>, ts: seq<real>)
    requires c.Valid() && ts != [] && Sorted(ts) && Ready(c, b, ts[0])
    ensures After(c, b, ts).Some?
    ensures Admitted(Answers(c, b, ts)) as real + After(c, b, ts).value.tokens
         <= Available(c, b, ts[0]) + Gain(c, ts[|ts| - 1] - ts[0])
    decreases |ts|
  {
    CheckOnceReady(c, b, ts[0]);
    var (b1, a) := CheckOnce(c, b, ts[0]);
    var rest := ts[1..];
    assert Answers(c, b, ts)[1..] == Answers(c, Some(b1), rest);
    GainNonneg(c, 0.0);
    if rest != [] {
      CheckOnceReady(c, Some(b1), rest[0]);
      Budget(c, Some(b1), rest);
      GainAdd(c, rest[0] - ts[0], rest[|rest| - 1] - rest[0]);
      assert rest[0] - ts[0] + (rest[|rest| - 1] - rest[0]) == ts[|ts| - 1] - ts[0];
    } else {
      assert Answers(c, Some(b1), rest) == [];
    }
  }

  lemma {:induction false} TokensLeft(c: Limits, b: Option<Bucket>, ts: seq<real>)
    requires c.Valid() && ts != [] && Sorted(ts) && Ready(c, b, ts[0])
    ensures After(c, b, ts).Some? && After(c, b, ts).value.tokens >= 0.0
    decreases |ts|
  {
    CheckOnceReady(c, b, ts[0]);
    if |ts| > 1 { TokensLeft(c, Some(CheckOnce(c, b, ts[0]).0), ts[1..]); }
  }

  lemma {:induction false} AnswersSplit(c: Limits, b: Option<Bucket>, ts: seq<real>, i: nat)
    requires c.Valid() && i <= |ts|
    ensures Answers(c, b, ts)[i..] == Answers(c, After(c, b, ts[..i]), ts[i..])
    decreases |ts|
  {
    if i > 0 {
      var b1 := CheckOnce(c, b, ts[0]).0;
      AnswersSplit(c, Some(b1), ts[1..], i - 1);
      assert ts[..i][1..] == ts[1..][..i - 1];
    }
  }

  lemma {:induction false} AnswersPrefix(c: Limits, b: Option<Bucket>, ts: seq<real>, i: nat)
    requires c.Valid() && i <= |ts|
    ensures Answers(c, b, ts)[..i] == Answers(c, b, ts[..i])
    decreases |ts|
  {
    if i > 0 {
      AnswersPrefix(c, Some(CheckOnce(c, b, ts[0]).0), ts[1..], i - 1);
      assert ts[..i][1..] == ts[1..][..i - 1];
    }
  }

  lemma {:induction false} AfterReady(c: Limits, b: Option<Bucket>, ts: seq<real>, now: real)
    requires c.Valid() && Sorted(ts) && (forall k :: 0 <= k < |ts| ==> ts[k] <= now)
    requires Ready(c, b, if ts == [] then now else ts[0])
    ensures Ready(c, After(c, b, ts), now)
    decreases |ts|
  {
    if ts != [] {
      CheckOnceReady(c, b, ts[0]);
      AfterReady(c, Some(CheckOnce(c, b, ts[0]).0), ts[1..], now);
    }
  }

  /** The rate limit: between any two checks of any run, at most the capacity plus the
      refill of the time between them is admitted. */
  lemma AdmissionBound(c: Limits, ts: seq<real>, i: nat, j: nat)
    requires c.Valid() && Sorted(ts) && i <= j < |ts|
    ensures Admitted(Answers(c, None, ts)[i..j + 1]) as real <= c.max + Gain(c, ts[j] - ts[i])
  {
    var before, window := ts[..i], ts[i..j + 1];
    var b := After(c, None, before);
    AfterReady(c, None, before, ts[i]);
    assert window[0] == ts[i] && window[|window| - 1] == ts[j];
    Budget(c, b, window);
    CheckOnceReady(c, b, ts[i]);
    TokensLeft(c, b, window);
    WindowAnswers(c, ts, i, j);
  }

  lemma WindowAnswers(c: Limits, ts: seq<real>, i: nat, j: nat)
    requires c.Valid() && i <= j < |ts|
    ensures Answers(c, None, ts)[i..j + 1] == Answers(c, After(c, None, ts[..i]), ts[i..j + 1])
  {
    AnswersSplit(c, None, ts, i);
    AnswersPrefix(c, After(c, None, ts[..i]), ts[i..], j + 1 - i);
    assert ts[i..][..j + 1 - i] == ts[i..j + 1];
    assert Answers(c, None, ts)[i..][..j + 1 - i] == Answers(c, None, ts)[i..j + 1];
  }

  function Wait(c: Limits, b: Bucket): real
    requires c.Valid()
  {
    (1.0 - b.tokens) / c.rate
  }

  /** `b` is the bucket after some checks that followed the rejection which left `d`. */
  lemma {:induction false} RefusedUntilFull(c: Limits, d: Bucket, b: Bucket, early: seq<real>, u: real)
    requires c.Valid() && 0.0 <= d.tokens < 1.0
    requires b.tokens == d.tokens + Gain(c, b.last - d.last) && 0.0 <= b.tokens < 1.0
    requires Sorted([b.last] + early + [u])
    requires forall k :: 0 <= k < |early| ==> early[k] < d.last + Wait(c, d)
    ensures forall k :: 0 <= k < |early| ==> !Answers(c, Some(b), early)[k].allowed
    ensures u >= d.last + Wait(c, d) ==> CheckOnce(c, After(c, Some(b), early), u).1.allowed
    decreases |early|
  {
    var all := [b.last] + early + [u];
    if early == [] {
      assert all[0] == b.last && all[1] == u;
      FullAt(c, d, b, u);
    } else {
      var t := early[0];
      assert all[0] == b.last && all[1] == t;
      FullAt(c, d, b, t);
      var b1 := CheckOnce(c, Some(b), t).0;
      assert [b1.last] + early[1..] + [u] == all[1..];
      RefusedUntilFull(c, d, b1, early[1..], u);
    }
  }

  /** The advertised wait is exact: after a rejection at t every check before t plus the
      wait fails, and the first one at or after it succeeds. */
  lemma {:induction false} RetryExact(c: Limits, b: Option<Bucket>, t: real, d: Bucket, a: Answer, early: seq<real>, u: real)
    requires c.Valid() && Ready(c, b, t) && Sorted([t] + early + [u])
    requires CheckOnce(c, b, t) == (d, a) && !a.allowed
    requires forall k :: 0 <= k < |early| ==> early[k] < t + a.retryAfter
    ensures forall k :: 0 <= k < |early| ==> !Answers(c, Some(d), early)[k].allowed
    ensures u >= t + a.retryAfter ==> CheckOnce(c, After(c, Some(d), early), u).1.allowed
  {
    CheckOnceReady(c, b, t);
    assert Gain(c, d.last - d.last) == 0.0;
    assert d.last == t && a.retryAfter == Wait(c, d);
    RefusedUntilFull(c, d, d, early, u);
  }

  lemma FullAt(c: Limits, d: Bucket, b: Bucket, t: real)
    requires c.Valid() && b.tokens == d.tokens + Gain(c, b.last - d.last)
    requires b.last <= t && 0.0 <= b.tokens
    ensures CheckOnce(c, Some(b), t).1.allowed <==> t >= d.last + Wait(c, d)
    ensures t < d.last + Wait(c, d) ==>
      var b1 := CheckOnce(c, Some(b), t).0;
      b1.tokens == d.tokens + Gain(c, t - d.last) && b1.last == t && 0.0 <= b1.tokens < 1.0
  {
    GainNonneg(c, t - b.last);
    GainAdd(c, t - b.last, b.last - d.last);
    assert t - b.last + (b.last - d.last) == t - d.last;
    Threshold(c, t - d.last, 1.0 - d.tokens);
  }

  lemma Threshold(c: Limits, x: real, y: real)
    requires c.Valid()
    ensures Gain(c, x) >= y <==> x >= y / c.rate
  {
    var q := y / c.rate;
    assert q * c.rate == y;
    if x >= q { assert (x - q) * c.rate >= 0.0; } else { assert (q - x) * c.rate > 0.0; }
  }

  // ------------------------------------------------- forgetting idle Go buckets

  /** One client's calls on the Go limiter, with Cleanup runs in between. */
  datatype Op = CheckAt(time: real) | CleanupAt(time: real)

  predicate SortedOps(ops: seq<Op>) {
    forall i, j :: 0 <= i < j < |ops| ==> ops[i].time <= ops[j].time
  }

  function Cleaned(b: Option<Bucket>, maxAge: real, now: real): Option<Bucket> {
    if b.Some? && now - b.value.last > maxAge then None else b
  }

  /** The answers of a run; `cleaning` says whether Cleanup really deletes. */
  function OpAnswers(c: Limits, maxAge: real, cleaning: bool, b: Option<Bucket>, ops: seq<Op>): seq<Answer>
    requires c.Valid()
    decreases |ops|
  {
    if ops == [] then []
    else match ops[0]
      case CheckAt(now) =>
        var (b1, a) := CheckOnce(c, b, now);
        [a] + OpAnswers(c, maxAge, cleaning, Some(b1), ops[1..])
      case CleanupAt(now) =>
        OpAnswers(c, maxAge, cleaning, if cleaning then Cleaned(b, maxAge, now) else b, ops[1..])
  }

  /** A deleted bucket is one that every check from `now` on would find full again. */
  ghost predicate Indistinct(maxAge: real, kept: Option<Bucket>, cleaned: Option<Bucket>, now: real) {
    cleaned == kept || (cleaned.None? && kept.Some? && now - kept.value.last >= maxAge)
  }

  lemma IndistinctCheck(c: Limits, maxAge: real, kept: Option<Bucket>, cleaned: Option<Bucket>, now: real, t: real)
    requires c.Valid() && Gain(c, maxAge) >= c.max && now <= t
    requires Ready(c, kept, now) && Indistinct(maxAge, kept, cleaned, now)
    ensures CheckOnce(c, kept, t) == CheckOnce(c, cleaned, t)
  {
    if cleaned != kept {
      var spare := t - kept.value.last - maxAge;
      GainNonneg(c, spare);
      GainAdd(c, maxAge, spare);
      assert maxAge + spare == t - kept.value.last;
    }
  }

  lemma {:induction false} CleanupInvisible(c: Limits, maxAge: real, kept: Option<Bucket>,
                                            cleaned: Option<Bucket>, now: real, ops: seq<Op>)
    requires c.Valid() && SortedOps(ops) && (ops != [] ==> now <= ops[0].time)
    requires Gain(c, maxAge) >= c.max
    requires Ready(c, kept, now) && Indistinct(maxAge, kept, cleaned, now)
    ensures OpAnswers(c, maxAge, true, cleaned, ops) == OpAnswers(c, maxAge, false, kept, ops)
    decreases |ops|
  {
    if ops != [] {
      var t := ops[0].time;
      match ops[0]
      case CheckAt(_) =>
        CheckOnceReady(c, kept, t);
        IndistinctCheck(c, maxAge, kept, cleaned, now, t);
        var b1 := Some(CheckOnce(c, kept, t).0);
        CleanupInvisible(c, maxAge, b1, b1, t, ops[1..]);
      case CleanupAt(_) =>
        CleanupInvisible(c, maxAge, kept, Cleaned(cleaned, maxAge, t), t, ops[1..]);
    }
  }

  function Repeat<T>(x: T, n: nat): (r: seq<T>)
    ensures |r| == n
  {
    seq(n, _ => x)
  }

  /** n checks at one instant take n tokens. */
  lemma {:induction false} Burst(c: Limits, b: Option<Bucket>, t: real, n: nat)
    requires c.Valid() && n >= 1
    requires b == None || (b.value.last == t && b.value.tokens <= c.max)
    requires (if b == None then c.max else b.value.tokens) >= n as real
    ensures After(c, b, Repeat(t, n))
         == Some(Bucket((if b == None then c.max else b.value.tokens) - n as real, t))
    ensures forall a :: a in Answers(c, b, Repeat(t, n)) ==> a.allowed
    decreases n
  {
    var ts := Repeat(t, n);
    var b1 := CheckOnce(c, b, t).0;
    assert Gain(c, 0.0) == 0.0;
    assert ts[1..] == Repeat(t, n - 1);
    if n > 1 {
      Burst(c, Some(b1), t, n - 1);
    }
  }

  /** A bucket admits at one instant as many checks as it has whole tokens. */
  lemma {:induction false} InstantAdmits(c: Limits, b: Bucket, n: nat)
    requires c.Valid() && 0.0 <= b.tokens <= c.max
    ensures Admitted(Answers(c, Some(b), Repeat(b.last, n))) == (if n <= b.tokens.Floor then n else b.tokens.Floor)
    decreases n
  {
    if n > 0 {
      var (b1, a) := CheckOnce(c, Some(b), b.last);
      assert Gain(c, b.last - b.last) == 0.0;
      assert Available(c, Some(b), b.last) == b.tokens;
      assert Repeat(b.last, n)[1..] == Repeat(b.last, n - 1);
      assert Answers(c, Some(b), Repeat(b.last, n)) == [a] + Answers(c, Some(b1), Repeat(b.last, n - 1));
      InstantAdmits(c, b1, n - 1);
      FloorLess(b.tokens);
    }
  }

  lemma FloorLess(x: real)
    requires x >= 0.0
    ensures x >= 1.0 ==> (x - 1.0).Floor == x.Floor - 1 >= 0
    ensures x < 1.0 ==> x.Floor == 0
  {
  }

  /** What `remaining` tells the caller: how many further checks at the same instant will be
      admitted, after an admission and after a refusal. */
  lemma RemainingIsAdmissible(c: Limits, b: Option<Bucket>, t: real, n: nat)
    requires c.Valid() && Ready(c, b, t)
    ensures var (b1, a) := CheckOnce(c, b, t);
            a.remaining >= 0
            && Admitted(Answers(c, Some(b1), Repeat(t, n))) == if n <= a.remaining then n else a.remaining
  {
    CheckOnceReady(c, b, t);
    InstantAdmits(c, CheckOnce(c, b, t).0, n);
  }

  function Checks(ts: seq<real>): (ops: seq<Op>)
    ensures |ops| == |ts| && forall k :: 0 <= k < |ts| ==> ops[k] == CheckAt(ts[k])
  {
    if ts == [] then [] else [CheckAt(ts[0])] + Checks(ts[1..])
  }

  lemma {:induction false} ChecksThen(c: Limits, maxAge: real, cleaning: bool, b: Option<Bucket>,
                                      ts: seq<real>, ops: seq<Op>)
    requires c.Valid()
    ensures OpAnswers(c, maxAge, cleaning, b, Checks(ts) + ops)
         == Answers(c, b, ts) + OpAnswers(c, maxAge, cleaning, After(c, b, ts), ops)
    decreases |ts|
  {
    if ts == [] {
      assert Checks(ts) + ops == ops;
    } else {
      assert (Checks(ts) + ops)[1..] == Checks(ts[1..]) + ops;
      ChecksThen(c, maxAge, cleaning, Some(CheckOnce(c, b, ts[0]).0), ts[1..], ops);
    }
  }

  /** A drained bucket that is not yet full again answers differently from a new one. */
  lemma DrainedIsSeen(c: Limits, max: nat, late: real)
    requires c.Valid() && c.max == max as real && late >= 0.0 && Gain(c, late) < c.max
    ensures CheckOnce(c, Some(Bucket(0.0, 0.0)), late).1 != CheckOnce(c, None, late).1
  {
    GainNonneg(c, late);
    assert late - 0.0 == late;
    assert Available(c, Some(Bucket(0.0, 0.0)), late) == Gain(c, late);
    assert (c.max - 1.0).Floor == max - 1;
  }

  lemma CleanupThenCheck(c: Limits, maxAge: real, b: Bucket, late: real)
    requires c.Valid() && late - b.last > maxAge
    ensures OpAnswers(c, maxAge, true, Some(b), [CleanupAt(late), CheckAt(late)]) == [CheckOnce(c, None, late).1]
    ensures OpAnswers(c, maxAge, false, Some(b), [CleanupAt(late), CheckAt(late)]) == [CheckOnce(c, Some(b), late).1]
  {
    var check := [CheckAt(late)];
    assert [CleanupAt(late), CheckAt(late)][1..] == check && check[1..] == [];
    assert OpAnswers(c, maxAge, true, None, check) == [CheckOnce(c, None, late).1];
    assert OpAnswers(c, maxAge, false, Some(b), check) == [CheckOnce(c, Some(b), late).1];
  }

  /** A run on which Cleanup shows, when maxAge is too short to refill a bucket. */
  lemma CleanupShows(c: Limits, max: nat, maxAge: real) returns (ops: seq<Op>)
    requires c.Valid() && c.max == max as real && Gain(c, maxAge) < c.max
    ensures SortedOps(ops)
    ensures OpAnswers(c, maxAge, true, None, ops) != OpAnswers(c, maxAge, false, None, ops)
  {
    Threshold(c, maxAge, c.max);
    var age := Max(maxAge, 0.0);
    assert Gain(c, 0.0) == 0.0;
    Threshold(c, age, c.max);
    var late := (age + c.max / c.rate) / 2.0;
    Threshold(c, late, c.max);
    DrainedIsSeen(c, max, late);
    var burst := Repeat(0.0, max);
    Burst(c, None, 0.0, max);
    var b := After(c, None, burst).value;
    assert b == Bucket(0.0, 0.0);
    var tail := [CleanupAt(late), CheckAt(late)];
    CleanupThenCheck(c, maxAge, b, late);
    ChecksThen(c, maxAge, true, None, burst, tail);
    ChecksThen(c, maxAge, false, None, burst, tail);
    ops := Checks(burst) + tail;
    var p, x, y := Answers(c, None, burst), CheckOnce(c, None, late).1, CheckOnce(c, Some(b), late).1;
    assert (p + [x])[|p|] == x && (p + [y])[|p|] == y;
  }

  /** Cleanup never changes an answer, in any run, exactly when maxAge is long enough
      to refill an empty bucket. */
  lemma CleanupInvisibleIff(c: Limits, max: nat, maxAge: real)
    requires c.Valid() && c.max == max as real
    ensures (forall ops: seq<Op> :: SortedOps(ops) ==>
               OpAnswers(c, maxAge, true, None, ops) == OpAnswers(c, maxAge, false, None, ops))
       <==> Gain(c, maxAge) >= c.max
  {
    if Gain(c, maxAge) >= c.max {
      forall ops: seq<Op> | SortedOps(ops)
        ensures OpAnswers(c, maxAge, true, None, ops) == OpAnswers(c, maxAge, false, None, ops)
      {
        CleanupInvisible(c, maxAge, None, None, if ops == [] then 0.0 else ops[0].time, ops);
      }
    } else {
      var ops := CleanupShows(c, max, maxAge);
    }
  }

  // ------------------------------------------------------------- the Redis script

  /** The hash the script keeps under one key; it holds whole tokens. */
  datatype Hash = Hash(tokens: int, last: real)

  /** `admitted` is the branch taken, `wait` the second number of the Lua reply. */
  datatype Reply = Reply(admitted: bool, tokens: int, wait: real)

  function Script(c: Config, h: Option<Hash>, now: real): (Hash, Reply)
    requires c.Valid()
  {
    var stored := if h.None? then c.Max() else h.value.tokens;
    var last := if h.None? then now else h.value.last;
    var refilled := Gain(c.Limiter(), now - last).Floor;
    var tokens := if stored + refilled < c.Max() then stored + refilled else c.Max();
    if tokens >= 1 then (Hash(tokens - 1, now), Reply(true, tokens - 1, 0.0))
    else (Hash(stored, now), Reply(false, tokens, (1 - tokens) as real / c.Limiter().rate))
  }

  /** A call of the script; `expired` says that Redis had dropped the key by then. */
  datatype Poll = Poll(time: real, expired: bool)

  /** EXPIRE keeps a key for two windows after each call. */
  predicate MayExpire(c: Config, h: Option<Hash>, now: real) {
    h.Some? && now - h.value.last >= 2.0 * c.window as real
  }

  function Seen(h: Option<Hash>, p: Poll): Option<Hash> { if p.expired then None else h }

  /** Times go forward and keys only expire when they may. */
  ghost predicate Legal(c: Config, h: Option<Hash>, polls: seq<Poll>)
    requires c.Valid()
    decreases |polls|
  {
    polls == [] ||
    (&& (h.Some? ==> h.value.last <= polls[0].time)
     && (polls[0].expired ==> MayExpire(c, h, polls[0].time))
     && (var (h1, _) := Script(c, Seen(h, polls[0]), polls[0].time); Legal(c, Some(h1), polls[1..])))
  }

  function Replies(c: Config, h: Option<Hash>, polls: seq<Poll>): (r: seq<Reply>)
    requires c.Valid()
    ensures |r| == |polls|
    decreases |polls|
  {
    if polls == [] then [] else
      var (h1, r) := Script(c, Seen(h, polls[0]), polls[0].time);
      [r] + Replies(c, Some(h1), polls[1..])
  }

  function HashAfter(c: Config, h: Option<Hash>, polls: seq<Poll>): Option<Hash>
    requires c.Valid()
    decreases |polls|
  {
    if polls == [] then h
    else HashAfter(c, Some(Script(c, Seen(h, polls[0]), polls[0].time).0), polls[1..])
  }

  function Times(polls: seq<Poll>): seq<real> {
    if polls == [] then [] else [polls[0].time] + Times(polls[1..])
  }

  predicate HashReady(c: Config, h: Option<Hash>) {
    h.Some? ==> 0 <= h.value.tokens <= c.Max()
  }

  /** What the script finds and leaves, in whole tokens. */
  lemma ScriptReady(c: Config, h: Option<Hash>, now: real)
    requires c.Valid() && HashReady(c, h) && (h.Some? ==> h.value.last <= now)
    ensures HashReady(c, Some(Script(c, h, now).0))
    ensures var (h1, r) := Script(c, h, now);
      h1.last == now && (if r.admitted then h1.tokens == r.tokens >= 0 else h1.tokens == r.tokens == 0)
  {
    if h.Some? { GainNonneg(c.Limiter(), now - h.value.last); }
  }

  function Granted(replies: seq<Reply>): nat
    decreases |replies|
  {
    if replies == [] then 0 else (if replies[0].admitted then 1 else 0) + Granted(replies[1..])
  }

  lemma {:induction false} InstantGrants(c: Config, h: Hash, n: nat)
    requires c.Valid() && 0 <= h.tokens <= c.Max()
    ensures Granted(Replies(c, Some(h), Repeat(Poll(h.last, false), n))) == if n <= h.tokens then n else h.tokens
    decreases n
  {
    if n > 0 {
      var polls := Repeat(Poll(h.last, false), n);
      var (h1, r) := Script(c, Seen(Some(h), polls[0]), h.last);
      assert Gain(c.Limiter(), h.last - h.last) == 0.0;
      assert polls[1..] == Repeat(Poll(h.last, false), n - 1);
      assert Replies(c, Some(h), polls) == [r] + Replies(c, Some(h1), polls[1..]);
      InstantGrants(c, h1, n - 1);
    }
  }

  /** The same for the tokens in the script's reply. */
  lemma ScriptRemainingIsAdmissible(c: Config, h: Option<Hash>, now: real, n: nat)
    requires c.Valid() && HashReady(c, h) && (h.Some? ==> h.value.last <= now)
    ensures var (h1, r) := Script(c, h, now);
            r.tokens >= 0
            && Granted(Replies(c, Some(h1), Repeat(Poll(now, false), n))) == if n <= r.tokens then n else r.tokens
  {
    ScriptReady(c, h, now);
    InstantGrants(c, Script(c, h, now).0, n);
  }

  lemma WindowGain(c: Config, elapsed: real)
    requires c.Valid() && elapsed >= 2.0 * c.window as real
    ensures Gain(c.Limiter(), elapsed) >= 2.0 * c.requests as real
    ensures Gain(c.Limiter(), elapsed).Floor >= 2 * c.requests
    ensures Gain(c.Limiter(), 2.0 * c.window as real) == 2.0 * c.requests as real
  {
    var l := c.Limiter();
    GainNonneg(l, elapsed - 2.0 * c.window as real);
    GainAdd(l, 2.0 * c.window as real, elapsed - 2.0 * c.window as real);
  }

  /** Losing the key after two windows never changes what the script answers or stores,
      whatever it held, exactly when the burst does not exceed the requests per window. */
  lemma ExpiryInvisibleIff(c: Config)
    requires c.Valid()
    ensures (forall h: Hash, now: real ::
               HashReady(c, Some(h)) && MayExpire(c, Some(h), now) ==> Script(c, Some(h), now) == Script(c, None, now))
       <==> c.burst <= c.requests
  {
    if c.burst <= c.requests {
      forall h: Hash, now: real | HashReady(c, Some(h)) && MayExpire(c, Some(h), now)
        ensures Script(c, Some(h), now) == Script(c, None, now)
      {
        WindowGain(c, now - h.last);
        assert Gain(c.Limiter(), now - now) == 0.0;
      }
    } else {
      var h, now := Hash(0, 0.0), 2.0 * c.window as real;
      WindowGain(c, now);
      assert HashReady(c, Some(h)) && MayExpire(c, Some(h), now);
      assert Script(c, Some(h), now).1 != Script(c, None, now).1;
    }
  }

  /** Over any run that expires keys only when Redis may, the script replies as if keys
      were kept for ever. */
  lemma {:induction false} ExpiryInvisibleInRuns(c: Config, h: Option<Hash>, polls: seq<Poll>, kept: seq<Poll>)
    requires c.Valid() && c.burst <= c.requests && HashReady(c, h) && Legal(c, h, polls)
    requires |kept| == |polls| && forall k :: 0 <= k < |polls| ==> kept[k] == Poll(polls[k].time, false)
    ensures Replies(c, h, polls) == Replies(c, h, kept)
    decreases |polls|
  {
    if polls != [] {
      var p := polls[0];
      ExpiryInvisibleIff(c);
      if p.expired { assert MayExpire(c, Some(h.value), p.time); }
      assert Script(c, Seen(h, p), p.time) == Script(c, h, p.time);
      ScriptReady(c, h, p.time);
      ExpiryInvisibleInRuns(c, Some(Script(c, h, p.time).0), polls[1..], kept[1..]);
    }
  }

  /** The script's bucket never holds more than the memory bucket checked at the same times. */
  ghost predicate Simulated(c: Config, h: Option<Hash>, b: Option<Bucket>)
    requires c.Valid()
  {
    && (h.None? <==> b.None?)
    && (h.Some? ==> h.value.last == b.value.last
                    && 0.0 <= h.value.tokens as real <= b.value.tokens <= c.Limiter().max)
  }

  lemma SimulatedStep(c: Config, h: Option<Hash>, b: Option<Bucket>, p: Poll)
    requires c.Valid() && Simulated(c, h, b) && (h.Some? ==> h.value.last <= p.time)
    requires p.expired ==> MayExpire(c, h, p.time) && c.burst <= c.requests
    ensures var (h1, r) := Script(c, Seen(h, p), p.time);
      var (b1, a) := CheckOnce(c.Limiter(), b, p.time);
      Simulated(c, Some(h1), Some(b1)) && (r.admitted ==> a.allowed)
  {
    var l := c.Limiter();
    if h.Some? {
      var elapsed := p.time - h.value.last;
      GainNonneg(l, elapsed);
      if p.expired { WindowGain(c, elapsed); }
    }
    assert Gain(l, p.time - p.time) == 0.0;
    ScriptReady(c, Seen(h, p), p.time);
  }

  lemma {:induction false} SimulatedRun(c: Config, h: Option<Hash>, b: Option<Bucket>, polls: seq<Poll>)
    requires c.Valid() && Simulated(c, h, b) && Legal(c, h, polls)
    requires c.burst <= c.requests || forall k :: 0 <= k < |polls| ==> !polls[k].expired
    ensures |Answers(c.Limiter(), b, Times(polls))| == |polls|
    ensures forall k :: 0 <= k < |polls| && Replies(c, h, polls)[k].admitted
              ==> Answers(c.Limiter(), b, Times(polls))[k].allowed
    ensures Simulated(c, HashAfter(c, h, polls), After(c.Limiter(), b, Times(polls)))
    decreases |polls|
  {
    if polls != [] {
      SimulatedStep(c, h, b, polls[0]);
      SimulatedRun(c, Some(Script(c, Seen(h, polls[0]), polls[0].time).0),
                   Some(CheckOnce(c.Limiter(), b, polls[0].time).0), polls[1..]);
      assert Times(polls)[1..] == Times(polls[1..]);
    }
  }

  lemma {:induction false} PollsConcat(c: Config, h: Option<Hash>, xs: seq<Poll>, ys: seq<Poll>)
    requires c.Valid() && Legal(c, h, xs) && Legal(c, HashAfter(c, h, xs), ys)
    ensures Legal(c, h, xs + ys)
    ensures Replies(c, h, xs + ys) == Replies(c, h, xs) + Replies(c, HashAfter(c, h, xs), ys)
  {
    LegalConcat(c, h, xs, ys);
    RepliesConcat(c, h, xs, ys);
  }

  lemma {:induction false} LegalConcat(c: Config, h: Option<Hash>, xs: seq<Poll>, ys: seq<Poll>)
    requires c.Valid() && Legal(c, h, xs) && Legal(c, HashAfter(c, h, xs), ys)
    ensures Legal(c, h, xs + ys)
    decreases |xs|
  {
    if xs == [] {
      assert xs + ys == ys;
    } else {
      var h1 := Some(Script(c, Seen(h, xs[0]), xs[0].time).0);
      assert (xs + ys)[0] == xs[0] && (xs + ys)[1..] == xs[1..] + ys;
      LegalConcat(c, h1, xs[1..], ys);
    }
  }

  lemma {:induction false} RepliesConcat(c: Config, h: Option<Hash>, xs: seq<Poll>, ys: seq<Poll>)
    requires c.Valid()
    ensures Replies(c, h, xs + ys) == Replies(c, h, xs) + Replies(c, HashAfter(c, h, xs), ys)
    decreases |xs|
  {
    if xs == [] {
      assert xs + ys == ys;
    } else {
      var (hash, r) := Script(c, Seen(h, xs[0]), xs[0].time);
      assert (xs + ys)[0] == xs[0] && (xs + ys)[1..] == xs[1..] + ys;
      RepliesConcat(c, Some(hash), xs[1..], ys);
      calc {
        Replies(c, h, xs + ys);
        [r] + Replies(c, Some(hash), xs[1..] + ys);
        [r] + (Replies(c, Some(hash), xs[1..]) + Replies(c, HashAfter(c, h, xs), ys));
        Replies(c, h, xs) + Replies(c, HashAfter(c, h, xs), ys);
      }
    }
  }

  lemma {:induction false} TimesConcat(xs: seq<Poll>, ys: seq<Poll>)
    ensures Times(xs + ys) == Times(xs) + Times(ys)
  {
    if xs == [] {
      assert xs + ys == ys;
    } else {
      assert (xs + ys)[1..] == xs[1..] + ys;
      TimesConcat(xs[1..], ys);
    }
  }

  /** n polls at one instant take n whole tokens. */
  lemma {:induction false} HashBurst(c: Config, h: Option<Hash>, t: real, n: nat)
    requires c.Valid() && HashReady(c, h) && (h.Some? ==> h.value.last == t)
    requires n <= (if h.None? then c.Max() else h.value.tokens)
    ensures var polls := Repeat(Poll(t, false), n);
      && Legal(c, h, polls)
      && (forall k :: 0 <= k < n ==> Replies(c, h, polls)[k].admitted)
      && (n > 0 ==> HashAfter(c, h, polls) == Some(Hash((if h.None? then c.Max() else h.value.tokens) - n, t)))
      && Times(polls) == Repeat(t, n)
    decreases n
  {
    var polls := Repeat(Poll(t, false), n);
    if n > 0 {
      assert Gain(c.Limiter(), t - t) == 0.0;
      ScriptReady(c, h, t);
      assert polls[1..] == Repeat(Poll(t, false), n - 1);
      HashBurst(c, Some(Script(c, h, t).0), t, n - 1);
      assert Repeat(t, n) == [t] + Repeat(t, n - 1);
    }
  }

  /** Drain the bucket, wait two windows, let the key expire and drain the new one. */
  function ForgettingRun(c: Config): seq<Poll> {
    var w := 2.0 * c.window as real;
    Repeat(Poll(0.0, false), c.Max()) + ([Poll(w, true)] + Repeat(Poll(w, false), 2 * c.requests))
  }

  /** The last poll of that run is admitted by the script and refused in memory. */
  lemma ForgettingDefeatsSimulation(c: Config)
    requires c.Valid() && c.burst > c.requests
    ensures var polls := ForgettingRun(c);
      && polls != [] && Legal(c, None, polls) && |Answers(c.Limiter(), None, Times(polls))| == |polls|
      && Replies(c, None, polls)[|polls| - 1].admitted
      && !Answers(c.Limiter(), None, Times(polls))[|polls| - 1].allowed
  {
    var l := c.Limiter();
    var w, n := 2.0 * c.window as real, 2 * c.requests;
    var drain, again := Repeat(Poll(0.0, false), c.Max()), [Poll(w, true)] + Repeat(Poll(w, false), n);
    var polls := ForgettingRun(c);

    HashBurst(c, None, 0.0, c.Max());
    var h := Some(Hash(0, 0.0));
    assert Gain(l, w - w) == 0.0;
    var h1 := Hash(c.Max() - 1, w);
    assert Script(c, None, w) == (h1, Reply(true, c.Max() - 1, 0.0));
    HashBurst(c, Some(h1), w, n);
    assert again[1..] == Repeat(Poll(w, false), n);
    assert Legal(c, h, again);
    assert Replies(c, h, again) == [Script(c, None, w).1] + Replies(c, Some(h1), again[1..]);
    PollsConcat(c, None, drain, again);
    TimesConcat(drain, again);

    Burst(l, None, 0.0, c.Max());
    assert Times(again) == [w] + Repeat(w, n);
    RefusedAfter(c, n);
    AnswersSplit(l, None, Times(polls), c.Max());
    assert Times(polls)[..c.Max()] == Repeat(0.0, c.Max()) && Times(polls)[c.Max()..] == Times(again);
  }

  /** Two windows refill an empty memory bucket with 2 * requests tokens and no more. */
  lemma RefusedAfter(c: Config, n: nat)
    requires c.Valid() && n == 2 * c.requests && n < c.Max()
    ensures var answers := Answers(c.Limiter(), Some(Bucket(0.0, 0.0)), [2.0 * c.window as real] + Repeat(2.0 * c.window as real, n));
      |answers| == n + 1 && !answers[n].allowed
  {
    var l, w := c.Limiter(), 2.0 * c.window as real;
    WindowGain(c, w);
    assert w - 0.0 == w;
    var b1 := Bucket(n as real - 1.0, w);
    assert CheckOnce(l, Some(Bucket(0.0, 0.0)), w).0 == b1;
    var ts := Repeat(w, n);
    var first := Repeat(w, n - 1);
    assert ts == first + [w];
    Burst(l, Some(b1), w, n - 1);
    assert After(l, Some(b1), first) == Some(Bucket(0.0, w));
    AnswersSplit(l, Some(b1), ts, n - 1);
    assert ts[..n - 1] == first && ts[n - 1..] == [w];
    assert Gain(l, w - w) == 0.0;
    assert ([w] + ts)[1..] == ts;
  }

  /** Everything the script admits the memory limiter admits too, in every run,
      exactly when the burst does not exceed the requests per window. */
  lemma SimulationIff(c: Config)
    requires c.Valid()
    ensures (forall polls: seq<Poll>, k: nat :: Legal(c, None, polls) && k < |polls| && Replies(c, None, polls)[k].admitted
               ==> k < |Answers(c.Limiter(), None, Times(polls))| && Answers(c.Limiter(), None, Times(polls))[k].allowed)
       <==> c.burst <= c.requests
  {
    if c.burst <= c.requests {
      forall polls: seq<Poll>, k: nat | Legal(c, None, polls) && k < |polls| && Replies(c, None, polls)[k].admitted
        ensures k < |Answers(c.Limiter(), None, Times(polls))| && Answers(c.Limiter(), None, Times(polls))[k].allowed
      {
        SimulatedRun(c, None, None, polls);
      }
    } else {
      ForgettingDefeatsSimulation(c);
      var polls := ForgettingRun(c);
      assert Replies(c, None, polls)[|polls| - 1].admitted;
    }
  }

  /** The time since the call before, the first one counted from `last`. */
  function Gap(last: real, polls: seq<Poll>, k: nat): real
    requires k < |polls|
  {
    polls[k].time - if k == 0 then last else polls[k - 1].time
  }

  /** An expired key has been left alone for two windows, which refills more than a token. */
  lemma DrainedStep(c: Config, h: Hash, p: Poll)
    requires c.Valid() && h.tokens == 0 && h.last <= p.time && (p.expired ==> MayExpire(c, Some(h), p.time))
    ensures var (h1, r) := Script(c, Seen(Some(h), p), p.time);
      && (r.admitted <==> Gain(c.Limiter(), p.time - h.last) >= 1.0)
      && (!r.admitted ==> h1 == Hash(0, p.time))
  {
    GainNonneg(c.Limiter(), p.time - h.last);
    if p.expired {
      WindowGain(c, p.time - h.last);
      assert Gain(c.Limiter(), p.time - p.time) == 0.0;
    }
  }

  predicate AllRefused(replies: seq<Reply>) {
    forall k :: 0 <= k < |replies| ==> !replies[k].admitted
  }

  /** Every gap refills less than one token. */
  predicate AllShort(c: Config, last: real, polls: seq<Poll>)
    requires c.Valid()
  {
    forall k :: 0 <= k < |polls| ==> Gain(c.Limiter(), Gap(last, polls, k)) < 1.0
  }

  lemma AllRefusedCons(r: Reply, rest: seq<Reply>)
    ensures AllRefused([r] + rest) <==> !r.admitted && AllRefused(rest)
  {
    var all := [r] + rest;
    assert all[0] == r;
    if AllRefused(all) {
      forall k | 0 <= k < |rest| ensures !rest[k].admitted { assert rest[k] == all[k + 1]; }
    }
  }

  lemma {:induction false} AllShortCons(c: Config, last: real, polls: seq<Poll>)
    requires c.Valid() && polls != []
    ensures AllShort(c, last, polls)
       <==> Gain(c.Limiter(), polls[0].time - last) < 1.0 && AllShort(c, polls[0].time, polls[1..])
  {
    var rest, here := polls[1..], polls[0].time;
    assert Gap(last, polls, 0) == here - last;
    if AllShort(c, last, polls) {
      forall k | 0 <= k < |rest| ensures Gain(c.Limiter(), Gap(here, rest, k)) < 1.0 {
        assert Gap(here, rest, k) == Gap(last, polls, k + 1);
      }
    }
    if Gain(c.Limiter(), here - last) < 1.0 && AllShort(c, here, rest) {
      forall k | 0 <= k < |polls| ensures Gain(c.Limiter(), Gap(last, polls, k)) < 1.0 {
        if k > 0 { assert Gap(last, polls, k) == Gap(here, rest, k - 1); }
      }
    }
  }

  /** The converse fails badly. A drained script bucket refuses every call of a run exactly
      when every gap refills less than one token, since each call drops the fraction it
      refilled: polled faster than one token period it refuses for ever. */
  lemma {:induction false} StarvedIff(c: Config, h: Hash, polls: seq<Poll>)
    requires c.Valid() && h.tokens == 0 && Legal(c, Some(h), polls)
    ensures AllRefused(Replies(c, Some(h), polls)) <==> AllShort(c, h.last, polls)
    decreases |polls|
  {
    if polls != [] {
      var p, rest := polls[0], polls[1..];
      DrainedStep(c, h, p);
      var (h1, r) := Script(c, Seen(Some(h), p), p.time);
      AllRefusedCons(r, Replies(c, Some(h1), rest));
      AllShortCons(c, h.last, polls);
      if !r.admitted { StarvedIff(c, h1, rest); }
    }
  }

  /** What a refusal advertises once Redis has dropped the fraction of the wait. */
  lemma RefusalAdvertises(c: Config, h: Hash, now: real)
    requires c.Valid() && HashReady(c, Some(h)) && h.last <= now && !Script(c, Some(h), now).1.admitted
    ensures Truncate(Script(c, Some(h), now).1.wait) == c.window / c.requests
  {
    ScriptReady(c, Some(h), now);
    WaitInWholeSeconds(c);
  }

  lemma WaitInWholeSeconds(c: Config)
    requires c.Valid()
    ensures Truncate(1.0 / c.Limiter().rate) == c.window / c.requests
  {
    var q, rate, r, w := 1.0 / c.Limiter().rate, c.Limiter().rate, c.requests as real, c.window as real;
    assert q * rate == 1.0;
    assert q * r == w by { assert q * (rate * w) == q * rate * w; }
    FloorOfQuotient(q, c.window, c.requests);
  }

  lemma FloorOfQuotient(q: real, a: nat, b: nat)
    requires b >= 1 && q * b as real == a as real
    ensures Truncate(q) == a / b
  {
    var k, r := a / b, b as real;
    WholePart(a, b);
    WholeProduct(k, b);
    WholeProduct(k + 1, b);
    assert Product(q, r) == a as real;
    BetweenProducts(k as real, q, (k + 1) as real, r);
  }

  lemma WholeProduct(k: nat, b: nat)
    ensures (k * b) as real == Product(k as real, b as real)
  {
  }

  lemma BetweenProducts(lo: real, q: real, hi: real, r: real)
    requires r > 0.0 && Product(lo, r) <= Product(q, r) < Product(hi, r)
    ensures lo <= q < hi
  {
    ProductOrder(lo, q, r);
    ProductOrder(q, hi, r);
  }

  lemma WholePart(a: nat, b: nat)
    requires b >= 1
    ensures a / b * b <= a < (a / b + 1) * b
    ensures a / b * b == a <==> a % b == 0
  {
    assert a == a / b * b + a % b;
  }

  /** A client that waits exactly the advertised whole seconds after each refusal is refused
      for ever, however long it goes on, exactly when the window is not a whole number of
      token periods. */
  lemma {:induction false} ObedientClientStarvesIff(c: Config, h: Hash, polls: seq<Poll>)
    requires c.Valid() && h.tokens == 0 && Legal(c, Some(h), polls) && polls != []
    requires forall k :: 0 <= k < |polls| ==> Gap(h.last, polls, k) == (c.window / c.requests) as real
    ensures AllRefused(Replies(c, Some(h), polls)) <==> c.window % c.requests != 0
  {
    StarvedIff(c, h, polls);
    GainOfWholeSeconds(c);
    assert Gap(h.last, polls, 0) == (c.window / c.requests) as real;
  }

  lemma GainOfWholeSeconds(c: Config)
    requires c.Valid()
    ensures Gain(c.Limiter(), (c.window / c.requests) as real) < 1.0 <==> c.window % c.requests != 0
  {
    var k, rate, w := c.window / c.requests, c.Limiter().rate, c.window as real;
    WholePart(c.window, c.requests);
    assert (k * c.requests) as real == k as real * c.requests as real;
    assert k as real * rate * w == k as real * c.requests as real by { assert k as real * (rate * w) == k as real * rate * w; }
    ProductMonotone(k as real * rate, 1.0, w);
  }

  /** Redis truncates the wait in the reply, and Python calls a reply without a wait an
      admission. The two notions agree on every state exactly for rates up to one per second. */
  lemma PythonAgreesIff(c: Config)
    requires c.Valid()
    ensures (forall h: Hash, now: real :: HashReady(c, Some(h)) && h.last <= now ==>
               var r := Script(c, Some(h), now).1; (Truncate(r.wait) == 0 <==> r.admitted))
       <==> c.requests <= c.window
  {
    var l := c.Limiter();
    Threshold(l, 1.0, 1.0);
    assert Gain(l, 1.0) == l.rate;
    RateVersusOne(c);
    if c.requests <= c.window {
      forall h: Hash, now: real | HashReady(c, Some(h)) && h.last <= now
        ensures var r := Script(c, Some(h), now).1; Truncate(r.wait) == 0 <==> r.admitted
      {
        ScriptReady(c, Some(h), now);
        var r := Script(c, Some(h), now).1;
        if !r.admitted { assert r.wait == 1.0 / l.rate; }
      }
    } else {
      var h := Hash(0, 0.0);
      assert Gain(l, 0.0 - 0.0) == 0.0;
      var r := Script(c, Some(h), 0.0).1;
      assert r.wait == 1.0 / l.rate && 1.0 / l.rate > 0.0;
      assert HashReady(c, Some(h)) && !r.admitted && Truncate(r.wait) == 0;
    }
  }

  lemma RateVersusOne(c: Config)
    requires c.Valid()
    ensures c.Limiter().rate <= 1.0 <==> c.requests <= c.window
  {
    var l, w := c.Limiter(), c.window as real;
    if l.rate <= 1.0 { assert (1.0 - l.rate) * w >= 0.0; } else { assert (l.rate - 1.0) * w > 0.0; }
  }

  // ------------------------------------------------------------------ the limiters

  /** The Python limiter; `now` is the clock read under the lock. */
  class InMemoryRateLimiter {
    const config: Config
    var buckets: map<string, Bucket>

    constructor (config: Config)
      ensures this.config == config && buckets == map[]
    {
      this.config := config;
      buckets := map[];
    }

    method Check(key: string, now: real) returns (a: Answer)
      requires config.Valid()
      modifies this
      ensures var (b1, a1) := CheckOnce(config.Limiter(), Lookup(old(buckets), key), now);
        a == a1 && buckets == old(buckets)[key := b1]
    {
      var limits := config.Limiter();
      var tokens, last := limits.max, now;
      if key in buckets {
        tokens, last := buckets[key].tokens, buckets[key].last;
      }
      assert Gain(limits, now - now) == 0.0;
      tokens := Min(limits.max, tokens + (now - last) * limits.rate);
      assert tokens == Available(limits, Lookup(buckets, key), now);
      if tokens >= 1.0 {
        tokens := tokens - 1.0;
        buckets := buckets[key := Bucket(tokens, now)];
        a := Answer(true, 0.0, Truncate(tokens));
      } else {
        buckets := buckets[key := Bucket(tokens, now)];
        a := Answer(false, (1.0 - tokens) / limits.rate, Truncate(tokens));
      }
    }
  }

  /** The Go limiter, which creates the bucket first and then updates it in place. */
  class MemoryLimiter {
    const config: Config
    var buckets: map<string, Bucket>

    constructor (config: Config)
      ensures this.config == config && buckets == map[]
    {
      this.config := config;
      buckets := map[];
    }

    method Check(key: string, now: real) returns (a: Answer)
      requires config.Valid()
      modifies this
      ensures var (b1, a1) := CheckOnce(config.Limiter(), Lookup(old(buckets), key), now);
        a == a1 && buckets == old(buckets)[key := b1]
    {
      var limits := config.Limiter();
      if key !in buckets {
        buckets := buckets[key := Bucket(limits.max, now)];
      }
      var b := buckets[key];
      assert Gain(limits, now - now) == 0.0;
      b := Bucket(Min(limits.max, b.tokens + (now - b.last) * limits.rate), now);
      assert b.tokens == Available(limits, Lookup(old(buckets), key), now);
      if b.tokens >= 1.0 {
        b := b.(tokens := b.tokens - 1.0);
        a := Answer(true, 0.0, Truncate(b.tokens));
      } else {
        a := Answer(false, (1.0 - b.tokens) / limits.rate, Truncate(b.tokens));
      }
      buckets := buckets[key := b];
    }

    method Cleanup(maxAge: real, now: real)
      modifies this
      ensures forall key :: Lookup(buckets, key) == Cleaned(Lookup(old(buckets), key), maxAge, now)
    {
      var keys := buckets.Keys;
      while keys != {}
        invariant keys <= old(buckets).Keys && buckets.Keys <= old(buckets).Keys
        invariant forall key :: key in keys ==> key in buckets
        invariant forall key :: key in buckets ==> buckets[key] == old(buckets)[key]
        invariant forall key :: key in old(buckets) && key !in keys ==>
                    (key in buckets <==> now - old(buckets)[key].last <= maxAge)
        decreases keys
      {
        var key :| key in keys;
        keys := keys - {key};
        if now - buckets[key].last > maxAge {
          buckets := map k | k in buckets && k != key :: buckets[k];
        }
      }
    }
  }

  /** The Redis database the script runs against, atomically. */
  class RedisBuckets {
    var hashes: map<string, Hash>

    /** `expired` is Redis's decision to have dropped the key. */
    method Eval(c: Config, key: string, now: real, expired: bool) returns (r: Reply)
      requires c.Valid()
      modifies this
      ensures var (h1, r1) := Script(c, Seen(Lookup(old(hashes), key), Poll(now, expired)), now);
        r == r1 && hashes == old(hashes)[key := h1]
    {
      var tokens, last := c.Max(), now;
      if key in hashes && !expired {
        tokens, last := hashes[key].tokens, hashes[key].last;
      }
      var stored := tokens;
      var refilled := Gain(c.Limiter(), now - last).Floor;
      tokens := if tokens + refilled < c.Max() then tokens + refilled else c.Max();
      if tokens >= 1 {
        tokens := tokens - 1;
        hashes := hashes[key := Hash(tokens, now)];
        r := Reply(true, tokens, 0.0);
      } else {
        hashes := hashes[key := Hash(stored, now)];
        r := Reply(false, tokens, (1 - tokens) as real / c.Limiter().rate);
      }
    }
  }
}
