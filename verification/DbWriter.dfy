/** The batch writer of the ingestion service: producers, a flush timer, a pool of
    workers and Close share one mutex-protected buffer and one bounded channel.
    Ticks and bars run the same code over two independent lanes; this is one lane,
    for any record type. */
module DbWriter {
  import opened Sequences

  // ---------------------------------------------------------------- the buffer

  /** What Add leaves in the buffer and what it hands out ([] stands for nil). */
  function AddTo<R>(records: seq<R>, capacity: nat, r: R): (seq<R>, seq<R>) {
    if |records| + 1 >= capacity then ([], records + [r]) else (records + [r], [])
  }

  class RecordBuffer<R> {
    var records: seq<R>
    const capacity: nat

    /** `fallback` is 1000 for ticks and 100 for bars. */
    constructor (capacity: int, fallback: nat)
      ensures records == [] && this.capacity == (if capacity <= 0 then fallback else capacity)
    {
      this.records := [];
      this.capacity := if capacity <= 0 then fallback else capacity;
    }

    method Add(record: R) returns (batch: seq<R>)
      modifies this
      ensures |old(records)| < capacity ==> |records| < capacity && (batch == [] || |batch| == capacity)
      ensures (records, batch) == AddTo(old(records), capacity, record)
      ensures batch + records == old(records) + [record]
    {
      records := records + [record];
      if |records| >= capacity {
        batch := records;
        records := [];
        return;
      }
      return [];
    }

    method Flush() returns (batch: seq<R>)
      modifies this
      ensures batch == old(records) && records == []
    {
      if |records| == 0 {
        return [];
      }
      batch := records;
      records := [];
    }
  }

  // --------------------------------------------------------- the state machine

  datatype Role = Timer | Worker | Producer

  /** Where a goroutine stands between two atomic actions. */
  datatype Pc<R> = Idle | Offering(batch: seq<R>) | Inserting(batch: seq<R>) | Stopped

  datatype Thread<R> = Thread(role: Role, pc: Pc<R>)

  datatype Closing<R> = Open | Cancelled | StopClosed | FinalInsert(batch: seq<R>) | Waiting | Closed

  /** `capacity` is the buffer's, `workers` also the channel's; one timer always runs. */
  datatype Config = Config(capacity: nat, workers: nat, producers: nat) {
    predicate Valid() { capacity >= 1 }
  }

  /** `log`, `batches` and `late` are history: the records accepted in order, the
      batches ever taken out of the buffer in order, and how many records were
      accepted after the final flush of Close. */
  datatype State<R> = State(
    buffer: seq<R>, queue: seq<seq<R>>, threads: seq<Thread<R>>, closing: Closing<R>,
    written: seq<seq<R>>, failed: seq<seq<R>>,
    log: seq<R>, batches: seq<seq<R>>, late: nat)

  datatype Event<R> =
    | Write(t: nat, r: R) | Flush(t: nat) | Offer(t: nat) | Receive(t: nat)
    | Insert(t: nat, ok: bool) | Quit(t: nat)
    | Cancel | CloseStop | FinalFlush | FinalInserted(ok: bool) | Finish

  function RoleOf(c: Config, t: nat): Role {
    if t == 0 then Timer else if t <= c.workers then Worker else Producer
  }

  function Init<R>(c: Config): State<R> {
    State([], [], seq(1 + c.workers + c.producers, (t: nat) => Thread(RoleOf(c, t), Idle)), Open,
          [], [], [], [], 0)
  }

  predicate StopSignalled<R>(s: State<R>) { !s.closing.Open? && !s.closing.Cancelled? }

  predicate Flushed<R>(s: State<R>) {
    s.closing.FinalInsert? || s.closing.Waiting? || s.closing.Closed?
  }

  /** One atomic action; None when it is not enabled. */
  function Next<R>(c: Config, s: State<R>, e: Event<R>): Option<State<R>> {
    match e
    case Write(t, r) =>
      if t < |s.threads| && s.threads[t] == Thread(Producer, Idle) then
        var (rest, batch) := AddTo(s.buffer, c.capacity, r);
        var s1 := s.(buffer := rest, log := s.log + [r], late := if Flushed(s) then s.late + 1 else s.late);
        Some(if batch == [] then s1 else TakeBatch(s1, t, batch))
      else None
    case Flush(t) =>
      if t < |s.threads| && s.threads[t].pc.Idle? && !s.threads[t].role.Worker? then
        Some(if s.buffer == [] then s else TakeBatch(s.(buffer := []), t, s.buffer))
      else None
    case Offer(t) =>
      if t < |s.threads| && s.threads[t].pc.Offering? then
        var batch := s.threads[t].pc.batch;
        Some(if |s.queue| < c.workers then SetPc(s, t, Idle).(queue := s.queue + [batch])
             else SetPc(s, t, Inserting(batch)))
      else None
    case Receive(t) =>
      if t < |s.threads| && s.threads[t] == Thread(Worker, Idle) && s.queue != [] then
        var s1 := s.(queue := s.queue[1..]);
        Some(if s.queue[0] == [] then s1 else SetPc(s1, t, Inserting(s.queue[0])))
      else None
    case Insert(t, ok) =>
      if t < |s.threads| && s.threads[t].pc.Inserting? then
        Some(Record(SetPc(s, t, Idle), s.threads[t].pc.batch, ok))
      else None
    case Quit(t) =>
      if t < |s.threads| && s.threads[t].pc.Idle? && !s.threads[t].role.Producer? && StopSignalled(s)
      then Some(SetPc(s, t, Stopped)) else None
    case Cancel => if s.closing.Open? then Some(s.(closing := Cancelled)) else None
    case CloseStop => if s.closing.Cancelled? then Some(s.(closing := StopClosed)) else None
    case FinalFlush =>
      if !s.closing.StopClosed? then None
      else if s.buffer == [] then Some(s.(closing := Waiting))
      else Some(s.(buffer := [], batches := s.batches + [s.buffer], closing := FinalInsert(s.buffer)))
    case FinalInserted(ok) =>
      if s.closing.FinalInsert? then Some(Record(s.(closing := Waiting), s.closing.batch, ok)) else None
    case Finish =>
      if s.closing.Waiting? && BackgroundStopped(s) then Some(s.(closing := Closed)) else None
  }

  function SetPc<R>(s: State<R>, t: nat, pc: Pc<R>): State<R>
    requires t < |s.threads|
  {
    s.(threads := s.threads[t := s.threads[t].(pc := pc)])
  }

  function TakeBatch<R>(s: State<R>, t: nat, batch: seq<R>): State<R>
    requires t < |s.threads|
  {
    SetPc(s, t, Offering(batch)).(batches := s.batches + [batch])
  }

  /** One COPY is all or nothing. */
  function Record<R>(s: State<R>, batch: seq<R>, ok: bool): State<R> {
    if ok then s.(written := s.written + [batch]) else s.(failed := s.failed + [batch])
  }

  predicate BackgroundStopped<R>(s: State<R>) {
    forall t :: 0 <= t < |s.threads| && !s.threads[t].role.Producer? ==> s.threads[t].pc.Stopped?
  }

  function Run<R>(c: Config, s: State<R>, es: seq<Event<R>>): Option<State<R>>
    decreases |es|
  {
    if es == [] then Some(s)
    else match Next(c, s, es[0]) case None => None case Some(s1) => Run(c, s1, es[1..])
  }

  // ------------------------------------------------------------ where batches are

  function Held<R>(th: Thread<R>): seq<seq<R>> {
    if th.pc.Offering? || th.pc.Inserting? then [th.pc.batch] else []
  }

  function HeldBatches<R>(threads: seq<Thread<R>>): seq<seq<R>> {
    if threads == [] then [] else Held(threads[0]) + HeldBatches(threads[1..])
  }

  function ClosingBatch<R>(c: Closing<R>): seq<seq<R>> {
    if c.FinalInsert? then [c.batch] else []
  }

  /** Every batch that left the buffer, by place. */
  function Places<R>(s: State<R>): seq<seq<R>> {
    s.queue + HeldBatches(s.threads) + ClosingBatch(s.closing) + s.written + s.failed
  }

  ghost function Count<R>(bs: seq<seq<R>>, b: seq<R>): nat { multiset(bs)[b] }

  ghost function PlacesCount<R>(s: State<R>, b: seq<R>): nat {
    Count(s.queue, b) + Count(HeldBatches(s.threads), b) + Count(ClosingBatch(s.closing), b)
    + Count(s.written, b) + Count(s.failed, b)
  }

  ghost predicate Roles<R>(c: Config, s: State<R>) {
    |s.threads| == 1 + c.workers + c.producers
    && forall t :: 0 <= t < |s.threads| ==> s.threads[t].role == RoleOf(c, t)
  }

  ghost predicate NobodyStopped<R>(s: State<R>) {
    forall t :: 0 <= t < |s.threads| ==> !s.threads[t].pc.Stopped?
  }

  ghost predicate Control<R>(c: Config, s: State<R>) {
    && |s.queue| <= c.workers
    && (Flushed(s) && s.late == 0 ==> s.buffer == [])
    && (s.closing.Closed? ==> BackgroundStopped(s))
    && (!Flushed(s) ==> s.late == 0)
    && (!StopSignalled(s) ==> NobodyStopped(s))
    && Roles(c, s)
  }

  ghost predicate Inv<R(!new)>(c: Config, s: State<R>) {
    && |s.buffer| < c.capacity
    && (forall i :: 0 <= i < |s.batches| ==> 1 <= |s.batches[i]| <= c.capacity)
    && s.log == Flatten(s.batches) + s.buffer
    && (forall b :: Count(s.batches, b) == PlacesCount(s, b))
    && Control(c, s)
  }

  lemma {:induction false} HeldUpdate<R>(threads: seq<Thread<R>>, t: nat, th: Thread<R>, b: seq<R>)
    requires t < |threads|
    ensures multiset(HeldBatches(threads[t := th]))[b] + multiset(Held(threads[t]))[b]
         == multiset(HeldBatches(threads))[b] + multiset(Held(th))[b]
  {
    var updated := threads[t := th];
    HeldCons(threads, b);
    HeldCons(updated, b);
    if t == 0 {
      assert updated[1..] == threads[1..];
    } else {
      assert updated[1..] == threads[1..][t - 1 := th];
      HeldUpdate(threads[1..], t - 1, th, b);
    }
  }

  lemma {:induction false} HeldCons<R>(threads: seq<Thread<R>>, b: seq<R>)
    requires threads != []
    ensures multiset(HeldBatches(threads))[b] == multiset(Held(threads[0]))[b] + multiset(HeldBatches(threads[1..]))[b]
  {
  }

  lemma {:induction false} NobodyHolds<R>(threads: seq<Thread<R>>)
    requires forall t :: 0 <= t < |threads| ==> Held(threads[t]) == []
    ensures HeldBatches(threads) == []
  {
    if threads != [] { NobodyHolds(threads[1..]); }
  }

  lemma {:induction false} InitInv<R(!new)>(c: Config)
    requires c.Valid()
    ensures Inv(c, Init<R>(c))
  {
    NobodyHolds(Init<R>(c).threads);
  }

  lemma {:induction false} CountAppend<R>(xs: seq<seq<R>>, ys: seq<seq<R>>, b: seq<R>)
    ensures Count(xs + ys, b) == Count(xs, b) + Count(ys, b)
  {
  }

  /** What a step takes out of the buffer. */
  function TakenOut<R>(c: Config, s: State<R>, e: Event<R>): seq<seq<R>> {
    match e
    case Write(_, r) => if |s.buffer| + 1 >= c.capacity then [s.buffer + [r]] else []
    case Flush(_) => if s.buffer == [] then [] else [s.buffer]
    case FinalFlush => if s.buffer == [] then [] else [s.buffer]
    case _ => []
  }

  lemma {:induction false} WritePlaces<R>(c: Config, s: State<R>, t: nat, r: R, s1: State<R>, b: seq<R>)
    requires Next(c, s, Write(t, r)) == Some(s1)
    ensures PlacesCount(s1, b) == PlacesCount(s, b) + Count(TakenOut(c, s, Write(t, r)), b)
  {
    HeldUpdate(s.threads, t, s1.threads[t], b);
  }

  lemma {:induction false} FlushPlaces<R>(c: Config, s: State<R>, t: nat, s1: State<R>, b: seq<R>)
    requires Next(c, s, Flush(t)) == Some(s1)
    ensures PlacesCount(s1, b) == PlacesCount(s, b) + Count(TakenOut(c, s, Flush(t)), b)
  {
    HeldUpdate(s.threads, t, s1.threads[t], b);
  }

  lemma {:induction false} QuitPlaces<R>(c: Config, s: State<R>, t: nat, s1: State<R>, b: seq<R>)
    requires Next(c, s, Quit(t)) == Some(s1)
    ensures PlacesCount(s1, b) == PlacesCount(s, b)
  {
    HeldUpdate(s.threads, t, s1.threads[t], b);
  }

  lemma {:induction false} OfferPlaces<R>(c: Config, s: State<R>, t: nat, s1: State<R>, b: seq<R>)
    requires Next(c, s, Offer(t)) == Some(s1)
    ensures PlacesCount(s1, b) == PlacesCount(s, b)
  {
    HeldUpdate(s.threads, t, s1.threads[t], b);
    CountAppend(s.queue, [s.threads[t].pc.batch], b);
  }

  lemma {:induction false} ReceivePlaces<R>(s: State<R>, t: nat, s1: State<R>, b: seq<R>)
    requires t < |s.threads| && s.threads[t].pc.Idle? && s.queue != []
    requires s1 == SetPc(s, t, Inserting(s.queue[0])).(queue := s.queue[1..])
    ensures PlacesCount(s1, b) == PlacesCount(s, b)
  {
    HeldUpdate(s.threads, t, s1.threads[t], b);
    CountCons(s.queue, b);
  }

  lemma {:induction false} CountCons<R>(xs: seq<seq<R>>, b: seq<R>)
    requires xs != []
    ensures Count(xs, b) == Count([xs[0]], b) + Count(xs[1..], b)
  {
    CountAppend([xs[0]], xs[1..], b);
    assert xs == [xs[0]] + xs[1..];
  }

  lemma {:induction false} InsertPlaces<R>(c: Config, s: State<R>, t: nat, ok: bool, s1: State<R>, b: seq<R>)
    requires Next(c, s, Insert(t, ok)) == Some(s1)
    ensures PlacesCount(s1, b) == PlacesCount(s, b)
  {
    HeldUpdate(s.threads, t, s1.threads[t], b);
    CountAppend(s.written, [s.threads[t].pc.batch], b);
    CountAppend(s.failed, [s.threads[t].pc.batch], b);
  }

  lemma {:induction false} FinalFlushPlaces<R>(c: Config, s: State<R>, s1: State<R>, b: seq<R>)
    requires Next(c, s, FinalFlush) == Some(s1)
    ensures PlacesCount(s1, b) == PlacesCount(s, b) + Count(TakenOut(c, s, FinalFlush), b)
  {
    assert ClosingBatch(s.closing) == [];
    assert s1.queue == s.queue && s1.threads == s.threads && s1.written == s.written && s1.failed == s.failed;
    assert ClosingBatch(s1.closing) == TakenOut(c, s, FinalFlush);
  }

  lemma {:induction false} FinalInsertedPlaces<R>(c: Config, s: State<R>, ok: bool, s1: State<R>, b: seq<R>)
    requires Next(c, s, FinalInserted(ok)) == Some(s1)
    ensures PlacesCount(s1, b) == PlacesCount(s, b)
  {
    CountAppend(s.written, [s.closing.batch], b);
    CountAppend(s.failed, [s.closing.batch], b);
  }

  /** A step moves batches between places; only the ones it takes out of the buffer are new. */
  lemma {:induction false} StepPlaces<R>(c: Config, s: State<R>, e: Event<R>, s1: State<R>, b: seq<R>)
    requires Next(c, s, e) == Some(s1)
    requires forall i :: 0 <= i < |s.queue| ==> s.queue[i] != []
    ensures PlacesCount(s1, b) == PlacesCount(s, b) + Count(TakenOut(c, s, e), b)
  {
    match e
    case Write(t, r) => WritePlaces(c, s, t, r, s1, b);
    case Flush(t) => FlushPlaces(c, s, t, s1, b);
    case Offer(t) => OfferPlaces(c, s, t, s1, b);
    case Receive(t) => ReceivePlaces(s, t, s1, b);
    case Insert(t, ok) => InsertPlaces(c, s, t, ok, s1, b);
    case Quit(t) => QuitPlaces(c, s, t, s1, b);
    case FinalFlush => FinalFlushPlaces(c, s, s1, b);
    case FinalInserted(ok) => FinalInsertedPlaces(c, s, ok, s1, b);
    case _ => SignalPlaces(c, s, e, s1, b);
  }

  lemma {:induction false} SignalPlaces<R>(c: Config, s: State<R>, e: Event<R>, s1: State<R>, b: seq<R>)
    requires Next(c, s, e) == Some(s1) && (e.Cancel? || e.CloseStop? || e.Finish?)
    ensures PlacesCount(s1, b) == PlacesCount(s, b) + Count(TakenOut(c, s, e), b)
  {
  }

  lemma {:induction false} WriteLog<R>(c: Config, s: State<R>, t: nat, r: R, s1: State<R>)
    requires Next(c, s, Write(t, r)) == Some(s1) && c.Valid()
    requires |s.buffer| < c.capacity && s.log == Flatten(s.batches) + s.buffer
    ensures |s1.buffer| < c.capacity && s1.log == Flatten(s1.batches) + s1.buffer
  {
    FlattenAppend(s.batches, s.buffer + [r]);
  }

  /** A step appends to the log what it accepts and cuts batches off its end in order. */
  lemma {:induction false} StepLog<R>(c: Config, s: State<R>, e: Event<R>, s1: State<R>)
    requires Next(c, s, e) == Some(s1) && c.Valid()
    requires |s.buffer| < c.capacity && s.log == Flatten(s.batches) + s.buffer
    ensures |s1.buffer| < c.capacity && s1.log == Flatten(s1.batches) + s1.buffer
  {
    match e
    case Write(t, r) => WriteLog(c, s, t, r, s1);
    case Flush(_) => FlattenAppend(s.batches, s.buffer);
    case FinalFlush => FlattenAppend(s.batches, s.buffer);
    case _ =>
  }

  lemma {:induction false} StepBatches<R>(c: Config, s: State<R>, e: Event<R>, s1: State<R>)
    requires Next(c, s, e) == Some(s1) && |s.buffer| < c.capacity
    ensures s1.batches == s.batches + TakenOut(c, s, e)
    ensures forall i :: 0 <= i < |TakenOut(c, s, e)| ==> 1 <= |TakenOut(c, s, e)[i]| <= c.capacity
  {
  }

  lemma {:induction false} QueueNonempty<R(!new)>(c: Config, s: State<R>)
    requires Inv(c, s)
    ensures forall i :: 0 <= i < |s.queue| ==> s.queue[i] != []
  {
    forall i | 0 <= i < |s.queue| ensures s.queue[i] != [] {
      assert Count(s.batches, s.queue[i]) == PlacesCount(s, s.queue[i]);
      assert s.queue[i] in multiset(s.batches);
    }
  }

  lemma {:induction false} StepRoles<R>(c: Config, s: State<R>, e: Event<R>, s1: State<R>)
    requires Next(c, s, e) == Some(s1) && Roles(c, s)
    ensures Roles(c, s1)
  {
  }

  lemma {:induction false} StepNobodyStopped<R>(c: Config, s: State<R>, e: Event<R>, s1: State<R>)
    requires Next(c, s, e) == Some(s1) && NobodyStopped(s) && !StopSignalled(s1)
    ensures NobodyStopped(s1) && !StopSignalled(s)
  {
  }

  /** The buffer is handed out by a write exactly when it is full. */
  lemma {:induction false} WriteHandsOutFullBatches<R>(c: Config, s: State<R>, t: nat, r: R, s1: State<R>)
    requires Next(c, s, Write(t, r)) == Some(s1) && |s.buffer| < c.capacity
    ensures if |s.buffer| + 1 == c.capacity then s1.buffer == [] && s1.batches == s.batches + [s.buffer + [r]]
            else s1.buffer == s.buffer + [r] && s1.batches == s.batches
    ensures forall i :: |s.batches| <= i < |s1.batches| ==> |s1.batches[i]| == c.capacity
  {
  }

  lemma {:induction false} StepControl<R>(c: Config, s: State<R>, e: Event<R>, s1: State<R>)
    requires Next(c, s, e) == Some(s1) && Control(c, s)
    ensures Control(c, s1)
  {
    StepRoles(c, s, e, s1);
    if !StopSignalled(s1) { StepNobodyStopped(c, s, e, s1); }
  }

  lemma {:induction false} StepCounts<R(!new)>(c: Config, s: State<R>, e: Event<R>, s1: State<R>)
    requires Next(c, s, e) == Some(s1)
    requires forall i :: 0 <= i < |s.queue| ==> s.queue[i] != []
    requires forall b :: Count(s.batches, b) == PlacesCount(s, b)
    requires s1.batches == s.batches + TakenOut(c, s, e)
    ensures forall b :: Count(s1.batches, b) == PlacesCount(s1, b)
  {
    forall b ensures Count(s1.batches, b) == PlacesCount(s1, b) {
      StepPlaces(c, s, e, s1, b);
      CountAppend(s.batches, TakenOut(c, s, e), b);
    }
  }

  lemma {:induction false} StepInv<R(!new)>(c: Config, s: State<R>, e: Event<R>, s1: State<R>)
    requires c.Valid() && Inv(c, s) && Next(c, s, e) == Some(s1)
    ensures Inv(c, s1)
  {
    QueueNonempty(c, s);
    StepLog(c, s, e, s1);
    StepBatches(c, s, e, s1);
    StepControl(c, s, e, s1);
    StepCounts(c, s, e, s1);
  }

  /** Every reachable state satisfies the invariant. */
  lemma {:induction false} RunInv<R(!new)>(c: Config, s: State<R>, es: seq<Event<R>>)
    requires c.Valid() && Inv(c, s) && Run(c, s, es).Some?
    ensures Inv(c, Run(c, s, es).value)
    decreases |es|
  {
    if es != [] {
      StepInv(c, s, es[0], Next(c, s, es[0]).value);
      RunInv(c, Next(c, s, es[0]).value, es[1..]);
    }
  }

  ghost predicate Reachable<R(!new)>(c: Config, s: State<R>) {
    exists es: seq<Event<R>> :: Run(c, Init<R>(c), es) == Some(s)
  }

  lemma {:induction false} ReachableInv<R(!new)>(c: Config, s: State<R>)
    requires c.Valid() && Reachable(c, s)
    ensures Inv(c, s)
  {
    var es: seq<Event<R>> :| Run(c, Init<R>(c), es) == Some(s);
    InitInv<R>(c);
    RunInv(c, Init<R>(c), es);
  }

  // ------------------------------------------------------------------- theorems

  ghost function Records<R>(batches: seq<seq<R>>): multiset<R> { multiset(Flatten(batches)) }

  lemma {:induction false} RecordsConcat<R>(xs: seq<seq<R>>, ys: seq<seq<R>>)
    ensures Records(xs + ys) == Records(xs) + Records(ys)
  {
    FlattenConcat(xs, ys);
  }

  /** In every reachable interleaving the batches handed out are the log cut in order,
      each batch is in one place, and so is each accepted record. */
  lemma {:induction false} Conservation<R(!new)>(c: Config, s: State<R>)
    requires c.Valid() && Reachable(c, s)
    ensures s.log == Flatten(s.batches) + s.buffer
    ensures multiset(s.batches) == multiset(Places(s))
    ensures multiset(s.log) == multiset(s.buffer) + Records(s.queue) + Records(HeldBatches(s.threads))
              + Records(ClosingBatch(s.closing)) + Records(s.written) + Records(s.failed)
  {
    ReachableInv(c, s);
    forall b ensures multiset(s.batches)[b] == multiset(Places(s))[b] {
      assert Count(s.batches, b) == PlacesCount(s, b);
    }
    FlattenPermutation(s.batches, Places(s));
    var held, closing := HeldBatches(s.threads), ClosingBatch(s.closing);
    RecordsConcat(s.queue + held + closing + s.written, s.failed);
    RecordsConcat(s.queue + held + closing, s.written);
    RecordsConcat(s.queue + held, closing);
    RecordsConcat(s.queue, held);
  }

  ghost predicate NobodyMidCall<R>(s: State<R>) {
    forall t :: 0 <= t < |s.threads| ==> s.threads[t].pc.Idle? || s.threads[t].pc.Stopped?
  }

  /** An idle writer without insert errors has persisted every record exactly as often
      as it was accepted. */
  lemma {:induction false} IdlePersistedAll<R(!new)>(c: Config, s: State<R>)
    requires c.Valid() && Reachable(c, s)
    requires s.closing.Open? && s.buffer == [] && s.queue == [] && s.failed == [] && NobodyMidCall(s)
    ensures Records(s.written) == multiset(s.log)
  {
    Conservation(c, s);
    NobodyHolds(s.threads);
    var none: seq<seq<R>> := [];
    assert HeldBatches(s.threads) == none && ClosingBatch(s.closing) == none;
    assert Records(none) == multiset{};
  }

  /** Close has returned, nothing was written after its final flush and no call is under way. */
  ghost predicate CleanClose<R>(s: State<R>) {
    s.closing.Closed? && s.late == 0 && NobodyMidCall(s)
  }

  /** After Close the only unaccounted records are those of the batches still queued, and
      everything is in the database exactly when nothing is queued and no insert has failed. */
  lemma {:induction false} AfterClose<R(!new)>(c: Config, s: State<R>)
    requires c.Valid() && Reachable(c, s) && CleanClose(s)
    ensures multiset(s.log) == Records(s.queue) + Records(s.written) + Records(s.failed)
    ensures Records(s.written) == multiset(s.log) <==> s.queue == [] && s.failed == []
  {
    ClosedPlaces(c, s);
    ReachableInv(c, s);
    QueueNonempty(c, s);
    FailedNonempty(c, s);
    if s.queue != [] { FirstRecord(s.queue); }
    if s.failed != [] { FirstRecord(s.failed); }
  }

  lemma {:induction false} ClosedPlaces<R(!new)>(c: Config, s: State<R>)
    requires c.Valid() && Reachable(c, s) && CleanClose(s)
    ensures multiset(s.log) == Records(s.queue) + Records(s.written) + Records(s.failed)
  {
    Conservation(c, s);
    ReachableInv(c, s);
    NobodyHolds(s.threads);
    var none: seq<seq<R>> := [];
    assert HeldBatches(s.threads) == none && ClosingBatch(s.closing) == none;
    assert Records(none) == multiset{} && s.buffer == [];
  }

  lemma {:induction false} FirstRecord<R>(bs: seq<seq<R>>)
    requires bs != [] && bs[0] != []
    ensures |Records(bs)| > 0
  {
    assert Flatten(bs) == bs[0] + Flatten(bs[1..]);
    assert bs[0][0] in Records(bs);
  }

  lemma {:induction false} FailedNonempty<R(!new)>(c: Config, s: State<R>)
    requires Inv(c, s)
    ensures forall i :: 0 <= i < |s.failed| ==> s.failed[i] != []
  {
    forall i | 0 <= i < |s.failed| ensures s.failed[i] != [] {
      assert Count(s.batches, s.failed[i]) == PlacesCount(s, s.failed[i]);
      assert s.failed[i] in multiset(s.batches);
    }
  }

  /** A batch queued when Close returned stays in the channel in every continuation. */
  lemma {:induction false} Stranded<R(!new)>(c: Config, s: State<R>, es: seq<Event<R>>)
    requires s.closing.Closed? && Control(c, s) && Run(c, s, es).Some?
    ensures s.queue <= Run(c, s, es).value.queue
    decreases |es|
  {
    if es != [] {
      var s1 := Next(c, s, es[0]).value;
      StepControl(c, s, es[0], s1);
      Stranded(c, s1, es[1..]);
    }
  }

  lemma {:induction false} RunConcat<R>(c: Config, s: State<R>, es: seq<Event<R>>, fs: seq<Event<R>>)
    requires Run(c, s, es).Some?
    ensures Run(c, s, es + fs) == Run(c, Run(c, s, es).value, fs)
    decreases |es|
  {
    if es == [] {
      assert es + fs == fs;
    } else {
      assert (es + fs)[1..] == es[1..] + fs;
      RunConcat(c, Next(c, s, es[0]).value, es[1..], fs);
    }
  }

  lemma {:induction false} RunTwo<R>(c: Config, s: State<R>, e: Event<R>, f: Event<R>)
    requires Next(c, s, e).Some?
    ensures Run(c, s, [e, f]) == Next(c, Next(c, s, e).value, f)
  {
    var s1 := Next(c, s, e).value;
    assert [e, f][1..] == [f] && [f][1..] == [];
    assert Run(c, s, [e, f]) == Run(c, s1, [f]);
    if Next(c, s1, f).Some? {
      assert Run(c, s1, [f]) == Run(c, Next(c, s1, f).value, []);
    }
  }

  /** Once the stop signal is up, the idle background goroutines may all leave. */
  lemma {:induction false} QuitAll<R>(c: Config, s: State<R>, k: nat) returns (es: seq<Event<R>>)
    requires k <= 1 + c.workers && |s.threads| == 1 + c.workers + c.producers
    requires StopSignalled(s)
    requires forall t :: 0 <= t < |s.threads| ==> s.threads[t].role == RoleOf(c, t)
    requires forall t :: 0 <= t < |s.threads| ==> s.threads[t].pc == if t < k then Stopped else Idle
    ensures Run(c, s, es).Some? && Undisturbed(c, s, es)
    ensures var s1 := Run(c, s, es).value;
      && s1 == s.(threads := s1.threads) && |s1.threads| == |s.threads|
      && (forall t :: 0 <= t < |s.threads| ==>
            s1.threads[t] == Thread(RoleOf(c, t), if t < 1 + c.workers then Stopped else Idle))
    decreases 1 + c.workers - k
  {
    if k == 1 + c.workers {
      es := [];
    } else {
      var s1 := Next(c, s, Quit(k)).value;
      es := QuitAll(c, s1, k + 1);
      es := [Quit(k)] + es;
      assert es[1..] == es[1..];
    }
  }

  // --------------------------------------------------------- what an insert's outcome means

  /** Every insert of the run comes out as `ok`. */
  predicate AllInserts<R>(es: seq<Event<R>>, ok: bool) {
    forall i :: 0 <= i < |es| ==>
      (es[i].Insert? ==> es[i].ok == ok) && (es[i].FinalInserted? ==> es[i].ok == ok)
  }

  /** Without a failing insert nothing is marked failed, without a successful one nothing is in the
      database, whatever else happens. */
  lemma {:induction false} OutcomesDecide<R>(c: Config, s: State<R>, es: seq<Event<R>>)
    requires Run(c, s, es).Some?
    ensures AllInserts(es, true) ==> Run(c, s, es).value.failed == s.failed
    ensures AllInserts(es, false) ==> Run(c, s, es).value.written == s.written
    decreases |es|
  {
    if es != [] {
      OutcomesDecide(c, Next(c, s, es[0]).value, es[1..]);
      forall ok | AllInserts(es, ok)
        ensures (es[0].Insert? ==> es[0].ok == ok) && (es[0].FinalInserted? ==> es[0].ok == ok) && AllInserts(es[1..], ok)
      {
        assert es[0] == es[0];
        forall i | 0 <= i < |es[1..]|
          ensures (es[1..][i].Insert? ==> es[1..][i].ok == ok) && (es[1..][i].FinalInserted? ==> es[1..][i].ok == ok)
        {
          assert es[1..][i] == es[i + 1];
        }
      }
    }
  }

  /** A writer whose every insert succeeded has, when idle, persisted every record exactly as often
      as it was accepted; one whose every insert failed has persisted none. */
  lemma {:induction false} SuccessfulInsertsPersist<R(!new)>(c: Config, es: seq<Event<R>>)
    requires c.Valid() && Run(c, Init<R>(c), es).Some?
    ensures var s := Run(c, Init<R>(c), es).value;
            && (AllInserts(es, true) && s.closing.Open? && s.buffer == [] && s.queue == [] && NobodyMidCall(s) ==>
                  Records(s.written) == multiset(s.log))
            && (AllInserts(es, false) ==> s.written == [])
  {
    var s := Run(c, Init<R>(c), es).value;
    OutcomesDecide(c, Init<R>(c), es);
    assert Reachable(c, s);
    if AllInserts(es, true) && s.closing.Open? && s.buffer == [] && s.queue == [] && NobodyMidCall(s) {
      IdlePersistedAll(c, s);
    }
  }

  // --------------------------------------------------- what a call of Close can promise

  predicate WriteFree<R>(es: seq<Event<R>>) { forall i :: 0 <= i < |es| ==> !es[i].Write? }

  /** No record is written, and no insert fails except one whose context Close has cancelled;
      the insert of Close itself does not use that context. */
  predicate Undisturbed<R>(c: Config, s: State<R>, es: seq<Event<R>>)
    decreases |es|
  {
    es == [] ||
    (&& !es[0].Write?
     && (es[0].Insert? && !es[0].ok ==> !s.closing.Open?)
     && (es[0].FinalInserted? ==> es[0].ok)
     && match Next(c, s, es[0]) case None => true case Some(s1) => Undisturbed(c, s1, es[1..]))
  }

  lemma {:induction false} UndisturbedConcat<R>(c: Config, s: State<R>, es: seq<Event<R>>, fs: seq<Event<R>>)
    requires Run(c, s, es).Some? && Undisturbed(c, s, es) && Undisturbed(c, Run(c, s, es).value, fs)
    ensures Undisturbed(c, s, es + fs)
    decreases |es|
  {
    if es == [] {
      assert es + fs == fs;
    } else {
      assert (es + fs)[1..] == es[1..] + fs && (es + fs)[0] == es[0];
      UndisturbedConcat(c, Next(c, s, es[0]).value, es[1..], fs);
    }
  }

  lemma {:induction false} UndisturbedIsWriteFree<R>(c: Config, s: State<R>, es: seq<Event<R>>)
    requires Run(c, s, es).Some? && Undisturbed(c, s, es)
    ensures WriteFree(es)
    decreases |es|
  {
    if es != [] {
      UndisturbedIsWriteFree(c, Next(c, s, es[0]).value, es[1..]);
      forall i | 0 <= i < |es| ensures !es[i].Write? {
        if i > 0 { assert es[i] == es[1..][i - 1]; }
      }
    }
  }

  /** Nothing is waiting for the channel or in it. */
  predicate Settled<R>(s: State<R>) {
    s.queue == [] && s.buffer == [] && forall t :: 0 <= t < |s.threads| ==> !s.threads[t].pc.Offering?
  }

  /** Nothing is waiting at all. */
  predicate Quiet<R>(s: State<R>) {
    Settled(s) && forall t :: 0 <= t < |s.threads| ==> !s.threads[t].pc.Inserting?
  }

  lemma {:induction false} SettledStays<R>(c: Config, s: State<R>, es: seq<Event<R>>)
    requires Settled(s) && !s.closing.FinalInsert? && WriteFree(es) && Run(c, s, es).Some?
    ensures Settled(Run(c, s, es).value)
    ensures Quiet(s) ==> Quiet(Run(c, s, es).value) && Run(c, s, es).value.failed == s.failed
    decreases |es|
  {
    if es != [] {
      var s1 := Next(c, s, es[0]).value;
      assert !es[0].Write?;
      SettledStep(c, s, es[0], s1);
      assert WriteFree(es[1..]);
      SettledStays(c, s1, es[1..]);
    }
  }

  lemma {:induction false} SettledStep<R>(c: Config, s: State<R>, e: Event<R>, s1: State<R>)
    requires Settled(s) && !e.Write? && Next(c, s, e) == Some(s1) && !s.closing.FinalInsert?
    ensures Settled(s1) && !s1.closing.FinalInsert?
    ensures Quiet(s) ==> Quiet(s1) && s1.failed == s.failed
  {
  }

  /** A goroutine is driven to its end after Cancel: into the channel, or into a failed insert. */
  lemma {:induction false} SettleOne<R>(c: Config, s: State<R>, t: nat) returns (es: seq<Event<R>>, s1: State<R>)
    requires s.closing.Cancelled? && t < |s.threads| && !s.threads[t].pc.Stopped?
    ensures Run(c, s, es) == Some(s1) && Undisturbed(c, s, es)
    ensures s1 == SetPc(s, t, Idle).(queue := s1.queue, failed := s1.failed)
    ensures s.queue <= s1.queue && s.failed <= s1.failed
    ensures s.threads[t].pc.Offering? && c.workers >= 1 ==> s1.queue != []
    ensures !s.threads[t].pc.Idle? ==> s1.queue != [] || s1.failed != []
  {
    match s.threads[t].pc
    case Idle =>
      es, s1 := [], s;
      assert s.threads[t := s.threads[t].(pc := Idle)] == s.threads;
    case Inserting(batch) =>
      es, s1 := [Insert(t, false)], Next(c, s, Insert(t, false)).value;
      assert es[1..] == [];
    case Offering(batch) =>
      var s0 := Next(c, s, Offer(t)).value;
      if |s.queue| < c.workers {
        es, s1 := [Offer(t)], s0;
        assert es[1..] == [];
      } else {
        es, s1 := [Offer(t), Insert(t, false)], Next(c, s0, Insert(t, false)).value;
        RunTwo(c, s, Offer(t), Insert(t, false));
        assert es[1..] == [Insert(t, false)] && es[1..][1..] == [];
        assert s1.threads == SetPc(s, t, Idle).threads;
      }
  }

  predicate Holding<R>(threads: seq<Thread<R>>, k: nat) {
    exists t :: k <= t < |threads| && !threads[t].pc.Idle?
  }

  predicate SomeOffering<R>(threads: seq<Thread<R>>, k: nat) {
    exists t :: k <= t < |threads| && threads[t].pc.Offering?
  }

  function AllIdle<R>(threads: seq<Thread<R>>): (r: seq<Thread<R>>)
    ensures |r| == |threads| && forall t :: 0 <= t < |r| ==> r[t] == Thread(threads[t].role, Idle)
  {
    seq(|threads|, (t: nat) requires t < |threads| => Thread(threads[t].role, Idle))
  }

  lemma {:induction false} SettleAll<R>(c: Config, s: State<R>, k: nat) returns (es: seq<Event<R>>, s1: State<R>)
    requires s.closing.Cancelled? && k <= |s.threads|
    requires forall t :: 0 <= t < |s.threads| ==> !s.threads[t].pc.Stopped? && (t < k ==> s.threads[t].pc.Idle?)
    ensures Run(c, s, es) == Some(s1) && Undisturbed(c, s, es)
    ensures s1 == s.(threads := AllIdle(s.threads), queue := s1.queue, failed := s1.failed)
    ensures s.queue <= s1.queue && s.failed <= s1.failed
    ensures SomeOffering(s.threads, k) && c.workers >= 1 ==> s1.queue != []
    ensures Holding(s.threads, k) ==> s1.queue != [] || s1.failed != []
    decreases |s.threads| - k
  {
    if k == |s.threads| {
      es, s1 := [], s;
      assert AllIdle(s.threads) == s.threads;
    } else {
      var first, s0 := SettleOne(c, s, k);
      var rest;
      rest, s1 := SettleAll(c, s0, k + 1);
      es := first + rest;
      RunConcat(c, s, first, rest);
      UndisturbedConcat(c, s, first, rest);
      assert AllIdle(s0.threads) == AllIdle(s.threads);
      StillHolding(s.threads, s0.threads, k);
    }
  }

  lemma StillHolding<R>(before: seq<Thread<R>>, after: seq<Thread<R>>, k: nat)
    requires k < |before| == |after| && forall t :: k < t < |before| ==> after[t] == before[t]
    ensures SomeOffering(before, k) ==> before[k].pc.Offering? || SomeOffering(after, k + 1)
    ensures Holding(before, k) ==> !before[k].pc.Idle? || Holding(after, k + 1)
  {
    if SomeOffering(before, k) && !before[k].pc.Offering? {
      var t :| k <= t < |before| && before[t].pc.Offering?;
      assert after[t].pc.Offering?;
    }
    if Holding(before, k) && before[k].pc.Idle? {
      var t :| k <= t < |before| && !before[t].pc.Idle?;
      assert !after[t].pc.Idle?;
    }
  }

  /** The timer may still take the buffer between Cancel and the final flush. */
  lemma {:induction false} TimerTakesBuffer<R>(c: Config, s: State<R>) returns (es: seq<Event<R>>, s1: State<R>)
    requires s.closing.Cancelled? && s.threads != [] && s.threads[0] == Thread(Timer, Idle)
    ensures Run(c, s, es) == Some(s1) && Undisturbed(c, s, es) && s1.buffer == []
    ensures s1.closing == s.closing && s1.late == s.late && s1.threads == s.threads
    ensures s.queue <= s1.queue && s.failed <= s1.failed
    ensures s.buffer != [] && c.workers >= 1 ==> s1.queue != []
    ensures s.buffer != [] ==> s1.queue != [] || s1.failed != []
  {
    if s.buffer == [] {
      es, s1 := [], s;
    } else {
      var s0 := Next(c, s, Flush(0)).value;
      var rest;
      rest, s1 := SettleOne(c, s0, 0);
      es := [Flush(0)] + rest;
      assert es[1..] == rest;
      assert s1.threads == s.threads;
    }
  }

  /** From all goroutines idle and an empty buffer Close runs to its end and touches nothing. */
  lemma {:induction false} FinishClose<R>(c: Config, s: State<R>) returns (es: seq<Event<R>>, s1: State<R>)
    requires s.closing.Cancelled? && s.buffer == [] && |s.threads| == 1 + c.workers + c.producers
    requires forall t :: 0 <= t < |s.threads| ==> s.threads[t] == Thread(RoleOf(c, t), Idle)
    ensures Run(c, s, es) == Some(s1) && Undisturbed(c, s, es)
    ensures s1.closing.Closed? && NobodyMidCall(s1)
    ensures s1.late == s.late && s1.queue == s.queue && s1.failed == s.failed
  {
    var s2 := s.(closing := StopClosed);
    var quits := QuitAll(c, s2, 0);
    var s3 := Run(c, s2, quits).value;
    RunTwo(c, s3, FinalFlush, Finish);
    s1 := s3.(closing := Closed);
    var last: seq<Event<R>> := [FinalFlush, Finish];
    assert last[1..] == [Finish] && last[1..][1..] == [];
    RunConcat(c, s2, quits, last);
    UndisturbedConcat(c, s2, quits, last);
    es := [CloseStop] + (quits + last);
    assert es[1..] == quits + last;
  }

  /** A run of Close that leaves in the channel, or fails to insert, whatever can be. */
  lemma {:induction false} WorstClose<R>(c: Config, s: State<R>) returns (es: seq<Event<R>>, s1: State<R>)
    requires Control(c, s) && s.closing.Open?
    ensures Run(c, s, es) == Some(s1) && Undisturbed(c, s, es) && CleanClose(s1)
    ensures !Settled(s) && c.workers >= 1 ==> s1.queue != []
    ensures !Quiet(s) ==> s1.queue != [] || s1.failed != []
  {
    var a := s.(closing := Cancelled);
    var es1, b := SettleAll(c, a, 0);
    var es2, d := TimerTakesBuffer(c, b);
    var es3;
    es3, s1 := FinishClose(c, d);
    RunConcat(c, a, es1, es2);
    UndisturbedConcat(c, a, es1, es2);
    RunConcat(c, a, es1 + es2, es3);
    UndisturbedConcat(c, a, es1 + es2, es3);
    es := [Cancel] + (es1 + es2 + es3);
    assert es[1..] == es1 + es2 + es3;
    if !Settled(s) && s.queue == [] && s.buffer == [] { assert SomeOffering(s.threads, 0); }
    if !Quiet(s) && Settled(s) { assert Holding(s.threads, 0); }
  }

  lemma {:induction false} ReachableRun<R(!new)>(c: Config, s: State<R>, es: seq<Event<R>>)
    requires Reachable(c, s) && Run(c, s, es).Some?
    ensures Reachable(c, Run(c, s, es).value)
  {
    var before: seq<Event<R>> :| Run(c, Init<R>(c), before) == Some(s);
    RunConcat(c, Init<R>(c), before, es);
  }

  lemma {:induction false} FailedOnlyGrows<R>(c: Config, s: State<R>, es: seq<Event<R>>)
    requires Run(c, s, es).Some?
    ensures s.failed <= Run(c, s, es).value.failed
    decreases |es|
  {
    if es != [] { FailedOnlyGrows(c, Next(c, s, es[0]).value, es[1..]); }
  }

  /** Close promises to flush everything pending. Called in a given state with no later writes, it
      leaves nothing in the channel in every run exactly when nothing was in the channel, in the
      buffer or on its way from one to the other; only a writer without workers is exempt. */
  lemma {:induction false} NothingStrandedIff<R(!new)>(c: Config, s: State<R>)
    requires c.Valid() && Reachable(c, s) && s.closing.Open?
    ensures (forall es: seq<Event<R>> :: WriteFree(es) && Run(c, s, es).Some? && CleanClose(Run(c, s, es).value) ==>
               Run(c, s, es).value.queue == [])
       <==> Settled(s) || c.workers == 0
  {
    ReachableInv(c, s);
    if Settled(s) || c.workers == 0 {
      forall es: seq<Event<R>> | WriteFree(es) && Run(c, s, es).Some? && CleanClose(Run(c, s, es).value)
        ensures Run(c, s, es).value.queue == []
      {
        if Settled(s) { SettledStays(c, s, es); } else { RunInv(c, s, es); }
      }
    } else {
      var es, s1 := WorstClose(c, s);
      UndisturbedIsWriteFree(c, s, es);
    }
  }

  /** Nor does it get everything into the database, even if the database takes whatever Close has
      not cancelled, unless nothing at all was pending and nothing had failed: an insert under way
      is cancelled, and the timer may still move the buffer into the channel. */
  lemma {:induction false} EverythingWrittenIff<R(!new)>(c: Config, s: State<R>)
    requires c.Valid() && Reachable(c, s) && s.closing.Open?
    ensures (forall es: seq<Event<R>> :: Undisturbed(c, s, es) && Run(c, s, es).Some? && CleanClose(Run(c, s, es).value) ==>
               Records(Run(c, s, es).value.written) == multiset(Run(c, s, es).value.log))
       <==> Quiet(s) && s.failed == []
  {
    ReachableInv(c, s);
    if Quiet(s) && s.failed == [] {
      forall es: seq<Event<R>> | Undisturbed(c, s, es) && Run(c, s, es).Some? && CleanClose(Run(c, s, es).value)
        ensures Records(Run(c, s, es).value.written) == multiset(Run(c, s, es).value.log)
      {
        UndisturbedIsWriteFree(c, s, es);
        SettledStays(c, s, es);
        ReachableRun(c, s, es);
        AfterClose(c, Run(c, s, es).value);
      }
    } else {
      var es, s1 := WorstClose(c, s);
      FailedOnlyGrows(c, s, es);
      ReachableRun(c, s, es);
      AfterClose(c, s1);
    }
  }

  predicate FlushFree<R>(es: seq<Event<R>>) { forall i :: 0 <= i < |es| ==> !es[i].Flush? }

  /** Nothing is pending but the buffer and what Close itself writes. */
  predicate OnlyBuffer<R>(s: State<R>) {
    s.queue == [] && s.failed == []
    && forall t :: 0 <= t < |s.threads| ==> s.threads[t].pc.Idle? || s.threads[t].pc.Stopped?
  }

  lemma {:induction false} OnlyBufferStays<R>(c: Config, s: State<R>, es: seq<Event<R>>)
    requires OnlyBuffer(s) && Run(c, s, es).Some? && Undisturbed(c, s, es) && FlushFree(es)
    ensures OnlyBuffer(Run(c, s, es).value)
    decreases |es|
  {
    if es != [] {
      var s1 := Next(c, s, es[0]).value;
      assert !es[0].Flush? && FlushFree(es[1..]);
      assert OnlyBuffer(s1);
      OnlyBufferStays(c, s1, es[1..]);
    }
  }

  /** What is left of the promise: with nothing under way and nobody flushing beside it, Close
      writes the buffer and with that everything. */
  lemma {:induction false} UndividedCloseWritesAll<R(!new)>(c: Config, s: State<R>, es: seq<Event<R>>)
    requires c.Valid() && Reachable(c, s) && OnlyBuffer(s)
    requires Run(c, s, es).Some? && Undisturbed(c, s, es) && FlushFree(es) && CleanClose(Run(c, s, es).value)
    ensures Records(Run(c, s, es).value.written) == multiset(Run(c, s, es).value.log)
  {
    OnlyBufferStays(c, s, es);
    ReachableRun(c, s, es);
    AfterClose(c, Run(c, s, es).value);
  }

  // ----------------------------------------------------------- the code of a call

  /** The writer's shared fields. Each method is one goroutine's call run without
      interruption; `ok` says whether its COPY, if it makes one, succeeds. `s` is the
      state the fields stand for, `t` the calling goroutine, and the events returned
      are the atomic actions the call went through. */
  class Writer<R> {
    const config: Config
    const buffer: RecordBuffer<R>
    var queue: seq<seq<R>>
    var written: seq<seq<R>>
    var failed: seq<seq<R>>

    ghost predicate Matches(s: State<R>)
      reads this, buffer
    {
      && buffer.capacity == config.capacity
      && buffer.records == s.buffer && queue == s.queue && written == s.written && failed == s.failed
    }

    /** The batch of a successful insert joins the rows, that of a failed one is given up. */
    ghost predicate Booked(batch: seq<R>, ok: bool, writtenBefore: seq<seq<R>>, failedBefore: seq<seq<R>>)
      reads this
    {
      if ok then written == writtenBefore + [batch] && failed == failedBefore
      else written == writtenBefore && failed == failedBefore + [batch]
    }

    constructor (capacity: int, fallback: nat, workers: nat, producers: nat)
      requires fallback >= 1
      ensures config.Valid() && config.workers == workers && Matches(Init(config))
    {
      var b := new RecordBuffer<R>(capacity, fallback);
      buffer := b;
      config := Config(b.capacity, workers, producers);
      queue, written, failed := [], [], [];
    }

    /** The select with a default branch: the channel if it has room, else a direct insert. */
    method Submit(batch: seq<R>, ok: bool, ghost s: State<R>, ghost t: nat)
      returns (ghost es: seq<Event<R>>)
      requires Matches(s) && t < |s.threads| && s.threads[t].pc == Offering(batch)
      modifies this
      ensures Run(config, s, es).Some? && Matches(Run(config, s, es).value)
      ensures Run(config, s, es).value.threads == s.threads[t := s.threads[t].(pc := Idle)]
      ensures buffer.records == old(buffer.records)
      ensures if |old(queue)| < config.workers then
                queue == old(queue) + [batch] && written == old(written) && failed == old(failed)
              else queue == old(queue) && Booked(batch, ok, old(written), old(failed))
    {
      ghost var s1 := Next(config, s, Offer(t)).value;
      if |queue| < config.workers {
        queue := queue + [batch];
        es := [Offer(t)];
        assert Run(config, s1, es[1..]) == Some(s1);
      } else {
        if ok {
          written := written + [batch];
        } else {
          failed := failed + [batch];
        }
        es := [Offer(t), Insert(t, ok)];
        RunTwo(config, s, Offer(t), Insert(t, ok));
      }
    }

    method WriteRecord(r: R, ok: bool, ghost s: State<R>, ghost t: nat)
      returns (ghost es: seq<Event<R>>)
      requires Matches(s) && t < |s.threads| && s.threads[t] == Thread(Producer, Idle)
      modifies this, buffer
      ensures es != [] && es[0] == Write(t, r)
      ensures buffer.records == AddTo(old(buffer.records), config.capacity, r).0
      ensures Run(config, s, es).Some? && Matches(Run(config, s, es).value)
      ensures Run(config, s, es).value.threads == s.threads
    {
      ghost var s1 := Next(config, s, Write(t, r)).value;
      var batch := buffer.Add(r);
      es := [];
      if batch != [] {
        es := Submit(batch, ok, s1, t);
      }
      es := [Write(t, r)] + es;
      assert Run(config, s, es) == Run(config, s1, es[1..]);
    }

    method FlushRecords(ok: bool, ghost s: State<R>, ghost t: nat)
      returns (ghost es: seq<Event<R>>)
      requires Matches(s) && t < |s.threads| && s.threads[t].pc.Idle? && !s.threads[t].role.Worker?
      modifies this, buffer
      ensures es != [] && es[0] == Flush(t) && buffer.records == []
      ensures Run(config, s, es).Some? && Matches(Run(config, s, es).value)
      ensures Run(config, s, es).value.threads == s.threads
    {
      ghost var s1 := Next(config, s, Flush(t)).value;
      var batch := buffer.Flush();
      es := [];
      if |batch| > 0 {
        es := Submit(batch, ok, s1, t);
      }
      es := [Flush(t)] + es;
      assert Run(config, s, es) == Run(config, s1, es[1..]);
    }

    /** One turn of a worker's loop that found a batch in the channel. */
    method WorkerTurn(ok: bool, ghost s: State<R>, ghost t: nat)
      returns (ghost es: seq<Event<R>>)
      requires Matches(s) && t < |s.threads| && s.threads[t] == Thread(Worker, Idle)
      requires queue != []
      modifies this
      ensures es != [] && es[0] == Receive(t)
      ensures Run(config, s, es).Some? && Matches(Run(config, s, es).value)
      ensures Run(config, s, es).value.threads == s.threads
      ensures queue == old(queue)[1..]
      ensures if old(queue)[0] == [] then written == old(written) && failed == old(failed)
              else Booked(old(queue)[0], ok, old(written), old(failed))
    {
      ghost var s1 := Next(config, s, Receive(t)).value;
      var batch := queue[0];
      queue := queue[1..];
      if |batch| == 0 {
        es := [Receive(t)];
        assert Run(config, s1, es[1..]) == Some(s1);
        return;
      }
      if ok {
        written := written + [batch];
      } else {
        failed := failed + [batch];
      }
      es := [Receive(t), Insert(t, ok)];
      RunTwo(config, s, Receive(t), Insert(t, ok));
    }

    /** Close up to its wait for the background goroutines. */
    method Close(ok: bool, ghost s: State<R>)
      returns (ghost es: seq<Event<R>>)
      requires Matches(s) && s.closing.Open?
      modifies this, buffer
      ensures Run(config, s, es).Some? && Matches(Run(config, s, es).value)
      ensures Run(config, s, es).value.closing.Waiting? && buffer.records == [] && queue == old(queue)
      ensures if old(buffer.records) == [] then written == old(written) && failed == old(failed)
              else Booked(old(buffer.records), ok, old(written), old(failed))
    {
      RunTwo(config, s, Cancel, CloseStop);
      ghost var s2 := s.(closing := StopClosed);
      ghost var s3 := Next(config, s2, FinalFlush).value;
      var batch := buffer.Flush();
      ghost var last: seq<Event<R>>;
      if |batch| > 0 {
        if ok {
          written := written + [batch];
        } else {
          failed := failed + [batch];
        }
        last := [FinalFlush, FinalInserted(ok)];
        RunTwo(config, s2, FinalFlush, FinalInserted(ok));
      } else {
        last := [FinalFlush];
        assert Run(config, s3, last[1..]) == Some(s3);
      }
      RunConcat(config, s, [Cancel, CloseStop], last);
      es := [Cancel, CloseStop] + last;
    }
  }
}
