/** What every step of the scheduler keeps: slots, queues, jobs, starts and closes. */
module SchedulerSafety {
  import opened Collections
  import opened PriorityScheduler

  // ---- Slots ----

  function Holding(workers: map<nat, Phase>): set<nat> {
    set id | id in workers && workers[id] != Freed
  }

  predicate DispatcherHolds(pc: PC) {
    pc.PollHigh? || pc.PollBoth? || pc.Release? || pc.HandOff?
  }

  /** Between giving a slot back and taking one again. */
  predicate SlotReturned(pc: PC) {
    pc.DequeueHigh? || pc.DequeueWait? || pc.Reacquire?
  }

  ghost predicate SlotsAccounted(c: Config, s: State) {
    && s.slots == |Holding(s.workers)| + (if DispatcherHolds(s.pc) then 1 else 0)
    && s.slots <= c.maxConcurrency
    && (SlotReturned(s.pc) ==> s.slots < c.maxConcurrency)
  }

  lemma HoldingChange(workers: map<nat, Phase>, id: nat, phase: Phase)
    requires phase != Freed
    ensures |Holding(workers[id := phase])| == |Holding(workers)| + if id in Holding(workers) then 0 else 1
  {
    var updated := workers[id := phase];
    if id in Holding(workers) {
      assert Holding(updated) == Holding(workers);
    } else {
      assert Holding(updated) == Holding(workers) + {id};
    }
  }

  lemma HoldingFreed(workers: map<nat, Phase>, id: nat)
    requires id in Holding(workers)
    ensures |Holding(workers[id := Freed])| == |Holding(workers)| - 1
  {
    assert Holding(workers[id := Freed]) == Holding(workers) - {id};
  }

  lemma HoldingGone(workers: map<nat, Phase>, id: nat)
    requires id in workers && workers[id] == Freed
    ensures Holding(workers - {id}) == Holding(workers)
  {
  }

  lemma SlotsKeptDispatching(c: Config, s: State, on: Case)
    requires SlotsAccounted(c, s) && DispatchEnabled(c, s, on)
    requires s.pc.HandOff? ==> s.pc.ticket.id !in s.workers
    ensures SlotsAccounted(c, AfterDispatch(c, s, on))
  {
    hide Holding;
    if s.pc.HandOff? {
      NotHolding(s.workers, s.pc.ticket.id);
      HoldingChange(s.workers, s.pc.ticket.id, Spawned);
    }
  }

  lemma SlotsKeptWorking(c: Config, s: State, id: nat)
    requires SlotsAccounted(c, s) && Enabled(c, s, Work(id))
    ensures SlotsAccounted(c, AfterWork(s, id))
  {
    hide Holding;
    IsHolding(s.workers, id);
    match s.workers[id]
    case Spawned => HoldingChange(s.workers, id, Running); HoldingChange(s.workers, id, Returned);
    case Running => HoldingChange(s.workers, id, Returned);
    case Returned => HoldingChange(s.workers, id, Closed);
    case Closed => HoldingFreed(s.workers, id);
    case Freed => HoldingGone(s.workers, id);
  }

  lemma SlotsKept(c: Config, s: State, e: Step)
    requires SlotsAccounted(c, s) && Enabled(c, s, e)
    requires s.pc.HandOff? ==> s.pc.ticket.id !in s.workers
    ensures SlotsAccounted(c, Next(c, s, e))
  {
    hide Holding, AfterDispatch, AfterWork, DispatchEnabled;
    match e
    case Dispatch(on) => SlotsKeptDispatching(c, s, on);
    case Work(id) => SlotsKeptWorking(c, s, id);
    case _ =>
  }

  lemma NotHolding(workers: map<nat, Phase>, id: nat)
    requires id !in workers
    ensures id !in Holding(workers)
  {
  }

  lemma IsHolding(workers: map<nat, Phase>, id: nat)
    requires id in workers
    ensures id in Holding(workers) <==> workers[id] != Freed
  {
  }

  // ---- Queues ----

  /** Jobs leave each queue in the order they entered it, and no job enters twice. */
  ghost predicate Fifo(c: Config, s: State) {
    && s.highIn == s.highOut + s.high && s.lowIn == s.lowOut + s.low
    && NoDuplicates(s.highIn) && NoDuplicates(s.lowIn)
    && (forall id :: id in s.highIn ==> id !in s.lowIn)
    && |s.high| <= c.queueSize && |s.low| <= c.queueSize
  }

  lemma FifoKeptSubmitting(c: Config, s: State, id: nat, high: bool)
    requires Fifo(c, s) && Enabled(c, s, Submit(id, high))
    ensures Fifo(c, Next(c, s, Submit(id, high)))
  {
    assert s.highOut + (s.high + [id]) == s.highIn + [id];
    assert s.lowOut + (s.low + [id]) == s.lowIn + [id];
  }

  lemma FifoKeptTaking(c: Config, s: State, hold: bool)
    requires Fifo(c, s)
    ensures s.high != [] ==> Fifo(c, TakeHigh(s, hold))
    ensures s.low != [] ==> Fifo(c, TakeLow(s, hold))
  {
    if s.high != [] {
      assert s.highOut + s.high == s.highOut + [s.high[0]] + s.high[1..];
    }
    if s.low != [] {
      assert s.lowOut + s.low == s.lowOut + [s.low[0]] + s.low[1..];
    }
  }

  lemma FifoUntouched(c: Config, s: State, s': State)
    requires Fifo(c, s) && s'.high == s.high && s'.low == s.low && s'.highIn == s.highIn && s'.lowIn == s.lowIn
    requires s'.highOut == s.highOut && s'.lowOut == s.lowOut
    ensures Fifo(c, s')
  {
  }

  lemma FifoKeptDispatching(c: Config, s: State, on: Case)
    requires Fifo(c, s) && DispatchEnabled(c, s, on)
    ensures Fifo(c, AfterDispatch(c, s, on))
  {
    hide Fifo;
    if on.OnHigh? {
      FifoKeptTaking(c, s, s.pc.PollHigh? || s.pc.PollBoth?);
    } else if on.OnLow? {
      FifoKeptTaking(c, s, s.pc.PollBoth?);
    } else {
      FifoUntouched(c, s, AfterDispatch(c, s, on));
    }
  }

  lemma FifoKept(c: Config, s: State, e: Step)
    requires Fifo(c, s) && Enabled(c, s, e)
    ensures Fifo(c, Next(c, s, e))
  {
    hide Fifo, AfterDispatch, DispatchEnabled;
    match e
    case Submit(id, high) => FifoKeptSubmitting(c, s, id, high);
    case Dispatch(on) => FifoKeptDispatching(c, s, on);
    case _ => FifoUntouched(c, s, Next(c, s, e));
  }

  // ---- Jobs ----

  predicate Taken(s: State, id: nat) {
    id in s.highOut || id in s.lowOut
  }

  predicate InHand(pc: PC, id: nat) {
    (pc.Reacquire? || pc.HandOff? || pc.Discard?) && pc.ticket.id == id
  }

  /** A job taken from a queue is in exactly one of the dispatcher's hand, a worker, or retired; no other job is. */
  ghost predicate Placed(s: State, id: nat) {
    && (Taken(s, id) <==> InHand(s.pc, id) || id in s.workers || id in s.retired)
    && (InHand(s.pc, id) ==> id !in s.workers && id !in s.retired)
    && (id in s.workers ==> id !in s.retired)
  }

  /** Starts and closes agree with how far the job has come. */
  ghost predicate OnceAt(s: State, id: nat) {
    && s.starts[id] <= 1
    && (s.starts[id] == 1 ==> id in s.retired || (id in s.workers && !s.workers[id].Spawned?))
    && (id in s.workers && s.workers[id].Running? ==> s.starts[id] == 1)
    && s.closes[id] == if id in s.retired || (id in s.workers && (s.workers[id].Closed? || s.workers[id].Freed?)) then 1 else 0
  }

  /** A job that is over, or about to be dropped, has run unless it was canceled or the scheduler stopped. */
  ghost predicate ExcusedAt(s: State, id: nat) {
    && (s.closes[id] == 1 || (id in s.workers && s.workers[id].Returned?) ==> s.starts[id] == 1 || id in s.expired || s.stopped)
    && (s.pc.Discard? && s.pc.ticket.id == id ==> id in s.expired)
  }

  ghost predicate JobAt(s: State, id: nat) {
    Placed(s, id) && OnceAt(s, id) && ExcusedAt(s, id)
  }

  ghost predicate JobsPlaced(s: State) {
    forall id :: JobAt(s, id)
  }

  lemma TakenFresh(c: Config, s: State)
    requires Fifo(c, s)
    ensures s.high != [] ==> !Taken(s, s.high[0])
    ensures s.low != [] ==> !Taken(s, s.low[0])
  {
    if s.high != [] {
      assert s.highIn[|s.highOut|] == s.high[0];
      assert forall i :: 0 <= i < |s.highOut| ==> s.highOut[i] == s.highIn[i];
      assert forall i :: 0 <= i < |s.lowOut| ==> s.lowOut[i] in s.lowIn;
    }
    if s.low != [] {
      assert s.lowIn[|s.lowOut|] == s.low[0];
      assert forall i :: 0 <= i < |s.lowOut| ==> s.lowOut[i] == s.lowIn[i];
      assert forall i :: 0 <= i < |s.highOut| ==> s.highOut[i] in s.highIn;
    }
  }

  lemma JobKeptTaking(s: State, hold: bool, id: nat)
    requires JobAt(s, id) && !InHand(s.pc, id)
    ensures s.high != [] && !Taken(s, s.high[0]) ==> JobAt(TakeHigh(s, hold), id)
    ensures s.low != [] && !Taken(s, s.low[0]) ==> JobAt(TakeLow(s, hold), id)
  {
  }

  lemma JobKeptClosing(s: State, pc: PC, id: nat)
    requires JobAt(s, id) && (s.pc.Reacquire? || s.pc.HandOff? || s.pc.Discard?) && !InHand(pc, id)
    requires !pc.Discard? && (s.pc.ticket.id in s.expired || s.stopped)
    ensures JobAt(Close(s, s.pc.ticket.id, pc), id)
  {
  }

  lemma JobKeptMoving(s: State, pc: PC, slots: nat, wg: int, id: nat)
    requires JobAt(s, id) && (InHand(pc, id) <==> InHand(s.pc, id))
    requires pc.Discard? ==> pc.ticket.id in s.expired
    ensures JobAt(s.(pc := pc, slots := slots, wg := wg), id)
  {
  }

  lemma JobKeptSpawning(s: State, id: nat)
    requires JobAt(s, id) && s.pc.HandOff?
    ensures JobAt(s.(pc := Acquire, workers := s.workers[s.pc.ticket.id := Spawned], wg := s.wg + 1), id)
  {
  }

  lemma JobKeptRetiring(s: State, worker: nat, id: nat)
    requires worker in s.workers && s.workers[worker].Freed? && JobAt(s, id) && JobAt(s, worker)
    ensures JobAt(AfterWork(s, worker), id)
  {
  }

  lemma JobKeptStarting(s: State, worker: nat, id: nat)
    requires worker in s.workers && s.workers[worker].Spawned? && JobAt(s, id) && JobAt(s, worker)
    ensures JobAt(AfterWork(s, worker), id)
  {
  }

  lemma JobKeptReturning(s: State, worker: nat, id: nat)
    requires worker in s.workers && (s.workers[worker].Running? || s.workers[worker].Returned?) && JobAt(s, id) && JobAt(s, worker)
    ensures JobAt(AfterWork(s, worker), id)
  {
  }

  lemma JobKeptWorking(s: State, worker: nat, id: nat)
    requires worker in s.workers && (s.workers[worker].Closed? ==> s.slots > 0)
    requires JobAt(s, id) && JobAt(s, worker)
    ensures JobAt(AfterWork(s, worker), id)
  {
    match s.workers[worker]
    case Freed => JobKeptRetiring(s, worker, id);
    case Spawned => JobKeptStarting(s, worker, id);
    case Running => JobKeptReturning(s, worker, id);
    case Returned => JobKeptReturning(s, worker, id);
    case Closed =>
  }

  lemma DroppedIsExcused(s: State)
    requires s.pc.Discard? && JobAt(s, s.pc.ticket.id)
    ensures s.pc.ticket.id in s.expired
  {
  }

  lemma JobKeptDispatching(c: Config, s: State, on: Case, id: nat)
    requires DispatchEnabled(c, s, on) && JobAt(s, id)
    requires s.pc.Discard? ==> JobAt(s, s.pc.ticket.id)
    requires s.high != [] ==> !Taken(s, s.high[0])
    requires s.low != [] ==> !Taken(s, s.low[0])
    ensures JobAt(AfterDispatch(c, s, on), id)
  {
    hide Taken, Placed, OnceAt, ExcusedAt, JobAt;
    if on.OnHigh? {
      JobKeptTaking(s, s.pc.PollHigh? || s.pc.PollBoth?, id);
    } else if on.OnLow? {
      JobKeptTaking(s, s.pc.PollBoth?, id);
    } else if s.pc.Discard? {
      DroppedIsExcused(s);
      JobKeptClosing(s, Acquire, id);
    } else if s.pc.HandOff? && s.pc.ticket.id !in s.expired {
      JobKeptSpawning(s, id);
    } else if s.pc.Reacquire? && on.OnStop? {
      JobKeptClosing(s, Halted, id);
      JobKeptMoving(Close(s, s.pc.ticket.id, Halted), Halted, s.slots, s.wg - 1, id);
    } else {
      var s' := AfterDispatch(c, s, on);
      JobKeptMoving(s, s'.pc, s'.slots, s'.wg, id);
    }
  }

  lemma JobKept(c: Config, s: State, e: Step, id: nat)
    requires Fifo(c, s) && Enabled(c, s, e) && JobAt(s, id)
    requires e.Work? ==> JobAt(s, e.id)
    requires s.pc.Discard? ==> JobAt(s, s.pc.ticket.id)
    ensures JobAt(Next(c, s, e), id)
  {
    TakenFresh(c, s);
    hide Fifo, Taken, AfterDispatch, AfterWork, DispatchEnabled;
    match e
    case Work(worker) => JobKeptWorking(s, worker, id);
    case Dispatch(on) => JobKeptDispatching(c, s, on, id);
    case _ =>
  }

  // ---- The wait group ----

  ghost predicate Awaited(s: State) {
    s.wg == |s.workers| + if s.pc.Halted? then 0 else 1
  }

  lemma WorkersCount(workers: map<nat, Phase>, id: nat, phase: Phase)
    ensures |workers[id := phase]| == |workers| + if id in workers then 0 else 1
    ensures id in workers ==> |workers - {id}| == |workers| - 1
  {
    assert workers[id := phase].Keys == workers.Keys + {id};
    assert (workers - {id}).Keys == workers.Keys - {id};
  }

  lemma AwaitedKeptDispatching(c: Config, s: State, on: Case)
    requires Awaited(s) && DispatchEnabled(c, s, on) && (s.pc.HandOff? ==> s.pc.ticket.id !in s.workers)
    ensures Awaited(AfterDispatch(c, s, on))
  {
    if s.pc.HandOff? {
      WorkersCount(s.workers, s.pc.ticket.id, Spawned);
    }
  }

  lemma AwaitedKeptWorking(c: Config, s: State, id: nat)
    requires Awaited(s) && Enabled(c, s, Work(id))
    ensures Awaited(AfterWork(s, id))
  {
    WorkersCount(s.workers, id, match s.workers[id]
                                case Spawned => if id in s.expired then Returned else Running
                                case Running => Returned
                                case Returned => Closed
                                case _ => Freed);
  }

  lemma AwaitedKept(c: Config, s: State, e: Step)
    requires Awaited(s) && Enabled(c, s, e) && (s.pc.HandOff? ==> s.pc.ticket.id !in s.workers)
    ensures Awaited(Next(c, s, e))
  {
    hide AfterDispatch, AfterWork, DispatchEnabled;
    match e
    case Work(id) => AwaitedKeptWorking(c, s, id);
    case Dispatch(on) => AwaitedKeptDispatching(c, s, on);
    case _ =>
  }
}
