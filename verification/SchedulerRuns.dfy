/** The scheduler's guarantees over every interleaving of its steps. */
module SchedulerRuns {
  import opened Collections
  import opened PriorityScheduler
  import opened SchedulerSafety

  ghost predicate Inv(c: Config, s: State) {
    SlotsAccounted(c, s) && Fifo(c, s) && JobsPlaced(s) && Awaited(s)
  }

  /** A step that is not enabled does not happen. */
  function Attempt(c: Config, s: State, e: Step): State {
    if Enabled(c, s, e) then Next(c, s, e) else s
  }

  /** The state after the first n steps from s. */
  function Onward(c: Config, s: State, steps: seq<Step>, n: nat): State
    requires n <= |steps|
  {
    if n == 0 then s else Attempt(c, Onward(c, s, steps, n - 1), steps[n - 1])
  }

  function After(c: Config, steps: seq<Step>, n: nat): State
    requires n <= |steps|
  {
    Onward(c, INITIAL, steps, n)
  }

  lemma HandOffIsPlaced(s: State)
    requires JobsPlaced(s)
    ensures s.pc.HandOff? ==> s.pc.ticket.id !in s.workers
  {
    if s.pc.HandOff? {
      assert JobAt(s, s.pc.ticket.id);
    }
  }

  lemma InvKept(c: Config, s: State, e: Step)
    requires Inv(c, s)
    ensures Inv(c, Attempt(c, s, e))
  {
    if Enabled(c, s, e) {
      HandOffIsPlaced(s);
      forall id ensures JobAt(Next(c, s, e), id) {
        assert JobAt(s, id);
        if e.Work? {
          assert JobAt(s, e.id);
        }
        if s.pc.Discard? {
          assert JobAt(s, s.pc.ticket.id);
        }
        JobKept(c, s, e, id);
      }
      hide JobAt, SlotsAccounted, Fifo, Awaited, Next, Enabled;
      SlotsKept(c, s, e);
      FifoKept(c, s, e);
      AwaitedKept(c, s, e);
    }
  }

  lemma InvInitially(c: Config)
    requires c.Valid()
    ensures Inv(c, INITIAL)
  {
    assert Holding(INITIAL.workers) == {};
  }

  lemma {:induction false} InvOnward(c: Config, s: State, steps: seq<Step>, n: nat)
    requires Inv(c, s) && n <= |steps|
    ensures Inv(c, Onward(c, s, steps, n))
  {
    hide Inv, Attempt;
    if n > 0 {
      InvOnward(c, s, steps, n - 1);
      InvKept(c, Onward(c, s, steps, n - 1), steps[n - 1]);
    }
  }

  lemma InvAlways(c: Config, steps: seq<Step>, n: nat)
    requires c.Valid() && n <= |steps|
    ensures Inv(c, After(c, steps, n))
  {
    hide Inv;
    InvInitially(c);
    InvOnward(c, INITIAL, steps, n);
  }

  // ---- Slots ----

  function RunningJobs(workers: map<nat, Phase>): set<nat> {
    set id | id in workers && workers[id] == Running
  }

  /** No more jobs run at once than there are slots, and no receive from the semaphore ever waits. */
  lemma ConcurrencyCapped(c: Config, steps: seq<Step>, n: nat)
    requires c.Valid() && n <= |steps|
    ensures var s := After(c, steps, n);
            && |RunningJobs(s.workers)| <= c.maxConcurrency
            && s.slots == |Holding(s.workers)| + (if DispatcherHolds(s.pc) then 1 else 0)
            && (s.pc.Release? || s.pc.HandOff? ==> s.slots > 0)
            && forall id :: id in s.workers && s.workers[id].Closed? ==> s.slots > 0
  {
    InvAlways(c, steps, n);
    hide After, Fifo, JobsPlaced, Awaited;
    var s := After(c, steps, n);
    SubsetCount(RunningJobs(s.workers), Holding(s.workers));
    forall id | id in s.workers && s.workers[id].Closed? ensures s.slots > 0 {
      assert id in Holding(s.workers);
    }
  }

  /** Having given its slot back, the dispatcher always finds one free: nobody else takes slots. */
  lemma ReacquireNeverWaits(c: Config, steps: seq<Step>, n: nat)
    requires c.Valid() && n <= |steps| && After(c, steps, n).pc.Reacquire?
    ensures Enabled(c, After(c, steps, n), Dispatch(OnSlot))
  {
    InvAlways(c, steps, n);
    hide After, Fifo, JobsPlaced, Awaited;
  }

  // ---- Jobs ----

  function One(b: bool): nat {
    if b then 1 else 0
  }

  lemma PlacedOnce(c: Config, s: State, id: nat)
    requires Fifo(c, s) && JobAt(s, id)
    ensures One(id in s.high) + One(id in s.low) + One(InHand(s.pc, id)) + One(id in s.workers) + One(id in s.retired)
            == One(id in s.highIn || id in s.lowIn)
  {
    assert id in s.highIn <==> id in s.highOut || id in s.high;
    assert id in s.lowIn <==> id in s.lowOut || id in s.low;
    if id in s.high {
      var i :| 0 <= i < |s.high| && s.high[i] == id;
      assert s.highIn[|s.highOut| + i] == id;
      assert forall k :: 0 <= k < |s.highOut| ==> s.highOut[k] == s.highIn[k];
    }
    if id in s.low {
      var i :| 0 <= i < |s.low| && s.low[i] == id;
      assert s.lowIn[|s.lowOut| + i] == id;
      assert forall k :: 0 <= k < |s.lowOut| ==> s.lowOut[k] == s.lowIn[k];
    }
  }

  /**
    Every accepted job is in exactly one place; it starts at most once and its
    done channel closes at most once, without a start only after the job was
    canceled or the scheduler stopped.
   */
  lemma JobsConserved(c: Config, steps: seq<Step>, n: nat, id: nat)
    requires c.Valid() && n <= |steps|
    ensures var s := After(c, steps, n);
            && One(id in s.high) + One(id in s.low) + One(InHand(s.pc, id)) + One(id in s.workers) + One(id in s.retired)
               == One(id in s.highIn || id in s.lowIn)
            && s.starts[id] <= 1 && s.closes[id] <= 1
            && (id in s.retired ==> s.closes[id] == 1)
            && (s.starts[id] == 1 ==> id in s.workers || id in s.retired)
            && (s.closes[id] == 1 ==> s.starts[id] == 1 || id in s.expired || s.stopped)
  {
    InvAlways(c, steps, n);
    var s := After(c, steps, n);
    assert JobAt(s, id);
    hide After, SlotsAccounted, Awaited, JobsPlaced;
    PlacedOnce(c, s, id);
  }

  /** How far a job has come. */
  function Stage(s: State, id: nat): nat {
    if id in s.retired then 4
    else if id in s.workers then 3
    else if InHand(s.pc, id) then 2
    else if id in s.highIn || id in s.lowIn then 1
    else 0
  }

  lemma StageKeptDispatching(c: Config, s: State, on: Case, id: nat)
    requires DispatchEnabled(c, s, on) && Placed(s, id) && (InHand(s.pc, id) ==> id in s.highIn || id in s.lowIn)
    ensures Stage(AfterDispatch(c, s, on), id) >= Stage(s, id)
  {
    hide Taken;
  }

  lemma StageKeptWorking(s: State, worker: nat, id: nat)
    requires worker in s.workers && (s.workers[worker].Closed? ==> s.slots > 0)
    ensures Stage(AfterWork(s, worker), id) >= Stage(s, id)
  {
  }

  lemma StageKept(c: Config, s: State, e: Step, id: nat)
    requires Enabled(c, s, e) && JobAt(s, id) && (InHand(s.pc, id) ==> id in s.highIn || id in s.lowIn)
    ensures Stage(Next(c, s, e), id) >= Stage(s, id)
  {
    hide AfterDispatch, AfterWork, DispatchEnabled, Taken, OnceAt;
    match e
    case Dispatch(on) => StageKeptDispatching(c, s, on, id);
    case Work(worker) => StageKeptWorking(s, worker, id);
    case _ =>
  }

  lemma {:induction false} ForwardOnward(c: Config, s: State, steps: seq<Step>, n: nat, id: nat)
    requires Inv(c, s) && n <= |steps|
    ensures Stage(s, id) <= Stage(Onward(c, s, steps, n), id)
  {
    hide Stage, Next, Enabled, Inv;
    if n > 0 {
      ForwardOnward(c, s, steps, n - 1, id);
      InvOnward(c, s, steps, n - 1);
      StageForward(c, Onward(c, s, steps, n - 1), steps[n - 1], id);
    }
  }

  lemma StageForward(c: Config, s: State, e: Step, id: nat)
    requires Inv(c, s)
    ensures Stage(s, id) <= Stage(Attempt(c, s, e), id)
  {
    hide Stage, Next, Enabled;
    if Enabled(c, s, e) {
      assert JobAt(s, id);
      AcceptedInHand(c, s, id);
      StageKept(c, s, e, id);
    }
  }

  /** A run that goes on from where another ended. */
  lemma {:induction false} RunsSplit(c: Config, s: State, steps: seq<Step>, more: seq<Step>, n: nat)
    requires n <= |more|
    ensures Onward(c, s, steps + more, |steps| + n) == Onward(c, Onward(c, s, steps, |steps|), more, n)
  {
    hide Attempt;
    if n == 0 {
      SameSteps(c, s, steps, steps + more, |steps|);
    } else {
      RunsSplit(c, s, steps, more, n - 1);
      assert (steps + more)[|steps| + n - 1] == more[n - 1];
    }
  }

  lemma {:induction false} SameSteps(c: Config, s: State, a: seq<Step>, b: seq<Step>, n: nat)
    requires n <= |a| && n <= |b| && forall i :: 0 <= i < n ==> a[i] == b[i]
    ensures Onward(c, s, a, n) == Onward(c, s, b, n)
  {
    hide Attempt;
    if n > 0 {
      SameSteps(c, s, a, b, n - 1);
    }
  }

  /** Jobs only move forward. */
  lemma JobsMoveForward(c: Config, steps: seq<Step>, m: nat, n: nat, id: nat)
    requires c.Valid() && m <= n <= |steps|
    ensures Stage(After(c, steps, m), id) <= Stage(After(c, steps, n), id)
  {
    hide Onward, Stage, Inv;
    InvAlways(c, steps, m);
    RunsSplit(c, INITIAL, steps[..m], steps[m..], n - m);
    assert steps[..m] + steps[m..] == steps;
    SameSteps(c, INITIAL, steps[..m], steps, m);
    ForwardOnward(c, After(c, steps, m), steps[m..], n - m, id);
  }

  lemma AcceptedInHand(c: Config, s: State, id: nat)
    requires Fifo(c, s) && JobAt(s, id)
    ensures InHand(s.pc, id) ==> id in s.highIn || id in s.lowIn
  {
  }

  /** Each class leaves its queue in the order it was submitted. */
  lemma DequeuedInOrder(c: Config, steps: seq<Step>, n: nat)
    requires c.Valid() && n <= |steps|
    ensures var s := After(c, steps, n);
            s.highOut <= s.highIn && s.lowOut <= s.lowIn && s.highIn[|s.highOut|..] == s.high && s.lowIn[|s.lowOut|..] == s.low
  {
    InvAlways(c, steps, n);
    hide After;
  }

  /** When Stop's wait returns, nothing is left that could still move or start a job. */
  lemma StopDrains(c: Config, steps: seq<Step>, n: nat, e: Step)
    requires c.Valid() && n <= |steps| && After(c, steps, n).wg == 0 && (e.Dispatch? || e.Work?)
    ensures After(c, steps, n).pc.Halted? && After(c, steps, n).workers == map[]
    ensures !Enabled(c, After(c, steps, n), e)
  {
    InvAlways(c, steps, n);
    hide After, SlotsAccounted, Fifo, JobsPlaced;
  }

  // ---- Priority ----

  /** The step hands a low-priority job to a worker. */
  predicate HandsLow(c: Config, s: State, e: Step) {
    Enabled(c, s, e) && e.Dispatch? && s.pc.HandOff? && !s.pc.ticket.high && s.pc.ticket.id !in s.expired
  }

  /** Low-priority jobs handed to workers in the first n steps from s. */
  function Handed(c: Config, s: State, steps: seq<Step>, n: nat): nat
    requires n <= |steps|
  {
    if n == 0 then 0 else Handed(c, s, steps, n - 1) + One(HandsLow(c, Onward(c, s, steps, n - 1), steps[n - 1]))
  }

  /**
    The dispatcher has looked past the high queue and is free to take a low job
    that is not canceled, or holds one.
   */
  predicate Exposed(s: State) {
    match s.pc
    case PollBoth => s.low == [] || s.low[0] !in s.expired
    case DequeueWait => s.low == [] || s.low[0] !in s.expired
    case Reacquire(t) => !t.high && t.id !in s.expired
    case HandOff(t) => !t.high && t.id !in s.expired
    case _ => false
  }

  lemma DispatchExposes(c: Config, s: State, on: Case)
    requires s.high != [] && DispatchEnabled(c, s, on)
    ensures One(HandsLow(c, s, Dispatch(on))) + One(Exposed(AfterDispatch(c, s, on))) <= One(Exposed(s))
  {
  }

  /** While a high job is queued, a step that hands out a low one uses up the exposure, and no step creates any. */
  lemma StepExposes(c: Config, s: State, e: Step)
    requires s.high != []
    ensures One(HandsLow(c, s, e)) + One(Exposed(Attempt(c, s, e))) <= One(Exposed(s))
  {
    hide AfterDispatch, DispatchEnabled;
    match e
    case Dispatch(on) =>
      if Enabled(c, s, e) {
        DispatchExposes(c, s, on);
      }
    case _ =>
  }

  lemma {:induction false} OvertakenWhileWaiting(c: Config, s: State, steps: seq<Step>, n: nat)
    requires n <= |steps| && forall k :: 0 <= k <= n ==> Onward(c, s, steps, k).high != []
    ensures Handed(c, s, steps, n) + One(Exposed(Onward(c, s, steps, n))) <= One(Exposed(s))
  {
    hide Attempt, Exposed, HandsLow;
    if n > 0 {
      OvertakenWhileWaiting(c, s, steps, n - 1);
      StepExposes(c, Onward(c, s, steps, n - 1), steps[n - 1]);
    }
  }

  lemma StageQueued(c: Config, s: State, id: nat)
    requires Inv(c, s)
    ensures id in s.high <==> Stage(s, id) == 1 && id in s.highIn
  {
    hide SlotsAccounted, Awaited;
    assert JobAt(s, id);
    PlacedOnce(c, s, id);
    assert id in s.high ==> id in s.highIn;
    assert id in s.low ==> id in s.lowIn;
  }

  lemma HistoryGrows(c: Config, s: State, e: Step)
    ensures s.highIn <= Attempt(c, s, e).highIn
  {
  }

  lemma {:induction false} SubmissionsKept(c: Config, s: State, steps: seq<Step>, n: nat)
    requires n <= |steps|
    ensures s.highIn <= Onward(c, s, steps, n).highIn
  {
    hide Attempt;
    if n > 0 {
      SubmissionsKept(c, s, steps, n - 1);
      HistoryGrows(c, Onward(c, s, steps, n - 1), steps[n - 1]);
    }
  }

  /** A job that is queued at the start and still after n steps was queued all along. */
  lemma QueuedThroughout(c: Config, s: State, steps: seq<Step>, k: nat, n: nat, id: nat)
    requires Inv(c, s) && k <= n <= |steps|
    requires id in s.high && id in Onward(c, s, steps, n).high
    ensures id in Onward(c, s, steps, k).high
  {
    hide Onward, Stage, Inv;
    var now, end := Onward(c, s, steps, k), Onward(c, s, steps, n);
    InvOnward(c, s, steps, k);
    InvOnward(c, s, steps, n);
    ForwardOnward(c, s, steps, k, id);
    RunsSplit(c, s, steps[..k], steps[k..], n - k);
    assert steps[..k] + steps[k..] == steps;
    SameSteps(c, s, steps[..k], steps, k);
    ForwardOnward(c, now, steps[k..], n - k, id);
    StageQueued(c, s, id);
    StageQueued(c, now, id);
    StageQueued(c, end, id);
    SubmissionsKept(c, s, steps, k);
    var i :| 0 <= i < |s.highIn| && s.highIn[i] == id;
    assert now.highIn[i] == id;
  }

  /**
    Bounded overtaking: in every interleaving, from the moment a high-priority
    job is queued until it is dequeued, at most one low-priority job is handed
    to a worker, and none unless the dispatcher was exposed as it arrived.
   */
  lemma AtMostOneOvertakes(c: Config, steps: seq<Step>, more: seq<Step>, n: nat, id: nat)
    requires c.Valid() && n <= |more|
    requires var s := After(c, steps, |steps|); id in s.high && id in Onward(c, s, more, n).high
    ensures var s := After(c, steps, |steps|); Handed(c, s, more, n) <= One(Exposed(s)) <= 1
  {
    hide Onward, Handed, Exposed, Inv;
    InvAlways(c, steps, |steps|);
    var s := After(c, steps, |steps|);
    forall k | 0 <= k <= n ensures Onward(c, s, more, k).high != [] {
      QueuedThroughout(c, s, more, k, n, id);
    }
    OvertakenWhileWaiting(c, s, more, n);
  }

  /** Along these steps a low job is handed to a worker while the high job waits. */
  ghost predicate Overtaking(c: Config, s: State, more: seq<Step>, id: nat) {
    id in Onward(c, s, more, |more|).high && Handed(c, s, more, |more|) >= 1
  }

  /** The first step and the rest of a run. */
  lemma {:induction false} FirstStep(c: Config, s: State, e: Step, more: seq<Step>, n: nat)
    requires n <= |more|
    ensures Onward(c, s, [e] + more, n + 1) == Onward(c, Attempt(c, s, e), more, n)
    ensures Handed(c, s, [e] + more, n + 1) == One(HandsLow(c, s, e)) + Handed(c, Attempt(c, s, e), more, n)
  {
    hide Attempt, HandsLow;
    if n == 0 {
      assert Onward(c, s, [e] + more, 0) == s && Handed(c, s, [e] + more, 0) == 0;
    } else {
      FirstStep(c, s, e, more, n - 1);
      assert ([e] + more)[n] == more[n - 1];
    }
  }

  lemma OvertakingAfter(c: Config, s: State, e: Step, more: seq<Step>, id: nat)
    requires Overtaking(c, Attempt(c, s, e), more, id)
    ensures Overtaking(c, s, [e] + more, id)
  {
    hide Attempt, HandsLow, Onward, Handed;
    FirstStep(c, s, e, more, |more|);
  }

  lemma OvertakesFromHandOff(c: Config, s: State, id: nat) returns (more: seq<Step>)
    requires s.pc.HandOff? && Exposed(s) && id in s.high
    ensures Overtaking(c, s, more, id)
  {
    more := [Dispatch(OnDefault)];
    assert Onward(c, s, more, 1) == Attempt(c, Onward(c, s, more, 0), more[0]) == Attempt(c, s, more[0]);
    assert Handed(c, s, more, 1) == Handed(c, s, more, 0) + One(HandsLow(c, Onward(c, s, more, 0), more[0]));
  }

  lemma OvertakesFromReacquire(c: Config, s: State, id: nat) returns (more: seq<Step>)
    requires s.pc.Reacquire? && Exposed(s) && id in s.high && s.slots < c.maxConcurrency
    ensures Overtaking(c, s, more, id)
  {
    hide Overtaking;
    var e := Dispatch(OnSlot);
    var rest := OvertakesFromHandOff(c, Attempt(c, s, e), id);
    OvertakingAfter(c, s, e, rest, id);
    more := [e] + rest;
  }

  lemma OvertakesFromSelect(c: Config, s: State, id: nat) returns (more: seq<Step>)
    requires (s.pc.PollBoth? || (s.pc.DequeueWait? && s.slots < c.maxConcurrency)) && Exposed(s) && id in s.high && s.low != []
    ensures Overtaking(c, s, more, id)
  {
    hide Overtaking;
    var e, rest := Dispatch(OnLow), [];
    if s.pc.PollBoth? {
      rest := OvertakesFromHandOff(c, Attempt(c, s, e), id);
    } else {
      rest := OvertakesFromReacquire(c, Attempt(c, s, e), id);
    }
    OvertakingAfter(c, s, e, rest, id);
    more := [e] + rest;
  }

  lemma OvertakesFromExposed(c: Config, s: State, id: nat) returns (more: seq<Step>)
    requires c.Valid() && Inv(c, s) && Exposed(s) && id in s.high
    ensures Overtaking(c, s, more, id)
  {
    hide Overtaking, Fifo, JobsPlaced, Awaited;
    if s.pc.HandOff? {
      more := OvertakesFromHandOff(c, s, id);
    } else if s.pc.Reacquire? {
      more := OvertakesFromReacquire(c, s, id);
    } else if s.low != [] {
      more := OvertakesFromSelect(c, s, id);
    } else {
      var job := FreshNat(Elements(s.highIn) + Elements(s.lowIn) + s.expired);
      var e := Submit(job, false);
      var rest := OvertakesFromSelect(c, Attempt(c, s, e), id);
      OvertakingAfter(c, s, e, rest, id);
      more := [e] + rest;
    }
  }

  /**
    Exactly when: in any reachable state with a high job in its queue, some
    continuation hands a low job to a worker before that high job is dequeued
    if and only if the dispatcher is exposed.
   */
  lemma OvertakenIffExposed(c: Config, steps: seq<Step>, id: nat)
    requires c.Valid() && id in After(c, steps, |steps|).high
    ensures var s := After(c, steps, |steps|); (exists more :: Overtaking(c, s, more, id)) <==> Exposed(s)
  {
    hide Onward, Handed, Exposed, Inv;
    var s := After(c, steps, |steps|);
    InvAlways(c, steps, |steps|);
    if Exposed(s) {
      var more := OvertakesFromExposed(c, s, id);
    }
    if more :| Overtaking(c, s, more, id) {
      AtMostOneOvertakes(c, steps, more, |more|, id);
    }
  }

  const LATE_ARRIVAL := [Dispatch(OnSlot), Dispatch(OnDefault), Submit(0, false), Submit(1, true)]

  /** Such states are reached: the high queue looked empty, and a high job came before the second select. */
  lemma OneCanOvertake(c: Config)
    requires c.Valid()
    ensures var s := After(c, LATE_ARRIVAL, 4); 1 in s.high && Exposed(s)
  {
    var steps := LATE_ARRIVAL;
    assert Onward(c, INITIAL, steps, 0) == INITIAL;
    hide Onward;
    OnwardStep(c, INITIAL, steps, 0);
    OnwardStep(c, INITIAL, steps, 1);
    OnwardStep(c, INITIAL, steps, 2);
    OnwardStep(c, INITIAL, steps, 3);
    var s1 := INITIAL.(pc := PollHigh, slots := 1);
    assert Onward(c, INITIAL, steps, 1) == s1;
    var s2 := s1.(pc := PollBoth);
    assert Onward(c, INITIAL, steps, 2) == s2;
    var s3 := s2.(low := [0], lowIn := [0]);
    assert Onward(c, INITIAL, steps, 3) == s3;
    assert Onward(c, INITIAL, steps, 4) == s3.(high := [1], highIn := [1]);
  }

  lemma OnwardStep(c: Config, s: State, steps: seq<Step>, n: nat)
    requires n < |steps|
    ensures Onward(c, s, steps, n + 1) == Attempt(c, Onward(c, s, steps, n), steps[n])
  {
  }
}
