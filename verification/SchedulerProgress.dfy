/**
  What the scheduler gets done: when its dispatcher can move, that it fills
  every slot, and that every schedule drains what was accepted.
 */
module SchedulerProgress {
  import opened Collections
  import opened PriorityScheduler
  import opened SchedulerSafety
  import opened SchedulerRuns

  // ---- Work conservation ----

  /** Some case of the dispatcher's current select is ready. */
  ghost predicate CanDispatch(c: Config, s: State) {
    exists on :: DispatchEnabled(c, s, on)
  }

  /**
    In every reachable state the dispatcher is held up exactly when it has
    halted, when it waits for a slot and all of them are taken by workers, or
    when it waits for a job and both queues are empty; a stop ends either wait.
   */
  lemma DispatcherBlockedIff(c: Config, steps: seq<Step>, n: nat)
    requires c.Valid() && n <= |steps|
    ensures var s := After(c, steps, n);
            !CanDispatch(c, s) <==>
              || s.pc.Halted?
              || (s.pc.Acquire? && !s.stopped && |Holding(s.workers)| == c.maxConcurrency)
              || (s.pc.DequeueWait? && !s.stopped && s.high == [] && s.low == [])
  {
    InvAlways(c, steps, n);
    hide After, Fifo, JobsPlaced, Awaited, Holding;
    var s := After(c, steps, n);
    if CanDispatch(c, s) {
      var on :| DispatchEnabled(c, s, on);
    } else {
      assert !DispatchEnabled(c, s, OnStop) && !DispatchEnabled(c, s, OnSlot) && !DispatchEnabled(c, s, OnHigh);
      assert !DispatchEnabled(c, s, OnLow) && !DispatchEnabled(c, s, OnDefault);
    }
  }

  /**
    Work conservation: with a job queued, or a stop to heed, and a slot that no
    worker holds, the dispatcher has a step that changes the state.
   */
  lemma WorkConserving(c: Config, steps: seq<Step>, n: nat)
    requires c.Valid() && n <= |steps|
    requires var s := After(c, steps, n);
             && !s.pc.Halted? && (s.high != [] || s.low != [] || s.stopped)
             && |Holding(s.workers)| < c.maxConcurrency
    ensures var s := After(c, steps, n); exists on :: DispatchEnabled(c, s, on) && AfterDispatch(c, s, on) != s
  {
    DispatcherBlockedIff(c, steps, n);
    hide After, Holding;
    var s := After(c, steps, n);
    var on :| DispatchEnabled(c, s, on);
    assert AfterDispatch(c, s, on).pc != s.pc;
  }

  /** Before it polls, the dispatcher can take a slot exactly when fewer workers than slots hold one. */
  lemma SlotFreeIff(c: Config, steps: seq<Step>, n: nat)
    requires c.Valid() && n <= |steps| && After(c, steps, n).pc.Acquire?
    ensures var s := After(c, steps, n);
            && (Enabled(c, s, Dispatch(OnSlot)) <==> |Holding(s.workers)| < c.maxConcurrency)
            && (Enabled(c, s, Dispatch(OnSlot)) ==> AfterDispatch(c, s, OnSlot).pc.PollHigh?)
  {
    InvAlways(c, steps, n);
    hide After, Fifo, JobsPlaced, Awaited, Holding;
  }

  /** Wherever the dispatcher takes jobs, a queued high job can go next: the first of its queue. */
  lemma HighCanGoNext(c: Config, s: State)
    requires (s.pc.PollHigh? || s.pc.PollBoth? || s.pc.DequeueHigh? || s.pc.DequeueWait?) && s.high != []
    ensures DispatchEnabled(c, s, OnHigh)
    ensures var s' := AfterDispatch(c, s, OnHigh); InHand(s'.pc, s.high[0]) && s'.pc.ticket.high && s'.high == s.high[1..]
  {
  }

  /** No worker ever waits. */
  lemma WorkersNeverWait(c: Config, steps: seq<Step>, n: nat, id: nat)
    requires c.Valid() && n <= |steps| && id in After(c, steps, n).workers
    ensures Enabled(c, After(c, steps, n), Work(id))
    ensures AfterWork(After(c, steps, n), id) != After(c, steps, n)
  {
    InvAlways(c, steps, n);
    hide After, SlotsAccounted, Fifo, JobsPlaced, Awaited;
    WorkerCanMove(c, After(c, steps, n), id);
  }

  // ---- Full load ----

  /** The jobs 0 to k - 1 run, nothing is queued, and the dispatcher is back at its first select. */
  ghost predicate Loaded(s: State, k: nat) {
    && s.pc.Acquire? && !s.stopped && s.high == [] && s.low == [] && s.expired == {} && s.lowIn == []
    && (forall id :: id in s.highIn ==> id < k)
    && s.slots == k && (forall id: nat :: id in s.workers <==> id < k)
    && (forall id :: id in s.workers ==> s.workers[id] == Running)
  }

  function Round(k: nat): seq<Step> {
    [Submit(k, true), Dispatch(OnSlot), Dispatch(OnHigh), Dispatch(OnDefault), Work(k)]
  }

  lemma JobArrives(c: Config, s: State, k: nat)
    requires c.Valid() && Loaded(s, k) && k < c.maxConcurrency
    ensures Attempt(c, Attempt(c, s, Submit(k, true)), Dispatch(OnSlot))
         == s.(high := [k], highIn := s.highIn + [k], pc := PollHigh, slots := k + 1)
  {
    assert s.high + [k] == [k];
    assert Attempt(c, s, Submit(k, true)) == s.(high := [k], highIn := s.highIn + [k]);
  }

  lemma JobIsTaken(c: Config, s: State, k: nat)
    requires s.pc.PollHigh? && s.high == [k] && k !in s.expired
    ensures Attempt(c, Attempt(c, s, Dispatch(OnHigh)), Dispatch(OnDefault))
         == s.(high := [], highOut := s.highOut + [k], pc := Acquire, workers := s.workers[k := Spawned], wg := s.wg + 1)
  {
    assert Attempt(c, s, Dispatch(OnHigh)) == s.(high := [], highOut := s.highOut + [k], pc := HandOff(Ticket(k, true)));
  }

  lemma JobStarts(c: Config, s: State, k: nat)
    requires k in s.workers && s.workers[k].Spawned? && k !in s.expired
    ensures Attempt(c, s, Work(k)) == s.(workers := s.workers[k := Running], starts := s.starts + multiset{k})
  {
  }

  lemma OneMoreRuns(c: Config, s: State, k: nat)
    requires c.Valid() && Loaded(s, k) && k < c.maxConcurrency
    ensures Loaded(Onward(c, s, Round(k), 5), k + 1)
  {
    var steps := Round(k);
    hide Attempt;
    assert Onward(c, s, steps, 0) == s;
    OnwardStep(c, s, steps, 0);
    OnwardStep(c, s, steps, 1);
    OnwardStep(c, s, steps, 2);
    OnwardStep(c, s, steps, 3);
    OnwardStep(c, s, steps, 4);
    hide Onward;
    JobArrives(c, s, k);
    var s2 := s.(high := [k], highIn := s.highIn + [k], pc := PollHigh, slots := k + 1);
    JobIsTaken(c, s2, k);
    var s4 := s2.(high := [], highOut := s2.highOut + [k], pc := Acquire, workers := s.workers[k := Spawned], wg := s.wg + 1);
    JobStarts(c, s4, k);
    assert Onward(c, s, steps, 5) == s4.(workers := s4.workers[k := Running], starts := s.starts + multiset{k});
  }

  lemma NothingRuns(c: Config)
    ensures Loaded(After(c, [], 0), 0)
  {
  }

  lemma {:induction false} LoadUp(c: Config, k: nat) returns (steps: seq<Step>)
    requires c.Valid() && k <= c.maxConcurrency
    ensures Loaded(After(c, steps, |steps|), k)
  {
    hide Loaded, Onward;
    if k == 0 {
      steps := [];
      NothingRuns(c);
    } else {
      var earlier := LoadUp(c, k - 1);
      OneMoreRuns(c, After(c, earlier, |earlier|), k - 1);
      steps := earlier + Round(k - 1);
      RunsSplit(c, INITIAL, earlier, Round(k - 1), 5);
    }
  }

  function Below(k: nat): (ids: set<nat>)
    ensures |ids| == k && forall id: nat :: id in ids <==> id < k
  {
    if k == 0 then {} else Below(k - 1) + {k - 1}
  }

  /** The cap is reached: whatever the sizes, some run has as many jobs running at once as there are slots. */
  lemma CapIsReached(c: Config)
    requires c.Valid()
    ensures exists steps :: |RunningJobs(After(c, steps, |steps|).workers)| == c.maxConcurrency
  {
    var steps := LoadUp(c, c.maxConcurrency);
    hide After;
    assert RunningJobs(After(c, steps, |steps|).workers) == Below(c.maxConcurrency);
  }

  // ---- Draining ----

  /** How many steps a worker has before it. */
  function Rank(p: Phase): nat {
    match p
    case Spawned => 5
    case Running => 4
    case Returned => 3
    case Closed => 2
    case Freed => 1
  }

  function AtLeast(workers: map<nat, Phase>, k: nat): set<nat> {
    set id | id in workers && Rank(workers[id]) >= k
  }

  function WorkLeft(workers: map<nat, Phase>): nat {
    |AtLeast(workers, 1)| + |AtLeast(workers, 2)| + |AtLeast(workers, 3)| + |AtLeast(workers, 4)| + |AtLeast(workers, 5)|
  }

  /** How many steps the dispatcher has before it, a job in its hand included, while no more jobs come. */
  function StepsLeft(pc: PC): nat {
    match pc
    case Acquire => 6
    case PollHigh => 5
    case PollBoth => 4
    case Release => 3
    case DequeueHigh => 2
    case DequeueWait => 1
    case Reacquire(_) => 13
    case HandOff(_) => 12
    case Discard(_) => 7
    case Halted => 0
  }

  /** An upper bound on the steps that can follow without a new job. */
  function Left(s: State): nat {
    13 * (|s.high| + |s.low|) + StepsLeft(s.pc) + WorkLeft(s.workers)
  }

  lemma LevelFalls(workers: map<nat, Phase>, id: nat, p: Phase, k: nat)
    requires id in workers && Rank(p) < Rank(workers[id])
    ensures |AtLeast(workers[id := p], k)| <= |AtLeast(workers, k)|
    ensures k == Rank(workers[id]) ==> |AtLeast(workers[id := p], k)| < |AtLeast(workers, k)|
  {
    SubsetCount(AtLeast(workers[id := p], k), AtLeast(workers, k) - if k == Rank(workers[id]) then {id} else {});
  }

  lemma WorkFalls(workers: map<nat, Phase>, id: nat, p: Phase)
    requires id in workers && Rank(p) < Rank(workers[id])
    ensures WorkLeft(workers[id := p]) < WorkLeft(workers)
  {
    hide AtLeast;
    LevelFalls(workers, id, p, 1);
    LevelFalls(workers, id, p, 2);
    LevelFalls(workers, id, p, 3);
    LevelFalls(workers, id, p, 4);
    LevelFalls(workers, id, p, 5);
  }

  lemma LevelWithout(workers: map<nat, Phase>, id: nat, k: nat)
    requires id in workers && k >= 1
    ensures |AtLeast(workers - {id}, k)| <= |AtLeast(workers, k)|
    ensures k == 1 ==> |AtLeast(workers - {id}, k)| < |AtLeast(workers, k)|
  {
    SubsetCount(AtLeast(workers - {id}, k), AtLeast(workers, k) - if k == 1 then {id} else {});
  }

  lemma WorkWithout(workers: map<nat, Phase>, id: nat)
    requires id in workers
    ensures WorkLeft(workers - {id}) < WorkLeft(workers)
  {
    hide AtLeast;
    LevelWithout(workers, id, 1);
    LevelWithout(workers, id, 2);
    LevelWithout(workers, id, 3);
    LevelWithout(workers, id, 4);
    LevelWithout(workers, id, 5);
  }

  lemma LevelRises(workers: map<nat, Phase>, id: nat, k: nat)
    requires id !in workers
    ensures |AtLeast(workers[id := Spawned], k)| <= |AtLeast(workers, k)| + 1
  {
    SubsetCount(AtLeast(workers[id := Spawned], k), AtLeast(workers, k) + {id});
  }

  lemma WorkRises(workers: map<nat, Phase>, id: nat)
    requires id !in workers
    ensures WorkLeft(workers[id := Spawned]) <= WorkLeft(workers) + 5
  {
    hide AtLeast;
    LevelRises(workers, id, 1);
    LevelRises(workers, id, 2);
    LevelRises(workers, id, 3);
    LevelRises(workers, id, 4);
    LevelRises(workers, id, 5);
  }

  lemma LeftFallsDispatching(c: Config, s: State, on: Case)
    requires DispatchEnabled(c, s, on) && (s.pc.HandOff? ==> s.pc.ticket.id !in s.workers)
    ensures Left(AfterDispatch(c, s, on)) < Left(s)
  {
    hide WorkLeft;
    if s.pc.HandOff? {
      WorkRises(s.workers, s.pc.ticket.id);
    }
  }

  lemma LeftFallsWorking(c: Config, s: State, id: nat)
    requires Enabled(c, s, Work(id))
    ensures Left(AfterWork(s, id)) < Left(s)
  {
    hide WorkLeft;
    match s.workers[id]
    case Spawned => WorkFalls(s.workers, id, if id in s.expired then Returned else Running);
    case Running => WorkFalls(s.workers, id, Returned);
    case Returned => WorkFalls(s.workers, id, Closed);
    case Closed => WorkFalls(s.workers, id, Freed);
    case Freed => WorkWithout(s.workers, id);
  }

  /** A step of the dispatcher or of a worker. */
  predicate Internal(e: Step) {
    e.Dispatch? || e.Work?
  }

  /** Each of the steps is an internal one, ready when its turn comes. */
  ghost predicate Schedule(c: Config, s: State, steps: seq<Step>) {
    forall i :: 0 <= i < |steps| ==> Due(c, s, steps, i)
  }

  ghost predicate Due(c: Config, s: State, steps: seq<Step>, i: nat)
    requires i < |steps|
  {
    Internal(steps[i]) && Enabled(c, Onward(c, s, steps, i), steps[i])
  }

  lemma LeftFalls(c: Config, s: State, e: Step)
    requires Inv(c, s) && Internal(e) && Enabled(c, s, e)
    ensures Left(Next(c, s, e)) < Left(s)
  {
    HandOffIsPlaced(s);
    hide Left, AfterDispatch, AfterWork, DispatchEnabled, SlotsAccounted, JobsPlaced, Awaited, Fifo;
    match e
    case Dispatch(on) => LeftFallsDispatching(c, s, on);
    case Work(id) => LeftFallsWorking(c, s, id);
  }

  lemma {:induction false} ScheduleIsBounded(c: Config, s: State, steps: seq<Step>, n: nat)
    requires Inv(c, s) && Schedule(c, s, steps) && n <= |steps|
    ensures Left(Onward(c, s, steps, n)) + n <= Left(s)
  {
    hide Inv, Left, Next, Enabled, Schedule;
    if n > 0 {
      ScheduleIsBounded(c, s, steps, n - 1);
      InvOnward(c, s, steps, n - 1);
      DueNow(c, s, steps, n - 1);
      LeftFalls(c, Onward(c, s, steps, n - 1), steps[n - 1]);
    }
  }

  lemma DueNow(c: Config, s: State, steps: seq<Step>, i: nat)
    requires Schedule(c, s, steps) && i < |steps|
    ensures Internal(steps[i]) && Enabled(c, Onward(c, s, steps, i), steps[i])
  {
    hide Internal, Enabled, Onward;
    assert Due(c, s, steps, i);
  }

  /** Neither the dispatcher nor any worker can move. */
  ghost predicate Quiet(c: Config, s: State) {
    forall e :: Internal(e) ==> !Enabled(c, s, e)
  }

  /** Nothing is left over: no worker, and unless it was stopped no job that was accepted. */
  ghost predicate Drained(s: State) {
    && s.workers == map[]
    && (s.stopped ==> s.pc.Halted? && s.wg == 0)
    && (!s.stopped ==> forall id :: id in s.highIn || id in s.lowIn ==>
         s.closes[id] == 1 && (s.starts[id] == 1 || id in s.expired))
  }

  lemma WorkerCanMove(c: Config, s: State, id: nat)
    requires SlotsAccounted(c, s) && id in s.workers
    ensures Enabled(c, s, Work(id))
  {
    if s.workers[id].Closed? {
      assert id in Holding(s.workers);
    }
  }

  lemma QuietWorkers(c: Config, s: State)
    requires Inv(c, s) && Quiet(c, s)
    ensures s.workers == map[]
  {
    hide SlotsAccounted, Fifo, JobsPlaced, Awaited, Enabled;
    if id :| id in s.workers {
      var e := Work(id);
      assert Internal(e) && !Enabled(c, s, e);
      WorkerCanMove(c, s, id);
      assert false;
    }
  }

  /** The dispatcher is never halted without a stop. */
  ghost predicate HaltedByStop(s: State) {
    s.pc.Halted? ==> s.stopped
  }

  lemma {:induction false} HaltsByStopOnly(c: Config, steps: seq<Step>, n: nat)
    requires n <= |steps|
    ensures HaltedByStop(After(c, steps, n))
  {
    if n > 0 {
      HaltsByStopOnly(c, steps, n - 1);
      HaltStep(c, Onward(c, INITIAL, steps, n - 1), steps[n - 1]);
      hide Attempt;
    }
  }

  lemma HaltStep(c: Config, s: State, e: Step)
    requires HaltedByStop(s)
    ensures HaltedByStop(Attempt(c, s, e))
  {
  }

  lemma QuietMeansDrained(c: Config, s: State)
    requires c.Valid() && Inv(c, s) && HaltedByStop(s) && Quiet(c, s)
    ensures Drained(s)
  {
    QuietWorkers(c, s);
    assert Holding(s.workers) == {};
    forall on ensures !DispatchEnabled(c, s, on) {
      assert Internal(Dispatch(on));
      assert !Enabled(c, s, Dispatch(on));
    }
    hide Fifo, JobsPlaced;
    assert s.pc.Halted? || (s.pc.DequeueWait? && !s.stopped && s.high == [] && s.low == []) by {
      assert !DispatchEnabled(c, s, OnStop) && !DispatchEnabled(c, s, OnSlot) && !DispatchEnabled(c, s, OnHigh);
      assert !DispatchEnabled(c, s, OnLow) && !DispatchEnabled(c, s, OnDefault);
    }
    if !s.stopped {
      forall id | id in s.highIn || id in s.lowIn ensures s.closes[id] == 1 && (s.starts[id] == 1 || id in s.expired) {
        IdleIsDone(c, s, id);
      }
    }
  }

  lemma IdleIsDone(c: Config, s: State, id: nat)
    requires Fifo(c, s) && JobsPlaced(s) && s.pc.DequeueWait? && !s.stopped && s.high == [] && s.low == [] && s.workers == map[]
    requires id in s.highIn || id in s.lowIn
    ensures s.closes[id] == 1 && (s.starts[id] == 1 || id in s.expired)
  {
    assert JobAt(s, id);
    assert s.highOut + [] == s.highOut && s.lowOut + [] == s.lowOut;
  }

  /**
    Liveness: from any reachable state, every schedule of dispatcher and worker
    steps, in any order, is over after a bounded number of them; and one that
    cannot be continued has finished: after a stop Stop's wait returns, and
    otherwise every job accepted has been done, or skipped because canceled.
   */
  lemma EveryScheduleDrains(c: Config, steps: seq<Step>, more: seq<Step>)
    requires c.Valid() && Schedule(c, After(c, steps, |steps|), more)
    ensures var s := After(c, steps, |steps|);
            |more| <= Left(s) && (Quiet(c, Onward(c, s, more, |more|)) ==> Drained(Onward(c, s, more, |more|)))
  {
    hide Inv, Onward, Left, Quiet, Drained, Schedule, HaltedByStop;
    var s := After(c, steps, |steps|);
    InvAlways(c, steps, |steps|);
    ScheduleIsBounded(c, s, more, |more|);
    InvOnward(c, s, more, |more|);
    RunsSplit(c, INITIAL, steps, more, |more|);
    HaltsByStopOnly(c, steps + more, |steps + more|);
    if Quiet(c, Onward(c, s, more, |more|)) {
      QuietMeansDrained(c, Onward(c, s, more, |more|));
    }
  }

  // ---- Cancellation ----

  lemma CanceledWork(s: State, worker: nat, id: nat)
    requires worker in s.workers && (s.workers[worker].Closed? ==> s.slots > 0) && id in s.expired
    ensures var s' := AfterWork(s, worker); s'.expired == s.expired && s'.starts[id] == s.starts[id]
    ensures id !in s.workers ==> id !in AfterWork(s, worker).workers
  {
  }

  lemma CanceledDispatch(c: Config, s: State, on: Case, id: nat)
    requires DispatchEnabled(c, s, on) && id in s.expired
    ensures var s' := AfterDispatch(c, s, on); s'.expired == s.expired && s'.starts == s.starts
    ensures id !in s.workers ==> id !in AfterDispatch(c, s, on).workers
  {
  }

  lemma CanceledStep(c: Config, s: State, e: Step, id: nat)
    requires id in s.expired
    ensures id in Attempt(c, s, e).expired && Attempt(c, s, e).starts[id] == s.starts[id]
    ensures id !in s.workers ==> id !in Attempt(c, s, e).workers
  {
    hide AfterWork, AfterDispatch, DispatchEnabled;
    if Enabled(c, s, e) {
      match e
      case Work(worker) => CanceledWork(s, worker, id);
      case Dispatch(on) => CanceledDispatch(c, s, on, id);
      case _ =>
    }
  }

  /**
    From the moment a job is canceled it does not start, and it does not get a
    worker if it has none, whatever happens later.
   */
  lemma {:induction false} CanceledNeverStarts(c: Config, s: State, steps: seq<Step>, n: nat, id: nat)
    requires n <= |steps| && id in s.expired
    ensures var s' := Onward(c, s, steps, n);
            id in s'.expired && s'.starts[id] == s.starts[id] && (id !in s.workers ==> id !in s'.workers)
  {
    hide Attempt;
    if n > 0 {
      CanceledNeverStarts(c, s, steps, n - 1, id);
      CanceledStep(c, Onward(c, s, steps, n - 1), steps[n - 1], id);
    }
  }
}
