/**
  The priority scheduler (pkg/scheduler/scheduler.go) as the steps its
  goroutines interleave: submitters, one dispatcher, and a worker per job.
  A select with several ready cases may take any of them.
 */
module PriorityScheduler {
  datatype Config = Config(maxConcurrency: nat, queueSize: nat) {
    ghost predicate Valid() { maxConcurrency >= 1 && queueSize >= 1 }
  }

  /** A job the dispatcher has taken from a queue. */
  datatype Ticket = Ticket(id: nat, high: bool)

  /** Where the dispatcher is. */
  datatype PC =
    | Acquire                    // select: stop, or take a slot
    | PollHigh                   // tryDequeue, first select
    | PollBoth                   // tryDequeue, second select
    | Release                    // nothing queued: give the slot back
    | DequeueHigh                // dequeue, first select
    | DequeueWait                // dequeue, blocking select
    | Reacquire(ticket: Ticket)  // select: stop, or take a slot again
    | HandOff(ticket: Ticket)    // check for cancellation, spawn a worker
    | Discard(ticket: Ticket)    // slot returned, done not yet closed
    | Halted

  /** How far a worker goroutine has come. */
  datatype Phase =
    | Spawned   // before its own cancellation check
    | Running   // inside the job
    | Returned  // the job returned, or was skipped
    | Closed    // done closed
    | Freed     // slot returned

  /** The shared state, with the history of queues, starts and closes kept for the proofs. */
  datatype State = State(pc: PC, high: seq<nat>, low: seq<nat>, slots: nat, workers: map<nat, Phase>, wg: int,
                         stopped: bool, expired: set<nat>,
                         highIn: seq<nat>, lowIn: seq<nat>, highOut: seq<nat>, lowOut: seq<nat>,
                         starts: multiset<nat>, closes: multiset<nat>, retired: set<nat>)

  const INITIAL := State(Acquire, [], [], 0, map[], 1, false, {}, [], [], [], [], multiset{}, multiset{}, {})

  /** Which ready case of a select the dispatcher takes. */
  datatype Case = OnStop | OnSlot | OnHigh | OnLow | OnDefault

  datatype Step =
    | Submit(id: nat, high: bool)  // the submitter's send on its queue
    | Expire(id: nat)              // the job's context ends, or Submit marks it canceled
    | Stop                         // close(stop)
    | Dispatch(on: Case)
    | Work(id: nat)

  predicate DispatchEnabled(c: Config, s: State, on: Case) {
    match s.pc
    case Acquire => (on.OnStop? && s.stopped) || (on.OnSlot? && s.slots < c.maxConcurrency)
    case PollHigh => if s.high != [] then on.OnHigh? else on.OnDefault?
    case PollBoth => (on.OnHigh? && s.high != []) || (on.OnLow? && s.low != []) || (on.OnDefault? && s.high == [] && s.low == [])
    case Release => on.OnDefault? && s.slots > 0
    case DequeueHigh => (on.OnStop? && s.stopped) || (on.OnHigh? && s.high != []) || (on.OnDefault? && !s.stopped && s.high == [])
    case DequeueWait => (on.OnStop? && s.stopped) || (on.OnHigh? && s.high != []) || (on.OnLow? && s.low != [])
    case Reacquire(_) => (on.OnStop? && s.stopped) || (on.OnSlot? && s.slots < c.maxConcurrency)
    case HandOff(t) => on.OnDefault? && (t.id in s.expired ==> s.slots > 0)
    case Discard(_) => on.OnDefault?
    case Halted => false
  }

  predicate Enabled(c: Config, s: State, e: Step) {
    match e
    case Submit(id, high) => id !in s.highIn && id !in s.lowIn && (if high then |s.high| else |s.low|) < c.queueSize
    case Expire(_) => true
    case Stop => !s.stopped
    case Dispatch(on) => DispatchEnabled(c, s, on)
    case Work(id) => id in s.workers && (s.workers[id].Closed? ==> s.slots > 0)
  }

  function TakeHigh(s: State, hold: bool): State
    requires s.high != []
  {
    var t := Ticket(s.high[0], true);
    s.(high := s.high[1..], highOut := s.highOut + [t.id], pc := if hold then HandOff(t) else Reacquire(t))
  }

  function TakeLow(s: State, hold: bool): State
    requires s.low != []
  {
    var t := Ticket(s.low[0], false);
    s.(low := s.low[1..], lowOut := s.lowOut + [t.id], pc := if hold then HandOff(t) else Reacquire(t))
  }

  function Close(s: State, id: nat, pc: PC): State {
    s.(pc := pc, closes := s.closes + multiset{id}, retired := s.retired + {id})
  }

  function Exit(s: State): State {
    s.(pc := Halted, wg := s.wg - 1)
  }

  function AfterDispatch(c: Config, s: State, on: Case): State
    requires DispatchEnabled(c, s, on)
  {
    match s.pc
    case Acquire => if on.OnStop? then Exit(s) else s.(pc := PollHigh, slots := s.slots + 1)
    case PollHigh => if on.OnHigh? then TakeHigh(s, true) else s.(pc := PollBoth)
    case PollBoth => if on.OnHigh? then TakeHigh(s, true) else if on.OnLow? then TakeLow(s, true) else s.(pc := Release)
    case Release => s.(pc := DequeueHigh, slots := s.slots - 1)
    case DequeueHigh => if on.OnStop? then Exit(s) else if on.OnHigh? then TakeHigh(s, false) else s.(pc := DequeueWait)
    case DequeueWait => if on.OnStop? then Exit(s) else if on.OnHigh? then TakeHigh(s, false) else TakeLow(s, false)
    case Reacquire(t) => if on.OnStop? then Exit(Close(s, t.id, s.pc)) else s.(pc := HandOff(t), slots := s.slots + 1)
    case HandOff(t) =>
      if t.id in s.expired then s.(pc := Discard(t), slots := s.slots - 1)
      else s.(pc := Acquire, workers := s.workers[t.id := Spawned], wg := s.wg + 1)
    case Discard(t) => Close(s, t.id, Acquire)
  }

  function AfterWork(s: State, id: nat): State
    requires id in s.workers && (s.workers[id].Closed? ==> s.slots > 0)
  {
    match s.workers[id]
    case Spawned =>
      if id in s.expired then s.(workers := s.workers[id := Returned])
      else s.(workers := s.workers[id := Running], starts := s.starts + multiset{id})
    case Running => s.(workers := s.workers[id := Returned])
    case Returned => s.(workers := s.workers[id := Closed], closes := s.closes + multiset{id})
    case Closed => s.(workers := s.workers[id := Freed], slots := s.slots - 1)
    case Freed => s.(workers := s.workers - {id}, wg := s.wg - 1, retired := s.retired + {id})
  }

  function Next(c: Config, s: State, e: Step): State
    requires Enabled(c, s, e)
  {
    match e
    case Submit(id, high) =>
      if high then s.(high := s.high + [id], highIn := s.highIn + [id])
      else s.(low := s.low + [id], lowIn := s.lowIn + [id])
    case Expire(id) => s.(expired := s.expired + {id})
    case Stop => s.(stopped := true)
    case Dispatch(on) => AfterDispatch(c, s, on)
    case Work(id) => AfterWork(s, id)
  }
}
