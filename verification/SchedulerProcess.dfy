/**
  The scheduler as the object the source declares: channels, semaphore, stop
  flag and wait group as fields that each goroutine's step updates in place.
 */
module SchedulerProcess {
  import opened PriorityScheduler
  import opened SchedulerRuns

  class Scheduler {
    const config: Config
    var pc: PC
    var high: seq<nat>
    var low: seq<nat>
    var slots: nat
    var workers: map<nat, Phase>
    var wg: int
    var stopped: bool
    var expired: set<nat>
    ghost var highIn: seq<nat>
    ghost var lowIn: seq<nat>
    ghost var highOut: seq<nat>
    ghost var lowOut: seq<nat>
    ghost var starts: multiset<nat>
    ghost var closes: multiset<nat>
    ghost var retired: set<nat>

    ghost function View(): State
      reads this
    {
      State(pc, high, low, slots, workers, wg, stopped, expired, highIn, lowIn, highOut, lowOut, starts, closes, retired)
    }

    constructor (config: Config)
      ensures this.config == config && View() == INITIAL
    {
      this.config := config;
      pc, high, low, slots, workers, wg, stopped, expired := Acquire, [], [], 0, map[], 1, false, {};
      highIn, lowIn, highOut, lowOut, starts, closes, retired := [], [], [], [], multiset{}, multiset{}, {};
    }

    /** The send of Submit; a full queue blocks it. Each call carries a request of its own, so id is new. */
    method Send(id: nat, highPriority: bool) returns (sent: bool)
      requires id !in highIn && id !in lowIn
      modifies this
      ensures sent <==> Enabled(config, old(View()), Submit(id, highPriority))
      ensures sent <==> |old(if highPriority then high else low)| < config.queueSize
      ensures sent ==> if highPriority then high == old(high) + [id] && low == old(low) else low == old(low) + [id] && high == old(high)
      ensures View() == Attempt(config, old(View()), Submit(id, highPriority))
    {
      if highPriority && |high| < config.queueSize {
        high, highIn := high + [id], highIn + [id];
        return true;
      } else if !highPriority && |low| < config.queueSize {
        low, lowIn := low + [id], lowIn + [id];
        return true;
      }
      return false;
    }

    method Cancel(id: nat)
      modifies this
      ensures View() == Attempt(config, old(View()), Expire(id))
    {
      expired := expired + {id};
    }

    method CloseStop()
      modifies this
      ensures View() == Attempt(config, old(View()), Stop)
    {
      if !stopped {
        stopped := true;
      }
    }

    method ReceiveHigh(hold: bool)
      requires high != []
      modifies this
      ensures View() == TakeHigh(old(View()), hold)
    {
      var t := Ticket(high[0], true);
      high, highOut := high[1..], highOut + [t.id];
      pc := if hold then HandOff(t) else Reacquire(t);
    }

    method ReceiveLow(hold: bool)
      requires low != []
      modifies this
      ensures View() == TakeLow(old(View()), hold)
    {
      var t := Ticket(low[0], false);
      low, lowOut := low[1..], lowOut + [t.id];
      pc := if hold then HandOff(t) else Reacquire(t);
    }

    method CloseDone(id: nat, next: PC)
      modifies this
      ensures View() == Close(old(View()), id, next)
    {
      closes, retired, pc := closes + multiset{id}, retired + {id}, next;
    }

    /** tryDequeue: the two polling selects, and giving the slot back when both came up empty. */
    method TryDequeue(on: Case) returns (moved: bool)
      requires pc.PollHigh? || pc.PollBoth? || pc.Release?
      modifies this
      ensures moved <==> DispatchEnabled(config, old(View()), on)
      ensures View() == if moved then AfterDispatch(config, old(View()), on) else old(View())
    {
      moved := true;
      if on.OnHigh? && high != [] && !pc.Release? {
        ReceiveHigh(true);
      } else if pc.PollBoth? && on.OnLow? && low != [] {
        ReceiveLow(true);
      } else if pc.PollHigh? && on.OnDefault? && high == [] {
        pc := PollBoth;
      } else if pc.PollBoth? && on.OnDefault? && high == [] && low == [] {
        pc := Release;
      } else if pc.Release? && on.OnDefault? && slots > 0 {
        pc, slots := DequeueHigh, slots - 1;
      } else {
        moved := false;
      }
    }

    /** dequeue: the high queue first, then whatever comes. */
    method Dequeue(on: Case) returns (moved: bool)
      requires pc.DequeueHigh? || pc.DequeueWait?
      modifies this
      ensures moved <==> DispatchEnabled(config, old(View()), on)
      ensures View() == if moved then AfterDispatch(config, old(View()), on) else old(View())
    {
      moved := true;
      if on.OnStop? && stopped {
        pc, wg := Halted, wg - 1;
      } else if on.OnHigh? && high != [] {
        ReceiveHigh(false);
      } else if pc.DequeueWait? && on.OnLow? && low != [] {
        ReceiveLow(false);
      } else if pc.DequeueHigh? && on.OnDefault? && !stopped && high == [] {
        pc := DequeueWait;
      } else {
        moved := false;
      }
    }

    /** Stopping before a slot is taken: a job in hand is let go. */
    method Halt()
      requires (pc.Acquire? || pc.Reacquire?) && stopped
      modifies this
      ensures View() == AfterDispatch(config, old(View()), OnStop)
    {
      if pc.Reacquire? {
        CloseDone(pc.ticket.id, pc);
      }
      pc, wg := Halted, wg - 1;
    }

    /** Taking a slot, before the queues are polled or after a blocking dequeue. */
    method TakeSlot(on: Case) returns (moved: bool)
      requires pc.Acquire? || pc.Reacquire?
      modifies this
      ensures moved <==> DispatchEnabled(config, old(View()), on)
      ensures View() == if moved then AfterDispatch(config, old(View()), on) else old(View())
    {
      moved := true;
      if on.OnSlot? && slots < config.maxConcurrency {
        pc, slots := if pc.Acquire? then PollHigh else HandOff(pc.ticket), slots + 1;
      } else if on.OnStop? && stopped {
        Halt();
      } else {
        moved := false;
      }
    }

    /** Drop a canceled job, or start its worker. */
    method Start(on: Case) returns (moved: bool)
      requires pc.HandOff? || pc.Discard?
      modifies this
      ensures moved <==> DispatchEnabled(config, old(View()), on)
      ensures View() == if moved then AfterDispatch(config, old(View()), on) else old(View())
    {
      moved := true;
      var t := pc.ticket;
      if !on.OnDefault? {
        moved := false;
      } else if pc.Discard? {
        CloseDone(t.id, Acquire);
      } else if t.id !in expired {
        pc, workers, wg := Acquire, workers[t.id := Spawned], wg + 1;
      } else if slots > 0 {
        pc, slots := Discard(t), slots - 1;
      } else {
        moved := false;
      }
    }

    /** One step of the dispatch loop, if the chosen case is ready. */
    method DispatchOnce(on: Case) returns (moved: bool)
      modifies this
      ensures moved <==> DispatchEnabled(config, old(View()), on)
      ensures View() == Attempt(config, old(View()), Dispatch(on))
    {
      if pc.Halted? {
        return false;
      }
      hide AfterDispatch, DispatchEnabled;
      if pc.Acquire? || pc.Reacquire? {
        moved := TakeSlot(on);
      } else if pc.HandOff? || pc.Discard? {
        moved := Start(on);
      } else if pc.DequeueHigh? || pc.DequeueWait? {
        moved := Dequeue(on);
      } else {
        moved := TryDequeue(on);
      }
    }

    /** One of run's deferred calls: close done, return the slot, leave the wait group. */
    method Unwind(id: nat)
      requires id in workers && !workers[id].Spawned? && !workers[id].Running? && (workers[id].Closed? ==> slots > 0)
      modifies this
      ensures View() == AfterWork(old(View()), id)
    {
      if workers[id].Returned? {
        workers, closes := workers[id := Closed], closes + multiset{id};
      } else if workers[id].Closed? {
        workers, slots := workers[id := Freed], slots - 1;
      } else {
        workers, wg, retired := workers - {id}, wg - 1, retired + {id};
      }
    }

    /** One step of the worker running the job. */
    method WorkOnce(id: nat) returns (moved: bool)
      modifies this
      ensures moved <==> Enabled(config, old(View()), Work(id))
      ensures View() == Attempt(config, old(View()), Work(id))
    {
      if id !in workers || (workers[id].Closed? && slots == 0) {
        return false;
      }
      if !workers[id].Spawned? && !workers[id].Running? {
        hide AfterWork;
        Unwind(id);
      } else if workers[id].Spawned? && id !in expired {
        workers, starts := workers[id := Running], starts + multiset{id};
      } else {
        workers := workers[id := Returned];
      }
      return true;
    }
  }
}
