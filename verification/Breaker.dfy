/**
  The circuit breaker (internal/breaker/breaker.go). Each method body runs
  under the breaker's mutex, so it is one atomic step; the clock reading it
  takes is a parameter.
 */
module CircuitBreaker {

  datatype Phase = Closed | Open | HalfOpen

  datatype Config = Config(failureThreshold: int, cooldown: int) {
    predicate Valid() {
      failureThreshold >= 1 && cooldown > 0
    }

    /** Unset values fall back to five failures and ten seconds (in nanoseconds). */
    function WithDefaults(): (c: Config)
      ensures c.Valid()
      ensures c.failureThreshold == (if failureThreshold >= 1 then failureThreshold else 5)
      ensures c.cooldown == (if cooldown > 0 then cooldown else 10 * 1_000_000_000)
    {
      Config(if failureThreshold < 1 then 5 else failureThreshold,
             if cooldown <= 0 then 10_000_000_000 else cooldown)
    }
  }

  datatype State = State(phase: Phase, failures: nat, openedAt: int, probing: bool) {

    /** An open breaker whose cooldown has passed becomes half-open, with the probe slot free. */
    function Settle(cfg: Config, now: int): State {
      if phase.Open? && now - openedAt >= cfg.cooldown
      then this.(phase := HalfOpen, probing := false)
      else this
    }

    /** Whether Allow at this instant would grant. */
    predicate Admits(cfg: Config, now: int) {
      var s := Settle(cfg, now);
      s.phase.Closed? || (s.phase.HalfOpen? && !s.probing)
    }

    function AfterAllow(cfg: Config, now: int): State {
      var s := Settle(cfg, now);
      if s.phase.HalfOpen? then s.(probing := true) else s
    }

    function AfterSuccess(): State {
      this.(phase := Closed, failures := 0, probing := false)
    }

    function AfterFailure(cfg: Config, now: int): State {
      if phase.HalfOpen? then this.(phase := Open, openedAt := now, probing := false)
      else if failures + 1 >= cfg.failureThreshold then this.(phase := Open, failures := failures + 1, openedAt := now)
      else this.(failures := failures + 1)
    }

    function AfterRelease(): State {
      this.(probing := false)
    }
  }

  const FRESH := State(Closed, 0, 0, false)

  datatype Refusals = Refusals(declined: nat, denied: nat)

  class Breaker {
    const cfg: Config
    var phase: Phase
    var failures: nat
    var openedAt: int
    var halfOpenInFlight: bool
    /** How many calls of Allow have granted. */
    ghost var grants: nat
    /** How often Eligible and Allow have said no. */
    ghost var refusals: Refusals

    ghost function View(): State
      reads this
    {
      State(phase, failures, openedAt, halfOpenInFlight)
    }

    constructor (cfg: Config)
      ensures this.cfg == cfg.WithDefaults()
      ensures View() == FRESH && grants == 0 && refusals == Refusals(0, 0)
    {
      this.cfg := cfg.WithDefaults();
      phase, failures, openedAt, halfOpenInFlight, grants, refusals := Closed, 0, 0, false, 0, Refusals(0, 0);
    }

    method MaybeHalfOpen(now: int)
      modifies this
      ensures View() == old(View()).Settle(cfg, now) && grants == old(grants) && refusals == old(refusals)
    {
      if phase == Open && now - openedAt >= cfg.cooldown {
        phase := HalfOpen;
        halfOpenInFlight := false;
      }
    }

    method Eligible(now: int) returns (ok: bool)
      modifies this
      ensures ok == old(View()).Admits(cfg, now)
      ensures View() == old(View()).Settle(cfg, now) && grants == old(grants)
      ensures refusals == old(refusals).(declined := old(refusals).declined + if ok then 0 else 1)
    {
      MaybeHalfOpen(now);
      match phase {
        case Closed => ok := true;
        case HalfOpen => ok := !halfOpenInFlight;
        case Open => ok := false;
      }
      refusals := refusals.(declined := refusals.declined + if ok then 0 else 1);
    }

    method Allow(now: int) returns (ok: bool)
      modifies this
      ensures ok == old(View()).Admits(cfg, now)
      ensures View() == old(View()).AfterAllow(cfg, now)
      ensures grants == old(grants) + if ok then 1 else 0
      ensures refusals == old(refusals).(denied := old(refusals).denied + if ok then 0 else 1)
    {
      MaybeHalfOpen(now);
      match phase {
        case Closed => ok := true;
        case HalfOpen =>
          ok := !halfOpenInFlight;
          if ok {
            halfOpenInFlight := true;
          }
        case Open => ok := false;
      }
      refusals := refusals.(denied := refusals.denied + if ok then 0 else 1);
      grants := grants + if ok then 1 else 0;
    }

    method Success()
      modifies this
      ensures View() == old(View()).AfterSuccess() && grants == old(grants) && refusals == old(refusals)
    {
      failures := 0;
      phase := Closed;
      halfOpenInFlight := false;
    }

    method Failure(now: int)
      modifies this
      ensures View() == old(View()).AfterFailure(cfg, now) && grants == old(grants) && refusals == old(refusals)
    {
      if phase == HalfOpen {
        phase := Open;
        openedAt := now;
        halfOpenInFlight := false;
        return;
      }
      failures := failures + 1;
      if failures >= cfg.failureThreshold {
        phase := Open;
        openedAt := now;
      }
    }

    method Release()
      modifies this
      ensures View() == old(View()).AfterRelease() && grants == old(grants) && refusals == old(refusals)
    {
      halfOpenInFlight := false;
    }
  }
}
