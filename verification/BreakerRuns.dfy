/** What the breaker guarantees over whole histories of calls. */
module BreakerRuns {
  import opened CircuitBreaker

  /** One locked call; Look stands for Eligible and State, which only settle the phase. */
  datatype Event =
    | Look(now: int)
    | Allow(now: int)
    | Success
    | Failure(now: int)
    | Release
  {
    predicate Settles() { Success? || Failure? || Release? }
  }

  function Next(cfg: Config, s: State, e: Event): State {
    match e
    case Look(now) => s.Settle(cfg, now)
    case Allow(now) => s.AfterAllow(cfg, now)
    case Success => s.AfterSuccess()
    case Failure(now) => s.AfterFailure(cfg, now)
    case Release => s.AfterRelease()
  }

  function Exec(cfg: Config, s: State, es: seq<Event>): State {
    if es == [] then s else Next(cfg, Exec(cfg, s, es[..|es| - 1]), es[|es| - 1])
  }

  /** Failures reported since the last success. */
  function Charged(es: seq<Event>): nat {
    if es == [] then 0 else
      var n := Charged(es[..|es| - 1]);
      match es[|es| - 1]
      case Success => 0
      case Failure(_) => n + 1
      case _ => n
  }

  /**
    The breaker leaves Closed exactly at the threshold-th failure since the
    last success: nothing else in the history, and no passage of time, matters.
   */
  lemma {:induction false} TripsExactlyAtThreshold(cfg: Config, es: seq<Event>)
    requires cfg.Valid()
    ensures var s := Exec(cfg, FRESH, es);
            && (s.phase.Closed? <==> Charged(es) < cfg.failureThreshold)
            && (s.phase.Closed? ==> s.failures == Charged(es))
            && (s.phase.Closed? <==> s.failures < cfg.failureThreshold)
            && (s.probing ==> s.phase.HalfOpen?)
  {
    if es != [] {
      TripsExactlyAtThreshold(cfg, es[..|es| - 1]);
    }
  }

  /** The clock readings of the history all lie in [lo, hi). */
  ghost predicate Within(es: seq<Event>, lo: int, hi: int) {
    forall i :: 0 <= i < |es| ==>
      match es[i]
      case Look(now) => lo <= now < hi
      case Allow(now) => lo <= now < hi
      case Failure(now) => lo <= now < hi
      case _ => true
  }

  ghost predicate NoSuccess(es: seq<Event>) {
    forall i :: 0 <= i < |es| ==> !es[i].Success?
  }

  /** When the last failure of the history was reported; 0 if there is none. */
  function LastFailure(es: seq<Event>): int {
    if es == [] then 0
    else if es[|es| - 1].Failure? then es[|es| - 1].now
    else LastFailure(es[..|es| - 1])
  }

  /** An open breaker has been open since the last reported failure. */
  lemma {:induction false} OpenSinceLastFailure(cfg: Config, es: seq<Event>)
    requires cfg.Valid()
    ensures Exec(cfg, FRESH, es).phase.Open? ==> Exec(cfg, FRESH, es).openedAt == LastFailure(es)
  {
    if es != [] {
      OpenSinceLastFailure(cfg, es[..|es| - 1]);
      TripsExactlyAtThreshold(cfg, es[..|es| - 1]);
    }
  }

  lemma FailureTrips(cfg: Config, before: seq<Event>, t: int)
    requires cfg.Valid() && Charged(before) + 1 >= cfg.failureThreshold
    ensures Exec(cfg, FRESH, before + [Failure(t)]).phase.Open?
    ensures Exec(cfg, FRESH, before + [Failure(t)]).openedAt == t
  {
    var es := before + [Failure(t)];
    assert es[..|es| - 1] == before;
    TripsExactlyAtThreshold(cfg, before);
    OpenSinceLastFailure(cfg, es);
  }

  lemma {:induction false} StaysOpen(cfg: Config, before: seq<Event>, t: int, after: seq<Event>)
    requires cfg.Valid() && Charged(before) + 1 >= cfg.failureThreshold
    requires NoSuccess(after) && Within(after, t, t + cfg.cooldown)
    ensures var es := before + [Failure(t)] + after;
            && Exec(cfg, FRESH, es).phase.Open?
            && Exec(cfg, FRESH, es).openedAt == LastFailure(es)
            && t <= LastFailure(es) < t + cfg.cooldown
  {
    var es := before + [Failure(t)] + after;
    if after == [] {
      assert es == before + [Failure(t)];
      FailureTrips(cfg, before, t);
    } else {
      var earlier := after[..|after| - 1];
      StaysOpen(cfg, before, t, earlier);
      assert es[..|es| - 1] == before + [Failure(t)] + earlier;
      TripsExactlyAtThreshold(cfg, es[..|es| - 1]);
      OpenSinceLastFailure(cfg, es);
    }
  }

  /**
    The failure that brings the count since the last success to the threshold,
    or comes after it, opens the breaker at its own instant t: as long as no
    success intervenes and the clock stays within [t, t + cooldown), nothing is
    admitted before t + cooldown, and a call is admitted exactly from the
    cooldown after the latest failure on.
   */
  lemma CooldownHolds(cfg: Config, before: seq<Event>, t: int, after: seq<Event>)
    requires cfg.Valid() && Charged(before) + 1 >= cfg.failureThreshold
    requires NoSuccess(after) && Within(after, t, t + cfg.cooldown)
    ensures var es := before + [Failure(t)] + after;
            && Exec(cfg, FRESH, es).phase.Open?
            && t <= LastFailure(es)
            && (after == [] ==> LastFailure(es) == t)
            && (forall now :: Exec(cfg, FRESH, es).Admits(cfg, now) <==> now >= LastFailure(es) + cfg.cooldown)
            && (forall now :: now < t + cfg.cooldown ==> !Exec(cfg, FRESH, es).Admits(cfg, now))
  {
    StaysOpen(cfg, before, t, after);
    if after == [] {
      assert before + [Failure(t)] + after == before + [Failure(t)];
    }
  }

  /** While fewer failures than the threshold have come in since the last success, every call is admitted. */
  lemma ClosedAdmitsAlways(cfg: Config, es: seq<Event>, now: int)
    requires cfg.Valid() && Charged(es) < cfg.failureThreshold
    ensures Exec(cfg, FRESH, es).Admits(cfg, now)
  {
    TripsExactlyAtThreshold(cfg, es);
  }

  /** Freeing the probe slot of a half-open breaker lets the next call through, whenever it comes. */
  lemma ReleaseReadmits(cfg: Config, es: seq<Event>, now: int)
    requires Exec(cfg, FRESH, es).phase.HalfOpen?
    ensures Exec(cfg, FRESH, es + [Release]).Admits(cfg, now)
  {
    assert (es + [Release])[..|es|] == es;
  }

  /** A whole episode: a trip at t, the probe granted at u, and looks and calls at any instants until its outcome. */
  ghost predicate Episode(cfg: Config, es: seq<Event>, before: seq<Event>, t: int, u: int, waiting: seq<Event>) {
    && cfg.Valid() && Charged(before) + 1 >= cfg.failureThreshold
    && u >= t + cfg.cooldown
    && (forall i :: 0 <= i < |waiting| ==> !waiting[i].Settles())
    && es == before + [Failure(t)] + [Allow(u)] + waiting
  }

  /**
    The probe is granted, nobody else is admitted until its outcome comes in,
    and then: a success admits everyone, a release the next caller, and a
    failure nobody until a full cooldown after it.
   */
  lemma EpisodeEnds(cfg: Config, es: seq<Event>, before: seq<Event>, t: int, u: int, waiting: seq<Event>, v: int, now: int)
    requires Episode(cfg, es, before, t, u, waiting)
    ensures Exec(cfg, FRESH, before + [Failure(t)]).Admits(cfg, u)
    ensures !Exec(cfg, FRESH, es).Admits(cfg, now)
    ensures Exec(cfg, FRESH, es + [Success]).Admits(cfg, now)
    ensures Exec(cfg, FRESH, es + [Release]).Admits(cfg, now)
    ensures Exec(cfg, FRESH, es + [Failure(v)]).Admits(cfg, now) <==> now >= v + cfg.cooldown
  {
    hide Charged;
    FailureTrips(cfg, before, t);
    ProbeTaken(cfg, before + [Failure(t)], u, waiting);
    ProbeSlotHeld(cfg, Exec(cfg, FRESH, before + [Failure(t)] + [Allow(u)]), waiting);
    assert (es + [Success])[..|es|] == (es + [Release])[..|es|] == (es + [Failure(v)])[..|es|] == es;
  }

  lemma ProbeTaken(cfg: Config, before: seq<Event>, u: int, waiting: seq<Event>)
    requires Exec(cfg, FRESH, before).phase.Open? && u >= Exec(cfg, FRESH, before).openedAt + cfg.cooldown
    ensures var s := Exec(cfg, FRESH, before + [Allow(u)]);
            && s.phase.HalfOpen? && s.probing
            && Exec(cfg, FRESH, before + [Allow(u)] + waiting) == Exec(cfg, s, waiting)
  {
    assert (before + [Allow(u)])[..|before|] == before;
    ExecSplits(cfg, FRESH, before + [Allow(u)], waiting);
  }

  /** The state just before event i. */
  function Before(cfg: Config, s: State, es: seq<Event>, i: nat): State
    requires i < |es|
  {
    Exec(cfg, s, es[..i])
  }

  /** Event i is an Allow that was granted as the half-open probe. */
  ghost predicate ProbeGranted(cfg: Config, s: State, es: seq<Event>, i: nat)
    requires i < |es|
  {
    var b := Before(cfg, s, es, i);
    es[i].Allow? && b.Admits(cfg, es[i].now) && b.Settle(cfg, es[i].now).phase.HalfOpen?
  }

  /** A taken probe slot stays taken, at every later instant, until an outcome is reported. */
  lemma {:induction false} ProbeSlotHeld(cfg: Config, s: State, es: seq<Event>)
    requires s.phase.HalfOpen? && s.probing
    requires forall i :: 0 <= i < |es| ==> !es[i].Settles()
    ensures Exec(cfg, s, es) == s
    ensures forall now :: !Exec(cfg, s, es).Admits(cfg, now)
  {
    if es != [] {
      ProbeSlotHeld(cfg, s, es[..|es| - 1]);
    }
  }

  lemma {:induction false} ExecSplits(cfg: Config, s: State, a: seq<Event>, b: seq<Event>)
    ensures Exec(cfg, s, a + b) == Exec(cfg, Exec(cfg, s, a), b)
  {
    if b == [] {
      assert a + b == a;
    } else {
      assert (a + b)[..|a + b| - 1] == a + b[..|b| - 1];
      ExecSplits(cfg, s, a, b[..|b| - 1]);
    }
  }

  /** Between two granted probes a Success, Failure or Release has been reported. */
  lemma OutcomeBetweenProbes(cfg: Config, s: State, es: seq<Event>, i: nat, j: nat)
    requires i < j < |es|
    requires ProbeGranted(cfg, s, es, i) && ProbeGranted(cfg, s, es, j)
    ensures exists k :: i < k < j && es[k].Settles()
  {
    if forall k :: i < k < j ==> !es[k].Settles() {
      var between := es[i + 1..j];
      assert es[..i + 1][..i] == es[..i];
      var after := Exec(cfg, s, es[..i + 1]);
      assert after.phase.HalfOpen? && after.probing;
      ProbeSlotHeld(cfg, after, between);
      assert es[..j] == es[..i + 1] + between;
      ExecSplits(cfg, s, es[..i + 1], between);
      assert false;
    }
  }
}
