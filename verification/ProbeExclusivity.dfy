/**
  The half-open breaker and the requests it has let through.
  A run names every request; each admitted request reports one outcome
  (the pool's Report), possibly long after the breaker has changed phase.
 */
module ProbeExclusivity {
  import opened Collections
  import opened CircuitBreaker

  type Request = nat

  datatype Outcome = Succeeded | Failed | Released

  datatype Event =
    | Look(now: int)
    | Ask(id: Request, now: int)
    | Finish(id: Request, outcome: Outcome, now: int)

  /** The breaker with the admitted requests that have not reported, each with its admission phase. */
  datatype Tracked = Tracked(s: State, out: map<Request, Phase>)

  const START := Tracked(FRESH, map[])

  /** Requests are asked for once and report only while outstanding. */
  ghost predicate Possible(t: Tracked, e: Event) {
    match e
    case Look(_) => true
    case Ask(id, _) => id !in t.out
    case Finish(id, _, _) => id in t.out
  }

  function Report(cfg: Config, s: State, o: Outcome, now: int): State {
    match o
    case Succeeded => s.AfterSuccess()
    case Failed => s.AfterFailure(cfg, now)
    case Released => s.AfterRelease()
  }

  function Next(cfg: Config, t: Tracked, e: Event): Tracked {
    match e
    case Look(now) => t.(s := t.s.Settle(cfg, now))
    case Ask(id, now) =>
      var s' := t.s.AfterAllow(cfg, now);
      Tracked(s', if t.s.Admits(cfg, now) then t.out[id := s'.phase] else t.out)
    case Finish(id, o, now) => Tracked(Report(cfg, t.s, o, now), t.out - {id})
  }

  /** The state after the first n events. */
  function Exec(cfg: Config, t: Tracked, es: seq<Event>, n: nat): Tracked
    requires n <= |es|
  {
    if n == 0 then t else Next(cfg, Exec(cfg, t, es, n - 1), es[n - 1])
  }

  function End(cfg: Config, t: Tracked, es: seq<Event>): Tracked {
    Exec(cfg, t, es, |es|)
  }

  ghost predicate PossibleAt(cfg: Config, t: Tracked, es: seq<Event>, i: nat)
    requires i < |es|
  {
    Possible(Exec(cfg, t, es, i), es[i])
  }

  ghost predicate PossibleRun(cfg: Config, t: Tracked, es: seq<Event>) {
    forall i :: 0 <= i < |es| ==> PossibleAt(cfg, t, es, i)
  }

  lemma RemoveOne(out: map<Request, Phase>, id: Request)
    requires id in out
    ensures |out - {id}| == |out| - 1
  {
    assert (out - {id}).Keys == out.Keys - {id};
  }

  lemma AddOne(out: map<Request, Phase>, id: Request, p: Phase)
    requires id !in out
    ensures |out[id := p]| == |out| + 1
  {
    assert out[id := p].Keys == out.Keys + {id};
  }

  // ----- half-open episodes -----

  ghost predicate HalfOpenAt(cfg: Config, t: Tracked, es: seq<Event>, i: nat)
    requires i <= |es|
  {
    Exec(cfg, t, es, i).s.phase.HalfOpen?
  }

  /** Every state of the run, the last included, is half-open. */
  ghost predicate StaysHalfOpen(cfg: Config, t: Tracked, es: seq<Event>) {
    forall i :: 0 <= i <= |es| ==> HalfOpenAt(cfg, t, es, i)
  }

  /** One event inside an episode. */
  lemma EpisodeStep(cfg: Config, t: Tracked, e: Event)
    requires Possible(t, e) && t.s.phase.HalfOpen? && Next(cfg, t, e).s.phase.HalfOpen?
    ensures var r := Next(cfg, t, e);
            |r.out| - (if r.s.probing then 1 else 0) <= |t.out| - if t.s.probing then 1 else 0
  {
    match e
    case Look(_) =>
    case Ask(id, now) => AddOne(t.out, id, HalfOpen);
    case Finish(id, o, now) => RemoveOne(t.out, id);
  }

  /**
    During a half-open episode the outstanding requests never exceed those
    left over from before it, plus the probe. A leftover that reports may free
    the slot for another probe, but it leaves the count as it does so.
   */
  lemma {:induction false} EpisodeBound(cfg: Config, t: Tracked, es: seq<Event>, n: nat)
    requires cfg.Valid() && n <= |es|
    requires t.s.phase.HalfOpen? && !t.s.probing
    requires PossibleRun(cfg, t, es) && StaysHalfOpen(cfg, t, es)
    ensures var r := Exec(cfg, t, es, n);
            |r.out| <= |t.out| + if r.s.probing then 1 else 0
  {
    hide Next, Possible;
    if n > 0 {
      EpisodeBound(cfg, t, es, n - 1);
      assert PossibleAt(cfg, t, es, n - 1) && HalfOpenAt(cfg, t, es, n - 1) && HalfOpenAt(cfg, t, es, n);
      EpisodeStep(cfg, Exec(cfg, t, es, n - 1), es[n - 1]);
    }
  }

  /**
    At most one request is outstanding throughout every continuation of a
    half-open episode exactly when none was outstanding as it began.
   */
  lemma ExclusiveIffNoLeftovers(cfg: Config, t: Tracked)
    requires cfg.Valid()
    requires t.s.phase.HalfOpen? && !t.s.probing
    ensures (forall es :: PossibleRun(cfg, t, es) && StaysHalfOpen(cfg, t, es) ==> |End(cfg, t, es).out| <= 1)
            <==> t.out == map[]
  {
    hide PossibleRun, StaysHalfOpen, Exec;
    if t.out == map[] {
      forall es | PossibleRun(cfg, t, es) && StaysHalfOpen(cfg, t, es) ensures |End(cfg, t, es).out| <= 1 {
        EpisodeBound(cfg, t, es, |es|);
      }
    } else {
      var es := LeftoverAndProbe(cfg, t);
    }
  }

  /** With a leftover, an immediate Ask is granted and makes one more. */
  lemma LeftoverAndProbe(cfg: Config, t: Tracked) returns (es: seq<Event>)
    requires t.s.phase.HalfOpen? && !t.s.probing && t.out != map[]
    ensures PossibleRun(cfg, t, es) && StaysHalfOpen(cfg, t, es) && |End(cfg, t, es).out| > 1
  {
    var id := FreshNat(t.out.Keys);
    es := [Ask(id, 0)];
    assert Exec(cfg, t, es, 1) == Next(cfg, Exec(cfg, t, es, 0), es[0]) == Next(cfg, t, es[0]);
    AddOne(t.out, id, HalfOpen);
    var k :| k in t.out;
    assert k in t.out.Keys && |t.out| >= 1;
    forall i | 0 <= i < |es| ensures PossibleAt(cfg, t, es, i) {
      assert i == 0;
    }
    forall i | 0 <= i <= |es| ensures HalfOpenAt(cfg, t, es, i) {
      assert i == 0 || i == 1;
    }
  }

  // ----- whole runs -----

  ghost predicate Leftover(t: Tracked) {
    exists id :: id in t.out && t.out[id].Closed?
  }

  /** If event i makes the breaker half-open, no request admitted while closed is outstanding. */
  ghost predicate CleanAt(cfg: Config, t: Tracked, es: seq<Event>, i: nat)
    requires i < |es|
  {
    var before := Exec(cfg, t, es, i);
    !before.s.phase.HalfOpen? && Next(cfg, before, es[i]).s.phase.HalfOpen? ==> !Leftover(before)
  }

  ghost predicate CleanEntries(cfg: Config, t: Tracked, es: seq<Event>) {
    forall i :: 0 <= i < |es| ==> CleanAt(cfg, t, es, i)
  }

  ghost predicate AtMostTheProbe(t: Tracked) {
    if t.s.phase.HalfOpen? then
      && (forall id :: id in t.out ==> t.out[id].HalfOpen?)
      && |t.out| <= 1
      && (t.out != map[] ==> t.s.probing)
    else
      forall id :: id in t.out ==> t.out[id].Closed?
  }

  /** In a run with clean entries a half-open breaker has at most one request outstanding, its probe. */
  lemma {:induction false} OneProbeAtATime(cfg: Config, es: seq<Event>, n: nat)
    requires cfg.Valid() && n <= |es|
    requires PossibleRun(cfg, START, es) && CleanEntries(cfg, START, es)
    ensures AtMostTheProbe(Exec(cfg, START, es, n))
    ensures Exec(cfg, START, es, n).s.phase.HalfOpen? ==> |Exec(cfg, START, es, n).out| <= 1
  {
    hide Next, Possible, Leftover;
    if n > 0 {
      OneProbeAtATime(cfg, es, n - 1);
      assert PossibleAt(cfg, START, es, n - 1) && CleanAt(cfg, START, es, n - 1);
      ProbeStep(cfg, Exec(cfg, START, es, n - 1), es[n - 1]);
    }
  }

  lemma ProbeStep(cfg: Config, t: Tracked, e: Event)
    requires cfg.Valid() && AtMostTheProbe(t) && Possible(t, e)
    requires !t.s.phase.HalfOpen? && Next(cfg, t, e).s.phase.HalfOpen? ==> !Leftover(t)
    ensures AtMostTheProbe(Next(cfg, t, e))
  {
    match e
    case Look(_) =>
      NothingLeft(t);
    case Ask(id, now) =>
      NothingLeft(t);
      AddOne(t.out, id, Next(cfg, t, e).s.phase);
    case Finish(id, o, now) => ProbeFinish(cfg, t, id, o, now);
  }

  lemma NothingLeft(t: Tracked)
    requires AtMostTheProbe(t)
    ensures !t.s.phase.HalfOpen? && !Leftover(t) ==> t.out == map[]
  {
    if !t.s.phase.HalfOpen? && !Leftover(t) {
      assert forall id :: id !in t.out.Keys;
    }
  }

  /** The outcome of a request leaves the half-open breaker empty, or closes or reopens it. */
  lemma ProbeFinish(cfg: Config, t: Tracked, id: Request, o: Outcome, now: int)
    requires AtMostTheProbe(t) && id in t.out
    ensures AtMostTheProbe(Next(cfg, t, Finish(id, o, now)))
  {
    if t.s.phase.HalfOpen? {
      RemoveOne(t.out, id);
      assert |(t.out - {id}).Keys| == 0;
      assert t.out - {id} == map[];
    }
  }

  /** A request admitted while closed, a trip, the cooldown, and the probe. */
  const LATE := [Ask(0, 0), Ask(1, 0), Finish(1, Failed, 0), Ask(2, 10)]

  lemma LateStates(cfg: Config)
    requires cfg == Config(1, 10)
    ensures Exec(cfg, START, LATE, 1) == Tracked(FRESH, map[0 := Closed])
    ensures Exec(cfg, START, LATE, 2) == Tracked(FRESH, map[0 := Closed, 1 := Closed])
    ensures Exec(cfg, START, LATE, 3) == Tracked(State(Open, 1, 0, false), map[0 := Closed])
    ensures Exec(cfg, START, LATE, 4) == Tracked(State(HalfOpen, 1, 0, true), map[0 := Closed, 2 := HalfOpen])
  {
    assert Exec(cfg, START, LATE, 0) == START;
    hide Exec;
    ExecStep(cfg, START, LATE, 0);
    ExecStep(cfg, START, LATE, 1);
    ExecStep(cfg, START, LATE, 2);
    ExecStep(cfg, START, LATE, 3);
    assert map[0 := Closed, 1 := Closed] - {1} == map[0 := Closed];
  }

  lemma ExecStep(cfg: Config, t: Tracked, es: seq<Event>, n: nat)
    requires n < |es|
    ensures Exec(cfg, t, es, n + 1) == Next(cfg, Exec(cfg, t, es, n), es[n])
  {
  }

  /** Without clean entries exclusivity fails: a request admitted while closed outlives the trip. */
  lemma LateRequestBreaksExclusivity()
    ensures var end := End(Config(1, 10), START, LATE);
            PossibleRun(Config(1, 10), START, LATE) && end.s.phase.HalfOpen? && |end.out| == 2
  {
    var cfg := Config(1, 10);
    LateStates(cfg);
    assert Exec(cfg, START, LATE, 0) == START;
    hide Exec, Next;
    forall i | 0 <= i < |LATE| ensures PossibleAt(cfg, START, LATE, i) {
      assert i == 0 || i == 1 || i == 2 || i == 3;
    }
    AddOne(map[0 := Closed], 2, HalfOpen);
    assert |map[0 := Closed]| == 1;
  }
}
