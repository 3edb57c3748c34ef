/**
  The failover loop of the gateway (internal/aigateway/gateway.go): pick an
  endpoint, call it, report the outcome, and decide whether to try another.
 */
module Forwarding {
  import opened Options
  import opened Collections
  import opened Turns
  import opened CircuitBreaker
  import opened EndpointPool
  import opened Providers
  import opened Histories
  import opened Int64
  import opened Retry
  import opened ChatTypes

  // ----- what one request leaves in the history -----

  /** The answer leads to a wait and, unless that is cut short, to another attempt. */
  predicate Retries(a: Answer) {
    a.err.Some? && Classify(a.err.value) != Fail && !a.ctxDone
  }

  ghost predicate OrderlyAt(log: seq<Event>, i: nat)
    requires i < |log|
  {
    match log[i]
    case Picked(id) => i + 1 < |log| ==> log[i + 1].Picked? || (log[i + 1].Called? && log[i + 1].id == id)
    case Called(id, a) =>
      && i > 0 && log[i - 1] == Picked(id)
      && i + 1 < |log| && log[i + 1] == ReportedOn(id, ResultOf(a.err, a.latency))
    case ReportedOn(id, _) =>
      && i > 0 && log[i - 1].Called? && log[i - 1].id == id
      && if Retries(log[i - 1].answer) then i + 1 < |log| && log[i + 1].Slept? else i == |log| - 1
    case Slept(_) =>
      && i > 0 && log[i - 1].ReportedOn?
      && (i + 1 < |log| ==> log[i + 1].Picked?)
  }

  /**
    Every call was picked just before and is followed by exactly one report,
    of its own outcome on the same endpoint; nothing follows a success or a
    failure that is not retried.
   */
  ghost predicate Orderly(log: seq<Event>) {
    forall i :: 0 <= i < |log| ==> OrderlyAt(log, i)
  }

  /** The answer sends the loop to its next attempt. */
  predicate Continues(a: Answer) {
    !a.registered || (Retries(a) && !a.sleepCut)
  }

  /** Which errors send the loop on: no status, 408, 429 or a server error, or a timeout or network failure. */
  predicate Transient(e: CallError) {
    match e.provider
    case Some(pe) => pe.statusCode in {0, 408, 429} || pe.statusCode >= 500
    case None => e.deadline || e.timeout || e.net
  }

  /** The loop goes on exactly from a provider it does not know, or from a transient error that nobody has canceled. */
  lemma ContinuesIffTransient(a: Answer)
    ensures Continues(a) <==>
      || !a.registered
      || (a.err.Some? && !a.err.value.canceled && Transient(a.err.value) && !a.ctxDone && !a.sleepCut)
  {
    if a.err.Some? {
      RetriedErrors(a.err.value);
    }
  }

  /** A request whose context is done is reported on once and then over: it is charged at most once and never retried. */
  lemma GoneRequestEnds(log: seq<Event>, i: nat)
    requires Orderly(log) && i < |log| && log[i].Called? && log[i].answer.ctxDone
    ensures |log| == i + 2 && log[i + 1] == ReportedOn(log[i].id, ResultOf(log[i].answer.err, log[i].answer.latency))
  {
    assert OrderlyAt(log, i) && OrderlyAt(log, i + 1);
  }

  /** The log is at the end of an attempt. */
  ghost predicate Between(log: seq<Event>) {
    log == [] || log[|log| - 1].Picked? || log[|log| - 1].Slept?
  }

  /** What one attempt adds: the pick, and with a registered provider the call, its report and the wait, if any. */
  ghost function Attempt(id: string, a: Answer, delay: int): (chunk: seq<Event>)
    ensures chunk != []
  {
    if !a.registered then [Picked(id)]
    else if !Retries(a) then [Picked(id), Called(id, a), ReportedOn(id, ResultOf(a.err, a.latency))]
    else [Picked(id), Called(id, a), ReportedOn(id, ResultOf(a.err, a.latency)), Slept(delay)]
  }

  lemma AttemptParts(id: string, a: Answer)
    ensures forall d :: Attempt(id, a, d)[0] == Picked(id)
    ensures !a.registered ==> forall d :: Attempt(id, a, d) == [Picked(id)]
  {
  }

  lemma AttemptOrderly(id: string, a: Answer, delay: int)
    ensures Orderly(Attempt(id, a, delay))
    ensures !a.registered || Retries(a) ==> Between(Attempt(id, a, delay))
  {
  }

  lemma OrderlyAppend(log: seq<Event>, more: seq<Event>)
    requires Orderly(log) && Between(log) && Orderly(more) && more != [] && more[0].Picked?
    ensures Orderly(log + more)
  {
    var all := log + more;
    forall i | 0 <= i < |all| ensures OrderlyAt(all, i) {
      if i < |log| {
        assert OrderlyAt(log, i);
        assert i + 1 < |log| ==> all[i + 1] == log[i + 1];
      } else {
        assert OrderlyAt(more, i - |log|);
        assert i > |log| ==> all[i - 1] == more[i - 1 - |log|];
      }
    }
  }

  /** Attempts begun in the first n events. */
  ghost function PicksTo(log: seq<Event>, n: nat): nat
    requires n <= |log|
  {
    if n == 0 then 0 else PicksTo(log, n - 1) + if log[n - 1].Picked? then 1 else 0
  }

  ghost function PickedTo(log: seq<Event>, n: nat): (ids: seq<string>)
    requires n <= |log|
  {
    if n == 0 then [] else
      var ids := PickedTo(log, n - 1);
      if log[n - 1].Picked? then ids + [log[n - 1].id] else ids
  }

  /** The endpoints picked, in order. */
  ghost function Picks(log: seq<Event>): seq<string> {
    PickedTo(log, |log|)
  }

  ghost function CalledTo(log: seq<Event>, n: nat): (ids: seq<string>)
    requires n <= |log|
  {
    if n == 0 then [] else
      var ids := CalledTo(log, n - 1);
      if log[n - 1].Called? then ids + [log[n - 1].id] else ids
  }

  /** The endpoints called, in order. */
  ghost function Calls(log: seq<Event>): seq<string> {
    CalledTo(log, |log|)
  }

  /** The time slept in the first n events; a delay that is not positive returns at once. */
  ghost function SleptTo(log: seq<Event>, n: nat): nat
    requires n <= |log|
  {
    if n == 0 then 0 else SleptTo(log, n - 1) + if log[n - 1].Slept? && log[n - 1].delay > 0 then log[n - 1].delay else 0
  }

  lemma {:induction false} CountsOfAppend(log: seq<Event>, more: seq<Event>, n: nat)
    requires n <= |log| + |more|
    ensures PicksTo(log + more, n) == if n <= |log| then PicksTo(log, n) else PicksTo(log, |log|) + PicksTo(more, n - |log|)
    ensures PickedTo(log + more, n) == if n <= |log| then PickedTo(log, n) else Picks(log) + PickedTo(more, n - |log|)
  {
    if n > 0 {
      CountsOfAppend(log, more, n - 1);
    }
  }

  lemma AttemptCounts(id: string, a: Answer, delay: int)
    ensures var chunk := Attempt(id, a, delay);
            PicksTo(chunk, |chunk|) == 1 && Picks(chunk) == [id]
  {
    var chunk := Attempt(id, a, delay);
    assert PicksTo(chunk, 1) == 1 && PickedTo(chunk, 1) == [id];
    if a.registered {
      assert PicksTo(chunk, 2) == 1 && PickedTo(chunk, 2) == [id];
      assert PicksTo(chunk, 3) == 1 && PickedTo(chunk, 3) == [id];
    }
  }

  // ----- waiting -----

  function RetryAfter(e: CallError): int {
    match e.provider
    case Some(pe) => pe.retryAfter
    case None => 0
  }

  /** The wait after a retryable failure. */
  function DelayAfter(e: CallError, base: int, attempt: nat, excluded: nat, attempts: nat): int {
    if Classify(e) == Elsewhere then
      var ra := RetryAfter(e);
      if ra > 0 && excluded >= attempts then ra else 0
    else Backoff(base, attempt)
  }

  /**
    After a 429, when each attempt has excluded one endpoint, a positive
    Retry-After is waited for after the last attempt and ignored before it.
   */
  lemma WaitAfterRateLimit(e: CallError, base: int, attempt: nat, attempts: nat)
    requires attempt < attempts && Classify(e) == Elsewhere
    ensures var d := DelayAfter(e, base, attempt, attempt + 1, attempts);
            && (d == RetryAfter(e) > 0 <==> RetryAfter(e) > 0 && attempt + 1 == attempts)
            && (RetryAfter(e) <= 0 || attempt + 1 < attempts ==> d == 0)
  {
  }

  /** After any other retried failure the wait doubles from attempt to attempt up to 800ms, as long as that fits 64 bits. */
  lemma WaitAfterFailure(e: CallError, base: int, attempt: nat, excluded: nat, attempts: nat)
    requires Classify(e) == Again
    requires var b := if base > 0 then base else 100_000_000; b * Pow2(attempt) <= MAX_INT64
    ensures var b := if base > 0 then base else 100_000_000;
            DelayAfter(e, base, attempt, excluded, attempts) == Min(b * Pow2(attempt), 800_000_000)
  {
    var b := if base > 0 then base else 100_000_000;
    ProductMonotone(b, 1, Pow2(attempt));
    assert Backoff(base, attempt) == Backoff(b, attempt);
    BackoffIsCappedExponential(b, attempt);
  }

  /** The wait after an attempt, some number of endpoints excluded; exact: one for each attempt so far. */
  ghost predicate WaitIs(delay: int, e: CallError, base: int, attempt: nat, attempts: nat, exact: bool, excluded: nat) {
    excluded > attempt && (exact ==> excluded == attempt + 1) && delay == DelayAfter(e, base, attempt, excluded, attempts)
  }

  ghost predicate ProperWait(delay: int, e: CallError, base: int, attempt: nat, attempts: nat, exact: bool) {
    exists excluded: nat :: WaitIs(delay, e, base, attempt, attempts, exact, excluded)
  }

  /** A call got the answer of its attempt; a wait is the one for the call before it. */
  ghost predicate TimedAt(log: seq<Event>, answers: seq<Answer>, base: int, attempts: nat, exact: bool, i: nat)
    requires i < |log|
  {
    match log[i]
    case Called(_, a) => 1 <= PicksTo(log, i) <= |answers| && a == answers[PicksTo(log, i) - 1]
    case Slept(delay) =>
      && i >= 2 && log[i - 2].Called? && log[i - 2].answer.err.Some? && PicksTo(log, i) >= 1
      && ProperWait(delay, log[i - 2].answer.err.value, base, PicksTo(log, i) - 1, attempts, exact)
    case _ => true
  }

  ghost predicate Timed(log: seq<Event>, answers: seq<Answer>, base: int, attempts: nat, exact: bool) {
    forall i :: 0 <= i < |log| ==> TimedAt(log, answers, base, attempts, exact, i)
  }

  lemma TimedAppend(log: seq<Event>, answers: seq<Answer>, base: int, attempts: nat, exact: bool, id: string, excluded: nat)
    requires Timed(log, answers, base, attempts, exact) && PicksTo(log, |log|) < |answers|
    requires excluded > PicksTo(log, |log|) && (exact ==> excluded == PicksTo(log, |log|) + 1)
    ensures var k := PicksTo(log, |log|);
            var a := answers[k];
            var d := if Retries(a) then DelayAfter(a.err.value, base, k, excluded, attempts) else 0;
            Timed(log + Attempt(id, a, d), answers, base, attempts, exact)
  {
    hide DelayAfter, ProperWait, PicksTo, Attempt, Classify;
    var k := PicksTo(log, |log|);
    var a := answers[k];
    var d := if Retries(a) then DelayAfter(a.err.value, base, k, excluded, attempts) else 0;
    var chunk := Attempt(id, a, d);
    forall i | 0 <= i < |log + chunk| ensures TimedAt(log + chunk, answers, base, attempts, exact, i) {
      if i < |log| {
        TimedEarlier(log, chunk, answers, base, attempts, exact, i);
      } else {
        if Retries(a) {
          WaitHolds(a.err.value, base, k, attempts, exact, excluded);
        }
        TimedNow(log, id, answers, base, attempts, exact, d, i);
      }
    }
  }

  lemma WaitHolds(e: CallError, base: int, attempt: nat, attempts: nat, exact: bool, excluded: nat)
    requires excluded > attempt && (exact ==> excluded == attempt + 1)
    ensures ProperWait(DelayAfter(e, base, attempt, excluded, attempts), e, base, attempt, attempts, exact)
  {
    assert WaitIs(DelayAfter(e, base, attempt, excluded, attempts), e, base, attempt, attempts, exact, excluded);
  }

  lemma TimedNow(log: seq<Event>, id: string, answers: seq<Answer>, base: int, attempts: nat, exact: bool, d: int, i: nat)
    requires PicksTo(log, |log|) < |answers|
    requires var k := PicksTo(log, |log|); var a := answers[k];
             Retries(a) ==> ProperWait(d, a.err.value, base, k, attempts, exact)
    requires var a := answers[PicksTo(log, |log|)]; |log| <= i < |log + Attempt(id, a, d)|
    ensures TimedAt(log + Attempt(id, answers[PicksTo(log, |log|)], d), answers, base, attempts, exact, i)
  {
    hide ProperWait, Classify, ResultOf, PickedTo;
    var k := PicksTo(log, |log|);
    var a := answers[k];
    var chunk := Attempt(id, a, d);
    CountsOfAppend(log, chunk, i);
    AttemptPicks(id, a, d);
    assert (log + chunk)[i] == chunk[i - |log|];
    if i == |log| + 3 {
      assert (log + chunk)[i - 2] == chunk[1];
    }
    hide PicksTo;
  }

  lemma TimedEarlier(log: seq<Event>, more: seq<Event>, answers: seq<Answer>, base: int, attempts: nat, exact: bool, i: nat)
    requires i < |log| && Timed(log, answers, base, attempts, exact)
    ensures TimedAt(log + more, answers, base, attempts, exact, i)
  {
    hide ProperWait, PicksTo, PickedTo;
    CountsOfAppend(log, more, i);
    if i >= 2 {
      CountsOfAppend(log, more, i - 2);
    }
    assert TimedAt(log, answers, base, attempts, exact, i);
    assert (log + more)[i] == log[i] && (i >= 2 ==> (log + more)[i - 2] == log[i - 2]);
  }

  lemma AttemptPicks(id: string, a: Answer, delay: int)
    ensures var chunk := Attempt(id, a, delay);
            forall n :: 1 <= n <= |chunk| ==> PicksTo(chunk, n) == 1
  {
    var chunk := Attempt(id, a, delay);
    forall n | 1 <= n <= |chunk| ensures PicksTo(chunk, n) == 1 {
      PicksOfAttempt(id, a, delay, n);
    }
  }

  lemma {:induction false} PicksOfAttempt(id: string, a: Answer, delay: int, n: nat)
    requires 1 <= n <= |Attempt(id, a, delay)|
    ensures PicksTo(Attempt(id, a, delay), n) == 1
  {
    if n > 1 {
      PicksOfAttempt(id, a, delay, n - 1);
    }
  }

  function LongestRetryAfter(answers: seq<Answer>, n: nat): (d: nat)
    requires n <= |answers|
    ensures forall k :: 0 <= k < n && answers[k].err.Some? ==> RetryAfter(answers[k].err.value) <= d
  {
    if n == 0 then 0 else
      var m := LongestRetryAfter(answers, n - 1);
      var ra := if answers[n - 1].err.Some? then RetryAfter(answers[n - 1].err.value) else 0;
      if ra > m then ra else m
  }

  /** What the attempts up to event n allow to be slept; an attempt that has not slept yet still may. */
  lemma {:induction false} SleepBudget(log: seq<Event>, answers: seq<Answer>, base: int, attempts: nat, n: nat)
    requires n <= |log| && attempts <= |answers| && Orderly(log) && Timed(log, answers, base, attempts, true)
    requires PicksTo(log, n) <= attempts
    ensures n > 0 ==> PicksTo(log, n) >= 1
    ensures var longest := LongestRetryAfter(answers, attempts);
            SleptTo(log, n) + (if n > 0 && !log[n - 1].Slept? then MAX_BACKOFF else 0)
            <= PicksTo(log, n) * MAX_BACKOFF + if n > 0 && log[n - 1].Slept? && PicksTo(log, n) == attempts then longest else 0
  {
    hide LongestRetryAfter, DelayAfter, Retries, Backoff;
    if n > 0 {
      SleepBudget(log, answers, base, attempts, n - 1);
      assert OrderlyAt(log, n - 1) && TimedAt(log, answers, base, attempts, true, n - 1);
      if log[n - 1].Slept? {
        WaitIsBounded(log, answers, base, attempts, n - 1);
      }
    }
  }

  lemma WaitIsBounded(log: seq<Event>, answers: seq<Answer>, base: int, attempts: nat, i: nat)
    requires i < |log| && log[i].Slept? && 1 <= PicksTo(log, i) <= attempts <= |answers|
    requires Orderly(log) && Timed(log, answers, base, attempts, true)
    ensures log[i].delay <= MAX_BACKOFF || (PicksTo(log, i) == attempts && log[i].delay <= LongestRetryAfter(answers, attempts))
  {
    assert OrderlyAt(log, i) && TimedAt(log, answers, base, attempts, true, i) && TimedAt(log, answers, base, attempts, true, i - 2);
    assert PicksTo(log, i) == PicksTo(log, i - 1) == PicksTo(log, i - 2);
    var k := PicksTo(log, i) - 1;
    assert log[i - 2].answer == answers[k];
    assert answers[k].err.Some? && RetryAfter(answers[k].err.value) <= LongestRetryAfter(answers, attempts);
  }

  /** The total bound, once the request is over. */
  lemma TotalSleep(log: seq<Event>, answers: seq<Answer>, base: int, attempts: nat)
    requires attempts <= |answers| && Orderly(log) && Timed(log, answers, base, attempts, true)
    requires PicksTo(log, |log|) <= attempts
    ensures SleptTo(log, |log|) <= attempts * MAX_BACKOFF + LongestRetryAfter(answers, attempts)
  {
    SleepBudget(log, answers, base, attempts, |log|);
    ProductMonotone(MAX_BACKOFF, PicksTo(log, |log|), attempts);
  }

  // ----- one attempt -----

  datatype Verdict = NoEndpoint | Done(usage: Option<Usage>, failed: bool) | Next

  /** Other requests, health checks and the clock go on while a call or a sleep lasts; the endpoint list stays. */
  method Churn(pool: Pool, ghost who: nat)
    requires pool.Valid()
    modifies pool.clock, pool.Breakers(), pool.Members(), pool.history
    ensures old(pool.clock.now) <= pool.clock.now
    ensures pool.history.Of(who) == old(pool.history.Of(who))
  {
  }

  /** None of the sights qualified when its breaker was consulted. */
  ghost predicate NoneQualified(v: seq<Sight>, cfg: Config, at: seq<int>) {
    |at| == |v| && forall i :: 0 <= i < |v| ==> !v[i].Qualifies(cfg, at[i])
  }

  /** m is excluded, unhealthy, or held back by its breaker at some instant in [since, now]. */
  ghost predicate HeldBack(m: Member, exclude: set<string>, since: int, now: int)
    reads m, m.breaker
  {
    m.ep.id in exclude || m.health == Unhealthy || exists t :: since <= t <= now && !m.breaker.View().Admits(m.breaker.cfg, t)
  }

  lemma NobodyQualified(ms: seq<Member>, c: seq<int>, c': seq<int>, v: seq<Sight>, cfg: Config, q: seq<bool>, at: seq<int>, chosen: Member?)
    requires Elects(ms, c, c', q, chosen) && Judged(q, v, cfg, at) && |v| == |ms|
    ensures chosen == null <==> NoneQualified(v, cfg, at)
  {
    if chosen == null {
      forall i | 0 <= i < |v| ensures !v[i].Qualifies(cfg, at[i]) {
        assert i !in Where(q);
      }
    } else {
      var i := Winner(WeightsOf(ms), c, Where(q));
      assert v[i].Qualifies(cfg, at[i]);
    }
  }

  lemma AllHeldBack(pool: Pool, model: string, exclude: set<string>, v: seq<Sight>, at: seq<int>, since: int)
    requires pool.Valid() && v == SeeAll(pool.ListOf(model), exclude)
    requires NoneQualified(v, pool.breakerCfg.WithDefaults(), at) && Rising(at, since, pool.clock.now)
    ensures forall m :: m in pool.ListOf(model) ==> HeldBack(m, exclude, since, pool.clock.now)
  {
    var ms := pool.ListOf(model);
    forall m | m in ms ensures HeldBack(m, exclude, since, pool.clock.now) {
      var i :| 0 <= i < |ms| && ms[i] == m;
      assert v[i] == See(m, exclude) && !v[i].Qualifies(m.breaker.cfg, at[i]);
      assert since <= at[i] <= pool.clock.now;
    }
  }

  /**
    One Pick of a request. On a quiet one no endpoint is found if and only if
    no member qualified when it was consulted, and then each member of the
    model is still held back in the state it leaves.
   */
  method PickNext(pool: Pool, model: string, exclude: set<string>, ghost who: nat, ghost quiet: bool)
    returns (r: Option<Endpoint>, exclude': set<string>, ghost at: seq<int>)
    requires pool.Valid() && exclude <= pool.IDsOf(model)
    modifies pool.clock, pool.Breakers(), pool.Members(), pool.history
    ensures old(pool.clock.now) <= pool.clock.now
    ensures exclude <= exclude' <= pool.IDsOf(model) && (quiet ==> exclude' == exclude)
    ensures r.Some? ==> r.value.id in pool.IDsOf(model) && r.value.id !in exclude'
    ensures pool.history.Of(who) == old(pool.history.Of(who)) + if r.Some? then [Picked(r.value.id)] else []
    ensures quiet ==> (r.None? <==> NoneQualified(old(SeeAll(pool.ListOf(model), exclude)), pool.breakerCfg.WithDefaults(), at))
    ensures quiet && r.None? ==> forall m :: m in pool.ListOf(model) ==> HeldBack(m, exclude, old(pool.clock.now), pool.clock.now)
  {
    hide Elects, Judged, Rising, Credits, SeeAll, WellFormed, GrantsOf, Granting, NoneQualified, HeldBack, Fit, ViewsOf;
    ghost var chosen, q;
    assert forall m :: m in pool.ListOf(model) ==> m in pool.Members();
    ghost var ms := pool.ListOf(model);
    ghost var v, since, c := SeeAll(ms, exclude), pool.clock.now, Credits(ms);
    r, exclude', chosen, q, at := pool.Pick(model, exclude, who, quiet);
    if quiet {
      NobodyQualified(ms, c, Credits(ms), v, pool.breakerCfg.WithDefaults(), q, at, chosen);
      if r.None? {
        pool.SeenAgain();
        RisingWithin(at, since, pool.clock.now);
        AllHeldBack(pool, model, exclude, v, at, since);
      }
    }
  }

  lemma RisingWithin(at: seq<int>, lo: int, hi: int)
    requires exists surveyed :: surveyed <= hi && Rising(at, lo, surveyed)
    ensures Rising(at, lo, hi)
  {
  }

  /** The provider call, during which everything else goes on. */
  method Call(pool: Pool, id: string, a: Answer, ghost who: nat)
    requires pool.Valid()
    modifies pool.clock, pool.Breakers(), pool.Members(), pool.history
    ensures old(pool.clock.now) <= pool.clock.now
    ensures pool.history.Of(who) == old(pool.history.Of(who)) + [Called(id, a)]
  {
    pool.history.Add(who, Called(id, a));
    Churn(pool, who);
  }

  method ReportOn(pool: Pool, id: string, result: CallResult, ghost who: nat)
    requires pool.Valid()
    modifies pool.clock, pool.Breakers(), pool.Members(), pool.history
    ensures old(pool.clock.now) <= pool.clock.now
    ensures pool.history.Of(who) == old(pool.history.Of(who)) + [ReportedOn(id, result)]
    ensures id in pool.byID ==>
      var b := pool.byID[id].breaker; b.View() == Reported(b.cfg, old(b.View()), result, pool.clock.now)
  {
    assert id in pool.byID ==> pool.byID[id] in pool.Members();
    pool.Report(id, result, who);
  }

  method Sleep(pool: Pool, delay: int, ghost who: nat)
    requires pool.Valid()
    modifies pool.clock, pool.Breakers(), pool.Members(), pool.history
    ensures old(pool.clock.now) <= pool.clock.now
    ensures pool.history.Of(who) == old(pool.history.Of(who)) + [Slept(delay)]
  {
    pool.history.Add(who, Slept(delay));
    Churn(pool, who);
  }

  /** A registered provider: call it, report on it, and wait if the answer says so. */
  method TryProvider(pool: Pool, id: string, exclude: set<string>, attempt: nat, attempts: nat, base: int, a: Answer, ghost who: nat)
    returns (verdict: Verdict, exclude': set<string>, ghost delay: int)
    requires pool.Valid() && a.registered
    modifies pool.clock, pool.Breakers(), pool.Members(), pool.history
    ensures old(pool.clock.now) <= pool.clock.now
    ensures exclude' == if Retries(a) then exclude + {id} else exclude
    ensures delay == if Retries(a) then DelayAfter(a.err.value, base, attempt, |exclude'|, attempts) else 0
    ensures pool.history.Of(who) == old(pool.history.Of(who)) + Attempt(id, a, delay)[1..]
    ensures verdict == if Retries(a) && !a.sleepCut then Next else Done(a.usage, a.err.Some?)
  {
    hide Classify, ResultOf, DelayAfter, WellFormed;
    exclude', delay := exclude, 0;
    Call(pool, id, a, who);
    ReportOn(pool, id, ResultOf(a.err, a.latency), who);
    match a.err {
      case None =>
        return Done(a.usage, false), exclude', delay;
      case Some(e) =>
        if Classify(e) == Fail || a.ctxDone {
          return Done(a.usage, true), exclude', delay;
        }
        exclude' := exclude' + {id};
        var wait := DelayAfter(e, base, attempt, |exclude'|, attempts);
        delay := wait;
        Sleep(pool, wait, who);
        verdict := if a.sleepCut then Done(a.usage, true) else Next;
    }
  }

  /** One round of the loop of forward. */
  method TryOnce(pool: Pool, model: string, exclude: set<string>, attempt: nat, attempts: nat, base: int, a: Answer,
                 ghost who: nat, ghost quiet: bool)
    returns (verdict: Verdict, exclude': set<string>, ghost id: string, ghost delay: int, ghost at: seq<int>)
    requires pool.Valid() && exclude <= pool.IDsOf(model)
    modifies pool.clock, pool.Breakers(), pool.Members(), pool.history
    ensures exclude <= exclude' <= pool.IDsOf(model)
    ensures quiet ==>
      (verdict.NoEndpoint? <==> NoneQualified(old(SeeAll(pool.ListOf(model), exclude)), pool.breakerCfg.WithDefaults(), at))
    ensures verdict.NoEndpoint? && quiet ==>
      forall m :: m in pool.ListOf(model) ==> HeldBack(m, exclude, old(pool.clock.now), pool.clock.now)
    ensures verdict.NoEndpoint? ==> pool.history.Of(who) == old(pool.history.Of(who))
    ensures !verdict.NoEndpoint? ==> id in pool.IDsOf(model) && id !in exclude
    ensures !verdict.NoEndpoint? ==> pool.history.Of(who) == old(pool.history.Of(who)) + Attempt(id, a, delay)
    ensures delay == if !verdict.NoEndpoint? && a.registered && Retries(a)
                     then DelayAfter(a.err.value, base, attempt, |exclude'|, attempts) else 0
    ensures verdict.Next? <==> !verdict.NoEndpoint? && Continues(a)
    ensures !verdict.NoEndpoint? && (!a.registered || Retries(a)) ==> id in exclude' && (quiet ==> exclude' == exclude + {id})
    ensures verdict.Done? ==> verdict.usage == a.usage && verdict.failed == a.err.Some?
    ensures old(pool.clock.now) <= pool.clock.now
  {
    hide Retries, DelayAfter, WellFormed, Attempt, SeeAll, NoneQualified, HeldBack;
    var r;
    r, exclude', at := PickNext(pool, model, exclude, who, quiet);
    id, delay, verdict := "", 0, NoEndpoint;
    if r.Some? {
      id := r.value.id;
      AttemptParts(id, a);
      if !a.registered {
        exclude', verdict := exclude' + {r.value.id}, Next;
      } else {
        verdict, exclude', delay := TryProvider(pool, r.value.id, exclude', attempt, attempts, base, a, who);
        assert Attempt(id, a, delay) == [Picked(id)] + Attempt(id, a, delay)[1..];
      }
    }
  }

  // ----- the whole loop -----

  /** What the log has established after some attempts: each picked an endpoint not picked before. */
  ghost predicate Progress(log: seq<Event>, ids: set<string>, exclude: set<string>, attempt: nat) {
    && Orderly(log) && PicksTo(log, |log|) == attempt
    && NoDuplicates(Picks(log)) && Elements(Picks(log)) <= exclude <= ids
  }

  lemma NewPick(picks: seq<string>, id: string)
    requires NoDuplicates(picks) && id !in Elements(picks)
    ensures NoDuplicates(picks + [id]) && Elements(picks + [id]) == Elements(picks) + {id}
  {
  }

  /** One more attempt on an endpoint not excluded before. */
  lemma ProgressAttempt(log: seq<Event>, ids: set<string>, exclude: set<string>, exclude': set<string>, attempt: nat,
                        id: string, a: Answer, delay: int)
    requires Progress(log, ids, exclude, attempt) && Between(log)
    requires exclude <= exclude' <= ids && id !in exclude && id in exclude'
    ensures Progress(log + Attempt(id, a, delay), ids, exclude', attempt + 1)
    ensures Elements(Picks(log + Attempt(id, a, delay))) == Elements(Picks(log)) + {id}
    ensures Continues(a) ==> Between(log + Attempt(id, a, delay))
  {
    hide Attempt, Orderly, Retries, PicksTo, PickedTo, NoDuplicates, Elements;
    var chunk := Attempt(id, a, delay);
    AttemptParts(id, a);
    AttemptOrderly(id, a, delay);
    AttemptCounts(id, a, delay);
    OrderlyAppend(log, chunk);
    CountsOfAppend(log, chunk, |log + chunk|);
    NewPick(Picks(log), id);
    assert (log + chunk)[|log + chunk| - 1] == chunk[|chunk| - 1];
  }

  lemma {:induction false} DistinctCount(calls: seq<string>)
    requires NoDuplicates(calls)
    ensures |Elements(calls)| == |calls|
  {
    if calls != [] {
      ElementsWithout(calls, 0);
      DistinctCount(Without(calls, 0));
      assert calls[0] in Elements(calls);
    }
  }

  /** Each call is to the endpoint its attempt has just picked. */
  lemma {:induction false} CallsAmongPicks(log: seq<Event>, n: nat)
    requires n <= |log| && Orderly(log) && NoDuplicates(Picks(log))
    ensures NoDuplicates(PickedTo(log, n)) && |PickedTo(log, n)| == PicksTo(log, n)
    ensures NoDuplicates(CalledTo(log, n)) && Elements(CalledTo(log, n)) <= Elements(PickedTo(log, n))
    ensures n > 0 && log[n - 1].Picked? ==> PicksTo(log, n) >= 1 && log[n - 1].id !in Elements(CalledTo(log, n))
    ensures n > 0 && log[n - 1].Picked? ==> log[n - 1].id in Elements(PickedTo(log, n))
  {
    hide NoDuplicates, Elements;
    if n > 0 {
      CallsAmongPicks(log, n - 1);
      assert OrderlyAt(log, n - 1);
      if log[n - 1].Picked? {
        PickedPrefix(log, n, |log|);
        NewestPick(PickedTo(log, n - 1), log[n - 1].id);
      } else if log[n - 1].Called? {
        NewPick(CalledTo(log, n - 1), log[n - 1].id);
      }
    } else {
      NoneYet();
    }
  }

  lemma NoneYet()
    ensures NoDuplicates<string>([]) && Elements<string>([]) == {}
  {
  }

  lemma NewestPick(picks: seq<string>, id: string)
    requires NoDuplicates(picks + [id])
    ensures id !in Elements(picks) && Elements(picks + [id]) == Elements(picks) + {id}
  {
    forall i | 0 <= i < |picks| ensures picks[i] != id {
      assert (picks + [id])[i] == picks[i] && (picks + [id])[|picks|] == id;
    }
  }

  lemma {:induction false} PickedPrefix(log: seq<Event>, n: nat, m: nat)
    requires n <= m <= |log| && NoDuplicates(PickedTo(log, m))
    ensures NoDuplicates(PickedTo(log, n))
  {
    if n < m {
      DistinctPrefix(PickedTo(log, m - 1), PickedTo(log, m));
      PickedPrefix(log, n, m - 1);
    }
  }

  lemma DistinctPrefix(ids: seq<string>, more: seq<string>)
    requires ids <= more && NoDuplicates(more)
    ensures NoDuplicates(ids)
  {
    forall i, j | 0 <= i < j < |ids| ensures ids[i] != ids[j] {
      assert more[i] != more[j];
    }
  }

  lemma ProgressMeans(log: seq<Event>, ids: set<string>, exclude: set<string>, attempt: nat)
    requires Progress(log, ids, exclude, attempt)
    ensures Orderly(log) && PicksTo(log, |log|) == attempt
    ensures NoDuplicates(Picks(log)) && Elements(Picks(log)) <= ids && |Picks(log)| == attempt <= |ids|
    ensures NoDuplicates(Calls(log)) && Elements(Calls(log)) <= Elements(Picks(log)) && |Calls(log)| <= attempt
  {
    hide NoDuplicates, Elements;
    CallsAmongPicks(log, |log|);
    DistinctCount(Picks(log));
    DistinctCount(Calls(log));
    SubsetCount(Elements(Calls(log)), Elements(Picks(log)));
    SubsetCount(Elements(Picks(log)), ids);
  }

  /** The last thing that happened was the report of a success. */
  ghost predicate EndsInSuccess(log: seq<Event>) {
    log != [] && log[|log| - 1].ReportedOn? && log[|log| - 1].result.success
  }

  lemma SuccessEnds(log: seq<Event>, id: string, a: Answer)
    requires a.registered && a.err.None?
    ensures EndsInSuccess(log + Attempt(id, a, 0))
  {
  }

  /** One round with what it adds to this request's log. */
  method Round(pool: Pool, model: string, exclude: set<string>, attempt: nat, attempts: nat, base: int, answers: seq<Answer>,
               ghost who: nat, ghost quiet: bool, ghost ids: set<string>, ghost log: seq<Event>)
    returns (verdict: Verdict, exclude': set<string>, ghost log': seq<Event>, ghost excluded: set<string>)
    requires pool.Valid() && ids == pool.IDsOf(model) && exclude <= ids && attempt < attempts <= |answers|
    requires Progress(log, ids, exclude, attempt) && Between(log) && (quiet ==> exclude == Elements(Picks(log)))
    requires Timed(log, answers, base, attempts, quiet)
    modifies pool.clock, pool.Breakers(), pool.Members(), pool.history
    ensures old(pool.clock.now) <= pool.clock.now
    ensures exists chunk :: log' == log + chunk && pool.history.Of(who) == old(pool.history.Of(who)) + chunk
    ensures verdict.NoEndpoint? ==> log' == log
    ensures verdict.NoEndpoint? && quiet ==>
      forall m :: m in pool.ListOf(model) ==> HeldBack(m, exclude, old(pool.clock.now), pool.clock.now)
    ensures !verdict.NoEndpoint? ==> Progress(log', ids, excluded, attempt + 1) && Timed(log', answers, base, attempts, quiet)
    ensures verdict.Next? <==> !verdict.NoEndpoint? && Continues(answers[attempt])
    ensures verdict.Next? ==> Between(log') && excluded == exclude' <= ids && (quiet ==> exclude' == Elements(Picks(log')))
    ensures verdict.Done? ==> verdict.usage == answers[attempt].usage && verdict.failed == answers[attempt].err.Some?
    ensures verdict.Done? && !verdict.failed ==> EndsInSuccess(log')
  {
    hide Progress, Between, Timed, WellFormed, Classify, Attempt, EndsInSuccess, DelayAfter, HeldBack, NoneQualified, PickedTo, Elements;
    var a := answers[attempt];
    ghost var id, delay, at;
    verdict, exclude', id, delay, at := TryOnce(pool, model, exclude, attempt, attempts, base, a, who, quiet);
    excluded := exclude';
    if verdict.NoEndpoint? {
      log' := log + [];
    } else {
      log' := log + Attempt(id, a, delay);
      excluded := exclude' + {id};
      ProgressAttempt(log, ids, exclude, excluded, attempt, id, a, delay);
      RoundTimed(log, ids, exclude, exclude', attempt, attempts, base, answers, quiet, id, delay);
      if verdict.Done? && !verdict.failed {
        SuccessEnds(log, id, a);
      }
    }
  }

  lemma RoundTimed(log: seq<Event>, ids: set<string>, exclude: set<string>, exclude': set<string>, attempt: nat, attempts: nat,
                   base: int, answers: seq<Answer>, quiet: bool, id: string, delay: int)
    requires attempt < attempts <= |answers| && Progress(log, ids, exclude, attempt) && id !in exclude && exclude <= exclude'
    requires (quiet ==> exclude == Elements(Picks(log))) && Timed(log, answers, base, attempts, quiet)
    requires var a := answers[attempt];
             && (a.registered && Retries(a) ==> id in exclude' && (quiet ==> exclude' == exclude + {id}))
             && delay == if a.registered && Retries(a) then DelayAfter(a.err.value, base, attempt, |exclude'|, attempts) else 0
    ensures Timed(log + Attempt(id, answers[attempt], delay), answers, base, attempts, quiet)
  {
    var a := answers[attempt];
    if a.registered && Retries(a) {
      hide Retries, Timed, NoDuplicates, Elements;
      ProgressMeans(log, ids, exclude, attempt);
      DistinctCount(Picks(log));
      SubsetCount(Elements(Picks(log)), exclude);
      SubsetCount(exclude + {id}, exclude');
      TimedAppend(log, answers, base, attempts, quiet, id, |exclude'|);
    } else {
      TimedAppend(log, answers, base, attempts, quiet, id, attempt + 1);
      UnsleptAttempt(id, a, delay);
    }
  }

  /** The delay of an attempt that does not wait is not recorded. */
  lemma UnsleptAttempt(id: string, a: Answer, delay: int)
    requires !a.registered || !Retries(a)
    ensures forall d :: Attempt(id, a, d) == Attempt(id, a, delay)
  {
  }

  /** How the loop ends: it ran out of attempts, a Pick found nothing, or an answer ended it. */
  datatype Ending = Exhausted | Starved | Answered

  /**
    n attempts were made, all but an answer that ends the request led to
    another, and the last of them decides what comes back.
   */
  ghost predicate Concluded(ending: Ending, n: nat, attempts: nat, answers: seq<Answer>, usage: Option<Usage>, failed: bool) {
    && n <= attempts <= |answers|
    && (forall k :: 0 <= k < n ==> (Continues(answers[k]) <==> k + 1 < n || !ending.Answered?))
    && match ending
       case Exhausted => n == attempts && failed && usage.None?
       case Starved => n < attempts && failed && usage.None?
       case Answered => n >= 1 && usage == answers[n - 1].usage && failed == answers[n - 1].err.Some?
  }

  /**
    forward: every answer but one that ends the request leads to another
    attempt, until the attempts run out or a Pick finds nothing, which on a
    quiet run it does only with each of the model's members already tried,
    unhealthy, or held back by its breaker. The picks are distinct endpoints of
    the model; each call is to the endpoint just picked and is reported exactly
    once before the next pick, and nothing follows an answer that ends the
    request. The log is what the history holds for this request, which other
    requests leave alone. While no report lands inside a Pick, each wait is
    exactly the one of its attempt, and all of them stay within the backoff cap
    but for one obeyed Retry-After.
   */
  method Forward(pool: Pool, model: string, attempts: nat, base: int, answers: seq<Answer>, ghost who: nat, ghost quiet: bool)
    returns (usage: Option<Usage>, failed: bool, ghost log: seq<Event>, ghost ending: Ending)
    requires pool.Valid() && attempts <= |answers|
    modifies pool.clock, pool.Breakers(), pool.Members(), pool.history
    ensures pool.history.Of(who) == old(pool.history.Of(who)) + log
    ensures Orderly(log) && Timed(log, answers, base, attempts, quiet)
    ensures NoDuplicates(Picks(log)) && Elements(Picks(log)) <= pool.IDsOf(model)
    ensures |Picks(log)| <= attempts && |Picks(log)| <= |pool.IDsOf(model)|
    ensures NoDuplicates(Calls(log)) && Elements(Calls(log)) <= Elements(Picks(log)) && |Calls(log)| <= |Picks(log)|
    ensures Concluded(ending, |Picks(log)|, attempts, answers, usage, failed)
    ensures quiet && ending.Starved? ==>
      forall m :: m in pool.ListOf(model) ==> HeldBack(m, Elements(Picks(log)), old(pool.clock.now), pool.clock.now)
    ensures !failed ==> EndsInSuccess(log)
    ensures quiet ==> SleptTo(log, |log|) <= attempts * MAX_BACKOFF + LongestRetryAfter(answers, attempts)
  {
    hide Progress, Between, Timed, LongestRetryAfter, WellFormed, EndsInSuccess, Orderly, PicksTo, PickedTo, CalledTo, SleptTo;
    hide Elements, HeldBack, Continues, NoDuplicates, Pool.IDsOf;
    ghost var ids := pool.IDsOf(model);
    var exclude: set<string> := {};
    log, ending, usage, failed := [], Exhausted, None, true;
    NothingYet(ids, answers, base, attempts, quiet);
    ghost var excluded: set<string>, rounds: nat := {}, 0;
    for attempt := 0 to attempts
      invariant pool.byModel == old(pool.byModel) && pool.byID == old(pool.byID) && old(pool.clock.now) <= pool.clock.now
      invariant ending.Exhausted? && failed && usage.None?
      invariant excluded == exclude <= ids && rounds == attempt
      invariant Progress(log, ids, exclude, attempt) && Between(log) && Timed(log, answers, base, attempts, quiet)
      invariant pool.history.Of(who) == old(pool.history.Of(who)) + log
      invariant quiet ==> exclude == Elements(Picks(log))
      invariant forall k :: 0 <= k < attempt ==> Continues(answers[k])
    {
      var verdict;
      ghost var since := pool.clock.now;
      ghost var log', excluded';
      verdict, exclude, log', excluded' := Round(pool, model, exclude, attempt, attempts, base, answers, who, quiet, ids, log);
      log := log';
      if verdict.NoEndpoint? {
        ending := Starved;
        StillHeldBack(pool, model, excluded, since, old(pool.clock.now));
        break;
      }
      excluded, rounds := excluded', attempt + 1;
      if verdict.Done? {
        usage, failed, ending := verdict.usage, verdict.failed, Answered;
        break;
      }
    }
    ProgressMeans(log, ids, excluded, rounds);
    if quiet {
      TotalSleep(log, answers, base, attempts);
    }
  }

  lemma StillHeldBack(pool: Pool, model: string, exclude: set<string>, since: int, earlier: int)
    requires earlier <= since
    ensures (forall m :: m in pool.ListOf(model) ==> HeldBack(m, exclude, since, pool.clock.now)) ==>
      forall m :: m in pool.ListOf(model) ==> HeldBack(m, exclude, earlier, pool.clock.now)
  {
  }

  lemma NothingYet(ids: set<string>, answers: seq<Answer>, base: int, attempts: nat, quiet: bool)
    ensures Progress([], ids, {}, 0) && Between([]) && Timed([], answers, base, attempts, quiet) && Elements(Picks([])) == {}
  {
  }
}
