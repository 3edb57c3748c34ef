/**
  Which provider errors are retried, how long the gateway waits in between
  (internal/retry/retry.go), and which of them count against an endpoint's
  breaker (internal/provider/provider.go, internal/aigateway/gateway.go).
 */
module Retry {
  import opened Options
  import opened CircuitBreaker
  import opened EndpointPool
  import opened Providers
  import opened Int64
  import Runs = BreakerRuns

  datatype Action = Fail | Again | Elsewhere

  function Classify(err: CallError): Action {
    if err.canceled then Fail
    else match err.provider
      case Some(pe) =>
        if pe.statusCode in {400, 401, 403, 404} then Fail
        else if pe.statusCode == 429 then Elsewhere
        else if pe.Retryable() then Again
        else Fail
      case None =>
        if err.deadline || err.timeout || err.net then Again else Fail
  }

  /** The report the gateway makes of a call. */
  function ResultOf(err: Option<CallError>, latency: int): (r: CallResult)
    ensures r.latency == latency && (r.success <==> err.None?)
  {
    match err
    case None => CallResult(true, 0, latency, false)
    case Some(e) =>
      match e.provider
      case Some(pe) => CallResult(false, pe.statusCode, latency, pe.Retryable())
      case None => CallResult(false, 0, latency, Classify(e) != Fail)
  }

  /** Errors that count against the breaker: no status, 408 or a server error, or a timeout or network failure. */
  predicate Charged(e: CallError) {
    match e.provider
    case Some(pe) => pe.statusCode == 0 || pe.statusCode == 408 || pe.statusCode >= 500
    case None => !e.canceled && (e.deadline || e.timeout || e.net)
  }

  /** Which errors are retried: a 429 at another endpoint; what counts against the breaker, unless canceled, anywhere. */
  lemma RetriedErrors(e: CallError)
    ensures Classify(e) == Elsewhere <==> !e.canceled && e.provider.Some? && e.provider.value.statusCode == 429
    ensures Classify(e) == Again <==>
      !e.canceled && match e.provider
                     case Some(pe) => pe.statusCode in {0, 408} || 500 <= pe.statusCode
                     case None => e.deadline || e.timeout || e.net
    ensures !e.canceled ==> (Classify(e) == Again <==> Charged(e))
    ensures Classify(e) == Fail <==> e.canceled || (!Charged(e) && Classify(e) != Elsewhere)
  {
  }

  // ----- histories of calls on one endpoint -----

  datatype Call =
    | Look(now: int)
    | Ask(now: int)
    | Answer(err: Option<CallError>, latency: int, now: int)

  function Step(cfg: Config, s: State, c: Call): State {
    match c
    case Look(now) => s.Settle(cfg, now)
    case Ask(now) => s.AfterAllow(cfg, now)
    case Answer(err, latency, now) => Reported(cfg, s, ResultOf(err, latency), now)
  }

  function History(cfg: Config, calls: seq<Call>, n: nat): State
    requires n <= |calls|
  {
    if n == 0 then FRESH else Step(cfg, History(cfg, calls, n - 1), calls[n - 1])
  }

  /** Charged errors among the first n calls since the last success. */
  function ChargedSinceSuccess(calls: seq<Call>, n: nat): nat
    requires n <= |calls|
  {
    if n == 0 then 0 else
      var k := ChargedSinceSuccess(calls, n - 1);
      match calls[n - 1]
      case Answer(None, _, _) => 0
      case Answer(Some(e), _, _) => if Charged(e) then k + 1 else k
      case _ => k
  }

  function EventOf(c: Call): Runs.Event {
    match c
    case Look(now) => Runs.Look(now)
    case Ask(now) => Runs.Allow(now)
    case Answer(None, _, _) => Runs.Success
    case Answer(Some(e), _, now) => if Charged(e) then Runs.Failure(now) else Runs.Release
  }

  function Events(calls: seq<Call>, n: nat): (es: seq<Runs.Event>)
    requires n <= |calls|
    ensures |es| == n
  {
    if n == 0 then [] else Events(calls, n - 1) + [EventOf(calls[n - 1])]
  }

  lemma ReportIsEvent(cfg: Config, s: State, c: Call)
    ensures Step(cfg, s, c) == Runs.Next(cfg, s, EventOf(c))
  {
  }

  lemma {:induction false} HistoryIsExec(cfg: Config, calls: seq<Call>, n: nat)
    requires n <= |calls|
    ensures History(cfg, calls, n) == Runs.Exec(cfg, FRESH, Events(calls, n))
    ensures ChargedSinceSuccess(calls, n) == Runs.Charged(Events(calls, n))
  {
    if n > 0 {
      HistoryIsExec(cfg, calls, n - 1);
      ReportIsEvent(cfg, History(cfg, calls, n - 1), calls[n - 1]);
      assert Events(calls, n)[..n - 1] == Events(calls, n - 1);
    }
  }

  /**
    Over every history of calls an endpoint's breaker is closed exactly while
    fewer than threshold charged errors have come in since its last success.
    A 429 or another client error never moves it.
   */
  lemma TripsOnChargedErrorsOnly(cfg: Config, calls: seq<Call>, n: nat)
    requires cfg.Valid() && n <= |calls|
    ensures History(cfg, calls, n).phase.Closed? <==> ChargedSinceSuccess(calls, n) < cfg.failureThreshold
    ensures History(cfg, calls, n).probing ==> History(cfg, calls, n).phase.HalfOpen?
  {
    HistoryIsExec(cfg, calls, n);
    Runs.TripsExactlyAtThreshold(cfg, Events(calls, n));
  }

  // ----- a client that goes away -----

  /** What errors.Is and errors.As find in a transport failure. */
  datatype Cause = Cause(canceled: bool, deadline: bool, timeout: bool, net: bool)

  /** The adapters turn a transport failure into an error with a message and no status, which hides the cause. */
  function Wrapped(c: Cause): CallError {
    CallError(false, Some(ProviderError(0, 0)), false, false, false)
  }

  function Bare(c: Cause): CallError {
    CallError(c.canceled, None, c.deadline, c.timeout, c.net)
  }

  /** How the end of a call whose client is gone reaches the gateway: a stream that notices between two lines ends well. */
  datatype Arrival = EndedStream | Unwrapped | FromAdapter

  function ErrorOf(c: Cause, how: Arrival): Option<CallError> {
    match how
    case EndedStream => None
    case Unwrapped => Some(Bare(c))
    case FromAdapter => Some(Wrapped(c))
  }

  /** A failed call moves the breaker beyond freeing its probe slot exactly when its error is charged. */
  lemma ReportMovesIffCharged(cfg: Config, s: State, e: CallError, latency: int, now: int)
    ensures var s' := Reported(cfg, s, ResultOf(Some(e), latency), now);
            && (s' != s.AfterRelease() <==> Charged(e))
            && s' == if Charged(e) then s.AfterFailure(cfg, now) else s.AfterRelease()
  {
  }

  /** A client's cancellation counts as a failure of the endpoint if and only if it comes through an adapter. */
  lemma CancellationCountsIffWrapped(cfg: Config, s: State, c: Cause, how: Arrival, latency: int, now: int)
    requires c.canceled
    ensures var s' := Reported(cfg, s, ResultOf(ErrorOf(c, how), latency), now);
            && (how.FromAdapter? <==> s' == s.AfterFailure(cfg, now))
            && (how.Unwrapped? ==> s' == s.AfterRelease())
            && (how.EndedStream? ==> s' == s.AfterSuccess())
  {
    if how.Unwrapped? {
      ReportMovesIffCharged(cfg, s, Bare(c), latency, now);
    } else if how.FromAdapter? {
      ReportMovesIffCharged(cfg, s, Wrapped(c), latency, now);
    }
  }

  /** marks[i] is the cause when call i ended because its client was gone and the adapter wrapped that. */
  ghost predicate MarksCancellations(calls: seq<Call>, marks: seq<Option<Cause>>) {
    && |marks| == |calls|
    && forall i :: 0 <= i < |calls| && marks[i].Some? ==>
      marks[i].value.canceled && calls[i].Answer? && calls[i].err == Some(Wrapped(marks[i].value))
  }

  function CanceledSinceSuccess(calls: seq<Call>, marks: seq<Option<Cause>>, n: nat): nat
    requires n <= |calls| == |marks|
  {
    if n == 0 || (calls[n - 1].Answer? && calls[n - 1].err.None?) then 0
    else CanceledSinceSuccess(calls, marks, n - 1) + if marks[n - 1].Some? then 1 else 0
  }

  lemma {:induction false} CancellationsAreCharged(calls: seq<Call>, marks: seq<Option<Cause>>, n: nat)
    requires n <= |calls| && MarksCancellations(calls, marks)
    ensures CanceledSinceSuccess(calls, marks, n) <= ChargedSinceSuccess(calls, n)
  {
    if n > 0 {
      CancellationsAreCharged(calls, marks, n - 1);
    }
  }

  /** Clients that give up can open the breaker of an endpoint that never failed: threshold wrapped cancellations suffice. */
  lemma CancellationsTrip(cfg: Config, calls: seq<Call>, marks: seq<Option<Cause>>, n: nat)
    requires cfg.Valid() && n <= |calls| && MarksCancellations(calls, marks)
    requires CanceledSinceSuccess(calls, marks, n) >= cfg.failureThreshold
    ensures !History(cfg, calls, n).phase.Closed?
  {
    CancellationsAreCharged(calls, marks, n);
    TripsOnChargedErrorsOnly(cfg, calls, n);
  }

  // ----- backoff -----

  const MAX_BACKOFF: int := 800_000_000
  const TWO_TO_64: int := 0x1_0000_0000_0000_0000

  lemma WrapLow(x: nat)
    ensures WrapInt64(x) == if x % TWO_TO_64 <= MAX_INT64 then x % TWO_TO_64 else x % TWO_TO_64 - TWO_TO_64
  {
  }

  function Pow2(n: nat): (p: nat)
    ensures p >= 1
  {
    if n == 0 then 1 else 2 * Pow2(n - 1)
  }

  /** The delay after the given attempt: the base shifted left, capped. */
  function Backoff(base: int, attempt: nat): (d: int)
    ensures d <= MAX_BACKOFF
  {
    var b := if base <= 0 then 100_000_000 else base;
    Capped(WrapInt64(b * Pow2(attempt)))
  }

  function Capped(d: int): int {
    if d > MAX_BACKOFF then MAX_BACKOFF else d
  }

  function Min(a: int, b: int): int {
    if a < b then a else b
  }

  /**
    Backoff is the capped exponential exactly when the product fits 64 bits, or
    its low 64 bits happen to lie between the cap and the largest integer.
   */
  lemma BackoffIsCappedExponential(base: int, attempt: nat)
    requires 0 < base <= MAX_INT64
    ensures Backoff(base, attempt) == Min(base * Pow2(attempt), MAX_BACKOFF) <==>
      base * Pow2(attempt) <= MAX_INT64 || MAX_BACKOFF <= base * Pow2(attempt) % TWO_TO_64 <= MAX_INT64
  {
    hide WrapInt64, Pow2;
    WrapLow(base * Pow2(attempt));
    ProductMonotone(base, 1, Pow2(attempt));
    var p := base * Pow2(attempt);
    if p <= MAX_INT64 {
      assert WrapInt64(p) == p;
    }
  }

  lemma {:induction false} Pow2Monotone(a: nat, b: nat)
    requires a <= b
    ensures Pow2(a) <= Pow2(b)
  {
    if a < b {
      Pow2Monotone(a, b - 1);
    }
  }

  lemma ProductMonotone(x: int, a: int, b: int)
    requires 0 <= x && a <= b
    ensures x * a <= x * b
  {
    assert x * (b - a) >= 0;
  }

  /** Delays do not shrink from attempt to attempt while the shift fits. */
  lemma BackoffMonotone(base: int, a: nat, b: nat)
    requires 0 < base && a <= b && base * Pow2(b) <= MAX_INT64
    ensures 0 < Backoff(base, a) <= Backoff(base, b)
  {
    hide WrapInt64, Pow2;
    Pow2Monotone(a, b);
    ProductMonotone(base, Pow2(a), Pow2(b));
    ProductMonotone(base, 1, Pow2(a));
  }

  const DEFAULT_BASE: int := 100_000_000

  /** The low 64 bits of the shifted default base. */
  function LowBits(n: nat): nat {
    DEFAULT_BASE * Pow2(n) % TWO_TO_64
  }

  lemma DoubleMod(x: nat)
    ensures 2 * x % TWO_TO_64 == 2 * (x % TWO_TO_64) % TWO_TO_64
  {
    var q, r := x / TWO_TO_64, x % TWO_TO_64;
    if 2 * r < TWO_TO_64 {
      assert 2 * x / TWO_TO_64 == 2 * q;
    } else {
      assert 2 * x / TWO_TO_64 == 2 * q + 1;
    }
  }

  lemma Doubled(n: nat)
    ensures 0 <= LowBits(n) < TWO_TO_64
    ensures LowBits(n + 1) == if 2 * LowBits(n) < TWO_TO_64 then 2 * LowBits(n) else 2 * LowBits(n) - TWO_TO_64
  {
    DoubleMod(DEFAULT_BASE * Pow2(n));
    assert DEFAULT_BASE * Pow2(n + 1) == 2 * (DEFAULT_BASE * Pow2(n));
  }

  lemma PowerOf36()
    ensures Pow2(36) == 0x10_0000_0000
  {
    assert Pow2(6) == 64 && Pow2(12) == 4096 by {
      assert Pow2(9) == 512;
    }
    hide Pow2;
    Pow2Sum(12, 12);
    Pow2Sum(24, 12);
  }

  lemma {:induction false} Pow2Sum(a: nat, b: nat)
    ensures Pow2(a + b) == Pow2(a) * Pow2(b)
  {
    if b > 0 {
      Pow2Sum(a, b - 1);
    }
  }

  lemma LowBits36()
    ensures LowBits(36) == 6871947673600000000
  {
    PowerOf36();
    hide Pow2;
  }

  lemma LowBits37To46()
    ensures LowBits(37) == 13743895347200000000
    ensures LowBits(38) == 9041046620690448384
    ensures LowBits(39) == 18082093241380896768
    ensures LowBits(40) == 17717442409052241920
    ensures LowBits(41) == 16988140744394932224
    ensures LowBits(42) == 15529537415080312832
    ensures LowBits(43) == 12612330756451074048
    ensures LowBits(44) == 6777917439192596480
    ensures LowBits(45) == 13555834878385192960
    ensures LowBits(46) == 8664925683060834304
  {
    hide LowBits;
    LowBits36();
    Doubled(36);
    Doubled(37);
    Doubled(38);
    Doubled(39);
    Doubled(40);
    Doubled(41);
    Doubled(42);
    Doubled(43);
    Doubled(44);
    Doubled(45);
  }

  lemma LowBits47To56()
    ensures LowBits(47) == 17329851366121668608
    ensures LowBits(48) == 16212958658533785600
    ensures LowBits(49) == 13979173243358019584
    ensures LowBits(50) == 9511602413006487552
    ensures LowBits(51) == 576460752303423488
    ensures LowBits(52) == 1152921504606846976
    ensures LowBits(53) == 2305843009213693952
    ensures LowBits(54) == 4611686018427387904
    ensures LowBits(55) == 9223372036854775808
    ensures LowBits(56) == 0
  {
    hide LowBits;
    LowBits37To46();
    Doubled(46);
    Doubled(47);
    Doubled(48);
    Doubled(49);
    Doubled(50);
    Doubled(51);
    Doubled(52);
    Doubled(53);
    Doubled(54);
    Doubled(55);
  }

  lemma {:induction false} LowBitsVanish(n: nat)
    requires n >= 56
    ensures LowBits(n) == 0
  {
    hide LowBits;
    if n == 56 {
      LowBits47To56();
    } else {
      LowBitsVanish(n - 1);
      Doubled(n - 1);
    }
  }

  /** Where the overflowed low bits pass for a long enough delay. */
  lemma LowBitsPassCap(n: nat)
    requires n >= 37
    ensures MAX_BACKOFF <= LowBits(n) <= MAX_INT64 <==> n in {38, 44, 46, 51, 52, 53, 54}
  {
    hide LowBits;
    if n >= 56 {
      LowBitsVanish(n);
    } else {
      LowBits37To46();
      LowBits47To56();
    }
  }

  /**
    With the default base of 100ms the delay is the capped exponential on the
    first 37 attempts, counted from 0, and then on seven more only: on attempts
    37, 39 to 43, 45, 47 to 50 and from 55 on the overflow shows.
   */
  lemma DefaultBackoff(attempt: nat)
    ensures Backoff(DEFAULT_BASE, attempt) == Min(DEFAULT_BASE * Pow2(attempt), MAX_BACKOFF) <==>
      attempt < 37 || attempt in {38, 44, 46, 51, 52, 53, 54}
  {
    PowerOf36();
    assert Pow2(37) == 2 * Pow2(36);
    BackoffIsCappedExponential(DEFAULT_BASE, attempt);
    assert LowBits(attempt) == DEFAULT_BASE * Pow2(attempt) % TWO_TO_64;
    hide Pow2, Backoff, LowBits;
    if attempt <= 36 {
      Pow2Monotone(attempt, 36);
    } else {
      Pow2Monotone(37, attempt);
      LowBitsPassCap(attempt);
    }
  }
}
