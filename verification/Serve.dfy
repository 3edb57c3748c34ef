/**
  The bracket of ServeHTTP (internal/aigateway/gateway.go): reserve an
  estimate, forward the request, settle for what was used.
 */
module Serving {
  import opened Options
  import opened ChatTypes
  import opened Collections
  import opened EndpointPool
  import opened Histories
  import opened Forwarding
  import opened Int64
  import opened OpenAIStream
  import opened Quota

  /** The reservation: prompt tokens plus the asked or default completion, never less than one. */
  function Estimate(promptTokens: int, maxTokens: int, completionReserve: int): int {
    var n := promptTokens + if maxTokens > 0 then maxTokens else completionReserve;
    if n < 1 then 1 else n
  }

  lemma EstimateMeans(promptTokens: int, maxTokens: int, completionReserve: int)
    ensures var asked := promptTokens + if maxTokens > 0 then maxTokens else completionReserve;
            Estimate(promptTokens, maxTokens, completionReserve) == if asked >= 1 then asked else 1
  {
  }

  /** What the request is charged for: the reported total, or the sum of its parts when no total came. */
  function ActualTokens(usage: Option<ChatTypes.Usage>): int {
    match usage
    case None => 0
    case Some(u) => if u.total == 0 then WrapInt64(u.prompt + u.completion) else u.total
  }

  /** A stream is charged exactly the total its adapter settled on. */
  lemma ChargeIsSettledTotal(u: ChatTypes.Usage, text: string)
    ensures ActualTokens(Some(UsageOrEstimate(u, text))) == UsageOrEstimate(u, text).total
  {
    hide WrapInt64, ByteLength;
  }

  /**
    With stored and funds as PreDeduct finds them, a request is admitted exactly
    when fewer than limit stamps are stored and the funds cover the estimate.
    It is then forwarded, as Forward says, and the balance it leaves is the
    funds less the reported total, or the sum of the reported parts if no total
    came, or nothing if no usage came; a negative count costs nothing. A
    refused request leaves the funds.
   */
  method Serve(limiter: Limiter, pool: Pool, user: string, model: string, promptTokens: int, maxTokens: int,
               completionReserve: int, t: int, attempts: nat, base: int, answers: seq<Answer>,
               ghost who: nat, ghost quiet: bool)
    returns (admitted: bool, usage: Option<ChatTypes.Usage>, failed: bool, ghost log: seq<Event>, ghost ending: Ending)
    requires limiter.Valid() && pool.Valid() && attempts <= |answers|
    modifies limiter.rdb, limiter`seqNo, pool.clock, pool.Breakers(), pool.Members(), pool.history
    ensures limiter.Valid()
    ensures var a, now := old(limiter.AccountOf(user)), StampAt(old(limiter.seqNo), t);
            var stored := Stored(a, now - WindowMicros(limiter.windowNanos));
            var funds := if a.balance.None? && limiter.defaultBalance > 0 then Some(limiter.defaultBalance) else a.balance;
            var asked := promptTokens + if maxTokens > 0 then maxTokens else completionReserve;
            && (admitted <==> user != "" && stored < limiter.limit && funds.Some? && funds.value >= 1 && funds.value >= asked)
            && (user != "" && !admitted ==> limiter.AccountOf(user).balance == funds)
            && (admitted ==>
                var used := match usage case None => 0 case Some(u) => if u.total != 0 then u.total else WrapInt64(u.prompt + u.completion);
                limiter.AccountOf(user).balance == Some(funds.value - if used > 0 then used else 0))
    ensures var (reserved, status) := Script(limiter.Cfg(), limiter.tostring, Seeded(limiter.Cfg(), old(limiter.AccountOf(user))),
                                             StampAt(old(limiter.seqNo), t), Estimate(promptTokens, maxTokens, completionReserve));
            && (user == "" ==> limiter.AccountOf(user) == old(limiter.AccountOf(user)))
            && (user != "" ==> limiter.AccountOf(user).window == reserved.window)
    ensures forall other :: other != user ==> limiter.AccountOf(other) == old(limiter.AccountOf(other))
    ensures !admitted ==> usage.None? && log == []
    ensures admitted ==> Concluded(ending, |Picks(log)|, attempts, answers, usage, failed)
    ensures admitted && quiet && ending.Starved? ==>
      forall m :: m in pool.ListOf(model) ==> HeldBack(m, Elements(Picks(log)), old(pool.clock.now), pool.clock.now)
    ensures pool.history.Of(who) == old(pool.history.Of(who)) + log
    ensures Orderly(log) && |Calls(log)| <= attempts && |Calls(log)| <= |old(pool.IDsOf(model))|
  {
    hide Script, Seeded, Orderly, CalledTo, PickedTo, MemberName, WindowMicros, StampAt, WrapInt64, Estimate, Stored;
    hide HeldBack, Concluded, Elements;
    var preDeducted := Estimate(promptTokens, maxTokens, completionReserve);
    EstimateMeans(promptTokens, maxTokens, completionReserve);
    var verdict := limiter.PreDeduct(user, preDeducted, t);
    usage, failed, log, ending, admitted := None, true, [], Starved, verdict.Accepted?;
    if !admitted {
      NothingLogged();
      return;
    }
    usage, failed, log, ending := Proceed(limiter, pool, user, model, preDeducted, attempts, base, answers, who, quiet);
  }

  /** An admitted request: forward it and settle for what it used. */
  method Proceed(limiter: Limiter, pool: Pool, user: string, model: string, preDeducted: int,
                 attempts: nat, base: int, answers: seq<Answer>, ghost who: nat, ghost quiet: bool)
    returns (usage: Option<ChatTypes.Usage>, failed: bool, ghost log: seq<Event>, ghost ending: Ending)
    requires limiter.Valid() && pool.Valid() && attempts <= |answers|
    requires user != "" && limiter.AccountOf(user).balance.Some?
    modifies limiter.rdb, pool.clock, pool.Breakers(), pool.Members(), pool.history
    ensures var used := match usage case None => 0 case Some(u) => if u.total != 0 then u.total else WrapInt64(u.prompt + u.completion);
            limiter.AccountOf(user) ==
            old(limiter.AccountOf(user)).(balance :=
              Some(old(limiter.AccountOf(user)).balance.value + preDeducted - if used > 0 then used else 0))
    ensures forall other :: other != user ==> limiter.AccountOf(other) == old(limiter.AccountOf(other))
    ensures pool.history.Of(who) == old(pool.history.Of(who)) + log
    ensures Concluded(ending, |Picks(log)|, attempts, answers, usage, failed)
    ensures quiet && ending.Starved? ==>
      forall m :: m in pool.ListOf(model) ==> HeldBack(m, Elements(Picks(log)), old(pool.clock.now), pool.clock.now)
    ensures Orderly(log) && |Calls(log)| <= attempts && |Calls(log)| <= |old(pool.IDsOf(model))|
  {
    hide Orderly, CalledTo, PicksTo, PickedTo, Timed, HeldBack, Concluded, WrapInt64, Elements;
    usage, failed, log, ending := Forward(pool, model, attempts, base, answers, who, quiet);
    Settle(limiter, user, preDeducted, usage);
  }

  method Settle(limiter: Limiter, user: string, preDeducted: int, usage: Option<ChatTypes.Usage>)
    requires user != "" && limiter.AccountOf(user).balance.Some?
    modifies limiter.rdb
    ensures var used := match usage case None => 0 case Some(u) => if u.total != 0 then u.total else WrapInt64(u.prompt + u.completion);
            limiter.AccountOf(user) ==
            old(limiter.AccountOf(user)).(balance :=
              Some(old(limiter.AccountOf(user)).balance.value + preDeducted - if used > 0 then used else 0))
    ensures forall other :: other != user ==> limiter.AccountOf(other) == old(limiter.AccountOf(other))
  {
    hide WrapInt64;
    var ok := limiter.SettleQuota(user, preDeducted, ActualTokens(usage));
  }

  lemma NothingLogged()
    ensures Orderly([]) && Calls([]) == []
  {
  }
}
