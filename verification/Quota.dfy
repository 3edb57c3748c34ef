/**
  The rate-limit and pre-deduct script (lua/rate_limit_prededuct.lua) and the
  limiter around it (pkg/limiter/limiter.go). Redis runs the script, and each
  INCRBY, DECRBY and SETNX, as one atomic step.
 */
module Quota {
  import opened Options

  datatype Status = Admitted | RateLimited | Insufficient

  /** What Redis holds for one user: the sorted set (member to score) and the balance, if any. */
  datatype Account = Account(window: map<string, int>, balance: Option<int>)

  /** The settings every gateway shares; window in microseconds. */
  datatype Config = Config(window: int, limit: int, defaultBalance: int)

  /** The runtime's number formatting. */
  type Printer = int -> string

  function MemberName(tostring: Printer, now: int, count: nat): string {
    tostring(now) + "-" + tostring(count + 1)
  }

  /** ZREMRANGEBYSCORE -inf cutoff. */
  function Evict(z: map<string, int>, cutoff: int): map<string, int> {
    map m | m in z && z[m] > cutoff :: z[m]
  }

  function Script(cfg: Config, tostring: Printer, a: Account, now: int, tokens: int): (Account, Status) {
    var z := Evict(a.window, now - cfg.window);
    if |z| >= cfg.limit then (a.(window := z), RateLimited)
    else if a.balance.None? || a.balance.value < tokens then (a.(window := z), Insufficient)
    else (Account(z[MemberName(tostring, now, |z|) := now], Some(a.balance.value - tokens)), Admitted)
  }

  /** SETNX of the default balance, which the limiter sends before the script. */
  function Seeded(cfg: Config, a: Account): Account {
    if cfg.defaultBalance > 0 && a.balance.None? then a.(balance := Some(cfg.defaultBalance)) else a
  }

  /** INCRBY or DECRBY on the balance; a missing key counts as zero. */
  function Adjusted(a: Account, delta: int): Account {
    a.(balance := Some((match a.balance case Some(b) => b case None => 0) + delta))
  }

  /** What a settlement leaves; the key stays alone when there is nothing to move. */
  function SettledAccount(a: Account, reserved: int, actual: int): Account {
    if reserved == NonNegative(actual) then a else Adjusted(a, reserved - NonNegative(actual))
  }

  function NonNegative(x: int): (n: nat)
    ensures x <= n && (n == x || n == 0)
  {
    if x < 0 then 0 else x
  }

  /** How many recorded stamps lie after the cutoff. */
  ghost function Stored(a: Account, cutoff: int): nat {
    |set m | m in a.window && a.window[m] > cutoff|
  }

  /**
    What one request does to the account: with stored the number of recorded
    stamps after the cutoff, and funds the balance or else the default one, it
    is limited exactly when stored has reached the limit, and refused for its
    balance exactly when it is not limited and the funds are missing or short.
    Only an admission takes tokens and adds a stamp; stamps up to the cutoff go.
   */
  lemma ScriptMeans(cfg: Config, p: Printer, a: Account, now: int, tokens: int)
    ensures var (a', status) := Script(cfg, p, Seeded(cfg, a), now, tokens);
            var stored := Stored(a, now - cfg.window);
            var funds := if a.balance.None? && cfg.defaultBalance > 0 then Some(cfg.defaultBalance) else a.balance;
            && (status.RateLimited? <==> stored >= cfg.limit)
            && (status.Insufficient? <==> stored < cfg.limit && (funds.None? || funds.value < tokens))
            && a'.balance == (if status.Admitted? then Some(funds.value - tokens) else funds)
            && (forall m :: m in a'.window ==>
                 || (m in a.window && a'.window[m] == a.window[m] > now - cfg.window)
                 || (status.Admitted? && m == MemberName(p, now, stored) && a'.window[m] == now))
            && (forall m :: m in a.window && a.window[m] > now - cfg.window ==> m in a'.window)
            && (status.Admitted? ==> MemberName(p, now, stored) in a'.window && a'.window[MemberName(p, now, stored)] == now)
  {
    hide MemberName;
    var z := Evict(a.window, now - cfg.window);
    assert z.Keys == set m | m in a.window && a.window[m] > now - cfg.window;
  }

  /** The script's result, case by case. */
  lemma ScriptCases(cfg: Config, p: Printer, a: Account, now: int, tokens: int)
    ensures var z := Evict(a.window, now - cfg.window);
            && (|z| >= cfg.limit ==> Script(cfg, p, a, now, tokens) == (Account(z, a.balance), RateLimited))
            && (|z| < cfg.limit && (a.balance.None? || a.balance.value < tokens) ==>
                Script(cfg, p, a, now, tokens) == (Account(z, a.balance), Insufficient))
            && (|z| < cfg.limit && a.balance.Some? && a.balance.value >= tokens ==>
                Script(cfg, p, a, now, tokens) ==
                (Account(z[MemberName(p, now, |z|) := now], Some(a.balance.value - tokens)), Admitted))
  {
  }

  class Redis {
    var zsets: map<string, map<string, int>>
    var strings: map<string, int>

    function ZSet(key: string): map<string, int>
      reads this`zsets
    {
      if key in zsets then zsets[key] else map[]
    }

    function Get(key: string): Option<int>
      reads this`strings
    {
      if key in strings then Some(strings[key]) else None
    }

    constructor ()
      ensures zsets == map[] && strings == map[]
    {
      zsets, strings := map[], map[];
    }

    method IncrBy(key: string, delta: int)
      modifies this`strings
      ensures strings == old(strings)[key := (match old(Get(key)) case Some(b) => b case None => 0) + delta]
    {
      strings := strings[key := (if key in strings then strings[key] else 0) + delta];
    }

    method SetNX(key: string, value: int)
      modifies this`strings
      ensures strings == if key in old(strings) then old(strings) else old(strings)[key := value]
    {
      if key !in strings {
        strings := strings[key := value];
      }
    }

    /** The script, line by line; the key's time to live is treated apart. */
    method RunScript(rlKey: string, balKey: string, now: int, cfg: Config, tokens: int, tostring: Printer) returns (status: Status)
      modifies this
      ensures var (a, s) := Script(cfg, tostring, Account(old(ZSet(rlKey)), old(Get(balKey))), now, tokens);
              status == s && ZSet(rlKey) == a.window && Get(balKey) == a.balance
      ensures forall k :: k != rlKey ==> ZSet(k) == old(ZSet(k))
      ensures forall k :: k != balKey ==> Get(k) == old(Get(k))
    {
      hide MemberName, Evict, Script;
      var cutoff := now - cfg.window;
      var z := Evict(ZSet(rlKey), cutoff);
      ScriptCases(cfg, tostring, Account(ZSet(rlKey), Get(balKey)), now, tokens);
      zsets := zsets[rlKey := z];
      var count := |z|;
      if count >= cfg.limit {
        return RateLimited;
      }
      var raw := Get(balKey);
      if raw.None? {
        return Insufficient;
      }
      if raw.value < tokens {
        return Insufficient;
      }
      strings := strings[balKey := raw.value - tokens];
      zsets := zsets[rlKey := zsets[rlKey][MemberName(tostring, now, count) := now]];
      return Admitted;
    }
  }

  datatype Verdict = Accepted | RateLimitExceeded | InsufficientBalance | NoUser | NotPositive

  function StatusOf(v: Verdict): Status
    requires !v.NoUser? && !v.NotPositive?
  {
    match v
    case Accepted => Admitted
    case RateLimitExceeded => RateLimited
    case InsufficientBalance => Insufficient
  }

  const MAX_UINT64: nat := 0xFFFF_FFFF_FFFF_FFFF

  function RateLimitKey(user: string): string { "llm:rl:" + user }

  function BalanceKey(user: string): string { "llm:bal:" + user }

  lemma KeysDiffer(u: string, v: string)
    requires u != v
    ensures RateLimitKey(u) != RateLimitKey(v) && BalanceKey(u) != BalanceKey(v)
    ensures RateLimitKey(u) != BalanceKey(v) && RateLimitKey(u) != BalanceKey(u)
  {
    assert RateLimitKey(u)[4] != BalanceKey(v)[4] && RateLimitKey(u)[4] != BalanceKey(u)[4];
    assert RateLimitKey(u)[7..] == u && RateLimitKey(v)[7..] == v;
    assert BalanceKey(u)[8..] == u && BalanceKey(v)[8..] == v;
  }

  lemma OthersApart(user: string)
    ensures forall other :: other != user ==> RateLimitKey(other) != RateLimitKey(user)
    ensures forall other :: other != user ==> BalanceKey(other) != BalanceKey(user)
  {
    forall other | other != user ensures RateLimitKey(other) != RateLimitKey(user) && BalanceKey(other) != BalanceKey(user) {
      KeysDiffer(other, user);
    }
  }

  /** The window in whole microseconds, at least one. */
  function WindowMicros(nanos: int): (us: int)
    requires nanos > 0
    ensures us >= 1
    ensures us * 1000 <= nanos < (us + 1) * 1000 || (us == 1 && nanos < 1000)
  {
    if nanos / 1000 < 1 then 1 else nanos / 1000
  }

  /** The counter after one more call; it wraps at 64 bits. */
  function Bump(seqNo: nat): nat {
    (seqNo + 1) % (MAX_UINT64 + 1)
  }

  /** What a call made at microsecond t sends, the counter being at seqNo before it. */
  function StampAt(seqNo: nat, t: int): int {
    t + Bump(seqNo) % 1000
  }

  /** What successive calls send. */
  function Stamps(clock: seq<int>, seqNo: nat): seq<int> {
    if clock == [] then [] else [StampAt(seqNo, clock[0])] + Stamps(clock[1..], Bump(seqNo))
  }

  class Limiter {
    const rdb: Redis
    const limit: int
    const windowNanos: int
    const defaultBalance: int
    const tostring: Printer
    var seqNo: nat

    ghost predicate Valid()
      reads this
    {
      limit >= 1 && windowNanos > 0 && seqNo <= MAX_UINT64
    }

    constructor (rdb: Redis, limit: int, windowNanos: int, defaultBalance: int, tostring: Printer)
      requires limit >= 1 && windowNanos > 0
      ensures Valid() && this.rdb == rdb && seqNo == 0
      ensures this.limit == limit && this.windowNanos == windowNanos
      ensures this.defaultBalance == defaultBalance && this.tostring == tostring
    {
      this.rdb, this.limit, this.windowNanos := rdb, limit, windowNanos;
      this.defaultBalance, this.tostring := defaultBalance, tostring;
      seqNo := 0;
    }

    function Cfg(): Config
      requires windowNanos > 0
    {
      Config(WindowMicros(windowNanos), limit, defaultBalance)
    }

    ghost function AccountOf(user: string): Account
      reads rdb
    {
      Account(rdb.ZSet(RateLimitKey(user)), rdb.Get(BalanceKey(user)))
    }

    method Seed(user: string)
      requires Valid()
      modifies rdb
      ensures AccountOf(user) == Seeded(Cfg(), old(AccountOf(user)))
      ensures forall other :: other != user ==> AccountOf(other) == old(AccountOf(other))
    {
      if defaultBalance > 0 {
        OthersApart(user);
        rdb.SetNX(BalanceKey(user), defaultBalance);
      }
    }

    method RunFor(user: string, now: int, tokens: int) returns (status: Status)
      requires Valid()
      modifies rdb
      ensures (AccountOf(user), status) == Script(Cfg(), tostring, old(AccountOf(user)), now, tokens)
      ensures forall other :: other != user ==> AccountOf(other) == old(AccountOf(other))
    {
      hide Script, RateLimitKey, BalanceKey, Cfg;
      OthersApart(user);
      status := rdb.RunScript(RateLimitKey(user), BalanceKey(user), now, Cfg(), tokens, tostring);
    }

    /** Seed the balance, advance the counter, and run the script at the bumped stamp. */
    method Send(user: string, tokens: int, t: int) returns (status: Status)
      requires Valid()
      modifies rdb, this`seqNo
      ensures Valid() && seqNo == Bump(old(seqNo))
      ensures (AccountOf(user), status) == Script(Cfg(), tostring, Seeded(Cfg(), old(AccountOf(user))), StampAt(old(seqNo), t), tokens)
      ensures forall other :: other != user ==> AccountOf(other) == old(AccountOf(other))
    {
      hide Script, AccountOf, Seeded, Cfg;
      Seed(user);
      seqNo := (seqNo + 1) % (MAX_UINT64 + 1);
      status := RunFor(user, t + seqNo % 1000, tokens);
    }

    /**
      A call sends the stamp its counter gives and leaves the counter ready for
      the next one. With stored and funds as the script finds them, each verdict
      is decided as said for ScriptMeans; bad input is turned away untouched.
     */
    method PreDeduct(user: string, tokens: int, t: int) returns (v: Verdict)
      requires Valid()
      modifies rdb, this`seqNo
      ensures Valid()
      ensures v.NoUser? <==> user == ""
      ensures v.NotPositive? <==> user != "" && tokens < 1
      ensures v.NoUser? || v.NotPositive? ==> AccountOf(user) == old(AccountOf(user)) && seqNo == old(seqNo)
      ensures !v.NoUser? && !v.NotPositive? ==>
        (AccountOf(user), StatusOf(v)) == Script(Cfg(), tostring, Seeded(Cfg(), old(AccountOf(user))), StampAt(old(seqNo), t), tokens)
      ensures !v.NoUser? && !v.NotPositive? ==> seqNo == Bump(old(seqNo))
      ensures var a, now := old(AccountOf(user)), StampAt(old(seqNo), t);
              var stored := Stored(a, now - WindowMicros(windowNanos));
              var funds := if a.balance.None? && defaultBalance > 0 then Some(defaultBalance) else a.balance;
              && (v.RateLimitExceeded? <==> user != "" && tokens >= 1 && stored >= limit)
              && (v.InsufficientBalance? <==>
                  user != "" && tokens >= 1 && stored < limit && (funds.None? || funds.value < tokens))
              && (v.Accepted? <==>
                  user != "" && tokens >= 1 && stored < limit && funds.Some? && funds.value >= tokens)
              && (v.Accepted? ==> AccountOf(user).balance == Some(funds.value - tokens))
              && (v.RateLimitExceeded? || v.InsufficientBalance? ==> AccountOf(user).balance == funds)
      ensures forall other :: other != user ==> AccountOf(other) == old(AccountOf(other))
    {
      if user == "" {
        return NoUser;
      }
      if tokens < 1 {
        return NotPositive;
      }
      hide Script, AccountOf, Seeded, MemberName, WindowMicros, StampAt, Bump, Stored;
      ScriptMeans(Cfg(), tostring, AccountOf(user), StampAt(seqNo, t), tokens);
      var status := Send(user, tokens, t);
      match status
      case Admitted => v := Accepted;
      case RateLimited => v := RateLimitExceeded;
      case Insufficient => v := InsufficientBalance;
    }

    /** Refund what was reserved but not used, or charge the shortfall. */
    method SettleQuota(user: string, preDeducted: int, actualTokens: int) returns (ok: bool)
      modifies rdb
      ensures ok <==> user != ""
      ensures AccountOf(user) ==
        if ok then SettledAccount(old(AccountOf(user)), preDeducted, actualTokens) else old(AccountOf(user))
      ensures forall other :: other != user ==> AccountOf(other) == old(AccountOf(other))
    {
      OthersApart(user);
      if user == "" {
        return false;
      }
      var actual := actualTokens;
      if actual < 0 {
        actual := 0;
      }
      var diff := preDeducted - actual;
      if diff == 0 {
        return true;
      }
      rdb.IncrBy(BalanceKey(user), diff);
      return true;
    }

    method Credit(user: string, tokens: int) returns (ok: bool)
      modifies rdb
      ensures ok <==> user != ""
      ensures AccountOf(user) == if ok then Adjusted(old(AccountOf(user)), tokens) else old(AccountOf(user))
      ensures forall other :: other != user ==> AccountOf(other) == old(AccountOf(other))
    {
      OthersApart(user);
      if user == "" {
        return false;
      }
      rdb.IncrBy(BalanceKey(user), tokens);
      return true;
    }
  }
}
