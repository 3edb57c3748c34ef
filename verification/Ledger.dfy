/**
  Runs of one user's account under any interleaving of gateways, one Redis
  command at a time: the default balance is seeded, requests reserve by the
  script, each admitted request settles once, and credits come at any time.
  A request is named by the position of its reservation.
 */
module Ledger {
  import opened Options
  import opened Quota

  datatype Step =
    | Seed
    | Reserve(now: int, tokens: int)
    | Settle(request: nat, actual: int)
    | Deposit(amount: int)

  /** The account, the tokens still reserved by each unsettled request, and the default balance once seeded. */
  datatype World = World(account: Account, reserved: map<nat, int>, seeded: int)

  function Balance(a: Account): int {
    match a.balance case Some(b) => b case None => 0
  }

  function Next(cfg: Config, p: Printer, w: World, i: nat, s: Step): World {
    match s
    case Seed =>
      var a := Seeded(cfg, w.account);
      w.(account := a, seeded := w.seeded + Balance(a) - Balance(w.account))
    case Reserve(now, tokens) =>
      var (a, status) := Script(cfg, p, w.account, now, tokens);
      w.(account := a, reserved := if status.Admitted? then w.reserved[i := tokens] else w.reserved)
    case Settle(request, actual) =>
      if request in w.reserved
      then World(SettledAccount(w.account, w.reserved[request], actual), w.reserved - {request}, w.seeded)
      else w
    case Deposit(amount) => w.(account := Adjusted(w.account, amount))
  }

  function Run(cfg: Config, p: Printer, w: World, steps: seq<Step>, n: nat): World
    requires n <= |steps|
  {
    if n == 0 then w else Next(cfg, p, Run(cfg, p, w, steps, n - 1), n - 1, steps[n - 1])
  }

  function Start(a: Account): World {
    World(a, map[], 0)
  }

  /** Reservations ask for at least one token; a request settles once, after it was admitted. */
  ghost predicate StepPossible(cfg: Config, p: Printer, a: Account, steps: seq<Step>, i: nat)
    requires i < |steps|
  {
    match steps[i]
    case Reserve(_, tokens) => tokens >= 1
    case Settle(request, _) => request in Run(cfg, p, Start(a), steps, i).reserved
    case _ => true
  }

  ghost predicate Possible(cfg: Config, p: Printer, a: Account, steps: seq<Step>) {
    forall i :: 0 <= i < |steps| ==> StepPossible(cfg, p, a, steps, i)
  }

  /** What one step puts in and what it uses up. */
  function Inflow(s: Step): int {
    if s.Deposit? then s.amount else 0
  }

  function Usage(s: Step): nat {
    if s.Settle? then NonNegative(s.actual) else 0
  }

  function Deposited(steps: seq<Step>, n: nat): int
    requires n <= |steps|
  {
    if n == 0 then 0 else Deposited(steps, n - 1) + Inflow(steps[n - 1])
  }

  /** What settled requests actually used. */
  function Used(steps: seq<Step>, n: nat): int
    requires n <= |steps|
  {
    if n == 0 then 0 else Used(steps, n - 1) + Usage(steps[n - 1])
  }

  /** The tokens held by unsettled requests below position n. */
  function Held(reserved: map<nat, int>, n: nat): int {
    if n == 0 then 0 else Held(reserved, n - 1) + if n - 1 in reserved then reserved[n - 1] else 0
  }

  lemma {:induction false} HeldSame(a: map<nat, int>, b: map<nat, int>, n: nat)
    requires forall i: nat :: i < n ==> (i in a <==> i in b) && (i in a ==> a[i] == b[i])
    ensures Held(a, n) == Held(b, n)
  {
    if n > 0 {
      HeldSame(a, b, n - 1);
    }
  }

  lemma {:induction false} HeldWithout(reserved: map<nat, int>, r: nat, n: nat)
    requires r in reserved && r < n
    ensures Held(reserved - {r}, n) == Held(reserved, n) - reserved[r]
  {
    if n - 1 == r {
      HeldSame(reserved - {r}, reserved, n - 1);
    } else {
      HeldWithout(reserved, r, n - 1);
    }
  }

  lemma HeldAdded(reserved: map<nat, int>, n: nat, tokens: int)
    requires n !in reserved
    ensures Held(reserved[n := tokens], n + 1) == Held(reserved, n) + tokens
  {
    HeldSame(reserved[n := tokens], reserved, n);
  }

  ghost predicate Consistent(w: World, n: nat) {
    && (forall r :: r in w.reserved ==> r < n && w.reserved[r] >= 1)
    && (w.reserved != map[] ==> w.account.balance.Some?)
    && (w.seeded != 0 ==> w.account.balance.Some?)
  }

  lemma SeedEffect(cfg: Config, p: Printer, w: World, i: nat)
    ensures var w' := Next(cfg, p, w, i, Seed);
            && w'.reserved == w.reserved && Balance(w'.account) - w'.seeded == Balance(w.account) - w.seeded
            && w'.seeded >= w.seeded && (w.account.balance.Some? ==> w' == w)
            && (w' != w ==> w'.account.balance.Some? && w'.seeded == w.seeded + cfg.defaultBalance && cfg.defaultBalance > 0)
  {
  }

  lemma ReserveEffect(cfg: Config, p: Printer, w: World, i: nat, now: int, tokens: int)
    requires tokens >= 1
    ensures var w' := Next(cfg, p, w, i, Reserve(now, tokens));
            && w'.seeded == w.seeded
            && w'.account.balance.Some? == w.account.balance.Some?
            && ((w'.reserved == w.reserved && Balance(w'.account) == Balance(w.account))
                || (w'.reserved == w.reserved[i := tokens] && w'.account.balance.Some? && Balance(w'.account) >= 0
                    && Balance(w'.account) == Balance(w.account) - tokens))
  {
    hide Evict, MemberName;
  }

  lemma SettleEffect(cfg: Config, p: Printer, w: World, i: nat, request: nat, actual: int)
    requires request in w.reserved && w.account.balance.Some?
    ensures var w' := Next(cfg, p, w, i, Settle(request, actual));
            && w'.seeded == w.seeded && w'.reserved == w.reserved - {request} && w'.account.balance.Some?
            && Balance(w'.account) == Balance(w.account) + w.reserved[request] - NonNegative(actual)
  {
  }

  lemma DepositEffect(cfg: Config, p: Printer, w: World, i: nat, amount: int)
    ensures var w' := Next(cfg, p, w, i, Deposit(amount));
            && w'.seeded == w.seeded && w'.reserved == w.reserved && w'.account.balance.Some?
            && Balance(w'.account) == Balance(w.account) + amount
  {
  }

  lemma {:induction false} RunConsistent(cfg: Config, p: Printer, a: Account, steps: seq<Step>, n: nat)
    requires n <= |steps| && Possible(cfg, p, a, steps)
    ensures Consistent(Run(cfg, p, Start(a), steps, n), n)
  {
    hide Next;
    if n > 0 {
      RunConsistent(cfg, p, a, steps, n - 1);
      assert StepPossible(cfg, p, a, steps, n - 1);
      var w := Run(cfg, p, Start(a), steps, n - 1);
      match steps[n - 1]
      case Seed => SeedEffect(cfg, p, w, n - 1);
      case Reserve(now, tokens) => ReserveEffect(cfg, p, w, n - 1, now, tokens);
      case Settle(request, actual) => SettleEffect(cfg, p, w, n - 1, request, actual);
      case Deposit(amount) => DepositEffect(cfg, p, w, n - 1, amount);
    }
  }

  /** The default balance is paid out at most once, whatever the gateways' seeding commands run into. */
  lemma {:induction false} SeededOnce(cfg: Config, p: Printer, a: Account, steps: seq<Step>, n: nat)
    requires n <= |steps| && Possible(cfg, p, a, steps)
    ensures Run(cfg, p, Start(a), steps, n).seeded in {0, cfg.defaultBalance}
  {
    hide Next;
    if n > 0 {
      SeededOnce(cfg, p, a, steps, n - 1);
      var w, w' := RunStep(cfg, p, a, steps, n - 1);
      hide Run;
      match steps[n - 1]
      case Seed => SeedEffect(cfg, p, w, n - 1);
      case Reserve(now, tokens) => ReserveEffect(cfg, p, w, n - 1, now, tokens);
      case Settle(request, actual) => SettleEffect(cfg, p, w, n - 1, request, actual);
      case Deposit(amount) => DepositEffect(cfg, p, w, n - 1, amount);
    }
  }

  /** The n-th step of a run, with what a possible run guarantees about it. */
  lemma RunStep(cfg: Config, p: Printer, a: Account, steps: seq<Step>, n: nat) returns (w: World, w': World)
    requires n < |steps| && Possible(cfg, p, a, steps)
    ensures w == Run(cfg, p, Start(a), steps, n) && w' == Run(cfg, p, Start(a), steps, n + 1)
    ensures w' == Next(cfg, p, w, n, steps[n]) && Consistent(w, n)
    ensures steps[n].Reserve? ==> steps[n].tokens >= 1
    ensures steps[n].Settle? ==> steps[n].request in w.reserved
  {
    hide Next;
    RunConsistent(cfg, p, a, steps, n);
    assert StepPossible(cfg, p, a, steps, n);
    w, w' := Run(cfg, p, Start(a), steps, n), Run(cfg, p, Start(a), steps, n + 1);
  }

  lemma StepConserves(cfg: Config, p: Printer, w: World, n: nat, s: Step)
    requires Consistent(w, n)
    requires s.Reserve? ==> s.tokens >= 1
    requires s.Settle? ==> s.request in w.reserved
    ensures var w' := Next(cfg, p, w, n, s);
            Balance(w'.account) - w'.seeded + Held(w'.reserved, n + 1)
            == Balance(w.account) - w.seeded + Held(w.reserved, n) + Inflow(s) - Usage(s)
  {
    assert Held(w.reserved, n + 1) == Held(w.reserved, n);
    hide Next, Held, Balance;
    match s
    case Seed =>
      SeedEffect(cfg, p, w, n);
    case Reserve(now, tokens) =>
      ReserveEffect(cfg, p, w, n, now, tokens);
      HeldAdded(w.reserved, n, tokens);
    case Settle(request, actual) =>
      SettleEffect(cfg, p, w, n, request, actual);
      HeldWithout(w.reserved, request, n + 1);
    case Deposit(amount) =>
      DepositEffect(cfg, p, w, n, amount);
  }

  /**
    In every interleaving the balance is what came in, less what settled
    requests actually used, less what unsettled ones still hold.
   */
  lemma {:induction false} Conservation(cfg: Config, p: Printer, a: Account, steps: seq<Step>, n: nat)
    requires n <= |steps| && Possible(cfg, p, a, steps)
    ensures var w := Run(cfg, p, Start(a), steps, n);
            Balance(w.account) == Balance(a) + w.seeded + Deposited(steps, n) - Used(steps, n) - Held(w.reserved, n)
  {
    hide Next;
    if n > 0 {
      Conservation(cfg, p, a, steps, n - 1);
      var w, w' := RunStep(cfg, p, a, steps, n - 1);
      hide Run, Held, Balance;
      StepConserves(cfg, p, w, n - 1, steps[n - 1]);
    }
  }

  /** Once every request has settled, the estimates have dropped out of the account. */
  lemma NetChargeIsActualUse(cfg: Config, p: Printer, a: Account, steps: seq<Step>)
    requires Possible(cfg, p, a, steps) && Run(cfg, p, Start(a), steps, |steps|).reserved == map[]
    ensures var w := Run(cfg, p, Start(a), steps, |steps|);
            Balance(w.account) == Balance(a) + w.seeded + Deposited(steps, |steps|) - Used(steps, |steps|)
  {
    Conservation(cfg, p, a, steps, |steps|);
    HeldNothing(|steps|);
  }

  lemma {:induction false} HeldNothing(n: nat)
    ensures Held(map[], n) == 0
  {
    if n > 0 {
      HeldNothing(n - 1);
    }
  }

  /** What a step uses beyond what was reserved for it. */
  function Excess(w: World, s: Step): nat {
    if s.Settle? && s.request in w.reserved then NonNegative(NonNegative(s.actual) - w.reserved[s.request]) else 0
  }

  function Overrun(cfg: Config, p: Printer, a: Account, steps: seq<Step>, n: nat): (o: nat)
    requires n <= |steps|
  {
    if n == 0 then 0
    else Overrun(cfg, p, a, steps, n - 1) + Excess(Run(cfg, p, Start(a), steps, n - 1), steps[n - 1])
  }

  /** What negative deposits took out. */
  function Withdrawal(s: Step): nat {
    if s.Deposit? then NonNegative(-s.amount) else 0
  }

  function Withdrawn(steps: seq<Step>, n: nat): nat
    requires n <= |steps|
  {
    if n == 0 then 0 else Withdrawn(steps, n - 1) + Withdrawal(steps[n - 1])
  }

  lemma StepFloor(cfg: Config, p: Printer, w: World, n: nat, s: Step)
    requires Consistent(w, n)
    requires s.Reserve? ==> s.tokens >= 1
    requires s.Settle? ==> s.request in w.reserved
    ensures var b := Balance(Next(cfg, p, w, n, s).account);
            b >= 0 || b >= Balance(w.account) - Excess(w, s) - Withdrawal(s)
  {
    hide Next, Balance;
    match s
    case Seed => SeedEffect(cfg, p, w, n);
    case Reserve(now, tokens) => ReserveEffect(cfg, p, w, n, now, tokens);
    case Settle(request, actual) => SettleEffect(cfg, p, w, n, request, actual);
    case Deposit(amount) => DepositEffect(cfg, p, w, n, amount);
  }

  /** From a balance of zero or more, only overruns and withdrawals can push it below, and by no more than their sum. */
  lemma {:induction false} BalanceFloor(cfg: Config, p: Printer, a: Account, steps: seq<Step>, n: nat)
    requires n <= |steps| && Possible(cfg, p, a, steps)
    ensures Balance(Run(cfg, p, Start(a), steps, n).account) + Overrun(cfg, p, a, steps, n) + Withdrawn(steps, n)
            >= if Balance(a) < 0 then Balance(a) else 0
  {
    hide Next;
    if n > 0 {
      BalanceFloor(cfg, p, a, steps, n - 1);
      var w, w' := RunStep(cfg, p, a, steps, n - 1);
      hide Run, Balance, Excess, Withdrawal;
      StepFloor(cfg, p, w, n - 1, steps[n - 1]);
    }
  }

  /** A reservation alone never overdraws: the balance it leaves is not negative. */
  lemma ReservationNeverOverdraws(cfg: Config, p: Printer, a: Account, now: int, tokens: int)
    requires Script(cfg, p, a, now, tokens).1.Admitted?
    ensures var (a', s) := Script(cfg, p, a, now, tokens);
            Balance(a') == Balance(a) - tokens && Balance(a') >= 0
  {
  }
}
