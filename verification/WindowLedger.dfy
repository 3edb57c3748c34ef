/**
  The window's runs are exactly what the reservations of the ledger's runs do
  to the sorted set: nothing in between matters but the balance it leaves.
 */
module WindowLedger {
  import opened Options
  import opened Quota
  import opened SlidingWindow
  import L = Ledger

  const EMPTY := Account(map[], None)

  function WorldAt(cfg: Config, p: Printer, steps: seq<L.Step>, n: nat): L.World
    requires n <= |steps|
  {
    L.Run(cfg, p, L.Start(EMPTY), steps, n)
  }

  /** A reservation as a call of the script. */
  function CallOf(cfg: Config, p: Printer, a: Account, now: int, tokens: int): Call {
    var (a', s) := Script(cfg, p, a, now, tokens);
    Call(now, tokens, a.balance, a.window, a'.window, s.Admitted?)
  }

  function CallsOf(cfg: Config, p: Printer, steps: seq<L.Step>, n: nat): seq<Call>
    requires n <= |steps|
  {
    if n == 0 then [] else
      var calls := CallsOf(cfg, p, steps, n - 1);
      match steps[n - 1]
      case Reserve(now, tokens) => calls + [CallOf(cfg, p, WorldAt(cfg, p, steps, n - 1).account, now, tokens)]
      case _ => calls
  }

  /** The set the script leaves, and a balance once there, are what the next call finds. */
  ghost predicate InStep(w: L.World, calls: seq<Call>) {
    && w.account.window == Found(calls, |calls|)
    && (calls != [] && calls[|calls| - 1].balance.Some? ==> w.account.balance.Some?)
  }

  lemma AppendCall(cfg: Config, p: Printer, calls: seq<Call>, c: Call)
    requires Possible(cfg, p, calls) && c.before == Found(calls, |calls|) && Decides(cfg, p, c) && c.tokens >= 1
    requires calls != [] && calls[|calls| - 1].balance.Some? ==> c.balance.Some?
    ensures Possible(cfg, p, calls + [c])
  {
    hide Decides;
    var all := calls + [c];
    forall i | 0 <= i < |all| ensures CallPossible(cfg, p, all, i) {
      if i < |calls| {
        assert CallPossible(cfg, p, calls, i);
        assert all[i] == calls[i] && (i > 0 ==> all[i - 1] == calls[i - 1]);
      }
    }
  }

  lemma ScriptStep(cfg: Config, p: Printer, w: L.World, n: nat, now: int, tokens: int)
    ensures var w', c := L.Next(cfg, p, w, n, L.Reserve(now, tokens)), CallOf(cfg, p, w.account, now, tokens);
            && c.before == w.account.window && c.after == w'.account.window && c.balance == w.account.balance
            && Decides(cfg, p, c) && w'.account.balance.Some? == w.account.balance.Some?
  {
    hide Evict, MemberName;
  }

  lemma OtherStep(cfg: Config, p: Printer, w: L.World, n: nat, s: L.Step)
    requires !s.Reserve?
    ensures var w' := L.Next(cfg, p, w, n, s);
            w'.account.window == w.account.window && (w.account.balance.Some? ==> w'.account.balance.Some?)
  {
  }

  lemma {:induction false} Project(cfg: Config, p: Printer, steps: seq<L.Step>, n: nat)
    requires n <= |steps| && L.Possible(cfg, p, EMPTY, steps)
    ensures Possible(cfg, p, CallsOf(cfg, p, steps, n)) && InStep(WorldAt(cfg, p, steps, n), CallsOf(cfg, p, steps, n))
  {
    hide Possible, L.Next, Decides, CallOf;
    if n == 0 {
      NoCalls(cfg, p);
    } else {
      Project(cfg, p, steps, n - 1);
      assert L.StepPossible(cfg, p, EMPTY, steps, n - 1);
      var w := WorldAt(cfg, p, steps, n - 1);
      match steps[n - 1]
      case Reserve(now, tokens) =>
        ScriptStep(cfg, p, w, n - 1, now, tokens);
        CallTokens(cfg, p, w.account, now, tokens);
        AppendCall(cfg, p, CallsOf(cfg, p, steps, n - 1), CallOf(cfg, p, w.account, now, tokens));
      case _ =>
        OtherStep(cfg, p, w, n - 1, steps[n - 1]);
    }
  }

  lemma CallTokens(cfg: Config, p: Printer, a: Account, now: int, tokens: int)
    ensures CallOf(cfg, p, a, now, tokens).tokens == tokens && CallOf(cfg, p, a, now, tokens).now == now
  {
    hide Script;
  }

  lemma NoCalls(cfg: Config, p: Printer)
    ensures Possible(cfg, p, [])
  {
  }

  // ---- Every window run comes from the ledger ----

  lemma {:induction false} SameRun(cfg: Config, p: Printer, steps: seq<L.Step>, longer: seq<L.Step>, n: nat)
    requires n <= |steps| <= |longer| && forall i :: 0 <= i < n ==> steps[i] == longer[i]
    ensures WorldAt(cfg, p, steps, n) == WorldAt(cfg, p, longer, n)
    ensures CallsOf(cfg, p, steps, n) == CallsOf(cfg, p, longer, n)
  {
    hide L.Next, CallOf;
    if n > 0 {
      SameRun(cfg, p, steps, longer, n - 1);
    }
  }

  /** One more deposit or reservation. */
  lemma AppendStep(cfg: Config, p: Printer, steps: seq<L.Step>, s: L.Step) returns (longer: seq<L.Step>, w: L.World)
    requires L.Possible(cfg, p, EMPTY, steps) && (s.Deposit? || (s.Reserve? && s.tokens >= 1))
    ensures longer == steps + [s] && L.Possible(cfg, p, EMPTY, longer) && w == WorldAt(cfg, p, steps, |steps|)
    ensures WorldAt(cfg, p, longer, |longer|) == L.Next(cfg, p, w, |steps|, s)
    ensures CallsOf(cfg, p, longer, |longer|) == CallsOf(cfg, p, steps, |steps|)
            + if s.Reserve? then [CallOf(cfg, p, w.account, s.now, s.tokens)] else []
  {
    hide L.Next, CallOf;
    longer, w := steps + [s], WorldAt(cfg, p, steps, |steps|);
    SameRun(cfg, p, steps, longer, |steps|);
    forall i | 0 <= i < |longer| ensures L.StepPossible(cfg, p, EMPTY, longer, i) {
      if i < |steps| {
        SameRun(cfg, p, steps, longer, i);
        assert L.StepPossible(cfg, p, EMPTY, steps, i) && longer[i] == steps[i];
      }
    }
  }

  /** Each call gets the balance it found by a deposit just before it. */
  lemma {:induction false} Realize(cfg: Config, p: Printer, run: seq<Call>, n: nat) returns (steps: seq<L.Step>)
    requires n <= |run| && Possible(cfg, p, run)
    ensures L.Possible(cfg, p, EMPTY, steps) && CallsOf(cfg, p, steps, |steps|) == run[..n]
    ensures var w := WorldAt(cfg, p, steps, |steps|);
            w.account.window == Found(run, n) && w.account.balance.Some? == (n > 0 && run[n - 1].balance.Some?)
  {
    hide L.Next, CallOf, Decides, Possible, L.Possible;
    if n == 0 {
      steps := [];
      NoSteps(cfg, p);
      assert run[..0] == [];
    } else {
      var c := run[n - 1];
      steps := Realize(cfg, p, run, n - 1);
      var w := WorldAt(cfg, p, steps, |steps|);
      PossibleAt(cfg, p, run, n - 1);
      if c.balance.Some? {
        var s := L.Deposit(c.balance.value - L.Balance(w.account));
        FundCall(cfg, p, w, |steps|, c.balance.value);
        steps, w := AppendStep(cfg, p, steps, s);
        w := WorldAt(cfg, p, steps, |steps|);
      }
      assert w.account == Account(c.before, c.balance);
      ScriptStep(cfg, p, w, |steps|, c.now, c.tokens);
      CallIs(cfg, p, c);
      steps, w := AppendStep(cfg, p, steps, L.Reserve(c.now, c.tokens));
      assert run[..n] == run[..n - 1] + [c];
    }
  }

  lemma NoSteps(cfg: Config, p: Printer)
    ensures L.Possible(cfg, p, EMPTY, []) && CallsOf(cfg, p, [], 0) == [] && WorldAt(cfg, p, [], 0) == L.Start(EMPTY)
  {
  }

  lemma PossibleAt(cfg: Config, p: Printer, run: seq<Call>, i: nat)
    requires i < |run| && Possible(cfg, p, run)
    ensures CallPossible(cfg, p, run, i)
  {
  }

  lemma FundCall(cfg: Config, p: Printer, w: L.World, n: nat, balance: int)
    ensures L.Next(cfg, p, w, n, L.Deposit(balance - L.Balance(w.account))).account == Account(w.account.window, Some(balance))
  {
  }

  lemma CallIs(cfg: Config, p: Printer, c: Call)
    requires Decides(cfg, p, c)
    ensures CallOf(cfg, p, Account(c.before, c.balance), c.now, c.tokens) == c
  {
    hide Script;
  }

  ghost predicate Projects(cfg: Config, p: Printer, steps: seq<L.Step>, run: seq<Call>) {
    L.Possible(cfg, p, EMPTY, steps) && CallsOf(cfg, p, steps, |steps|) == run
  }

  /** A run of calls is possible for the window if and only if it is what the reservations of some run of the ledger do. */
  lemma WindowRunsAreLedgerRuns(cfg: Config, p: Printer, run: seq<Call>)
    ensures Possible(cfg, p, run) <==> exists steps :: Projects(cfg, p, steps, run)
  {
    hide Possible, L.Possible, CallsOf;
    if Possible(cfg, p, run) {
      var steps := Realize(cfg, p, run, |run|);
      assert run[..|run|] == run;
      assert Projects(cfg, p, steps, run);
    }
    if steps :| Projects(cfg, p, steps, run) {
      Project(cfg, p, steps, |steps|);
    }
  }

  /** In particular the window holds over every interleaving of the ledger's steps. */
  lemma LedgerWindowHolds(cfg: Config, p: Printer, steps: seq<L.Step>, d: nat)
    requires cfg.limit >= 1 && L.Possible(cfg, p, EMPTY, steps)
    requires var calls := CallsOf(cfg, p, steps, |steps|); Skewed(calls, d) && NoCollision(cfg, p, calls)
    ensures Capped(cfg, CallsOf(cfg, p, steps, |steps|), cfg.window - d)
  {
    hide L.Possible, CallsOf, Skewed, NoCollision, Capped;
    Project(cfg, p, steps, |steps|);
    WindowHolds(cfg, p, CallsOf(cfg, p, steps, |steps|), d);
  }
}
