/**
  What the sliding window guarantees over whole runs of the script for one
  user. Other steps only move the balance, so each call carries the balance it
  happens to find, and the runs below cover every interleaving of gateways.
 */
module SlidingWindow {
  import opened Collections
  import opened Options
  import opened Quota

  /** One call of the script: its stamp, the set before and after, and whether it was admitted. */
  datatype Call = Call(now: int, tokens: int, balance: Option<int>, before: map<string, int>, after: map<string, int>, admitted: bool)

  ghost predicate Decides(cfg: Config, p: Printer, c: Call) {
    var (a, s) := Script(cfg, p, Account(c.before, c.balance), c.now, c.tokens);
    c.after == a.window && c.admitted == s.Admitted?
  }

  /** The set the n-th call finds. */
  function Found(run: seq<Call>, n: nat): map<string, int>
    requires n <= |run|
  {
    if n == 0 then map[] else run[n - 1].after
  }

  /** Calls ask for at least one token, and a balance once there stays there. */
  ghost predicate Plausible(run: seq<Call>, i: nat)
    requires i < |run|
  {
    run[i].tokens >= 1 && (i > 0 && run[i - 1].balance.Some? ==> run[i].balance.Some?)
  }

  ghost predicate CallPossible(cfg: Config, p: Printer, run: seq<Call>, i: nat)
    requires i < |run|
  {
    Plausible(run, i) && run[i].before == Found(run, i) && Decides(cfg, p, run[i])
  }

  ghost predicate Possible(cfg: Config, p: Printer, run: seq<Call>) {
    forall i :: 0 <= i < |run| ==> CallPossible(cfg, p, run, i)
  }

  /** Admitted stamps in the half-open interval (lo, hi]. */
  function CountIn(run: seq<Call>, n: nat, lo: int, hi: int): nat
    requires n <= |run|
  {
    if n == 0 then 0
    else CountIn(run, n - 1, lo, hi) + if run[n - 1].admitted && lo < run[n - 1].now <= hi then 1 else 0
  }

  /** Admitted stamps after lo. */
  function CountAfter(run: seq<Call>, n: nat, lo: int): nat
    requires n <= |run|
  {
    if n == 0 then 0
    else CountAfter(run, n - 1, lo) + if run[n - 1].admitted && lo < run[n - 1].now then 1 else 0
  }

  /** Each stamp is at most d behind the largest before it. */
  ghost predicate Skewed(run: seq<Call>, d: int) {
    forall i, j :: 0 <= i < j < |run| ==> run[j].now >= run[i].now - d
  }

  /** The set as the script counts it. */
  function Kept(cfg: Config, c: Call): map<string, int> {
    Evict(c.before, c.now - cfg.window)
  }

  /** The member an admitted call adds is not already there. */
  predicate Fresh(cfg: Config, p: Printer, c: Call) {
    c.admitted ==> MemberName(p, c.now, |Kept(cfg, c)|) !in Kept(cfg, c)
  }

  ghost predicate NoCollision(cfg: Config, p: Printer, run: seq<Call>) {
    forall i :: 0 <= i < |run| ==> Fresh(cfg, p, run[i])
  }

  /** One step of a run. */
  lemma CallCases(cfg: Config, p: Printer, c: Call)
    requires Decides(cfg, p, c)
    ensures var z := Kept(cfg, c);
            if c.admitted then |z| < cfg.limit && c.after == z[MemberName(p, c.now, |z|) := c.now] else c.after == z
  {
    hide Evict, MemberName;
  }

  lemma At(cfg: Config, p: Printer, run: seq<Call>, i: nat)
    requires i < |run| && Possible(cfg, p, run)
    ensures run[i].before == Found(run, i) && Decides(cfg, p, run[i])
  {
    hide Found, Decides;
    assert CallPossible(cfg, p, run, i);
  }

  // ---- Safety under skew ----

  function Above(z: map<string, int>, x: int): set<string> {
    set m | m in z && z[m] > x
  }

  lemma AboveEvict(z: map<string, int>, cutoff: int, x: int)
    requires cutoff <= x
    ensures Above(Evict(z, cutoff), x) == Above(z, x)
  {
  }

  lemma AboveAdd(z: map<string, int>, m: string, now: int, x: int)
    requires m !in z
    ensures |Above(z[m := now], x)| == |Above(z, x)| + if now > x then 1 else 0
  {
    assert Above(z[m := now], x) == Above(z, x) + if now > x then {m} else {};
  }

  lemma AboveWithin(z: map<string, int>, x: int)
    ensures |Above(z, x)| <= |z|
  {
    SubsetCount(Above(z, x), z.Keys);
  }

  /** Past the largest cutoff so far, the set holds exactly the admitted stamps. */
  lemma {:induction false} SetRemembers(cfg: Config, p: Printer, run: seq<Call>, n: nat, x: int)
    requires n <= |run| && Possible(cfg, p, run) && NoCollision(cfg, p, run)
    requires forall i :: 0 <= i < n ==> run[i].now <= x + cfg.window
    ensures |Above(Found(run, n), x)| == CountAfter(run, n, x)
  {
    hide Possible, Decides, Evict, MemberName;
    if n == 0 {
      assert Above(map[], x) == {};
    } else {
      var c := run[n - 1];
      SetRemembers(cfg, p, run, n - 1, x);
      At(cfg, p, run, n - 1);
      CallCases(cfg, p, c);
      hide Above;
      AboveEvict(c.before, c.now - cfg.window, x);
      if c.admitted {
        AboveAdd(Kept(cfg, c), MemberName(p, c.now, |Kept(cfg, c)|), c.now, x);
      }
    }
  }

  lemma {:induction false} InIsAfter(run: seq<Call>, n: nat, lo: int, hi: int)
    requires n <= |run|
    ensures CountIn(run, n, lo, hi) <= CountAfter(run, n, lo)
  {
    if n > 0 {
      InIsAfter(run, n - 1, lo, hi);
    }
  }

  /** When a call is admitted, fewer than limit stamps before it are later than lo, for any lo at least d above its cutoff. */
  lemma RoomAtAdmission(cfg: Config, p: Printer, run: seq<Call>, n: nat, d: nat, lo: int)
    requires n < |run| && Possible(cfg, p, run) && NoCollision(cfg, p, run) && Skewed(run, d)
    requires run[n].admitted && lo + cfg.window >= run[n].now + d
    ensures CountAfter(run, n, lo) < cfg.limit
  {
    hide Possible, Decides, Evict, Above, MemberName, CountAfter;
    var c := run[n];
    SetRemembers(cfg, p, run, n, lo);
    At(cfg, p, run, n);
    CallCases(cfg, p, c);
    AboveEvict(c.before, c.now - cfg.window, lo);
    AboveWithin(Kept(cfg, c), lo);
  }

  /** No interval of the given length holds more admitted stamps than the limit. */
  ghost predicate Capped(cfg: Config, run: seq<Call>, length: int) {
    forall lo, hi :: hi - lo <= length ==> CountIn(run, |run|, lo, hi) <= cfg.limit
  }

  lemma {:induction false} IntervalHolds(cfg: Config, p: Printer, run: seq<Call>, n: nat, d: nat, lo: int, hi: int)
    requires n <= |run| && cfg.limit >= 1 && hi - lo <= cfg.window - d
    requires Possible(cfg, p, run) && Skewed(run, d) && NoCollision(cfg, p, run)
    ensures CountIn(run, n, lo, hi) <= cfg.limit
  {
    hide Possible, NoCollision, Skewed;
    if n > 0 {
      if run[n - 1].admitted && lo < run[n - 1].now <= hi {
        RoomAtAdmission(cfg, p, run, n - 1, d, lo);
        InIsAfter(run, n - 1, lo, hi);
      } else {
        IntervalHolds(cfg, p, run, n - 1, d, lo, hi);
      }
    }
  }

  /**
    With stamps at most d behind and no member clash, no interval of length
    window - d ever holds more than limit admitted stamps.
   */
  lemma WindowHolds(cfg: Config, p: Printer, run: seq<Call>, d: nat)
    requires cfg.limit >= 1 && Possible(cfg, p, run) && Skewed(run, d) && NoCollision(cfg, p, run)
    ensures Capped(cfg, run, cfg.window - d)
  {
    forall lo, hi | hi - lo <= cfg.window - d ensures CountIn(run, |run|, lo, hi) <= cfg.limit {
      IntervalHolds(cfg, p, run, |run|, d, lo, hi);
    }
  }
}
