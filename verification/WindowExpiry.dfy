/**
  The key's time to live, on the clock the stamps come from, and the stamps
  one gateway sends.
 */
module WindowExpiry {
  import opened Options
  import opened Quota
  import opened SlidingWindow
  import opened WindowLimits

  /** math.ceil(window / 1000000), at least one second. */
  function ExpireSeconds(window: int): int
    requires window >= 1
  {
    var seconds := (window + 999999) / 1000000;
    if seconds < 1 then 1 else seconds
  }

  lemma ExpireCoversWindow(window: int)
    requires window >= 1
    ensures window <= ExpireSeconds(window) * 1000000 < window + 1000000
  {
  }

  /** When the key dies, counted from the last admission. */
  function Deadline(cfg: Config, run: seq<Call>, n: nat): Option<int>
    requires n <= |run| && cfg.window >= 1
  {
    if n == 0 then None
    else if run[n - 1].admitted then Some(run[n - 1].now + ExpireSeconds(cfg.window) * 1000000)
    else Deadline(cfg, run, n - 1)
  }

  function FoundAlive(cfg: Config, run: seq<Call>, n: nat): map<string, int>
    requires n < |run| && cfg.window >= 1
  {
    match Deadline(cfg, run, n)
    case Some(t) => if t <= run[n].now then map[] else Found(run, n)
    case None => Found(run, n)
  }

  /** A run in which the key is dropped whenever its time is up. */
  ghost predicate Expiring(cfg: Config, p: Printer, run: seq<Call>)
    requires cfg.window >= 1
  {
    forall i :: 0 <= i < |run| ==> CallAlive(cfg, p, run, i)
  }

  ghost predicate CallAlive(cfg: Config, p: Printer, run: seq<Call>, i: nat)
    requires cfg.window >= 1 && i < |run|
  {
    Plausible(run, i) && run[i].before == FoundAlive(cfg, run, i) && Decides(cfg, p, run[i])
  }

  lemma AliveAt(cfg: Config, p: Printer, run: seq<Call>, i: nat)
    requires cfg.window >= 1 && i < |run| && Expiring(cfg, p, run)
    ensures Plausible(run, i) && run[i].before == FoundAlive(cfg, run, i) && Decides(cfg, p, run[i])
  {
    hide FoundAlive, Decides;
    assert CallAlive(cfg, p, run, i);
  }

  /** No stamp in the set outlives the deadline. */
  ghost predicate Outlived(cfg: Config, z: map<string, int>, deadline: Option<int>) {
    z != map[] ==> deadline.Some? && forall m :: m in z ==> z[m] + cfg.window <= deadline.value
  }

  lemma {:induction false} DeadlineHolds(cfg: Config, p: Printer, run: seq<Call>, n: nat)
    requires n <= |run| && cfg.window >= 1 && Expiring(cfg, p, run) && Skewed(run, 0)
    ensures Outlived(cfg, Found(run, n), Deadline(cfg, run, n))
    ensures Deadline(cfg, run, n).Some? && n < |run| ==> Deadline(cfg, run, n).value <= run[n].now + ExpireSeconds(cfg.window) * 1000000
  {
    hide Expiring, Decides, Evict, MemberName, ExpireSeconds;
    if n > 0 {
      DeadlineHolds(cfg, p, run, n - 1);
      AliveAt(cfg, p, run, n - 1);
      var c := run[n - 1];
      CallCases(cfg, p, c);
      EvictKeeps(c.before, c.now - cfg.window);
      ExpireCoversWindow(cfg.window);
    }
  }

  lemma ExpiredIsEmpty(cfg: Config, z: map<string, int>, t: int, now: int)
    requires Outlived(cfg, z, Some(t)) && t <= now
    ensures Evict(z, now - cfg.window) == Evict(map[], now - cfg.window) == map[]
  {
  }

  /** The same run with no key ever dropped. */
  function Undropped(run: seq<Call>): seq<Call> {
    seq(|run|, i requires 0 <= i < |run| => run[i].(before := Found(run, i)))
  }

  lemma SameDecision(cfg: Config, p: Printer, c: Call, z: map<string, int>)
    requires Decides(cfg, p, c) && Evict(z, c.now - cfg.window) == Evict(c.before, c.now - cfg.window)
    ensures Decides(cfg, p, c.(before := z))
  {
    hide Evict, MemberName;
  }

  /** Dropping the key never changes a decision: the run is possible as it stands without any drop. */
  lemma ExpiryIsInvisible(cfg: Config, p: Printer, run: seq<Call>)
    requires cfg.window >= 1 && Expiring(cfg, p, run) && Skewed(run, 0)
    ensures Possible(cfg, p, Undropped(run))
  {
    hide Expiring, Decides, Evict, MemberName, ExpireSeconds, Outlived, Deadline, Skewed;
    var kept := Undropped(run);
    forall i | 0 <= i < |kept| ensures CallPossible(cfg, p, kept, i) {
      AliveAt(cfg, p, run, i);
      assert Plausible(run, i) && Plausible(kept, i);
      DeadlineHolds(cfg, p, run, i);
      var t := Deadline(cfg, run, i);
      if t.Some? && t.value <= run[i].now {
        ExpiredIsEmpty(cfg, Found(run, i), t.value, run[i].now);
      }
      SameDecision(cfg, p, run[i], Found(run, i));
    }
  }

  // ---- The stamps of one gateway ----

  lemma BumpThenMore(seqNo: nat, i: nat)
    ensures (Bump(seqNo) + i) % (MAX_UINT64 + 1) == (seqNo + 1 + i) % (MAX_UINT64 + 1)
    ensures Bump(seqNo) == (seqNo + 1) % (MAX_UINT64 + 1)
  {
  }

  /** The counter wraps at 64 bits, and each stamp is bumped by the counter modulo 1000. */
  lemma {:induction false} SuccessiveStamps(clock: seq<int>, seqNo: nat, i: nat)
    requires i < |clock|
    ensures |Stamps(clock, seqNo)| == |clock|
    ensures Stamps(clock, seqNo)[i] == clock[i] + ((seqNo + 1 + i) % (MAX_UINT64 + 1)) % 1000
  {
    hide Bump;
    BumpThenMore(seqNo, i);
    if i > 0 {
      SuccessiveStamps(clock[1..], Bump(seqNo), i - 1);
      assert Stamps(clock, seqNo)[i] == Stamps(clock[1..], Bump(seqNo))[i - 1];
    } else if |clock| > 1 {
      SuccessiveStamps(clock[1..], Bump(seqNo), 0);
    }
  }

  /** On a clock that never steps back the stamps step back by at most 999. */
  lemma SequentialSkew(clock: seq<int>, seqNo: nat, run: seq<Call>)
    requires forall i, j :: 0 <= i < j < |clock| ==> clock[i] <= clock[j]
    requires |run| == |clock| == |Stamps(clock, seqNo)| && forall i :: 0 <= i < |run| ==> run[i].now == Stamps(clock, seqNo)[i]
    ensures Skewed(run, 999)
  {
    hide Stamps;
    forall i, j | 0 <= i < j < |run| ensures run[j].now >= run[i].now - 999 {
      SuccessiveStamps(clock, seqNo, i);
      SuccessiveStamps(clock, seqNo, j);
    }
  }

  /** So with one such gateway every interval 999 shorter than the window is protected while no names clash. */
  lemma OneGatewayHolds(cfg: Config, p: Printer, clock: seq<int>, seqNo: nat, run: seq<Call>)
    requires cfg.limit >= 1 && Possible(cfg, p, run) && NoCollision(cfg, p, run)
    requires forall i, j :: 0 <= i < j < |clock| ==> clock[i] <= clock[j]
    requires |run| == |clock| == |Stamps(clock, seqNo)| && forall i :: 0 <= i < |run| ==> run[i].now == Stamps(clock, seqNo)[i]
    ensures Capped(cfg, run, cfg.window - 999)
  {
    hide Possible, NoCollision, Capped, Skewed;
    SequentialSkew(clock, seqNo, run);
    WindowHolds(cfg, p, run, 999);
  }

  /** And they do step back that far: the thousandth call within one microsecond is stamped 999 before the one ahead of it. */
  lemma SkewReached(t: int)
    ensures var s := Stamps(seq(1000, _ => t), 0); |s| == 1000 && s[998] == s[999] + 999
  {
    hide Stamps;
    SuccessiveStamps(seq(1000, _ => t), 0, 998);
    SuccessiveStamps(seq(1000, _ => t), 0, 999);
  }
}
