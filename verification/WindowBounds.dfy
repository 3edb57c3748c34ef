/**
  The window's guarantee is exact: runs that fill the window to the last
  stamp, and runs in which clashing member names let any number through.
 */
module WindowBounds {
  import opened Options
  import opened Quota
  import opened SlidingWindow
  import opened WindowLimits

  /** The run one call longer. */
  function Extend(cfg: Config, p: Printer, run: seq<Call>, now: int, balance: Option<int>): seq<Call> {
    var before := Found(run, |run|);
    var (a, s) := Script(cfg, p, Account(before, balance), now, 1);
    run + [Call(now, 1, balance, before, a.window, s.Admitted?)]
  }

  /** A run skewed by at most d whose stamps go no higher than top. */
  ghost predicate Reaches(cfg: Config, p: Printer, run: seq<Call>, d: int, top: int) {
    Possible(cfg, p, run) && Skewed(run, d) && forall i :: 0 <= i < |run| ==> run[i].now <= top
  }

  lemma {:induction false} SameCount(run: seq<Call>, longer: seq<Call>, n: nat, lo: int, hi: int)
    requires n <= |run| <= |longer| && forall i :: 0 <= i < n ==> run[i] == longer[i]
    ensures CountIn(run, n, lo, hi) == CountIn(longer, n, lo, hi)
  {
    if n > 0 {
      SameCount(run, longer, n - 1, lo, hi);
    }
  }

  lemma ExtendReaches(cfg: Config, p: Printer, run: seq<Call>, d: nat, top: int, now: int, balance: Option<int>)
    requires Reaches(cfg, p, run, d, top) && top - d <= now && balance.Some?
    ensures var run' := Extend(cfg, p, run, now, balance);
            Reaches(cfg, p, run', d, if now > top then now else top)
  {
    hide Script, Skewed, CountIn;
    var run' := Extend(cfg, p, run, now, balance);
    forall i | 0 <= i < |run'| ensures CallPossible(cfg, p, run', i) {
      if i < |run| {
        assert CallPossible(cfg, p, run, i);
        assert run'[i] == run[i] && (i > 0 ==> run'[i - 1] == run[i - 1]);
      }
    }
    SkewedExtended(run, run', d, top);
  }

  lemma SkewedExtended(run: seq<Call>, run': seq<Call>, d: nat, top: int)
    requires Skewed(run, d) && |run'| == |run| + 1 && run'[..|run|] == run && run'[|run|].now >= top - d
    requires forall i :: 0 <= i < |run| ==> run[i].now <= top
    ensures Skewed(run', d)
  {
    forall i, j | 0 <= i < j < |run'| ensures run'[j].now >= run'[i].now - d {
      assert run'[i] == run[i];
      assert j < |run| ==> run'[j] == run[j];
    }
  }

  /** A funded call that finds room is admitted. */
  lemma Admit(cfg: Config, p: Printer, run: seq<Call>, now: int, lo: int, hi: int) returns (run': seq<Call>)
    requires |Evict(Found(run, |run|), now - cfg.window)| < cfg.limit
    ensures run' == Extend(cfg, p, run, now, Some(1)) && |run'| == |run| + 1 && run'[..|run|] == run
    ensures var kept := Evict(Found(run, |run|), now - cfg.window);
            && Found(run', |run'|) == kept[MemberName(p, now, |kept|) := now]
            && (Fresh(cfg, p, run'[|run|]) <==> MemberName(p, now, |kept|) !in kept)
    ensures CountIn(run', |run'|, lo, hi) == CountIn(run, |run|, lo, hi) + if lo < now <= hi then 1 else 0
  {
    hide Evict, MemberName;
    run' := Extend(cfg, p, run, now, Some(1));
    SameCount(run, run', |run|, lo, hi);
  }

  /** An unfunded call only evicts. */
  lemma Refuse(cfg: Config, p: Printer, run: seq<Call>, now: int, lo: int, hi: int) returns (run': seq<Call>)
    ensures run' == Extend(cfg, p, run, now, Some(0)) && |run'| == |run| + 1 && run'[..|run|] == run
    ensures Found(run', |run'|) == Evict(Found(run, |run|), now - cfg.window)
    ensures Fresh(cfg, p, run'[|run|])
    ensures CountIn(run', |run'|, lo, hi) == CountIn(run, |run|, lo, hi)
  {
    hide Evict, MemberName;
    run' := Extend(cfg, p, run, now, Some(0));
    SameCount(run, run', |run|, lo, hi);
  }

  /** A set that calls stamped a can keep filling; only members in old carry an earlier stamp. */
  ghost predicate Ready(cfg: Config, p: Printer, z: map<string, int>, a: int, earlier: set<string>) {
    && (forall m :: m in z ==> a - cfg.window < z[m] <= a && (z[m] == a || m in earlier))
    && (forall j: nat :: |z| <= j < cfg.limit ==> MemberName(p, a, j) !in z)
  }

  lemma ReadyRoom(cfg: Config, p: Printer, z: map<string, int>, a: int, earlier: set<string>)
    requires Ready(cfg, p, z, a, earlier) && |z| < cfg.limit
    ensures Evict(z, a - cfg.window) == z && MemberName(p, a, |z|) !in z
  {
    hide Evict, MemberName;
    EvictKeeps(z, a - cfg.window);
  }

  lemma ReadyStep(cfg: Config, p: Printer, z: map<string, int>, a: int, earlier: set<string>)
    requires cfg.window >= 1 && CountsPrintApart(p, cfg.limit)
    requires Ready(cfg, p, z, a, earlier) && |z| < cfg.limit
    ensures Ready(cfg, p, z[MemberName(p, a, |z|) := a], a, earlier)
  {
    hide MemberName, CountsPrintApart;
    var name := MemberName(p, a, |z|);
    var z' := z[name := a];
    AddGrows(z, name, a);
    forall j: nat | |z'| <= j < cfg.limit ensures MemberName(p, a, j) !in z' {
      if MemberName(p, a, j) == name {
        SameName(p, cfg.limit, a, j, a, |z|);
        assert false;
      }
    }
  }

  ghost predicate KeepsEarlier(z: map<string, int>, z': map<string, int>, a: int) {
    forall m :: m in z && z[m] < a ==> m in z' && z'[m] == z[m]
  }

  /** Fill the set up to the given size with calls stamped a. */
  lemma {:induction false} Fill(cfg: Config, p: Printer, run: seq<Call>, d: nat, a: int, earlier: set<string>, size: nat, lo: int, hi: int)
    returns (run': seq<Call>)
    requires cfg.window >= 1 && |Found(run, |run|)| <= size <= cfg.limit && CountsPrintApart(p, cfg.limit)
    requires Reaches(cfg, p, run, d, a) && Ready(cfg, p, Found(run, |run|), a, earlier)
    ensures Reaches(cfg, p, run', d, a)
    ensures NoCollision(cfg, p, run) ==> NoCollision(cfg, p, run')
    ensures var z := Found(run, |run|); var z' := Found(run', |run'|);
            && |z'| == size && Ready(cfg, p, z', a, earlier)
            && (size > |z| ==> MemberName(p, a, size - 1) in z')
            && KeepsEarlier(z, z', a)
    ensures CountIn(run', |run'|, lo, hi) == CountIn(run, |run|, lo, hi) + if lo < a <= hi then size - |Found(run, |run|)| else 0
    decreases size
  {
    hide CountsPrintApart, MemberName, Ready, Evict, Script, Reaches, CountIn, NoCollision, Extend, Found;
    if |Found(run, |run|)| == size {
      run' := run;
    } else {
      var run0 := Fill(cfg, p, run, d, a, earlier, size - 1, lo, hi);
      var z0 := Found(run0, |run0|);
      ReadyRoom(cfg, p, z0, a, earlier);
      ReadyStep(cfg, p, z0, a, earlier);
      AddGrows(z0, MemberName(p, a, size - 1), a);
      run' := Admit(cfg, p, run0, a, lo, hi);
      ExtendReaches(cfg, p, run0, d, a, a, Some(1));
      CollisionFree(cfg, p, run0, run');
    }
  }

  lemma CollisionFree(cfg: Config, p: Printer, run: seq<Call>, run': seq<Call>)
    requires |run'| == |run| + 1 && run'[..|run|] == run && Fresh(cfg, p, run'[|run|])
    ensures NoCollision(cfg, p, run) ==> NoCollision(cfg, p, run')
  {
    hide Fresh;
    if NoCollision(cfg, p, run) {
      forall i | 0 <= i < |run'| ensures Fresh(cfg, p, run'[i]) {
        assert i < |run| ==> run'[i] == run[i];
      }
    }
  }

  // ---- The protected length is exact ----

  lemma StartReady(cfg: Config, p: Printer, d: nat, a: int)
    ensures Reaches(cfg, p, [], d, a) && NoCollision(cfg, p, []) && Ready(cfg, p, Found([], 0), a, {})
    ensures Found([], 0) == map[]
  {
  }

  lemma ReachesMeans(cfg: Config, p: Printer, run: seq<Call>, d: nat, top: int)
    requires Reaches(cfg, p, run, d, top)
    ensures Possible(cfg, p, run) && Skewed(run, d)
  {
  }

  lemma ReachesHigher(cfg: Config, p: Printer, run: seq<Call>, d: nat, top: int, higher: int)
    requires Reaches(cfg, p, run, d, top) && top <= higher
    ensures Reaches(cfg, p, run, d, higher)
  {
    hide Possible, Skewed;
  }

  lemma AllExpire(cfg: Config, p: Printer, z: map<string, int>, a: int, earlier: set<string>, cutoff: int)
    requires Ready(cfg, p, z, a, earlier) && a <= cutoff
    ensures Evict(z, cutoff) == map[]
  {
    hide MemberName;
  }

  /** A full set, an unfunded call that empties it, and one more stamp d behind that call. */
  lemma Overflow(cfg: Config, p: Printer, d: nat, length: nat, a: int) returns (run: seq<Call>, lo: int, hi: int)
    requires cfg.limit >= 1 && cfg.window >= 1 && length >= 1 && CountsPrintApart(p, cfg.limit)
    requires length > cfg.window - d
    ensures Possible(cfg, p, run) && Skewed(run, d) && NoCollision(cfg, p, run)
    ensures hi - lo == length && CountIn(run, |run|, lo, hi) == cfg.limit + 1
  {
    var last := a + cfg.window;
    var back := last - if d < cfg.window then d else cfg.window;
    lo, hi := back - length, back;
    StartReady(cfg, p, d, a);
    CountNothing(lo, hi);
    AllExpire(cfg, p, map[], a, {}, a);
    EvictKeeps(map[], back - cfg.window);
    hide CountsPrintApart, MemberName, Evict, Script, CountIn, NoCollision, Extend, Found, Possible, Skewed, Reaches, Ready;
    var full := Fill(cfg, p, [], d, a, {}, cfg.limit, lo, hi);
    AllExpire(cfg, p, Found(full, |full|), a, {}, last - cfg.window);
    var emptied := Refuse(cfg, p, full, last, lo, hi);
    ExtendReaches(cfg, p, full, d, a, last, Some(0));
    CollisionFree(cfg, p, full, emptied);
    run := Admit(cfg, p, emptied, back, lo, hi);
    ExtendReaches(cfg, p, emptied, d, last, back, Some(1));
    CollisionFree(cfg, p, emptied, run);
    ReachesMeans(cfg, p, run, d, last);
  }

  lemma CountNothing(lo: int, hi: int)
    ensures CountIn([], 0, lo, hi) == 0
  {
  }

  /** Over runs without clashes, a length is protected exactly when it leaves room for the skew. */
  lemma WindowIsExact(cfg: Config, p: Printer, d: nat, length: nat)
    requires cfg.limit >= 1 && cfg.window >= 1 && length >= 1 && CountsPrintApart(p, cfg.limit)
    ensures (forall run :: Possible(cfg, p, run) && Skewed(run, d) && NoCollision(cfg, p, run) ==> Capped(cfg, run, length))
            <==> length <= cfg.window - d
  {
    hide Possible, Skewed, NoCollision, CountIn;
    if length <= cfg.window - d {
      forall run | Possible(cfg, p, run) && Skewed(run, d) && NoCollision(cfg, p, run) ensures Capped(cfg, run, length) {
        WindowHolds(cfg, p, run, d);
      }
    } else {
      var run, lo, hi := Overflow(cfg, p, d, length, 0);
      assert !Capped(cfg, run, length);
    }
  }

  // ---- Clashing names lift the limit ----

  /** The set that keeps one free place and the member the next call overwrites. */
  ghost predicate Flooded(cfg: Config, p: Printer, z: map<string, int>, b: int) {
    && |z| == cfg.limit - 1 && (forall m :: m in z ==> z[m] > b - cfg.window)
    && MemberName(p, b, cfg.limit - 1) in z
  }

  lemma FloodStep(cfg: Config, p: Printer, z: map<string, int>, b: int)
    requires cfg.limit >= 2 && cfg.window >= 1 && Flooded(cfg, p, z, b)
    ensures Evict(z, b - cfg.window) == z && |z| < cfg.limit
    ensures Flooded(cfg, p, z[MemberName(p, b, |z|) := b], b)
  {
    hide MemberName, Evict;
    EvictKeeps(z, b - cfg.window);
    assert z[MemberName(p, b, |z|) := b].Keys == z.Keys;
  }

  lemma {:induction false} FloodOn(cfg: Config, p: Printer, run: seq<Call>, d: nat, top: int, b: int, k: nat) returns (run': seq<Call>)
    requires cfg.limit >= 2 && cfg.window >= 1 && Reaches(cfg, p, run, d, top) && top - d <= b
    requires Flooded(cfg, p, Found(run, |run|), b)
    ensures Reaches(cfg, p, run', d, if b > top then b else top) && Flooded(cfg, p, Found(run', |run'|), b)
    ensures CountIn(run', |run'|, b - 1, b) >= k
  {
    hide MemberName, Evict, Script, Flooded, CountIn, Extend, Found, Possible, Skewed;
    if k == 0 {
      run' := run;
    } else {
      var run0 := FloodOn(cfg, p, run, d, top, b, k - 1);
      FloodStep(cfg, p, Found(run0, |run0|), b);
      run' := Admit(cfg, p, run0, b, b - 1, b);
      ExtendReaches(cfg, p, run0, d, if b > top then b else top, b, Some(1));
    }
  }

  /** After e has evicted o, the limit - 1 members named at a are left. */
  lemma FloodReady(cfg: Config, p: Printer, z: map<string, int>, o: int, name: string, a: int, cutoff: int, b: int)
    requires cfg.limit >= 2 && |z| == cfg.limit && p(a) == p(b) && b - cfg.window < a && Ready(cfg, p, z, a, {name})
    requires KeepsEarlier(map[name := o], z, a) && o <= cutoff < a && MemberName(p, a, cfg.limit - 1) in z
    requires name != MemberName(p, a, cfg.limit - 1)
    ensures Flooded(cfg, p, Evict(z, cutoff), b)
  {
    assert MemberName(p, a, cfg.limit - 1) == MemberName(p, b, cfg.limit - 1);
    hide MemberName, Evict;
    var kept := Evict(z, cutoff);
    EvictKeeps(z, cutoff);
    assert name in map[name := o];
    assert kept.Keys == z.Keys - {name};
  }

  lemma FirstMember(cfg: Config, p: Printer, o: int, a: int)
    requires cfg.limit >= 2 && CountsPrintApart(p, cfg.limit) && a - cfg.window < o < a
    ensures Ready(cfg, p, map[MemberName(p, o, 0) := o], a, {MemberName(p, o, 0)})
    ensures MemberName(p, o, 0) != MemberName(p, a, cfg.limit - 1)
  {
    hide CountsPrintApart, MemberName;
    forall j: nat | 1 <= j < cfg.limit ensures MemberName(p, a, j) != MemberName(p, o, 0) {
      if MemberName(p, a, j) == MemberName(p, o, 0) {
        SameName(p, cfg.limit, a, j, o, 0);
        assert false;
      }
    }
  }

  lemma FirstCall(cfg: Config, p: Printer, o: int, a: int, d: nat) returns (run: seq<Call>)
    requires cfg.limit >= 2 && o < a
    ensures Reaches(cfg, p, run, d, a) && Found(run, |run|) == map[MemberName(p, o, 0) := o] && |Found(run, |run|)| == 1
  {
    StartReady(cfg, p, d, o);
    AllExpire(cfg, p, map[], o, {}, o);
    assert Evict(map[], o - cfg.window) == map[];
    hide MemberName, Evict, Script, Extend, Found, Possible, Skewed, Reaches, Ready;
    run := Admit(cfg, p, [], o, 0, 0);
    ExtendReaches(cfg, p, [], d, o, o, Some(1));
    ReachesHigher(cfg, p, run, d, o, a);
  }

  /**
    One stamp o, limit - 1 stamps a, a call e that evicts o alone, then calls
    at b: each overwrites the last member named at a, so none is ever refused.
   */
  lemma Flood(cfg: Config, p: Printer, o: int, a: int, e: int, b: int, d: nat, k: nat) returns (run: seq<Call>)
    requires cfg.limit >= 2 && cfg.window >= 1 && CountsPrintApart(p, cfg.limit) && p(a) == p(b)
    requires a - cfg.window < o < a && o <= e - cfg.window < a && b - cfg.window < a
    requires e >= a && b >= e - d
    ensures Possible(cfg, p, run) && Skewed(run, d)
    ensures CountIn(run, |run|, b - 1, b) >= k
  {
    hide CountsPrintApart, MemberName, Evict, Script, Extend, Found, Possible, Skewed, CountIn, Ready, NoCollision, Reaches, Flooded, KeepsEarlier;
    var name := MemberName(p, o, 0);
    FirstMember(cfg, p, o, a);
    var first := FirstCall(cfg, p, o, a, d);
    var full := Fill(cfg, p, first, d, a, {name}, cfg.limit, b - 1, b);
    FloodReady(cfg, p, Found(full, |full|), o, name, a, e - cfg.window, b);
    run := FloodRest(cfg, p, full, a, e, b, d, k);
  }

  lemma FloodRest(cfg: Config, p: Printer, full: seq<Call>, a: int, e: int, b: int, d: nat, k: nat) returns (run: seq<Call>)
    requires cfg.limit >= 2 && cfg.window >= 1 && Reaches(cfg, p, full, d, a) && e >= a && b >= e - d
    requires Flooded(cfg, p, Evict(Found(full, |full|), e - cfg.window), b)
    ensures Possible(cfg, p, run) && Skewed(run, d)
    ensures CountIn(run, |run|, b - 1, b) >= k
  {
    hide MemberName, Evict, Script, Extend, Found, Possible, Skewed, CountIn, Reaches, Flooded;
    var left := Refuse(cfg, p, full, e, b - 1, b);
    ExtendReaches(cfg, p, full, d, a, e, Some(0));
    run := FloodOn(cfg, p, left, d, e, b, k);
    ReachesMeans(cfg, p, run, d, if b > e then b else e);
  }

  /** On clocks that never step back, the limit holds exactly when stamps closer than the window print apart. */
  lemma LimitHoldsIffStampsPrintApart(cfg: Config, p: Printer)
    requires cfg.limit >= 2 && cfg.window >= 1 && CountsPrintApart(p, cfg.limit)
    ensures (forall run :: Possible(cfg, p, run) && Skewed(run, 0) ==> Capped(cfg, run, cfg.window))
            <==> StampsPrintApart(p, cfg.window)
  {
    hide Possible, Skewed, CountIn, CountsPrintApart;
    if StampsPrintApart(p, cfg.window) {
      forall run | Possible(cfg, p, run) && Skewed(run, 0) ensures Capped(cfg, run, cfg.window) {
        NamesStayUnique(cfg, p, run, |run|);
        WindowHolds(cfg, p, run, 0);
      }
    } else {
      var a, b :| a < b < a + cfg.window && p(a) == p(b);
      var run := Flood(cfg, p, b - cfg.window, a, b, b, 0, cfg.limit + 1);
      assert !Capped(cfg, run, cfg.window);
    }
  }

  /** However stamps print, a clock that may step back lets any number of calls carry one stamp. */
  lemma SkewLiftsTheLimit(cfg: Config, p: Printer, d: nat, a: int, k: nat) returns (run: seq<Call>)
    requires cfg.limit >= 2 && 1 <= d < cfg.window && CountsPrintApart(p, cfg.limit)
    ensures Possible(cfg, p, run) && Skewed(run, d) && CountIn(run, |run|, a - 1, a) >= k
  {
    run := Flood(cfg, p, a + d - cfg.window, a, a + d, a, d, k);
  }

  /** With a limit of one no name can clash: the set is empty whenever a call is admitted. */
  lemma LimitOneNeverClashes(cfg: Config, p: Printer, run: seq<Call>)
    requires cfg.limit == 1 && Possible(cfg, p, run)
    ensures NoCollision(cfg, p, run)
  {
    hide Possible, Evict, MemberName, Decides;
    forall i | 0 <= i < |run| ensures Fresh(cfg, p, run[i]) {
      At(cfg, p, run, i);
      CallCases(cfg, p, run[i]);
    }
  }
}
