/**
  How far the sliding window can be trusted: member names, clashes between
  them, the exact length a skewed clock leaves protected, and key expiry.
 */
module WindowLimits {
  import opened Collections
  import opened Options
  import opened Quota
  import opened SlidingWindow

  // ---- Member names ----

  /** The positions 1..limit print differently and without a dash. */
  ghost predicate CountsPrintApart(p: Printer, limit: int) {
    forall i, j :: 1 <= i <= limit && 1 <= j <= limit ==> '-' !in p(i) && (p(i) == p(j) ==> i == j)
  }

  /** Stamps closer than the window print differently. */
  ghost predicate StampsPrintApart(p: Printer, window: int) {
    forall a, b :: a < b < a + window ==> p(a) != p(b)
  }

  lemma LastDash(s: string, t: string, u: string, v: string)
    requires s + "-" + t == u + "-" + v && '-' !in t && '-' !in v
    ensures s == u && t == v
  {
    var whole := s + "-" + t;
    assert whole[|s|] == '-' && whole[|u|] == '-';
    assert whole[..|s|] == s && whole[..|u|] == u;
    assert whole[|s| + 1..] == t && whole[|u| + 1..] == v;
  }

  lemma SameName(p: Printer, limit: int, a: int, i: nat, b: int, j: nat)
    requires CountsPrintApart(p, limit) && i < limit && j < limit
    requires MemberName(p, a, i) == MemberName(p, b, j)
    ensures i == j && p(a) == p(b)
  {
    LastDash(p(a), p(i + 1), p(b), p(j + 1));
  }

  /** The member carries stamp s and some position below bound. */
  ghost predicate Tagged(p: Printer, m: string, s: int, bound: int) {
    exists j: nat :: j < bound && m == MemberName(p, s, j)
  }

  /** Every member is named after its stamp, and those stamped t after positions already taken. */
  ghost predicate Named(cfg: Config, p: Printer, z: map<string, int>, t: int) {
    && |z| <= cfg.limit
    && (forall m :: m in z ==> t - cfg.window < z[m] <= t && Tagged(p, m, z[m], if z[m] == t then |z| else cfg.limit))
  }

  /** What eviction keeps. */
  lemma EvictKeeps(z: map<string, int>, cutoff: int)
    ensures var kept := Evict(z, cutoff);
            && |kept| <= |z|
            && (forall m :: m in kept <==> m in z && z[m] > cutoff)
            && (forall m :: m in kept ==> kept[m] == z[m])
            && ((forall m :: m in z ==> z[m] > cutoff) ==> kept == z)
  {
    SubsetCount(Evict(z, cutoff).Keys, z.Keys);
  }

  lemma NamedAt(cfg: Config, p: Printer, z: map<string, int>, t: int, m: string) returns (j: nat)
    requires Named(cfg, p, z, t) && m in z
    ensures t - cfg.window < z[m] <= t && m == MemberName(p, z[m], j)
    ensures j < cfg.limit && (z[m] == t ==> j < |z|)
  {
    hide MemberName;
    assert Tagged(p, m, z[m], if z[m] == t then |z| else cfg.limit);
    j :| j < (if z[m] == t then |z| else cfg.limit) && m == MemberName(p, z[m], j);
  }

  lemma NewName(cfg: Config, p: Printer, z: map<string, int>, t: int, now: int)
    requires CountsPrintApart(p, cfg.limit) && StampsPrintApart(p, cfg.window)
    requires Named(cfg, p, z, t) && t <= now && |Evict(z, now - cfg.window)| < cfg.limit
    ensures MemberName(p, now, |Evict(z, now - cfg.window)|) !in Evict(z, now - cfg.window)
  {
    var kept := Evict(z, now - cfg.window);
    var m := MemberName(p, now, |kept|);
    NamedKept(cfg, p, z, t, now);
    if m in kept {
      hide Named, Evict, MemberName, CountsPrintApart;
      var j := NamedAt(cfg, p, kept, now, m);
      SameName(p, cfg.limit, now, |kept|, kept[m], j);
      assert false;
    }
  }

  lemma NamedKept(cfg: Config, p: Printer, z: map<string, int>, t: int, now: int)
    requires Named(cfg, p, z, t) && t <= now
    ensures Named(cfg, p, Evict(z, now - cfg.window), now)
  {
    hide Evict, MemberName, Tagged;
    var kept := Evict(z, now - cfg.window);
    EvictKeeps(z, now - cfg.window);
    assert t == now ==> kept == z;
    forall m | m in kept
      ensures now - cfg.window < kept[m] <= now && Tagged(p, m, kept[m], if kept[m] == now then |kept| else cfg.limit)
    {
      assert Tagged(p, m, z[m], if z[m] == t then |z| else cfg.limit);
      assert kept[m] == now ==> t == now;
      if t < now && z[m] == t {
        TagGrows(p, m, z[m], |z|, cfg.limit);
      }
    }
  }

  lemma TagGrows(p: Printer, m: string, s: int, small: int, large: int)
    requires Tagged(p, m, s, small) && small <= large
    ensures Tagged(p, m, s, large)
  {
    hide MemberName;
  }

  lemma AddGrows(z: map<string, int>, m: string, now: int)
    requires m !in z
    ensures |z[m := now]| == |z| + 1
  {
    assert z[m := now].Keys == z.Keys + {m};
  }

  lemma NamedAdd(cfg: Config, p: Printer, z: map<string, int>, now: int)
    requires Named(cfg, p, z, now) && |z| < cfg.limit && cfg.window >= 1 && MemberName(p, now, |z|) !in z
    ensures Named(cfg, p, z[MemberName(p, now, |z|) := now], now)
  {
    var name := MemberName(p, now, |z|);
    var z' := z[name := now];
    AddGrows(z, name, now);
    assert Tagged(p, name, now, |z'|);
    forall m | m in z
      ensures now - cfg.window < z[m] <= now && Tagged(p, m, z[m], if z[m] == now then |z'| else cfg.limit)
    {
      hide MemberName;
      assert Tagged(p, m, z[m], if z[m] == now then |z| else cfg.limit);
      TagGrows(p, m, z[m], if z[m] == now then |z| else cfg.limit, if z[m] == now then |z'| else cfg.limit);
    }
    hide MemberName, Tagged;
  }

  /** On clocks that never step back, names taken from distinct prints never clash. */
  lemma {:induction false} NamesStayUnique(cfg: Config, p: Printer, run: seq<Call>, n: nat)
    requires n <= |run| && cfg.window >= 1 && CountsPrintApart(p, cfg.limit) && StampsPrintApart(p, cfg.window)
    requires Possible(cfg, p, run) && Skewed(run, 0) && cfg.limit >= 0
    ensures n > 0 ==> Named(cfg, p, Found(run, n), run[n - 1].now)
    ensures forall i :: 0 <= i < n ==> Fresh(cfg, p, run[i])
  {
    hide Possible, Decides, Evict, MemberName, CountsPrintApart, StampsPrintApart, Named;
    if n > 0 {
      NamesStayUnique(cfg, p, run, n - 1);
      var c := run[n - 1];
      At(cfg, p, run, n - 1);
      CallCases(cfg, p, c);
      var t := if n == 1 then c.now else run[n - 2].now;
      if n == 1 {
        NothingNamed(cfg, p, t);
      }
      NamedKept(cfg, p, c.before, t, c.now);
      if c.admitted {
        NewName(cfg, p, c.before, t, c.now);
        NamedAdd(cfg, p, Kept(cfg, c), c.now);
      }
    }
  }

  lemma NothingNamed(cfg: Config, p: Printer, t: int)
    requires cfg.limit >= 0
    ensures Named(cfg, p, map[], t)
  {
  }

  /** Then each call adds one member exactly when it takes its tokens. */
  lemma GrowsIffCharged(cfg: Config, p: Printer, run: seq<Call>, n: nat)
    requires n < |run| && cfg.window >= 1 && CountsPrintApart(p, cfg.limit) && StampsPrintApart(p, cfg.window)
    requires Possible(cfg, p, run) && Skewed(run, 0) && cfg.limit >= 0 && run[n].tokens >= 1
    ensures var c := run[n];
            var balance := Script(cfg, p, Account(c.before, c.balance), c.now, c.tokens).0.balance;
            && (|c.after| == |Kept(cfg, c)| + 1 <==> c.balance.Some? && balance == Some(c.balance.value - c.tokens))
            && (|c.after| == |Kept(cfg, c)| <==> balance == c.balance)
  {
    hide Possible, CountsPrintApart, StampsPrintApart;
    NamesStayUnique(cfg, p, run, n + 1);
    At(cfg, p, run, n);
    FreshGrows(cfg, p, run[n]);
  }

  lemma FreshGrows(cfg: Config, p: Printer, c: Call)
    requires Decides(cfg, p, c) && Fresh(cfg, p, c) && c.tokens >= 1
    ensures var balance := Script(cfg, p, Account(c.before, c.balance), c.now, c.tokens).0.balance;
            && |c.after| == |Kept(cfg, c)| + (if c.admitted then 1 else 0)
            && (if c.admitted then c.balance.Some? && balance == Some(c.balance.value - c.tokens) else balance == c.balance)
  {
    hide MemberName, Evict;
    var z := Kept(cfg, c);
    CallCases(cfg, p, c);
    if c.admitted {
      AddGrows(z, MemberName(p, c.now, |z|), c.now);
    }
  }
}
