/**
  The endpoint pool (internal/endpoint/pool.go): two indexes over shared
  member objects, selection by weighted round robin among the members that
  pass the filters, and the reports that drive each member's breaker.
 */
module EndpointPool {
  import opened Options
  import opened Collections
  import opened Sums
  import opened WeightedRoundRobin
  import opened Turns
  import opened CircuitBreaker
  import opened Providers
  import opened Histories

  datatype Health = Healthy | Unhealthy

  /** The fields of an endpoint that validation and routing look at. */
  datatype Endpoint = Endpoint(id: string, provider: string, model: string, baseURL: string, weight: int)

  datatype Invalid = MissingID | MissingBaseURL | MissingModel | NegativeWeight

  function Validate(e: Endpoint): Option<Invalid> {
    if e.id == "" then Some(MissingID)
    else if e.baseURL == "" then Some(MissingBaseURL)
    else if e.model == "" then Some(MissingModel)
    else if e.weight < 0 then Some(NegativeWeight)
    else None
  }

  function Normalize(e: Endpoint): Endpoint {
    e.(weight := if e.weight == 0 then 1 else e.weight,
       provider := if e.provider == "" then "openai" else e.provider)
  }

  /** The endpoint names everything a member needs. */
  predicate Complete(e: Endpoint) {
    e.id != "" && e.baseURL != "" && e.model != "" && e.weight >= 0
  }

  /** ep is the endpoint e as configured, an unset weight counting as 1 and an unset provider as OpenAI. */
  predicate AsConfigured(ep: Endpoint, e: Endpoint) {
    && ep.id == e.id && ep.model == e.model && ep.baseURL == e.baseURL
    && ep.weight == (if e.weight > 0 then e.weight else 1)
    && ep.provider == (if |e.provider| > 0 then e.provider else "openai")
  }

  lemma NormalizeMeans(e: Endpoint)
    ensures Validate(e).None? <==> Complete(e)
    ensures Complete(e) ==> AsConfigured(Normalize(e), e) && Normalize(e).weight >= 1
  {
  }

  class Clock {
    var now: int

    /** Readings never go back. */
    method Read() returns (t: int)
      modifies this
      ensures old(now) <= t == now
    {
      var elapsed :| 0 <= elapsed;
      now := now + elapsed;
      t := now;
    }
  }

  class Member {
    const ep: Endpoint
    const breaker: Breaker
    var health: Health
    var current: int
    var latency: int

    constructor (ep: Endpoint, health: Health, breaker: Breaker, current: int, latency: int)
      ensures this.ep == ep && this.breaker == breaker
      ensures this.health == health && this.current == current && this.latency == latency
    {
      this.ep, this.health, this.breaker, this.current, this.latency := ep, health, breaker, current, latency;
    }
  }

  function WeightsOf(ms: seq<Member>): (w: seq<int>)
    ensures |w| == |ms| && forall i :: 0 <= i < |ms| ==> w[i] == ms[i].ep.weight
  {
    seq(|ms|, i requires 0 <= i < |ms| => ms[i].ep.weight)
  }

  ghost function Credits(ms: seq<Member>): (c: seq<int>)
    reads ms
    ensures |c| == |ms| && forall i :: 0 <= i < |ms| ==> c[i] == ms[i].current
  {
    seq(|ms|, i requires 0 <= i < |ms| reads ms => ms[i].current)
  }

  twostate lemma SameCredits(ms: seq<Member>)
    requires forall m :: m in ms ==> m.current == old(m.current)
    ensures Credits(ms) == old(Credits(ms))
  {
    hide Credits;
    forall i | 0 <= i < |ms| ensures Credits(ms)[i] == old(Credits(ms))[i] {
      assert ms[i] in ms;
    }
  }

  lemma LeadsNext(s: seq<int>, at: nat, i: nat)
    requires 0 < i < |s| && Leads(s, at, i)
    ensures Leads(s, if s[i] > s[at] then i else at, i + 1)
  {
  }

  /** The credits with the weights of the first n items added. */
  ghost function EarnedTo(w: seq<int>, c: seq<int>, n: nat): (s: seq<int>)
    requires |w| == |c| && n <= |c|
    ensures |s| == |c|
  {
    seq(|c|, k requires 0 <= k < |c| => c[k] + if k < n then w[k] else 0)
  }

  lemma EarnedOneMore(w: seq<int>, c: seq<int>, n: nat)
    requires |w| == |c| && n < |c|
    ensures EarnedTo(w, c, n)[n] == c[n]
    ensures EarnedTo(w, c, n + 1) == EarnedTo(w, c, n)[n := c[n] + w[n]]
    ensures SumTo(w, n + 1) == SumTo(w, n) + w[n]
  {
  }

  lemma EarnedAll(w: seq<int>, c: seq<int>)
    requires |w| == |c|
    ensures EarnedTo(w, c, 0) == c && EarnedTo(w, c, |c|) == Bump(w, c)
    ensures SumTo(w, 0) == 0
  {
    forall k | 0 <= k < |c| ensures EarnedTo(w, c, |c|)[k] == Bump(w, c)[k] {
    }
  }

  /** Add to one item's credit. */
  method Adjust(m: Member, amount: int, ghost items: seq<Member>, ghost i: nat)
    requires NoDuplicates(items) && i < |items| && items[i] == m
    modifies m`current
    ensures Credits(items) == old(Credits(items))[i := old(Credits(items))[i] + amount]
  {
    ghost var c := Credits(items);
    m.current := m.current + amount;
    forall k | 0 <= k < |items| ensures Credits(items)[k] == c[i := c[i] + amount][k] {
      assert k != i ==> items[k] != items[i];
    }
  }

  /** The first with the largest bumped credit so far, when the next item has just been bumped. */
  lemma LeadsBumped(w: seq<int>, c: seq<int>, at: nat, n: nat)
    requires |w| == |c| && n < |c| && (n > 0 ==> Leads(EarnedTo(w, c, n), at, n))
    ensures var s := EarnedTo(w, c, n + 1); Leads(s, if n == 0 || s[n] > s[at] then n else at, n + 1)
  {
    var s, t := EarnedTo(w, c, n + 1), EarnedTo(w, c, n);
    assert forall k :: 0 <= k < n ==> s[k] == t[k];
    if n > 0 {
      assert Leads(s, at, n);
      LeadsNext(s, at, n);
    }
  }

  /** The loop of the step: every item earns its weight; best is the first with the largest credit. */
  method Scan(items: seq<Member>) returns (best: Member?, total: int, ghost at: nat)
    requires NoDuplicates(items)
    modifies items`current
    ensures total == Sum(WeightsOf(items))
    ensures best == null <==> items == []
    ensures Credits(items) == Bump(WeightsOf(items), old(Credits(items)))
    ensures items != [] ==> at < |items| && best == items[at] && Leads(Credits(items), at, |items|)
  {
    hide Credits, WeightsOf, Bump, Leads, EarnedTo, NoDuplicates, SumTo;
    ghost var w, c := WeightsOf(items), Credits(items);
    EarnedAll(w, c);
    best, total, at := null, 0, 0;
    for i := 0 to |items|
      invariant total == SumTo(w, i)
      invariant best == null <==> i == 0
      invariant i > 0 ==> at < i && best == items[at] && Leads(EarnedTo(w, c, i), at, i)
      invariant Credits(items) == EarnedTo(w, c, i)
    {
      var m := items[i];
      EarnedOneMore(w, c, i);
      LeadsBumped(w, c, at, i);
      Adjust(m, m.ep.weight, items, i);
      total := total + m.ep.weight;
      if best == null || m.current > best.current {
        best := m;
        at := i;
      }
    }
  }

  lemma FirstLargestIsChoice(s: seq<int>, at: nat)
    requires at < |s| && Leads(s, at, |s|)
    ensures at == FirstMax(s)
  {
    var b := FirstMax(s);
    assert s[b] <= s[at] && s[at] <= s[b];
  }

  /** One round robin step over distinct items. */
  method NextWRR(items: seq<Member>) returns (best: Member?)
    requires NoDuplicates(items)
    modifies items`current
    ensures best == null <==> items == []
    ensures items != [] ==> Credits(items) == Step(WeightsOf(items), old(Credits(items)))
    ensures items != [] ==> best == items[Choice(WeightsOf(items), old(Credits(items)))]
  {
    hide Sum, Credits, WeightsOf, Bump, NoDuplicates, Leads;
    var total;
    ghost var at;
    best, total, at := Scan(items);
    if best != null {
      FirstLargestIsChoice(Credits(items), at);
      Adjust(best, -total, items, at);
    }
  }

  // ----- eligibility as time passes -----

  /** s' is s, or s settled by the passing of its cooldown some time before now. */
  ghost predicate SettledBy(cfg: Config, s: State, s': State, now: int) {
    s' == s || (s.phase.Open? && now - s.openedAt >= cfg.cooldown && s' == s.(phase := HalfOpen, probing := false))
  }

  /** Settling early changes no later admission. */
  lemma SettlingIsInvisible(cfg: Config, s: State, s': State, now: int, t: int)
    requires SettledBy(cfg, s, s', now) && now <= t
    ensures s'.Admits(cfg, t) == s.Admits(cfg, t)
    ensures SettledBy(cfg, s, s'.Settle(cfg, t), t)
    ensures s'.AfterAllow(cfg, t) == s.AfterAllow(cfg, t)
  {
  }

  ghost predicate SettledAll(v: map<Breaker, State>, v': map<Breaker, State>, now: int) {
    v'.Keys == v.Keys && forall b :: b in v ==> SettledBy(b.cfg, v[b], v'[b], now)
  }

  lemma SettledOne(v: map<Breaker, State>, v': map<Breaker, State>, b: Breaker, now: int)
    requires b in v && v' == v[b := v[b].Settle(b.cfg, now)]
    ensures SettledAll(v, v', now)
  {
  }

  /** A breaker that refuses has nothing to settle. */
  lemma RefusalChangesNothing(v: map<Breaker, State>, v': map<Breaker, State>, b: Breaker, now: int)
    requires b in v && v' == v[b := v[b].Settle(b.cfg, now)]
    ensures !v[b].Admits(b.cfg, now) ==> v' == v
  {
  }

  lemma SettledTwice(v: map<Breaker, State>, v1: map<Breaker, State>, v2: map<Breaker, State>, now: int, later: int)
    requires SettledAll(v, v1, now) && SettledAll(v1, v2, later) && now <= later
    ensures SettledAll(v, v2, later)
  {
  }

  lemma StillAdmitted(cfg: Config, s: State, s': State, t: int, now: int, later: int)
    requires s.Admits(cfg, t) && t <= now <= later && SettledBy(cfg, s, s', now)
    ensures s'.Admits(cfg, later)
  {
  }

  /** From now on, left alone, the breaker admits a call. */
  ghost predicate Ready(b: Breaker, now: int)
    reads b
  {
    forall t :: now <= t ==> b.View().Admits(b.cfg, t)
  }

  ghost function ViewsOf(bs: set<Breaker>): map<Breaker, State>
    reads bs
  {
    map b | b in bs :: b.View()
  }

  ghost function GrantsOf(bs: set<Breaker>): map<Breaker, nat>
    reads bs
  {
    map b | b in bs :: b.grants
  }

  /** One more grant for b. */
  ghost function Granting(g: map<Breaker, nat>, b: Breaker): map<Breaker, nat> {
    g[b := (if b in g then g[b] else 0) + 1]
  }

  ghost function RefusalsOf(bs: set<Breaker>): map<Breaker, Refusals>
    reads bs
  {
    map b | b in bs :: b.refusals
  }

  /** b has said no to Eligible between r and r'. */
  ghost predicate Declined(r: map<Breaker, Refusals>, r': map<Breaker, Refusals>, b: Breaker) {
    b in r && b in r' && r[b].declined < r'[b].declined
  }

  /** b has said no to Allow between r and r'. */
  ghost predicate Denied(r: map<Breaker, Refusals>, r': map<Breaker, Refusals>, b: Breaker) {
    b in r && b in r' && r[b].denied < r'[b].denied
  }

  ghost predicate Grown(r: map<Breaker, Refusals>, r': map<Breaker, Refusals>) {
    r.Keys == r'.Keys && forall b :: b in r ==> r[b].declined <= r'[b].declined && r[b].denied <= r'[b].denied
  }

  /** Allow has said no to nobody between r and r'. */
  ghost predicate Undenied(r: map<Breaker, Refusals>, r': map<Breaker, Refusals>) {
    r.Keys == r'.Keys && forall b :: b in r ==> r[b].denied == r'[b].denied
  }

  ghost function Declining(r: map<Breaker, Refusals>, b: Breaker): map<Breaker, Refusals> {
    if b in r then r[b := r[b].(declined := r[b].declined + 1)] else r
  }

  ghost function Denying(r: map<Breaker, Refusals>, b: Breaker): map<Breaker, Refusals> {
    if b in r then r[b := r[b].(denied := r[b].denied + 1)] else r
  }

  lemma GrownByOne(r: map<Breaker, Refusals>, b: Breaker)
    requires b in r
    ensures Grown(r, Declining(r, b)) && Declined(r, Declining(r, b), b) && Undenied(r, Declining(r, b))
    ensures Grown(r, Denying(r, b)) && Denied(r, Denying(r, b), b)
  {
  }

  lemma NothingRefused(r: map<Breaker, Refusals>)
    ensures Grown(r, r) && Undenied(r, r)
  {
  }

  lemma GrownFurther(r: map<Breaker, Refusals>, r': map<Breaker, Refusals>, r'': map<Breaker, Refusals>)
    requires Grown(r, r') && Grown(r', r'')
    ensures Grown(r, r'')
    ensures forall b :: Declined(r, r', b) || Declined(r', r'', b) ==> Declined(r, r'', b)
    ensures forall b :: Denied(r, r', b) || Denied(r', r'', b) ==> Denied(r, r'', b)
    ensures Undenied(r, r') && Undenied(r', r'') ==> Undenied(r, r'')
  {
  }

  /** The members the filters let down have been declined, or were unfit to begin with. */
  ghost predicate LetDown(ms: seq<Member>, n: nat, q: seq<bool>, v: seq<Sight>, r: map<Breaker, Refusals>, r': map<Breaker, Refusals>) {
    n <= |ms| && n <= |q| && n <= |v| && forall i :: 0 <= i < n && !q[i] && v[i].fit ==> Declined(r, r', ms[i].breaker)
  }

  lemma LetDownAppend(ms: seq<Member>, n: nat, q: seq<bool>, v: seq<Sight>, r: map<Breaker, Refusals>, r': map<Breaker, Refusals>,
                      r'': map<Breaker, Refusals>, ok: bool)
    requires LetDown(ms, n, q, v, r, r') && Grown(r, r') && Grown(r', r'') && |q| == n < |ms| && n < |v|
    requires !ok && v[n].fit ==> Declined(r', r'', ms[n].breaker)
    ensures LetDown(ms, n + 1, q + [ok], v, r, r'')
  {
    hide Grown, Declined;
    GrownFurther(r, r', r'');
  }

  /**
    Why a Pick that chose nobody gave up: two members of different IDs were
    elected and denied in turn, or each fit member was declined by its breaker,
    or has the ID of one that was denied.
   */
  ghost predicate GaveUp(fit: set<Member>, r: map<Breaker, Refusals>, r': map<Breaker, Refusals>) {
    || (exists a, b :: a in fit && b in fit && a.ep.id != b.ep.id && Denied(r, r', a.breaker) && Denied(r, r', b.breaker))
    || (forall m :: m in fit ==> Declined(r, r', m.breaker) || IDDenied(fit, r, r', m.ep.id))
  }

  ghost predicate IDDenied(fit: set<Member>, r: map<Breaker, Refusals>, r': map<Breaker, Refusals>, id: string) {
    exists m :: m in fit && m.ep.id == id && Denied(r, r', m.breaker)
  }

  lemma ViewAmong(b: Breaker, bs: set<Breaker>)
    requires b in bs
    ensures b in ViewsOf(bs) && ViewsOf(bs)[b] == b.View()
    ensures b in RefusalsOf(bs)
  {
  }

  /** Eligible on one of several breakers. */
  method EligibleAmong(b: Breaker, ghost bs: set<Breaker>, now: int) returns (ok: bool)
    requires b in bs
    modifies b
    ensures ok == old(b.View()).Admits(b.cfg, now)
    ensures ViewsOf(bs) == old(ViewsOf(bs))[b := old(b.View()).Settle(b.cfg, now)]
    ensures GrantsOf(bs) == old(GrantsOf(bs))
    ensures RefusalsOf(bs) == if ok then old(RefusalsOf(bs)) else Declining(old(RefusalsOf(bs)), b)
  {
    ok := b.Eligible(now);
  }

  /** Allow on one of several breakers. */
  method AllowAmong(b: Breaker, ghost bs: set<Breaker>, now: int) returns (ok: bool)
    requires b in bs
    modifies b
    ensures ok == old(b.View()).Admits(b.cfg, now)
    ensures GrantsOf(bs) == if ok then Granting(old(GrantsOf(bs)), b) else old(GrantsOf(bs))
    ensures RefusalsOf(bs) == if ok then old(RefusalsOf(bs)) else Denying(old(RefusalsOf(bs)), b)
  {
    ok := b.Allow(now);
  }

  /** What Pick asks of a member before it consults the breaker. */
  ghost predicate StaticallyFit(m: Member, exclude: set<string>)
    reads m
  {
    m.ep.id !in exclude && m.health.Healthy? && m.ep.weight > 0
  }

  ghost function Fit(ms: seq<Member>, exclude: set<string>): set<Member>
    reads ms
  {
    set m | m in ms && StaticallyFit(m, exclude)
  }

  /** What Pick's filters see of a member. */
  datatype Sight = Sight(fit: bool, s: State) {
    /** The member qualifies when its breaker is consulted at time t. */
    ghost predicate Qualifies(cfg: Config, t: int) {
      fit && s.Admits(cfg, t)
    }
  }

  ghost function See(m: Member, exclude: set<string>): Sight
    reads m, m.breaker
  {
    Sight(StaticallyFit(m, exclude), m.breaker.View())
  }

  ghost function SeeAll(ms: seq<Member>, exclude: set<string>): (v: seq<Sight>)
    reads ms, set m | m in ms :: m.breaker
    ensures |v| == |ms| && forall i :: 0 <= i < |ms| ==> v[i] == See(ms[i], exclude)
  {
    seq(|ms|, i requires 0 <= i < |ms| reads ms, set m | m in ms :: m.breaker => See(ms[i], exclude))
  }

  /** q says which sights qualify, each at its own instant. */
  ghost predicate Judged(q: seq<bool>, v: seq<Sight>, cfg: Config, at: seq<int>) {
    |q| == |at| <= |v| && forall i :: 0 <= i < |q| ==> q[i] == v[i].Qualifies(cfg, at[i])
  }

  /** Passing every filter, spelled out: not excluded, healthy, of positive weight, and admitted by the breaker. */
  lemma JudgedMeans(ms: seq<Member>, exclude: set<string>, q: seq<bool>, cfg: Config, at: seq<int>)
    requires |q| == |ms| && Judged(q, SeeAll(ms, exclude), cfg, at)
    ensures forall i :: 0 <= i < |q| ==>
      (q[i] <==>
        && ms[i].ep.id !in exclude && ms[i].health == Healthy && ms[i].ep.weight >= 1
        && ms[i].breaker.View().Admits(cfg, at[i]))
    ensures forall m :: m in Fit(ms, exclude) <==>
      m in ms && m.ep.id !in exclude && m.health == Healthy && m.ep.weight >= 1
  {
  }

  ghost predicate Rising(at: seq<int>, lo: int, hi: int) {
    && (forall i :: 0 <= i < |at| ==> lo <= at[i] <= hi)
    && (forall i, j :: 0 <= i < j < |at| ==> at[i] <= at[j])
  }

  lemma JudgedAppend(q: seq<bool>, v: seq<Sight>, cfg: Config, at: seq<int>, ok: bool, t: int)
    requires Judged(q, v, cfg, at) && |q| < |v| && ok == v[|q|].Qualifies(cfg, t)
    ensures Judged(q + [ok], v, cfg, at + [t])
  {
  }

  /** cands are the members marked in q, all of them fit, each consulted at its instant in at. */
  ghost predicate Sifted(ms: seq<Member>, cands: seq<Member>, q: seq<bool>, v: seq<Sight>, at: seq<int>, lo: int, hi: int) {
    && |q| == |at| == |ms| <= |v|
    && cands == Gather(ms, Where(q))
    && OnlyFit(q, v)
    && lo <= hi && Rising(at, lo, hi)
  }

  lemma SiftedMeans(ms: seq<Member>, cands: seq<Member>, q: seq<bool>, v: seq<Sight>, at: seq<int>, lo: int, hi: int, fit: set<Member>)
    requires Sifted(ms, cands, q, v, at, lo, hi) && |v| == |ms| && forall i :: 0 <= i < |ms| && v[i].fit ==> ms[i] in fit
    ensures |q| == |at| == |ms| && cands == Gather(ms, Where(q)) && lo <= hi && Rising(at, lo, hi)
    ensures forall m :: m in cands ==> m in fit
  {
    hide Rising;
    forall m | m in cands ensures m in fit {
      var k :| 0 <= k < |cands| && cands[k] == m;
      assert v[Where(q)[k]].fit;
    }
  }

  ghost predicate OnlyFit(q: seq<bool>, v: seq<Sight>) {
    |q| <= |v| && forall i :: 0 <= i < |q| && q[i] ==> v[i].fit
  }

  lemma OnlyFitAppend(q: seq<bool>, v: seq<Sight>, ok: bool)
    requires OnlyFit(q, v) && |q| < |v| && (ok ==> v[|q|].fit)
    ensures OnlyFit(q + [ok], v)
  {
  }

  lemma RisingAppend(at: seq<int>, lo: int, hi: int, t: int)
    requires Rising(at, lo, hi) && lo <= hi <= t
    ensures Rising(at + [t], lo, t)
  {
  }

  lemma SiftedAppend(ms: seq<Member>, i: nat, cands: seq<Member>, q: seq<bool>, v: seq<Sight>, at: seq<int>,
                     lo: int, hi: int, ok: bool, t: int)
    requires i < |ms| == |v| && hi <= t
    requires Sifted(ms[..i], cands, q, v, at, lo, hi)
    requires ok ==> v[i].fit
    ensures Sifted(ms[..i + 1], if ok then cands + [ms[i]] else cands, q + [ok], v, at + [t], lo, t)
  {
    OnlyFitAppend(q, v, ok);
    RisingAppend(at, lo, hi, t);
    WhereAppend(q, ok);
    GatherAppend(ms, i, Where(q));
  }

  lemma GatheredMembers(ms: seq<Member>, idx: seq<nat>)
    requires Positions(idx, |ms|)
    ensures forall m :: m in Gather(ms, idx) ==> m in ms
  {
  }

  lemma NotGathered(ms: seq<Member>, idx: seq<nat>, i: nat)
    requires NoDuplicates(ms) && Positions(idx, |ms|) && i < |ms| && i !in idx
    ensures ms[i] !in Gather(ms, idx)
  {
  }

  /** One turn among the members marked in q: no one is chosen exactly when none is marked. */
  ghost predicate Elects(ms: seq<Member>, c: seq<int>, c': seq<int>, q: seq<bool>, chosen: Member?) {
    && |ms| == |c| == |q|
    && c' == Turn(WeightsOf(ms), c, Where(q))
    && (chosen == null <==> Where(q) == [])
    && (chosen != null ==> chosen == ms[Winner(WeightsOf(ms), c, Where(q))])
  }

  lemma NobodyElected(ms: seq<Member>, c: seq<int>, q: seq<bool>)
    requires |ms| == |c| == |q| && Where(q) == []
    ensures Elects(ms, c, c, q, null)
  {
  }

  ghost predicate WellFormed(cfg: Config, byModel: map<string, seq<Member>>, byID: map<string, Member>) {
    && (forall model :: model in byModel ==> NoDuplicates(byModel[model]))
    && (forall model, m :: model in byModel && m in byModel[model] ==>
      m.ep.model == model && m.ep.weight >= 1 && m.breaker.cfg == cfg)
    && (forall id :: id in byID ==>
      byID[id].ep.id == id && byID[id].ep.model in byModel && byID[id] in byModel[byID[id].ep.model])
  }

  /** Every listed member is the one found under its ID. */
  ghost predicate Agree(byModel: map<string, seq<Member>>, byID: map<string, Member>) {
    forall model, m :: model in byModel && m in byModel[model] ==> m.ep.id in byID && byID[m.ep.id] == m
  }

  /** No member is listed under two models. */
  lemma ListedOnce(cfg: Config, byModel: map<string, seq<Member>>, byID: map<string, Member>, model: string, other: string)
    requires WellFormed(cfg, byModel, byID) && other in byModel && other != model
    ensures forall m :: m in byModel[other] ==> !(model in byModel && m in byModel[model])
  {
    forall m | m in byModel[other] ensures !(model in byModel && m in byModel[model]) {
      assert m.ep.model == other;
    }
  }

  class Pool {
    const breakerCfg: Config
    const clock: Clock
    const history: History
    var byModel: map<string, seq<Member>>
    var byID: map<string, Member>

    constructor (breakerCfg: Config, clock: Clock, history: History)
      ensures this.breakerCfg == breakerCfg && this.clock == clock && this.history == history
      ensures Valid() && Indexed() && byModel == map[] && byID == map[]
    {
      this.breakerCfg, this.clock, this.history := breakerCfg, clock, history;
      byModel, byID := map[], map[];
    }

    ghost function Members(): set<Member>
      reads this
    {
      set model, m | model in byModel && m in byModel[model] :: m
    }

    ghost function Breakers(): set<Breaker>
      reads this
    {
      set m | m in Members() :: m.breaker
    }

    ghost function Views(): map<Breaker, State>
      reads this, Breakers()
    {
      ViewsOf(Breakers())
    }

    /** How often each breaker has granted. */
    ghost function Grants(): map<Breaker, nat>
      reads this, Breakers()
    {
      GrantsOf(Breakers())
    }

    /** How often each breaker has refused. */
    ghost function Refused(): map<Breaker, Refusals>
      reads this, Breakers()
    {
      RefusalsOf(Breakers())
    }

    function ListOf(model: string): seq<Member>
      reads this
    {
      if model in byModel then byModel[model] else []
    }

    ghost predicate Valid()
      reads this
    {
      WellFormed(breakerCfg.WithDefaults(), byModel, byID)
    }

    /** Both indexes hold the same members. */
    ghost predicate Indexed()
      reads this
    {
      Agree(byModel, byID)
    }

    /**
      Reports by other requests take the pool's lock only to look a member up,
      so they may reach any breaker between two breaker calls of a Pick.
      In a quiet Pick none does. Allow is called under the lock alone.
     */
    method ConcurrentReports(ghost who: nat, ghost quiet: bool)
      modifies Breakers(), history
      ensures quiet ==> Views() == old(Views())
      ensures Grants() == old(Grants()) && Refused() == old(Refused()) && history.Of(who) == old(history.Of(who))
    {
    }

    /** Ask a breaker whether it would admit. */
    method Consult(b: Breaker, ghost who: nat, ghost quiet: bool) returns (ok: bool)
      requires b in Breakers()
      modifies clock, Breakers(), history
      ensures old(clock.now) <= clock.now
      ensures quiet ==> ok == old(b.View()).Admits(b.cfg, clock.now)
      ensures quiet ==> SettledAll(old(Views()), Views(), clock.now)
      ensures quiet && !ok ==> Views() == old(Views())
      ensures Grants() == old(Grants()) && history.Of(who) == old(history.Of(who))
      ensures Grown(old(Refused()), Refused()) && (!ok ==> Declined(old(Refused()), Refused(), b))
      ensures Undenied(old(Refused()), Refused())
    {
      hide SettledAll, GrantsOf, ViewsOf, RefusalsOf, Declining, Grown, Declined, Undenied;
      ghost var bs := Breakers();
      ViewAmong(b, bs);
      ConcurrentReports(who, quiet);
      assert Breakers() == bs;
      ViewAmong(b, bs);
      ghost var v, r := ViewsOf(bs), RefusalsOf(bs);
      NothingRefused(r);
      var now := clock.Read();
      ok := EligibleAmong(b, bs, now);
      assert Breakers() == bs;
      SettledOne(v, ViewsOf(bs), b, now);
      RefusalChangesNothing(v, ViewsOf(bs), b, now);
      GrownByOne(r, b);
    }

    /** The filters of Pick's first loop on one member; a member filtered out earlier is not consulted. */
    method Passes(m: Member, exclude: set<string>, ghost who: nat, ghost quiet: bool) returns (ok: bool, ghost t: int)
      requires Valid() && m in Members()
      modifies clock, Breakers(), history
      ensures old(clock.now) <= t == clock.now
      ensures ok ==> StaticallyFit(m, exclude)
      ensures quiet ==> ok == old(See(m, exclude)).Qualifies(breakerCfg.WithDefaults(), t)
      ensures quiet ==> SettledAll(old(Views()), Views(), t)
      ensures quiet && !ok ==> Views() == old(Views())
      ensures Grants() == old(Grants()) && history.Of(who) == old(history.Of(who))
      ensures Grown(old(Refused()), Refused()) && Undenied(old(Refused()), Refused())
      ensures !ok && StaticallyFit(m, exclude) ==> Declined(old(Refused()), Refused(), m.breaker)
    {
      NothingRefused(Refused());
      t := clock.now;
      if m.ep.id in exclude || m.health != Healthy || m.ep.weight <= 0 {
        return false, t;
      }
      assert m.breaker.cfg == breakerCfg.WithDefaults();
      hide SettledAll, Grants, Views, WellFormed, Refused, Declined, Grown, Undenied;
      ok := Consult(m.breaker, who, quiet);
      t := clock.now;
    }

    /** The first loop of Pick; q records the members that passed, at when each was consulted. */
    method Candidates(members: seq<Member>, exclude: set<string>, ghost who: nat, ghost quiet: bool)
      returns (cands: seq<Member>, ghost q: seq<bool>, ghost at: seq<int>)
      requires Valid() && (forall m :: m in members ==> m in Members())
      modifies clock, Breakers(), history
      ensures Sifted(members, cands, q, old(SeeAll(members, exclude)), at, old(clock.now), clock.now)
      ensures quiet ==> Judged(q, old(SeeAll(members, exclude)), breakerCfg.WithDefaults(), at)
      ensures quiet ==> SettledAll(old(Views()), Views(), clock.now)
      ensures quiet && cands == [] ==> Views() == old(Views())
      ensures Grants() == old(Grants()) && history.Of(who) == old(history.Of(who))
      ensures Grown(old(Refused()), Refused()) && Undenied(old(Refused()), Refused())
      ensures LetDown(members, |members|, q, old(SeeAll(members, exclude)), old(Refused()), Refused())
    {
      ghost var v, cfg := SeeAll(members, exclude), breakerCfg.WithDefaults();
      cands, q, at := [], [], [];
      assert Sifted(members[..0], cands, q, v, at, clock.now, clock.now) && Judged(q, v, cfg, at);
      assert SettledAll(Views(), Views(), clock.now);
      NothingRefused(Refused());
      assert LetDown(members, 0, q, v, Refused(), Refused());
      hide Sifted, Judged, Refused, LetDown, Grown, Declined, Undenied;
      for i := 0 to |members|
        invariant Sifted(members[..i], cands, q, v, at, old(clock.now), clock.now)
        invariant quiet ==> Judged(q, v, cfg, at)
        invariant quiet ==> SettledAll(old(Views()), Views(), clock.now)
        invariant quiet && cands == [] ==> Views() == old(Views())
        invariant Grants() == old(Grants()) && history.Of(who) == old(history.Of(who))
        invariant Undenied(old(Refused()), Refused())
        invariant Grown(old(Refused()), Refused()) && LetDown(members, i, q, v, old(Refused()), Refused())
      {
        var m := members[i];
        ghost var before, vs, refused := clock.now, Views(), Refused();
        var ok;
        ghost var t;
        ok, t := Passes(m, exclude, who, quiet);
        if quiet {
          SettlingIsInvisible(cfg, old(Views())[m.breaker], vs[m.breaker], before, t);
          SettledTwice(old(Views()), vs, Views(), before, t);
          JudgedAppend(q, v, cfg, at, ok, t);
        }
        SiftedAppend(members, i, cands, q, v, at, old(clock.now), before, ok, t);
        GrownFurther(old(Refused()), refused, Refused());
        LetDownAppend(members, i, q, v, old(Refused()), refused, Refused(), ok);
        if ok {
          cands := cands + [m];
        }
        q, at := q + [ok], at + [t];
      }
      assert members[..|members|] == members;
    }

    /** One round robin turn among the members at positions idx. */
    method Elect(members: seq<Member>, cands: seq<Member>, ghost idx: seq<nat>) returns (best: Member?)
      requires NoDuplicates(members) && Positions(idx, |members|)
      requires cands == Gather(members, idx) && cands != []
      modifies cands`current
      ensures Credits(members) == Turn(WeightsOf(members), old(Credits(members)), idx)
      ensures best == members[Winner(WeightsOf(members), old(Credits(members)), idx)]
      ensures best in cands
    {
      hide Turn, Winner, Step, Credits, WeightsOf, Gather;
      ghost var w, c := WeightsOf(members), Credits(members);
      assert WeightsOf(cands) == Gather(w, idx) && Credits(cands) == Gather(c, idx);
      best := NextWRR(cands);
      ghost var c' := Credits(members);
      assert Credits(cands) == Gather(c', idx);
      forall i: nat | i < |members| && i !in idx ensures c'[i] == c[i] {
        NotGathered(members, idx, i);
      }
      StepAmongIsTurn(w, c, c', idx);
    }

    /** Pick's second look after the elected member refused: the other candidates still eligible. */
    method Remaining(members: seq<Member>, cands: seq<Member>, ghost idx: seq<nat>, refused: string,
                     ghost who: nat, ghost quiet: bool)
      returns (rest: seq<Member>, ghost jdx: seq<nat>)
      requires Valid() && Positions(idx, |members|) && cands == Gather(members, idx)
      requires forall m :: m in members ==> m in Members()
      modifies clock, Breakers(), history
      ensures old(clock.now) <= clock.now
      ensures Positions(jdx, |members|) && rest == Gather(members, jdx)
      ensures forall m :: m in rest ==> m in cands && m.ep.id != refused
      ensures Grants() == old(Grants()) && history.Of(who) == old(history.Of(who))
      ensures Grown(old(Refused()), Refused())
      ensures forall m :: m in cands ==> m in rest || m.ep.id == refused || Declined(old(Refused()), Refused(), m.breaker)
    {
      hide Kept, Gather, Grants, Positions, Refused, Grown, Declined;
      NothingRefused(Refused());
      rest, jdx := [], [];
      NothingKept(members, idx);
      for k := 0 to |cands|
        invariant old(clock.now) <= clock.now
        invariant Kept(idx, k, jdx) && Positions(jdx, |members|) && rest == Gather(members, jdx)
        invariant forall m :: m in rest ==> m in cands && m.ep.id != refused
        invariant Grants() == old(Grants()) && history.Of(who) == old(history.Of(who))
        invariant Grown(old(Refused()), Refused())
        invariant forall m :: m in cands[..k] ==> m in rest || m.ep.id == refused || Declined(old(Refused()), Refused(), m.breaker)
      {
        var m := cands[k];
        KeepNext(members, idx, k, jdx);
        if m.ep.id != refused {
          ghost var before := Refused();
          var ok := Consult(m.breaker, who, quiet);
          GrownFurther(old(Refused()), before, Refused());
          if ok {
            rest, jdx := rest + [m], jdx + [idx[k]];
          }
        }
      }
      KeptPositions(members, idx, jdx);
    }

    /** Ask a breaker to admit the call. */
    method Admit(b: Breaker, ghost who: nat, ghost quiet: bool) returns (ok: bool)
      requires b in Breakers()
      modifies clock, Breakers(), history
      ensures old(clock.now) <= clock.now
      ensures Grants() == if ok then Granting(old(Grants()), b) else old(Grants())
      ensures history.Of(who) == old(history.Of(who))
      ensures quiet ==> ok == old(b.View()).Admits(b.cfg, clock.now)
      ensures Grown(old(Refused()), Refused()) && (!ok ==> Denied(old(Refused()), Refused(), b))
      ensures ok ==> Undenied(old(Refused()), Refused())
    {
      hide GrantsOf, ViewsOf, Granting, RefusalsOf, Denying, Grown, Denied, Undenied;
      ghost var bs := Breakers();
      ViewAmong(b, bs);
      ConcurrentReports(who, quiet);
      assert Breakers() == bs;
      ViewAmong(b, bs);
      NothingRefused(RefusalsOf(bs));
      GrownByOne(RefusalsOf(bs), b);
      var now := clock.Read();
      ok := AllowAmong(b, bs, now);
      assert Breakers() == bs;
    }

    /** Ask an elected member to admit the call; a grant makes it the pick. */
    method Ask(m: Member, ghost who: nat, ghost quiet: bool) returns (ok: bool)
      requires m in Members()
      modifies clock, Breakers(), history
      ensures old(clock.now) <= clock.now
      ensures Grants() == if ok then Granting(old(Grants()), m.breaker) else old(Grants())
      ensures history.Of(who) == old(history.Of(who)) + if ok then [Picked(m.ep.id)] else []
      ensures quiet ==> ok == old(m.breaker.View()).Admits(m.breaker.cfg, clock.now)
      ensures Grown(old(Refused()), Refused()) && (!ok ==> Denied(old(Refused()), Refused(), m.breaker))
      ensures ok ==> Undenied(old(Refused()), Refused())
    {
      hide Grants, Granting, Refused, Grown, Denied, Undenied;
      ok := Admit(m.breaker, who, quiet);
      if ok {
        history.Add(who, Picked(m.ep.id));
      }
    }

    /** The candidates of a quiet Pick are still admitted whenever they are asked. */
    lemma CandidatesReady(members: seq<Member>, cands: seq<Member>, v: seq<Sight>, vs: map<Breaker, State>,
                          q: seq<bool>, at: seq<int>, lo: int, hi: int)
      requires Valid() && (forall m :: m in members ==> m in Members())
      requires Sifted(members, cands, q, v, at, lo, hi) && Judged(q, v, breakerCfg.WithDefaults(), at)
      requires vs.Keys == Breakers() && forall i :: 0 <= i < |members| ==> v[i].s == vs[members[i].breaker]
      requires SettledAll(vs, Views(), hi)
      ensures forall m :: m in cands ==> Ready(m.breaker, hi)
    {
      forall m, t | m in cands && hi <= t ensures m.breaker.View().Admits(m.breaker.cfg, t) {
        var k :| 0 <= k < |cands| && cands[k] == m;
        var i := Where(q)[k];
        assert m.breaker in Views();
        StillAdmitted(m.breaker.cfg, v[i].s, m.breaker.View(), at[i], hi, t);
      }
    }

    /** Elect one of the candidates and ask it. */
    method Vote(members: seq<Member>, cands: seq<Member>, ghost idx: seq<nat>, ghost who: nat, ghost quiet: bool)
      returns (best: Member?, ok: bool)
      requires NoDuplicates(members) && Positions(idx, |members|) && cands == Gather(members, idx) && cands != []
      requires forall m :: m in members ==> m in Members()
      requires quiet ==> forall m :: m in cands ==> Ready(m.breaker, clock.now)
      modifies clock, Breakers(), history, cands`current
      ensures old(clock.now) <= clock.now
      ensures best in cands && (quiet ==> ok)
      ensures Grown(old(Refused()), Refused()) && (!ok ==> Denied(old(Refused()), Refused(), best.breaker))
      ensures ok ==> Undenied(old(Refused()), Refused())
      ensures Grants() == if ok then Granting(old(Grants()), best.breaker) else old(Grants())
      ensures history.Of(who) == old(history.Of(who)) + if ok then [Picked(best.ep.id)] else []
      ensures Credits(members) == Turn(WeightsOf(members), old(Credits(members)), idx)
      ensures best == members[Winner(WeightsOf(members), old(Credits(members)), idx)]
      ensures Sum(Credits(members)) == old(Sum(Credits(members)))
    {
      hide Grants, Granting, Turn, Winner, Gather, Credits, WeightsOf, Sum, Refused, Grown, Denied, Undenied;
      TurnKeepsSum(WeightsOf(members), Credits(members), idx);
      best := Elect(members, cands, idx);
      ghost var c' := Credits(members);
      assert quiet ==> Ready(best.breaker, clock.now);
      ok := Ask(best, who, quiet);
      assert Credits(members) == c';
    }

    /** Filter, then collect what the rest of a quiet Pick needs to know. */
    method Survey(members: seq<Member>, exclude: set<string>, ghost fit: set<Member>, ghost who: nat, ghost quiet: bool)
      returns (cands: seq<Member>, ghost q: seq<bool>, ghost at: seq<int>)
      requires Valid() && (forall m :: m in members ==> m in Members())
      requires fit == Fit(members, exclude)
      modifies clock, Breakers(), history
      ensures |q| == |at| == |members| && cands == Gather(members, Where(q))
      ensures old(clock.now) <= clock.now && Rising(at, old(clock.now), clock.now)
      ensures forall m :: m in cands ==> m in fit
      ensures quiet ==> Judged(q, old(SeeAll(members, exclude)), breakerCfg.WithDefaults(), at)
      ensures quiet ==> forall m :: m in cands ==> Ready(m.breaker, clock.now)
      ensures quiet && cands == [] ==> Views() == old(Views())
      ensures Grants() == old(Grants()) && history.Of(who) == old(history.Of(who))
      ensures Grown(old(Refused()), Refused()) && Undenied(old(Refused()), Refused())
      ensures forall m :: m in fit ==> m in cands || Declined(old(Refused()), Refused(), m.breaker)
    {
      hide Refused, LetDown, Grown, Declined, Undenied, Sifted, Judged, Grants, SettledAll, SeeAll, Ready;
      ghost var v, vs := SeeAll(members, exclude), Views();
      ghost var start := clock.now;
      cands, q, at := Candidates(members, exclude, who, quiet);
      SiftedMeans(members, cands, q, v, at, start, clock.now, fit);
      FitLetDown(members, cands, q, v, fit, old(Refused()), Refused());
      if quiet {
        CandidatesReady(members, cands, v, vs, q, at, start, clock.now);
      }
    }

    /** Every fit member is a candidate or has been declined. */
    lemma FitLetDown(members: seq<Member>, cands: seq<Member>, q: seq<bool>, v: seq<Sight>, fit: set<Member>,
                     r: map<Breaker, Refusals>, r': map<Breaker, Refusals>)
      requires |q| == |v| == |members| && cands == Gather(members, Where(q)) && LetDown(members, |members|, q, v, r, r')
      requires forall m :: m in fit ==> exists i :: 0 <= i < |members| && members[i] == m && v[i].fit
      ensures forall m :: m in fit ==> m in cands || Declined(r, r', m.breaker)
    {
      hide Declined;
      forall m | m in fit ensures m in cands || Declined(r, r', m.breaker) {
        var i :| 0 <= i < |members| && members[i] == m && v[i].fit;
        if q[i] {
          assert i in Where(q);
          var k :| 0 <= k < |Where(q)| && Where(q)[k] == i;
          assert cands[k] == m;
        }
      }
    }

    /** Filter, elect one of those that passed, and ask it. */
    method FirstChoice(members: seq<Member>, exclude: set<string>, ghost fit: set<Member>, ghost who: nat, ghost quiet: bool)
      returns (cands: seq<Member>, best: Member?, ok: bool, ghost q: seq<bool>, ghost at: seq<int>)
      requires Valid() && NoDuplicates(members) && (forall m :: m in members ==> m in Members())
      requires fit == Fit(members, exclude)
      modifies clock, Breakers(), history, members`current
      ensures Sum(Credits(members)) == old(Sum(Credits(members)))
      ensures old(clock.now) <= clock.now
      ensures |q| == |at| == |members| && cands == Gather(members, Where(q)) && (forall m :: m in cands ==> m in fit)
      ensures exists surveyed :: surveyed <= clock.now && Rising(at, old(clock.now), surveyed)
      ensures quiet ==> Judged(q, old(SeeAll(members, exclude)), breakerCfg.WithDefaults(), at)
      ensures Elects(members, old(Credits(members)), Credits(members), q, best)
      ensures quiet && best == null ==> Views() == old(Views())
      ensures if best == null then !ok else best in cands && (quiet ==> ok)
      ensures Grown(old(Refused()), Refused()) && (best == null ==> cands == [])
      ensures best != null && !ok ==> Denied(old(Refused()), Refused(), best.breaker)
      ensures best == null || ok ==> Undenied(old(Refused()), Refused())
      ensures forall m :: m in fit ==> m in cands || Declined(old(Refused()), Refused(), m.breaker)
      ensures Grants() == if ok then Granting(old(Grants()), best.breaker) else old(Grants())
      ensures history.Of(who) == old(history.Of(who)) + if ok then [Picked(best.ep.id)] else []
    {
      hide Judged, Rising, Grants, Granting, SeeAll, Turn, Winner, Gather, Where, Credits, WeightsOf, Sum, WellFormed, Fit, Ready;
      hide Refused, Grown, Declined, Denied, Undenied;
      ghost var c := Credits(members);
      best, ok := null, false;
      cands, q, at := Survey(members, exclude, fit, who, quiet);
      assert Credits(members) == c;
      if |cands| == 0 {
        NobodyElected(members, c, q);
      } else {
        ghost var before := Refused();
        best, ok := Vote(members, cands, Where(q), who, quiet);
        GrownFurther(old(Refused()), before, Refused());
      }
    }

    /**
      The body of Pick. refused is the member whose breaker turned the first
      choice down, which takes a report in between.
     */
    method Choose(members: seq<Member>, exclude: set<string>, ghost fit: set<Member>, ghost who: nat, ghost quiet: bool)
      returns (chosen: Member?, refused: Member?, ghost q: seq<bool>, ghost at: seq<int>)
      requires Valid() && NoDuplicates(members) && (forall m :: m in members ==> m in Members())
      requires fit == Fit(members, exclude)
      modifies clock, Breakers(), history, members`current
      ensures Sum(Credits(members)) == old(Sum(Credits(members)))
      ensures old(clock.now) <= clock.now
      ensures |q| == |at| == |members| && exists surveyed :: surveyed <= clock.now && Rising(at, old(clock.now), surveyed)
      ensures quiet ==> Judged(q, old(SeeAll(members, exclude)), breakerCfg.WithDefaults(), at)
      ensures quiet ==> refused == null
      ensures refused == null ==> Elects(members, old(Credits(members)), Credits(members), q, chosen)
      ensures quiet && chosen == null ==> Views() == old(Views())
      ensures refused != null ==> refused in members
      ensures chosen != null ==> chosen in members && chosen in fit
      ensures Grants() == if chosen != null then Granting(old(Grants()), chosen.breaker) else old(Grants())
      ensures history.Of(who) == old(history.Of(who)) + if chosen != null then [Picked(chosen.ep.id)] else []
      ensures chosen != null && refused != null ==> chosen.ep.id != refused.ep.id
      ensures chosen == null ==> GaveUp(fit, old(Refused()), Refused())
      ensures if refused == null then Undenied(old(Refused()), Refused())
              else refused in fit && Denied(old(Refused()), Refused(), refused.breaker)
    {
      hide Judged, Rising, Grants, Granting, SeeAll, Elects, Where, Credits, WeightsOf, Sum, WellFormed, Fit;
      hide Refused, Grown, Declined, Denied, Undenied, GaveUp;
      var cands, best, ok;
      cands, best, ok, q, at := FirstChoice(members, exclude, fit, who, quiet);
      GatheredMembers(members, Where(q));
      chosen, refused := null, null;
      if ok {
        chosen := best;
      } else if best != null {
        refused := best;
        ghost var before := Refused();
        ghost var second;
        chosen, second := SecondChoice(members, cands, Where(q), best.ep.id, who, quiet);
        GrownFurther(old(Refused()), before, Refused());
        if chosen == null {
          GivenUp(fit, cands, best, second, old(Refused()), before, Refused());
        }
      } else {
        NobodyFit(fit, old(Refused()), Refused());
      }
    }

    lemma NobodyFit(fit: set<Member>, r: map<Breaker, Refusals>, r': map<Breaker, Refusals>)
      requires forall m :: m in fit ==> Declined(r, r', m.breaker)
      ensures GaveUp(fit, r, r')
    {
    }

    lemma GivenUp(fit: set<Member>, cands: seq<Member>, first: Member, second: Member?,
                  r: map<Breaker, Refusals>, r': map<Breaker, Refusals>, r'': map<Breaker, Refusals>)
      requires Grown(r, r') && Grown(r', r'')
      requires (forall m :: m in cands ==> m in fit) && first in cands && Denied(r, r', first.breaker)
      requires forall m :: m in fit ==> m in cands || Declined(r, r', m.breaker)
      requires second != null ==> second in cands && second.ep.id != first.ep.id && Denied(r', r'', second.breaker)
      requires second == null ==> forall m :: m in cands ==> m.ep.id == first.ep.id || Declined(r', r'', m.breaker)
      ensures GaveUp(fit, r, r'')
    {
      GrownFurther(r, r', r'');
      hide Grown, Declined, Denied;
      assert IDDenied(fit, r, r'', first.ep.id);
    }

    /** Pick's retry without the refused member. */
    method SecondChoice(members: seq<Member>, cands: seq<Member>, ghost idx: seq<nat>, refused: string,
                        ghost who: nat, ghost quiet: bool)
      returns (chosen: Member?, ghost second: Member?)
      requires Valid() && NoDuplicates(members) && (forall m :: m in members ==> m in Members())
      requires Positions(idx, |members|) && cands == Gather(members, idx)
      modifies clock, Breakers(), history, members`current
      ensures old(clock.now) <= clock.now
      ensures chosen != null ==> chosen in cands && chosen.ep.id != refused
      ensures Grown(old(Refused()), Refused())
      ensures chosen == null && second != null ==>
        second in cands && second.ep.id != refused && Denied(old(Refused()), Refused(), second.breaker)
      ensures chosen == null && second == null ==>
        forall m :: m in cands ==> m.ep.id == refused || Declined(old(Refused()), Refused(), m.breaker)
      ensures Grants() == if chosen != null then Granting(old(Grants()), chosen.breaker) else old(Grants())
      ensures history.Of(who) == old(history.Of(who)) + if chosen != null then [Picked(chosen.ep.id)] else []
      ensures Sum(Credits(members)) == old(Sum(Credits(members)))
    {
      hide Grants, Granting, Turn, Winner, Gather, Credits, WeightsOf, Sum, WellFormed, Refused, Grown, Declined, Denied;
      ghost var c := Credits(members);
      var rest;
      ghost var jdx;
      rest, jdx := Remaining(members, cands, idx, refused, who, quiet);
      assert Credits(members) == c;
      if |rest| == 0 {
        return null, null;
      }
      ghost var before := Refused();
      var best, ok := Vote(members, rest, jdx, who, false);
      GrownFurther(old(Refused()), before, Refused());
      chosen, second := if ok then best else null, best;
    }

    ghost function CreditOf(model: string): int
      reads this, ListOf(model)
    {
      Sum(Credits(ListOf(model)))
    }

    ghost function IDsOf(model: string): set<string>
      reads this
    {
      set m | m in ListOf(model) :: m.ep.id
    }

    /**
      Pick. A quiet Pick returns the first member of the model, in list order,
      with the largest credit after earning its weight, among those that pass
      every filter; it fails exactly when none does, and never takes the second
      look. Whatever reports interfere, an endpoint returned is not excluded and
      its own breaker has granted once in this Pick, no other breaker has
      granted, none has when Pick fails, and no credit is created or lost. It
      fails only once two elected members have refused in turn, or each fit one
      has, when asked for the first or the second time, or shares its ID with
      one that has.
      exclude' is the caller's map, to which a first choice that refused, and
      only that, is added.
     */
    method Pick(model: string, exclude: set<string>, ghost who: nat, ghost quiet: bool)
      returns (r: Option<Endpoint>, exclude': set<string>, ghost chosen: Member?, ghost q: seq<bool>, ghost at: seq<int>)
      requires Valid()
      modifies clock, Breakers(), history, ListOf(model)`current
      ensures old(clock.now) <= clock.now
      ensures chosen == null <==> r.None?
      ensures chosen != null ==> r == Some(chosen.ep) && chosen in ListOf(model) && chosen in old(Fit(ListOf(model), exclude))
      ensures Grants() == if chosen != null then Granting(old(Grants()), chosen.breaker) else old(Grants())
      ensures history.Of(who) == old(history.Of(who)) + if r.Some? then [Picked(r.value.id)] else []
      ensures r.Some? ==> r.value.id in IDsOf(model) && r.value.id !in exclude'
      ensures r.None? ==> GaveUp(old(Fit(ListOf(model), exclude)), old(Refused()), Refused())
      ensures if exclude' == exclude then Undenied(old(Refused()), Refused())
              else exists m :: m in ListOf(model) && exclude' == exclude + {m.ep.id} && Denied(old(Refused()), Refused(), m.breaker)
      ensures forall md :: CreditOf(md) == old(CreditOf(md))
      ensures |q| == |at| == |ListOf(model)| && exists surveyed :: surveyed <= clock.now && Rising(at, old(clock.now), surveyed)
      ensures quiet ==> exclude' == exclude
      ensures quiet ==> Judged(q, old(SeeAll(ListOf(model), exclude)), breakerCfg.WithDefaults(), at)
      ensures quiet ==> Elects(ListOf(model), old(Credits(ListOf(model))), Credits(ListOf(model)), q, chosen)
      ensures quiet && r.None? ==> Views() == old(Views())
    {
      var best, refused;
      hide Elects, Judged, Rising, SeeAll, Credits, Sum, WeightsOf, Grants, Granting, Refused, GaveUp, Undenied, Denied;
      best, refused, q, at := Choose(ListOf(model), exclude, Fit(ListOf(model), exclude), who, quiet);
      chosen := best;
      r := if best != null then Some(best.ep) else None;
      exclude' := if refused != null then exclude + {refused.ep.id} else exclude;
      OtherModelsKeep(model);
    }

    /** As long as no breaker moves and no health is set, the filters see the same. */
    twostate lemma SeenAgain()
      requires byModel == old(byModel) && Views() == old(Views())
      requires forall m :: m in Members() ==> m.health == old(m.health)
      ensures forall model, exclude :: SeeAll(ListOf(model), exclude) == old(SeeAll(ListOf(model), exclude))
    {
      forall model, exclude ensures SeeAll(ListOf(model), exclude) == old(SeeAll(ListOf(model), exclude)) {
        var ms := ListOf(model);
        forall i | 0 <= i < |ms| ensures See(ms[i], exclude) == old(See(ms[i], exclude)) {
          assert model in byModel && ms[i] in byModel[model];
          assert ms[i] in Members();
          ViewAmong(ms[i].breaker, Breakers());
          assert old(Views())[ms[i].breaker] == old(ms[i].breaker.View());
        }
      }
    }

    /** What happens to the members of one model leaves the credit of the others alone. */
    twostate lemma OtherModelsKeep(model: string)
      requires old(Valid()) && byModel == old(byModel)
      requires CreditOf(model) == old(CreditOf(model))
      requires forall m :: m in Members() && m !in ListOf(model) ==> m.current == old(m.current)
      ensures forall md :: CreditOf(md) == old(CreditOf(md))
    {
      hide Sum, Credits, WellFormed;
      forall md ensures CreditOf(md) == old(CreditOf(md)) {
        if md in byModel && md != model {
          ListedOnce(breakerCfg.WithDefaults(), byModel, old(byID), model, md);
          forall m | m in byModel[md] ensures m.current == old(m.current) {
            assert m in Members() && m !in ListOf(model);
          }
          SameCredits(byModel[md]);
        }
      }
    }

    /**
      Replace. made lists the new members in input order: both indexes are
      views of it, and a member whose ID was known carries on with the old
      member's breaker, health, credit and latency.
     */
    method Replace(endpoints: seq<Endpoint>) returns (err: Option<Invalid>, ghost made: seq<Member>)
      requires Valid()
      modifies this
      ensures Valid()
      ensures err == FirstInvalid(endpoints)
      ensures err.Some? ==> byModel == old(byModel) && byID == old(byID)
      ensures err.None? <==> forall e :: e in endpoints ==> Complete(e)
      ensures err.None? ==> Mirrors(made, endpoints) && byModel == ByModel(made) && byID == ByID(made)
      ensures err.None? ==> |made| == |endpoints| && forall i :: 0 <= i < |made| ==> AsConfigured(made[i].ep, endpoints[i])
      ensures err.None? ==> forall m :: m in made ==> fresh(m) && CarriesOn(m, old(Known()))
    {
      var nextModel, nextID;
      err, nextModel, nextID, made := Build(endpoints);
      AcceptedIffComplete(endpoints, 0);
      if err.None? {
        MirrorsConfiguration(made, endpoints);
        byModel, byID := nextModel, nextID;
      }
    }

    /** The loop of Replace, which builds both indexes aside. */
    method Build(endpoints: seq<Endpoint>)
      returns (err: Option<Invalid>, nextModel: map<string, seq<Member>>, nextID: map<string, Member>, ghost made: seq<Member>)
      requires Valid()
      ensures err == FirstInvalid(endpoints)
      ensures err.None? ==> WellFormed(breakerCfg.WithDefaults(), nextModel, nextID)
      ensures err.None? ==> Mirrors(made, endpoints) && nextModel == ByModel(made) && nextID == ByID(made)
      ensures err.None? ==> forall m :: m in made ==> fresh(m) && CarriesOn(m, Known())
    {
      hide ByModel, ByID, MirrorsTo, Usable, CarriesOn, Normalize, Validate, WellFormed, Known;
      ghost var cfg, known := breakerCfg.WithDefaults(), Known();
      nextModel, nextID, made := map[], map[], [];
      NothingMade(cfg, endpoints);
      for i := 0 to |endpoints|
        invariant FirstInvalid(endpoints) == FirstInvalidFrom(endpoints, i)
        invariant MirrorsTo(made, endpoints, i) && nextModel == ByModel(made) && nextID == ByID(made)
        invariant forall m :: m in made ==> fresh(m) && CarriesOn(m, known)
        invariant Usable(cfg, made)
      {
        var ep := endpoints[i];
        var invalid := Validate(ep);
        if invalid.Some? {
          return invalid, nextModel, nextID, made;
        }
        NormalizeMeans(ep);
        ep := Normalize(ep);
        KnownConfig(ep.id);
        var m := Successor(ep);
        MirrorsAppend(made, endpoints, i, m);
        IndexesAppend(cfg, made, m);
        nextModel := nextModel[ep.model := (if ep.model in nextModel then nextModel[ep.model] else []) + [m]];
        nextID := nextID[ep.id := m];
        made := made + [m];
      }
      IndexesWellFormed(cfg, made, endpoints);
      err := None;
    }

    lemma KnownConfig(id: string)
      requires Valid()
      ensures id in byID ==> byID[id].breaker.cfg == breakerCfg.WithDefaults()
    {
    }

    ghost function Known(): map<string, Standing>
      reads this, byID.Values
    {
      map id | id in byID :: StandingOf(byID[id])
    }

    /** A member for ep, continuing the one known under its ID. */
    method Successor(ep: Endpoint) returns (m: Member)
      requires ep.id in byID ==> byID[ep.id].breaker.cfg == breakerCfg.WithDefaults()
      ensures fresh(m) && m.ep == ep && CarriesOn(m, Known())
      ensures m.breaker.cfg == breakerCfg.WithDefaults()
    {
      if ep.id in byID {
        var prior := byID[ep.id];
        m := new Member(ep, prior.health, prior.breaker, prior.current, prior.latency);
      } else {
        var b := new Breaker(breakerCfg);
        m := new Member(ep, Healthy, b, 0, 0);
      }
    }

    method Lookup(id: string) returns (m: Member?)
      ensures if id in byID then m == byID[id] else m == null
    {
      m := if id in byID then byID[id] else null;
    }

    /** The part of Report after the pool's lock is released: it drives the member's own breaker. */
    method Record(m: Member, result: CallResult)
      modifies clock, m`latency, m.breaker
      ensures old(clock.now) <= clock.now
      ensures m.breaker.View() == Reported(m.breaker.cfg, old(m.breaker.View()), result, clock.now)
      ensures m.latency == Smoothed(old(m.latency), result) && m.breaker.grants == old(m.breaker.grants)
      ensures m.breaker.refusals == old(m.breaker.refusals)
    {
      if result.success {
        m.breaker.Success();
        if result.latency > 0 {
          if m.latency == 0 {
            m.latency := result.latency / 1_000_000;
          } else {
            m.latency := (m.latency * 7 + result.latency / 1_000_000 * 3) / 10;
          }
        }
        return;
      }
      if result.statusCode == 429 || !result.retryable {
        m.breaker.Release();
        return;
      }
      var now := clock.Read();
      m.breaker.Failure(now);
    }

    method Report(id: string, result: CallResult, ghost who: nat)
      modifies clock, history, if id in byID then {byID[id]} else {}, if id in byID then {byID[id].breaker} else {}
      ensures old(clock.now) <= clock.now
      ensures id in byID ==> var b := byID[id].breaker; b.View() == Reported(b.cfg, old(b.View()), result, clock.now)
      ensures id in byID ==> byID[id].latency == Smoothed(old(byID[id].latency), result)
      ensures id in byID ==> byID[id].health == old(byID[id].health) && byID[id].current == old(byID[id].current)
      ensures id in byID ==> byID[id].breaker.grants == old(byID[id].breaker.grants)
      ensures id in byID ==> byID[id].breaker.refusals == old(byID[id].breaker.refusals)
      ensures history.Of(who) == old(history.Of(who)) + [ReportedOn(id, result)]
    {
      history.Add(who, ReportedOn(id, result));
      var m := Lookup(id);
      if m != null {
        Record(m, result);
      }
    }

    method SetHealth(id: string, health: Health)
      modifies if id in byID then {byID[id]} else {}
      ensures id in byID ==> byID[id].health == health
      ensures id in byID ==> byID[id].current == old(byID[id].current) && byID[id].latency == old(byID[id].latency)
    {
      if id in byID {
        byID[id].health := health;
      }
    }
  }

  /** How a reported result moves the breaker: 429 and other non-retryable errors only free a probe. */
  function Reported(cfg: Config, s: State, r: CallResult, now: int): State {
    if r.success then s.AfterSuccess()
    else if r.statusCode == 429 || !r.retryable then s.AfterRelease()
    else s.AfterFailure(cfg, now)
  }

  /** The latency estimate after a report, in milliseconds. */
  function Smoothed(previous: int, r: CallResult): int {
    if !r.success || r.latency <= 0 then previous
    else if previous == 0 then r.latency / 1_000_000
    else (previous * 7 + r.latency / 1_000_000 * 3) / 10
  }

  /** A measured success moves the estimate three tenths of the way to the sample, rounded down; the first one sets it. */
  lemma LatencyFollowsSamples(previous: nat, r: CallResult, sample: nat)
    requires sample * 1_000_000 <= r.latency < (sample + 1) * 1_000_000
    ensures var s := Smoothed(previous, r);
            && (!r.success || r.latency == 0 ==> s == previous)
            && (r.success && r.latency > 0 && previous == 0 ==> s == sample)
            && (r.success && r.latency > 0 && previous > 0 ==>
                && 10 * (s - previous) <= 3 * (sample - previous) < 10 * (s - previous) + 10
                && (previous <= sample ==> previous <= s <= sample)
                && (sample <= previous ==> sample <= s <= previous))
  {
    assert r.latency / 1_000_000 == sample;
  }

  function FirstInvalidFrom(es: seq<Endpoint>, i: nat): Option<Invalid>
    requires i <= |es|
    decreases |es| - i
  {
    if i == |es| then None
    else if Validate(es[i]).Some? then Validate(es[i])
    else FirstInvalidFrom(es, i + 1)
  }

  /** The error of the first endpoint that does not validate. */
  function FirstInvalid(es: seq<Endpoint>): Option<Invalid> {
    FirstInvalidFrom(es, 0)
  }

  /** One distinct member for every endpoint, in order. */
  ghost predicate Mirrors(ms: seq<Member>, es: seq<Endpoint>) {
    MirrorsTo(ms, es, |es|)
  }

  ghost predicate MirrorsTo(ms: seq<Member>, es: seq<Endpoint>, n: nat)
    requires n <= |es|
  {
    |ms| == n && NoDuplicates(ms) && forall i :: 0 <= i < n ==> ms[i].ep == Normalize(es[i])
  }

  /** A list is accepted if and only if every endpoint in it is complete; otherwise the first incomplete one names the fault. */
  lemma {:induction false} AcceptedIffComplete(es: seq<Endpoint>, i: nat)
    requires i <= |es|
    ensures FirstInvalidFrom(es, i).None? <==> forall k :: i <= k < |es| ==> Complete(es[k])
    ensures forall k :: i <= k < |es| && !Complete(es[k]) && (forall j :: i <= j < k ==> Complete(es[j])) ==>
      match FirstInvalidFrom(es, i)
      case Some(MissingID) => es[k].id == ""
      case Some(MissingBaseURL) => es[k].id != "" && es[k].baseURL == ""
      case Some(MissingModel) => es[k].id != "" && es[k].baseURL != "" && es[k].model == ""
      case Some(NegativeWeight) => es[k].id != "" && es[k].baseURL != "" && es[k].model != "" && es[k].weight < 0
      case None => false
    decreases |es| - i
  {
    if i < |es| {
      AcceptedIffComplete(es, i + 1);
    }
  }

  lemma MirrorsConfiguration(ms: seq<Member>, es: seq<Endpoint>)
    requires Mirrors(ms, es) && forall e :: e in es ==> Complete(e)
    ensures |ms| == |es| && forall i :: 0 <= i < |ms| ==> AsConfigured(ms[i].ep, es[i])
  {
    forall i | 0 <= i < |ms| ensures AsConfigured(ms[i].ep, es[i]) {
      assert es[i] in es;
      NormalizeMeans(es[i]);
    }
  }

  lemma NothingMade(cfg: Config, es: seq<Endpoint>)
    ensures MirrorsTo([], es, 0) && Usable(cfg, []) && ByModel([]) == map[] && ByID([]) == map[]
  {
  }

  lemma MirrorsAppend(ms: seq<Member>, es: seq<Endpoint>, i: nat, m: Member)
    requires i < |es| && MirrorsTo(ms, es, i) && m !in ms && m.ep == Normalize(es[i])
    ensures MirrorsTo(ms + [m], es, i + 1)
  {
  }

  /** The members of one model, in order. */
  function OfModel(ms: seq<Member>, model: string): (r: seq<Member>)
    ensures forall m :: m in r ==> m in ms && m.ep.model == model
    ensures forall m :: m in ms && m.ep.model == model ==> m in r
    ensures NoDuplicates(ms) ==> NoDuplicates(r)
  {
    if ms == [] then [] else
      var n := |ms| - 1;
      var r := OfModel(ms[..n], model);
      assert ms == ms[..n] + [ms[n]];
      if ms[n].ep.model == model then r + [ms[n]] else r
  }

  ghost predicate ModelIndex(index: map<string, seq<Member>>, ms: seq<Member>) {
    forall model :: (model in index <==> OfModel(ms, model) != []) && (model in index ==> index[model] == OfModel(ms, model))
  }

  /** m is the last of ms with its ID. */
  ghost predicate LastWithID(ms: seq<Member>, m: Member) {
    exists i :: 0 <= i < |ms| && ms[i] == m && forall j :: i < j < |ms| ==> ms[j].ep.id != m.ep.id
  }

  ghost predicate IDIndex(index: map<string, Member>, ms: seq<Member>) {
    && (forall m :: m in ms ==> m.ep.id in index)
    && (forall id :: id in index ==> index[id].ep.id == id && LastWithID(ms, index[id]))
  }

  /** What a member keeps when its pool is replaced. */
  datatype Standing = Standing(breaker: Breaker, health: Health, current: int, latency: int)

  ghost function StandingOf(m: Member): Standing
    reads m
  {
    Standing(m.breaker, m.health, m.current, m.latency)
  }

  /** m continues the member known under its ID, or starts afresh. */
  ghost predicate CarriesOn(m: Member, known: map<string, Standing>)
    reads m, m.breaker
  {
    if m.ep.id in known then StandingOf(m) == known[m.ep.id]
    else m.breaker.View() == FRESH && StandingOf(m) == Standing(m.breaker, Healthy, 0, 0)
  }

  ghost predicate Usable(cfg: Config, ms: seq<Member>) {
    forall m :: m in ms ==> m.ep.weight >= 1 && m.breaker.cfg == cfg
  }

  lemma IndexesAppend(cfg: Config, ms: seq<Member>, m: Member)
    requires Usable(cfg, ms) && m.ep.weight >= 1 && m.breaker.cfg == cfg
    ensures Usable(cfg, ms + [m])
    ensures var index, model := ByModel(ms), m.ep.model;
            ByModel(ms + [m]) == index[model := (if model in index then index[model] else []) + [m]]
    ensures ByID(ms + [m]) == ByID(ms)[m.ep.id := m]
  {
    assert (ms + [m])[..|ms|] == ms;
  }

  /** The index by model that the loop of Replace leaves. */
  function ByModel(ms: seq<Member>): map<string, seq<Member>> {
    if ms == [] then map[] else
      var index, m := ByModel(ms[..|ms| - 1]), ms[|ms| - 1];
      index[m.ep.model := (if m.ep.model in index then index[m.ep.model] else []) + [m]]
  }

  /** The index by ID that the loop of Replace leaves. */
  function ByID(ms: seq<Member>): map<string, Member> {
    if ms == [] then map[] else
      ByID(ms[..|ms| - 1])[ms[|ms| - 1].ep.id := ms[|ms| - 1]]
  }

  /** Each model's list holds its members in input order; an ID leads to the last member that has it. */
  lemma {:induction false} IndexMeaning(ms: seq<Member>)
    ensures ModelIndex(ByModel(ms), ms)
    ensures IDIndex(ByID(ms), ms)
  {
    if ms != [] {
      var init, m := ms[..|ms| - 1], ms[|ms| - 1];
      IndexMeaning(init);
      IDIndexAppend(ByID(init), init, m);
      assert ms == init + [m];
    }
  }

  lemma IndexesWellFormed(cfg: Config, ms: seq<Member>, es: seq<Endpoint>)
    requires Mirrors(ms, es) && Usable(cfg, ms)
    ensures WellFormed(cfg, ByModel(ms), ByID(ms))
  {
    IndexMeaning(ms);
    var byModel, byID := ByModel(ms), ByID(ms);
    forall id | id in byID ensures byID[id].ep.model in byModel && byID[id] in byModel[byID[id].ep.model] {
      assert LastWithID(ms, byID[id]);
      assert byID[id] in OfModel(ms, byID[id].ep.model);
    }
  }

  lemma IDIndexAppend(index: map<string, Member>, ms: seq<Member>, m: Member)
    requires IDIndex(index, ms)
    ensures IDIndex(index[m.ep.id := m], ms + [m])
  {
    var index' := index[m.ep.id := m];
    forall id | id in index' ensures LastWithID(ms + [m], index'[id]) {
      if id == m.ep.id {
        assert (ms + [m])[|ms|] == m;
      } else {
        var i :| 0 <= i < |ms| && ms[i] == index[id] && forall j :: i < j < |ms| ==> ms[j].ep.id != index[id].ep.id;
        assert (ms + [m])[i] == index[id];
      }
    }
  }

  /** jdx is an increasing selection from the first k of idx. */
  ghost predicate Kept(idx: seq<nat>, k: nat, jdx: seq<nat>)
    requires k <= |idx|
  {
    && (forall i :: 0 <= i < |jdx| ==> jdx[i] in idx[..k])
    && (forall i, j :: 0 <= i < j < |jdx| ==> jdx[i] < jdx[j])
  }

  lemma NothingKept(ms: seq<Member>, idx: seq<nat>)
    requires Positions(idx, |ms|)
    ensures Kept(idx, 0, []) && Positions([], |ms|) && Gather(ms, []) == []
  {
  }

  /** The next of idx may be kept or not. */
  lemma KeepNext(ms: seq<Member>, idx: seq<nat>, k: nat, jdx: seq<nat>)
    requires Positions(idx, |ms|) && k < |idx| && Kept(idx, k, jdx) && Positions(jdx, |ms|)
    ensures Gather(ms, idx)[k] == ms[idx[k]] && ms[idx[k]] in ms
    ensures Kept(idx, k + 1, jdx) && Kept(idx, k + 1, jdx + [idx[k]]) && Positions(jdx + [idx[k]], |ms|)
    ensures Gather(ms, jdx + [idx[k]]) == Gather(ms, jdx) + [ms[idx[k]]]
  {
  }

  lemma KeptPositions(ms: seq<Member>, idx: seq<nat>, jdx: seq<nat>)
    requires Positions(idx, |ms|) && Kept(idx, |idx|, jdx)
    ensures Positions(jdx, |ms|)
  {
  }
}
