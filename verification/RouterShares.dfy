/** What a run of Picks hands out while every member of a model qualifies. */
module RouterShares {
  import opened Collections
  import opened Sums
  import opened WeightedRoundRobin
  import opened Turns
  import opened EndpointPool

  ghost predicate AllTrue(q: seq<bool>) {
    forall i :: 0 <= i < |q| ==> q[i]
  }

  lemma AllNext(n: nat)
    requires n > 0
    ensures All(n) == All(n - 1) + [n - 1]
  {
  }

  lemma {:induction false} WhereAllTrue(q: seq<bool>, n: nat)
    requires n <= |q| && AllTrue(q)
    ensures WhereTo(q, n) == All(n)
  {
    hide All, Positions;
    if n == 0 {
      NoneTrue(q);
    } else {
      WhereAllTrue(q, n - 1);
      AllNext(n);
    }
  }

  lemma NoneTrue(q: seq<bool>)
    ensures WhereTo(q, 0) == All(0)
  {
  }

  /** When every member qualifies, one Pick is one weighted round robin step. */
  lemma FullTurnIsStep(ms: seq<Member>, c: seq<int>, c': seq<int>, q: seq<bool>, chosen: Member?)
    requires Elects(ms, c, c', q, chosen) && AllTrue(q) && ms != []
    ensures c' == Step(WeightsOf(ms), c)
    ensures chosen == ms[Choice(WeightsOf(ms), c)]
  {
    WhereAllTrue(q, |q|);
    TurnOfAll(WeightsOf(ms), c);
    assert Where(q)[0] == 0;
  }

  /** credits[j] before and credits[j + 1] after the j-th Pick, which found every member qualified. */
  ghost predicate PickRun(ms: seq<Member>, credits: seq<seq<int>>, chosen: seq<Member?>, qs: seq<seq<bool>>) {
    && |credits| == |chosen| + 1 && |qs| == |chosen|
    && credits[0] == Zeros(|ms|)
    && forall j :: 0 <= j < |chosen| ==> AllTrue(qs[j]) && Elects(ms, credits[j], credits[j + 1], qs[j], chosen[j])
  }

  /** How many of the first k Picks returned m. */
  ghost function Served(chosen: seq<Member?>, m: Member, k: nat): nat
    requires k <= |chosen|
  {
    if k == 0 then 0 else Served(chosen, m, k - 1) + if chosen[k - 1] == m then 1 else 0
  }

  lemma {:induction false} PickRunFollowsRun(ms: seq<Member>, credits: seq<seq<int>>, chosen: seq<Member?>,
                                             qs: seq<seq<bool>>, k: nat, i: nat)
    requires PickRun(ms, credits, chosen, qs) && NoDuplicates(ms) && i < |ms| && k <= |chosen|
    ensures credits[k] == Run(WeightsOf(ms), Zeros(|ms|), k)
    ensures Served(chosen, ms[i], k) == Picks(WeightsOf(ms), Zeros(|ms|), k, i)
  {
    hide Step, Elects, WeightsOf, Choice, NoDuplicates;
    if k > 0 {
      PickRunFollowsRun(ms, credits, chosen, qs, k - 1, i);
      FullTurnIsStep(ms, credits[k - 1], credits[k], qs[k - 1], chosen[k - 1]);
      SameMember(ms, Choice(WeightsOf(ms), credits[k - 1]), i);
    }
  }

  lemma SameMember(ms: seq<Member>, a: nat, b: nat)
    requires NoDuplicates(ms) && a < |ms| && b < |ms|
    ensures ms[a] == ms[b] <==> a == b
  {
  }

  /**
    Any total-weight consecutive Picks of such a run return each member
    exactly as often as its weight says.
   */
  lemma PicksHonourWeights(ms: seq<Member>, credits: seq<seq<int>>, chosen: seq<Member?>, qs: seq<seq<bool>>,
                           start: nat, i: nat)
    requires PickRun(ms, credits, chosen, qs) && NoDuplicates(ms) && i < |ms|
    requires Weights(WeightsOf(ms)) && start + Total(WeightsOf(ms)) <= |chosen|
    ensures Served(chosen, ms[i], start + Total(WeightsOf(ms))) - Served(chosen, ms[i], start) == ms[i].ep.weight
  {
    hide PickRun, NoDuplicates, Picks, Served, Run, Sum;
    PickRunFollowsRun(ms, credits, chosen, qs, start, i);
    PickRunFollowsRun(ms, credits, chosen, qs, start + Total(WeightsOf(ms)), i);
    ExactShares(WeightsOf(ms), start, i);
  }

  lemma FoundAmong(made: seq<Member>, model: string, k: nat) returns (i: nat)
    requires k < |made| && made[k].ep.model == model
    ensures i < |OfModel(made, model)| && OfModel(made, model)[i] == made[k]
  {
    assert made[k] in OfModel(made, model);
    i :| 0 <= i < |OfModel(made, model)| && OfModel(made, model)[i] == made[k];
  }

  /**
    The same for the members made from a list of endpoints: an endpoint gets
    its configured weight in Picks, or one if it has none.
   */
  lemma ConfiguredShares(es: seq<Endpoint>, made: seq<Member>, credits: seq<seq<int>>, chosen: seq<Member?>, qs: seq<seq<bool>>,
                         start: nat, cycle: nat, k: nat)
    requires (forall e :: e in es ==> Complete(e)) && Mirrors(made, es) && k < |es|
    requires PickRun(OfModel(made, es[k].model), credits, chosen, qs)
    requires cycle == Sum(WeightsOf(OfModel(made, es[k].model))) && start + cycle <= |chosen|
    ensures Served(chosen, made[k], start + cycle) - Served(chosen, made[k], start) == if es[k].weight > 0 then es[k].weight else 1
  {
    hide PickRun, Served, Sum;
    MirrorsConfiguration(made, es);
    assert AsConfigured(made[k].ep, es[k]);
    var ms := OfModel(made, es[k].model);
    var i := FoundAmong(made, es[k].model, k);
    forall j | 0 <= j < |ms| ensures WeightsOf(ms)[j] >= 1 {
      assert ms[j] in made;
    }
    PicksHonourWeights(ms, credits, chosen, qs, start, i);
  }
}
