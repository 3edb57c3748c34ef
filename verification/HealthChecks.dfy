/** The failure streaks of the health checker (internal/health/checker.go) and the health they set. */
module HealthChecks {
  import opened Collections
  import opened EndpointPool

  const FAILS := 2

  class Checker {
    const pool: Pool
    var streak: map<string, nat>

    constructor (pool: Pool)
      ensures this.pool == pool && streak == map[]
    {
      this.pool, streak := pool, map[];
    }

    function Streak(id: string): nat
      reads this
    {
      if id in streak then streak[id] else 0
    }

    method Mark(id: string, ok: bool)
      modifies this`streak, if id in pool.byID then {pool.byID[id]} else {}
      ensures Streak(id) == NextStreak(old(Streak(id)), ok)
      ensures forall other :: other != id ==> Streak(other) == old(Streak(other))
      ensures id in pool.byID ==>
        var m := pool.byID[id];
        m.health == NextHealth(old(m.health), old(Streak(id)), ok) && m.current == old(m.current) && m.latency == old(m.latency)
    {
      if ok {
        streak := streak[id := 0];
        pool.SetHealth(id, Healthy);
        return;
      }
      streak := streak[id := (if id in streak then streak[id] else 0) + 1];
      if streak[id] >= FAILS {
        pool.SetHealth(id, Unhealthy);
      }
    }

    /** The streak and health of each listed endpoint. */
    ghost function Marks(ids: seq<string>): (marks: seq<(nat, Health)>)
      requires forall id :: id in ids ==> id in pool.byID
      reads this, pool, set id | id in ids && id in pool.byID :: pool.byID[id]
      ensures |marks| == |ids| && forall i :: 0 <= i < |ids| ==> marks[i] == (Streak(ids[i]), pool.byID[ids[i]].health)
    {
      seq(|ids|, i requires 0 <= i < |ids| && ids[i] in pool.byID reads this, pool, set id | id in ids && id in pool.byID :: pool.byID[id] =>
        (Streak(ids[i]), pool.byID[ids[i]].health))
    }

    /** Mark one of several endpoints. */
    method MarkAt(ids: seq<string>, k: nat, ok: bool)
      requires pool.Valid() && NoDuplicates(ids) && k < |ids| && forall id :: id in ids ==> id in pool.byID
      modifies this`streak, pool.byID[ids[k]]
      ensures Marks(ids) == old(Marks(ids))[k := Marked(old(Marks(ids))[k], ok)]
      ensures forall id :: id != ids[k] ==> Streak(id) == old(Streak(id))
    {
      MembersApart(pool, ids);
      ghost var before := Marks(ids);
      Mark(ids[k], ok);
      forall i | 0 <= i < |ids| ensures Marks(ids)[i] == before[k := Marked(before[k], ok)][i] {
        assert i != k ==> ids[i] != ids[k] && pool.byID[ids[i]] != pool.byID[ids[k]];
      }
    }

    /** One round over the pool's endpoints: each moves by its own probe alone. */
    method CheckAll(ids: seq<string>, probes: seq<bool>)
      requires pool.Valid() && |ids| == |probes| && NoDuplicates(ids) && forall id :: id in ids ==> id in pool.byID
      modifies this`streak, set id | id in ids && id in pool.byID :: pool.byID[id]
      ensures forall i :: 0 <= i < |ids| ==> Marks(ids)[i] == Marked(old(Marks(ids))[i], probes[i])
      ensures forall id :: id !in ids ==> Streak(id) == old(Streak(id))
    {
      hide Marks, Marked, NoDuplicates, Streak;
      ghost var before := Marks(ids);
      for k := 0 to |ids|
        invariant |Marks(ids)| == |ids|
        invariant forall i :: 0 <= i < k ==> Marks(ids)[i] == Marked(before[i], probes[i])
        invariant forall i :: k <= i < |ids| ==> Marks(ids)[i] == before[i]
        invariant forall id :: id !in ids ==> Streak(id) == old(Streak(id))
      {
        MarkAt(ids, k, probes[k]);
      }
    }
  }

  function Marked(mark: (nat, Health), ok: bool): (nat, Health) {
    (NextStreak(mark.0, ok), NextHealth(mark.1, mark.0, ok))
  }

  lemma MembersApart(pool: Pool, ids: seq<string>)
    requires pool.Valid() && NoDuplicates(ids) && forall id :: id in ids ==> id in pool.byID
    ensures forall i, j :: 0 <= i < j < |ids| ==> ids[i] != ids[j] && pool.byID[ids[i]] != pool.byID[ids[j]]
  {
    forall i, j | 0 <= i < j < |ids| ensures ids[i] != ids[j] && pool.byID[ids[i]] != pool.byID[ids[j]] {
      assert pool.byID[ids[i]].ep.id == ids[i] && pool.byID[ids[j]].ep.id == ids[j];
    }
  }

  function NextStreak(streak: nat, ok: bool): nat {
    if ok then 0 else streak + 1
  }

  function NextHealth(h: Health, streak: nat, ok: bool): Health {
    if ok then Healthy else if streak + 1 >= FAILS then Unhealthy else h
  }

  /** An endpoint's streak and health after n checks. */
  function After(streak: nat, h: Health, outcomes: seq<bool>, n: nat): (nat, Health)
    requires n <= |outcomes|
  {
    if n == 0 then (streak, h) else Marked(After(streak, h, outcomes, n - 1), outcomes[n - 1])
  }

  /** The streak counts the failures since the last good check. */
  lemma {:induction false} StreakCountsTrailingFailures(h: Health, outcomes: seq<bool>, n: nat)
    requires n <= |outcomes|
    ensures var s := After(0, h, outcomes, n).0;
            s <= n && (forall i :: n - s <= i < n ==> !outcomes[i]) && (s < n ==> outcomes[n - s - 1])
  {
    if n > 0 {
      StreakCountsTrailingFailures(h, outcomes, n - 1);
    }
  }

  /** An endpoint that starts healthy is unhealthy exactly when its last two checks failed. */
  lemma {:induction false} UnhealthyIffLastTwoFailed(outcomes: seq<bool>, n: nat)
    requires n <= |outcomes|
    ensures After(0, Healthy, outcomes, n).1 == Unhealthy <==> n >= 2 && !outcomes[n - 1] && !outcomes[n - 2]
  {
    if n > 0 {
      UnhealthyIffLastTwoFailed(outcomes, n - 1);
      StreakCountsTrailingFailures(Healthy, outcomes, n - 1);
    }
  }
}
