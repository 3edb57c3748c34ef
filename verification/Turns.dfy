/**
  One weighted round robin turn among some positions of a longer list: the
  router runs the step on the candidates that survive its filters, while the
  credits of the skipped members stay as they are.
 */
module Turns {
  import opened Sums
  import opened WeightedRoundRobin

  /** Strictly increasing positions of a list of length n. */
  ghost predicate Positions(idx: seq<nat>, n: nat) {
    && (forall k :: 0 <= k < |idx| ==> idx[k] < n)
    && (forall j, k :: 0 <= j < k < |idx| ==> idx[j] < idx[k])
  }

  ghost function Gather<T>(s: seq<T>, idx: seq<nat>): (g: seq<T>)
    requires Positions(idx, |s|)
    ensures |g| == |idx|
    ensures forall k :: 0 <= k < |idx| ==> g[k] == s[idx[k]]
  {
    seq(|idx|, k requires 0 <= k < |idx| => s[idx[k]])
  }

  /** Gathering from a prefix that grows by one element. */
  lemma GatherAppend<T>(s: seq<T>, i: nat, idx: seq<nat>)
    requires i < |s| && Positions(idx, i)
    ensures Gather(s[..i + 1], idx) == Gather(s[..i], idx)
    ensures Positions(idx + [i], i + 1)
    ensures Gather(s[..i + 1], idx + [i]) == Gather(s[..i], idx) + [s[i]]
  {
  }

  /** The positions below n at which q holds. */
  ghost function WhereTo(q: seq<bool>, n: nat): (idx: seq<nat>)
    requires n <= |q|
    ensures Positions(idx, n)
    ensures forall i: nat :: i < n ==> (i in idx <==> q[i])
  {
    if n == 0 then [] else
      var idx := WhereTo(q, n - 1);
      if q[n - 1] then idx + [n - 1] else idx
  }

  ghost function Where(q: seq<bool>): (idx: seq<nat>)
    ensures Positions(idx, |q|)
    ensures forall i: nat :: i < |q| ==> (i in idx <==> q[i])
  {
    WhereTo(q, |q|)
  }

  lemma {:induction false} WhereSamePrefix(q: seq<bool>, q': seq<bool>, n: nat)
    requires n <= |q| && n <= |q'| && forall i :: 0 <= i < n ==> q[i] == q'[i]
    ensures WhereTo(q, n) == WhereTo(q', n)
  {
    if n > 0 {
      WhereSamePrefix(q, q', n - 1);
    }
  }

  lemma WhereAppend(q: seq<bool>, b: bool)
    ensures Where(q + [b]) == if b then Where(q) + [|q|] else Where(q)
  {
    WhereSamePrefix(q + [b], q, |q|);
  }

  /** The credits with the weights of the first n chosen positions added. */
  ghost function BumpTo(w: seq<int>, c: seq<int>, idx: seq<nat>, n: nat): (s: seq<int>)
    requires |w| == |c| && Positions(idx, |c|) && n <= |idx|
    ensures |s| == |c|
    ensures forall k :: 0 <= k < n ==> s[idx[k]] == c[idx[k]] + w[idx[k]]
    ensures forall k :: n <= k < |idx| ==> s[idx[k]] == c[idx[k]]
    ensures forall i: nat :: i < |c| && i !in idx ==> s[i] == c[i]
  {
    if n == 0 then c else
      var s := BumpTo(w, c, idx, n - 1);
      s[idx[n - 1] := s[idx[n - 1]] + w[idx[n - 1]]]
  }

  /** The position a turn takes. */
  ghost function Winner(w: seq<int>, c: seq<int>, idx: seq<nat>): (b: nat)
    requires |w| == |c| && Positions(idx, |c|) && idx != []
    ensures b in idx && b < |c|
    ensures forall i :: i in idx ==> c[i] + w[i] <= c[b] + w[b]
    ensures forall i :: i in idx && i < b ==> c[i] + w[i] < c[b] + w[b]
  {
    var s := Bump(Gather(w, idx), Gather(c, idx));
    var k := FirstMax(s);
    assert forall j :: 0 <= j < |idx| ==> s[j] == c[idx[j]] + w[idx[j]];
    assert forall j :: 0 <= j < |idx| && idx[j] < idx[k] ==> j < k;
    idx[k]
  }

  ghost function Turn(w: seq<int>, c: seq<int>, idx: seq<nat>): (c': seq<int>)
    requires |w| == |c| && Positions(idx, |c|)
    ensures |c'| == |c|
  {
    if idx == [] then c else
      Pay(BumpTo(w, c, idx, |idx|), Winner(w, c, idx), Sum(Gather(w, idx)))
  }

  ghost function Pay(s: seq<int>, b: nat, cost: int): (s': seq<int>)
    requires b < |s|
    ensures |s'| == |s| && Sum(s') == Sum(s) - cost
  {
    SumUpdate(s, b, s[b] - cost);
    s[b := s[b] - cost]
  }

  lemma {:induction false} BumpAddsWeights(w: seq<int>, c: seq<int>, idx: seq<nat>, n: nat)
    requires |w| == |c| && Positions(idx, |c|) && n <= |idx|
    ensures Sum(BumpTo(w, c, idx, n)) == Sum(c) + SumTo(Gather(w, idx), n)
  {
    hide Sum;
    if n > 0 {
      var s := BumpTo(w, c, idx, n - 1);
      BumpAddsWeights(w, c, idx, n - 1);
      SumUpdate(s, idx[n - 1], s[idx[n - 1]] + w[idx[n - 1]]);
    }
  }

  /** Whatever candidates take part, a turn moves credit around and never creates or destroys any. */
  lemma TurnKeepsSum(w: seq<int>, c: seq<int>, idx: seq<nat>)
    requires |w| == |c| && Positions(idx, |c|)
    ensures Sum(Turn(w, c, idx)) == Sum(c)
  {
    if idx != [] {
      BumpAddsWeights(w, c, idx, |idx|);
    }
  }

  ghost function All(n: nat): (idx: seq<nat>)
    ensures Positions(idx, n) && |idx| == n
    ensures forall i :: 0 <= i < n ==> idx[i] == i
  {
    seq(n, i => i)
  }

  lemma GatherAll<T>(s: seq<T>)
    ensures Gather(s, All(|s|)) == s
  {
  }

  /** With every position a candidate, a turn is the round robin step. */
  lemma TurnOfAll(w: seq<int>, c: seq<int>)
    requires |w| == |c| > 0
    ensures Turn(w, c, All(|c|)) == Step(w, c)
    ensures Winner(w, c, All(|c|)) == Choice(w, c)
  {
    hide Gather, All, BumpTo, Sum, FirstMax;
    var idx := All(|c|);
    GatherAll(w);
    GatherAll(c);
    forall i | 0 <= i < |c| ensures BumpTo(w, c, idx, |idx|)[i] == Bump(w, c)[i] {
      assert BumpTo(w, c, idx, |idx|)[idx[i]] == c[i] + w[i];
    }
    assert BumpTo(w, c, idx, |idx|) == Bump(w, c);
  }

  /** A step on the candidates alone, the others left as they are, is a turn. */
  lemma StepAmongIsTurn(w: seq<int>, c: seq<int>, c': seq<int>, idx: seq<nat>)
    requires |w| == |c| == |c'| && Positions(idx, |c|) && idx != []
    requires Gather(c', idx) == Step(Gather(w, idx), Gather(c, idx))
    requires forall i: nat :: i < |c| && i !in idx ==> c'[i] == c[i]
    ensures c' == Turn(w, c, idx)
    ensures idx[Choice(Gather(w, idx), Gather(c, idx))] == Winner(w, c, idx)
  {
    var gw, gc := Gather(w, idx), Gather(c, idx);
    var k := Choice(gw, gc);
    forall i: nat | i < |c| ensures c'[i] == Turn(w, c, idx)[i] {
      if i in idx {
        var j :| 0 <= j < |idx| && idx[j] == i;
        assert c'[i] == Step(gw, gc)[j];
        assert j != k ==> idx[j] != idx[k];
      }
    }
  }

  /** The credits after the first n of a run of turns. */
  ghost function RunTurns(w: seq<int>, c: seq<int>, turns: seq<seq<nat>>, n: nat): (c': seq<int>)
    requires |w| == |c| && n <= |turns|
    requires forall t :: 0 <= t < |turns| ==> Positions(turns[t], |c|)
    ensures |c'| == |c|
  {
    if n == 0 then c else Turn(w, RunTurns(w, c, turns, n - 1), turns[n - 1])
  }

  /** Over any run of turns, whatever the candidate sets, the total credit stays. */
  lemma {:induction false} CreditConserved(w: seq<int>, c: seq<int>, turns: seq<seq<nat>>, n: nat)
    requires |w| == |c| && n <= |turns|
    requires forall t :: 0 <= t < |turns| ==> Positions(turns[t], |c|)
    ensures Sum(RunTurns(w, c, turns, n)) == Sum(c)
  {
    hide Sum, Turn, Positions;
    if n > 0 {
      CreditConserved(w, c, turns, n - 1);
      TurnKeepsSum(w, RunTurns(w, c, turns, n - 1), turns[n - 1]);
    }
  }
}
