/**
  Smooth weighted round robin (internal/endpoint/wrr.go) on values.
  A state is the list of `current` credits of a fixed candidate list with
  weights w. One step adds every weight to its credit, takes the first
  candidate with the largest credit, and charges that one the total weight.
 */
module WeightedRoundRobin {
  import opened Sums

  predicate Weights(w: seq<int>) {
    |w| > 0 && forall i :: 0 <= i < |w| ==> w[i] >= 1
  }

  function Bump(w: seq<int>, c: seq<int>): (s: seq<int>)
    requires |w| == |c|
  {
    seq(|c|, i requires 0 <= i < |c| => c[i] + w[i])
  }

  /** b holds the first largest of the first n elements of s. */
  ghost predicate Leads(s: seq<int>, b: int, n: nat)
    requires n <= |s|
  {
    && 0 <= b < n
    && (forall j :: 0 <= j < n ==> s[j] <= s[b])
    && (forall j :: 0 <= j < b ==> s[j] < s[b])
  }

  function FirstMaxTo(s: seq<int>, n: nat): (b: nat)
    requires 0 < n <= |s|
    ensures Leads(s, b, n)
  {
    if n == 1 then 0 else
      var b := FirstMaxTo(s, n - 1);
      if s[n - 1] > s[b] then n - 1 else b
  }

  function FirstMax(s: seq<int>): (b: nat)
    requires |s| > 0
    ensures Leads(s, b, |s|)
  {
    FirstMaxTo(s, |s|)
  }

  function Choice(w: seq<int>, c: seq<int>): (b: nat)
    requires |w| == |c| > 0
    ensures b < |c|
  {
    FirstMax(Bump(w, c))
  }

  function Step(w: seq<int>, c: seq<int>): (c': seq<int>)
    requires |w| == |c| > 0
  {
    var s := Bump(w, c);
    var b := FirstMax(s);
    s[b := s[b] - Sum(w)]
  }

  /** The credits after k steps from c. */
  function Run(w: seq<int>, c: seq<int>, k: nat): (r: seq<int>)
    requires |w| == |c| > 0
    ensures |r| == |c|
  {
    if k == 0 then c else Step(w, Run(w, c, k - 1))
  }

  /** How often candidate i was taken in the first k steps from c. */
  function Picks(w: seq<int>, c: seq<int>, k: nat, i: nat): nat
    requires |w| == |c| > 0
  {
    if k == 0 then 0
    else Picks(w, c, k - 1, i) + if Choice(w, Run(w, c, k - 1)) == i then 1 else 0
  }

  function Zeros(n: nat): (z: seq<int>)
    ensures |z| == n && forall i :: 0 <= i < n ==> z[i] == 0
  {
    seq(n, _ => 0)
  }

  /** The total the loop accumulates. */
  function Total(w: seq<int>): (t: nat)
    requires Weights(w)
    ensures t == Sum(w) && |w| <= t
  {
    SumLowerBound(w, 1, |w|);
    Sum(w)
  }

  lemma BumpAddsTotal(w: seq<int>, c: seq<int>)
    requires |w| == |c|
    ensures Sum(Bump(w, c)) == Sum(c) + Sum(w)
  {
    SumPointwise(c, w, Bump(w, c), |c|);
  }

  /** A step keeps the sum of credits. */
  lemma StepKeepsSum(w: seq<int>, c: seq<int>)
    requires |w| == |c| > 0
    ensures Sum(Step(w, c)) == Sum(c)
  {
    var s, b := Bump(w, c), Choice(w, c);
    BumpAddsTotal(w, c);
    SumUpdate(s, b, s[b] - Sum(w));
    assert Step(w, c) == s[b := s[b] - Sum(w)];
  }

  lemma StepAt(w: seq<int>, c: seq<int>, i: nat)
    requires |w| == |c| && i < |w|
    ensures Step(w, c)[i] == c[i] + w[i] - if Choice(w, c) == i then Sum(w) else 0
  {
  }

  lemma LedgerArithmetic(c: int, a: int, t: int, k: int, p: int)
    ensures c + (k - 1) * a - p * t + a == c + k * a - p * t
    ensures c + (k - 1) * a - p * t + a - t == c + k * a - (p + 1) * t
  {
  }

  /** Every credit is what it earned minus what its picks cost. */
  lemma {:induction false} CreditLaw(w: seq<int>, c: seq<int>, k: nat, i: nat)
    requires |w| == |c| > 0 && i < |w|
    ensures Run(w, c, k)[i] == c[i] + k * w[i] - Picks(w, c, k, i) * Sum(w)
  {
    hide Step, Choice, Sum;
    if k > 0 {
      CreditLaw(w, c, k - 1, i);
      StepAt(w, Run(w, c, k - 1), i);
      LedgerArithmetic(c[i], w[i], Sum(w), k, Picks(w, c, k - 1, i));
    }
  }

  lemma CreditFromZero(w: seq<int>, k: nat, i: nat)
    requires Weights(w) && i < |w|
    ensures Run(w, Zeros(|w|), k)[i] == k * w[i] - Picks(w, Zeros(|w|), k, i) * Total(w)
  {
    CreditLaw(w, Zeros(|w|), k, i);
  }

  /** The states a run from zero can be in: credits cancel and none is as low as minus the total. */
  ghost predicate Balanced(w: seq<int>, c: seq<int>) {
    && |w| == |c|
    && Sum(c) == 0
    && forall i :: 0 <= i < |c| ==> c[i] > -Sum(w)
  }

  lemma StepKeepsBalance(w: seq<int>, c: seq<int>)
    requires Weights(w) && Balanced(w, c)
    ensures Balanced(w, Step(w, c))
  {
    StepKeepsSum(w, c);
    var s := Bump(w, c);
    BumpAddsTotal(w, c);
    var b := FirstMax(s);
    // The bumped credits sum to the total, so the largest is positive.
    if s[b] <= 0 {
      SumUpperBound(s, 0, |s|);
      assert false;
    }
  }

  lemma {:induction false} RunIsBalanced(w: seq<int>, k: nat)
    requires Weights(w)
    ensures Balanced(w, Run(w, Zeros(|w|), k))
  {
    if k == 0 {
      assert Total(w) > 0;
      SumLowerBound(Zeros(|w|), 0, |w|);
      SumUpperBound(Zeros(|w|), 0, |w|);
    } else {
      RunIsBalanced(w, k - 1);
      StepKeepsBalance(w, Run(w, Zeros(|w|), k - 1));
    }
  }

  /** Credits stay within fixed bounds, whatever the number of steps. */
  lemma CreditBounds(w: seq<int>, k: nat, i: nat)
    requires Weights(w) && i < |w|
    ensures -Sum(w) < Run(w, Zeros(|w|), k)[i] <= (|w| - 1) * (Sum(w) - 1)
  {
    RunIsBalanced(w, k);
    var c := Run(w, Zeros(|w|), k);
    SumCapsElement(c, i, 1 - Sum(w));
    assert (|w| - 1) * (1 - Sum(w)) == -((|w| - 1) * (Sum(w) - 1));
  }

  /**
    No intermediate value leaves [-n*total, n*total], so fixed-width integers
    behave as unbounded ones as soon as n*total is representable.
   */
  lemma NoOverflow(w: seq<int>, k: nat, i: nat)
    requires Weights(w) && i < |w|
    ensures var n, c := |w|, Run(w, Zeros(|w|), k);
            && -(n * Total(w)) <= c[i] <= n * Total(w)
            && -(n * Total(w)) <= Bump(w, c)[i] <= n * Total(w)
  {
    CreditBounds(w, k, i);
    SumCapsElement(w, i, 1);
    RangeArithmetic(|w|, Total(w));
  }

  lemma RangeArithmetic(n: int, t: int)
    requires 1 <= n <= t
    ensures (n - 1) * (t - 1) + t <= n * t
    ensures t <= n * t
  {
    assert n * t == (n - 1) * t + t;
    assert (n - 1) * t == (n - 1) * (t - 1) + (n - 1);
    assert 0 <= (n - 1) * t;
  }

  /** Earned minus spent after t steps is a multiple of t; above -t it is not negative. */
  lemma NoDebtAfterCycle(credit: int, t: int, a: int, p: int)
    requires t > 0
    requires credit == t * a - p * t
    requires credit > -t
    ensures credit >= 0
  {
    assert credit == t * (a - p);
    Product(t, a - p);
  }

  lemma Product(t: int, m: int)
    requires t > 0
    ensures if m >= 0 then t * m >= 0 else t * m <= -t
  {
    if m < 0 {
      assert t * (-1 - m) >= 0;
    }
  }

  /** From zero, total-many steps take every candidate exactly weight-many times and restore zero. */
  lemma CycleReturnsToZero(w: seq<int>)
    requires Weights(w)
    ensures Run(w, Zeros(|w|), Total(w)) == Zeros(|w|)
  {
    var z, t := Zeros(|w|), Total(w);
    var c := Run(w, z, t);
    RunIsBalanced(w, t);
    forall i | 0 <= i < |w| ensures c[i] >= 0 {
      CreditFromZero(w, t, i);
      NoDebtAfterCycle(c[i], t, w[i], Picks(w, z, t, i));
    }
    forall i | 0 <= i < |w| ensures c[i] == 0 {
      SumCapsElement(c, i, 0);
    }
  }

  lemma {:induction false} RunSplits(w: seq<int>, c: seq<int>, j: nat, k: nat)
    requires |w| == |c| > 0
    ensures Run(w, c, j + k) == Run(w, Run(w, c, j), k)
  {
    hide Step;
    if k > 0 {
      RunSplits(w, c, j, k - 1);
    }
  }

  /** The state repeats with period total. */
  lemma PeriodIsTotal(w: seq<int>, k: nat)
    requires Weights(w)
    ensures Run(w, Zeros(|w|), k + Total(w)) == Run(w, Zeros(|w|), k)
  {
    RunSplits(w, Zeros(|w|), Total(w), k);
    CycleReturnsToZero(w);
  }

  lemma PicksFromEqualCredit(t: int, a: int, credit: int, start: int, before: int, after: int)
    requires t > 0
    requires start * a - before * t == credit == (start + t) * a - after * t
    ensures after - before == a
  {
    var d := a - (after - before);
    assert t * d == t * a - after * t + before * t;
    assert (start + t) * a == start * a + t * a;
    assert t * d == 0;
  }

  /** Every window of total-weight consecutive steps, aligned or not, takes i exactly w[i] times. */
  lemma ExactShares(w: seq<int>, start: nat, i: nat)
    requires Weights(w) && i < |w|
    ensures Picks(w, Zeros(|w|), start + Total(w), i) - Picks(w, Zeros(|w|), start, i) == w[i]
  {
    hide Run, Picks;
    var z, t := Zeros(|w|), Total(w);
    PeriodIsTotal(w, start);
    CreditFromZero(w, start, i);
    CreditFromZero(w, start + t, i);
    PicksFromEqualCredit(t, w[i], Run(w, z, start)[i], start, Picks(w, z, start, i), Picks(w, z, start + t, i));
  }

  /** After k steps i has fewer than k*w[i]/total + 1 picks, and lags its share by a fixed amount at most. */
  lemma PrefixFairness(w: seq<int>, k: nat, i: nat)
    requires Weights(w) && i < |w|
    ensures Picks(w, Zeros(|w|), k, i) * Total(w) < k * w[i] + Total(w)
    ensures Picks(w, Zeros(|w|), k, i) * Total(w) >= k * w[i] - (|w| - 1) * (Total(w) - 1)
  {
    CreditFromZero(w, k, i);
    CreditBounds(w, k, i);
  }
}
