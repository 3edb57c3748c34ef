/** Sums over sequences of integers, taken from the left as the gateway's loops take them. */
module Sums {
  import opened Collections

  /** The sum of the first n elements. */
  function SumTo(s: seq<int>, n: nat): int
    requires n <= |s|
  {
    if n == 0 then 0 else SumTo(s, n - 1) + s[n - 1]
  }

  function Sum(s: seq<int>): int {
    SumTo(s, |s|)
  }

  /** Replacing one element moves the sum by the difference. */
  lemma {:induction false} SumUpdateTo(s: seq<int>, i: nat, v: int, n: nat)
    requires i < |s| && n <= |s|
    ensures SumTo(s[i := v], n) == SumTo(s, n) + if i < n then v - s[i] else 0
  {
    if n > 0 {
      SumUpdateTo(s, i, v, n - 1);
    }
  }

  lemma SumUpdate(s: seq<int>, i: nat, v: int)
    requires i < |s|
    ensures Sum(s[i := v]) == Sum(s) - s[i] + v
  {
    SumUpdateTo(s, i, v, |s|);
  }

  /** The sum of an elementwise sum. */
  lemma {:induction false} SumPointwise(a: seq<int>, b: seq<int>, c: seq<int>, n: nat)
    requires |a| == |b| == |c| && n <= |a|
    requires forall i :: 0 <= i < |a| ==> c[i] == a[i] + b[i]
    ensures SumTo(c, n) == SumTo(a, n) + SumTo(b, n)
  {
    if n > 0 {
      SumPointwise(a, b, c, n - 1);
    }
  }

  lemma {:induction false} SumLowerBound(s: seq<int>, lo: int, n: nat)
    requires n <= |s| && forall i :: 0 <= i < n ==> lo <= s[i]
    ensures n * lo <= SumTo(s, n)
  {
    if n > 0 {
      SumLowerBound(s, lo, n - 1);
      assert n * lo == (n - 1) * lo + lo;
    }
  }

  lemma {:induction false} SumUpperBound(s: seq<int>, hi: int, n: nat)
    requires n <= |s| && forall i :: 0 <= i < n ==> s[i] <= hi
    ensures SumTo(s, n) <= n * hi
  {
    if n > 0 {
      SumUpperBound(s, hi, n - 1);
      assert n * hi == (n - 1) * hi + hi;
    }
  }

  /** One element is at most what the others, each at least lo, leave of the sum. */
  lemma SumCapsElement(s: seq<int>, i: nat, lo: int)
    requires i < |s|
    requires forall j :: 0 <= j < |s| ==> lo <= s[j]
    ensures s[i] <= Sum(s) - (|s| - 1) * lo
  {
    SumUpdate(s, i, lo);
    SumLowerBound(s[i := lo], lo, |s|);
    assert |s| * lo == (|s| - 1) * lo + lo;
  }

  /** Sums of equal prefixes are equal. */
  lemma {:induction false} SumSamePrefix(a: seq<int>, b: seq<int>, n: nat)
    requires n <= |a| && n <= |b| && forall i :: 0 <= i < n ==> a[i] == b[i]
    ensures SumTo(a, n) == SumTo(b, n)
  {
    if n > 0 {
      SumSamePrefix(a, b, n - 1);
    }
  }

  lemma {:induction false} SumWithout(v: seq<int>, j: nat, n: nat)
    requires j < n <= |v|
    ensures SumTo(v, n) == v[j] + SumTo(Without(v, j), n - 1)
  {
    if n == j + 1 {
      SumSamePrefix(v, Without(v, j), j);
    } else {
      SumWithout(v, j, n - 1);
    }
  }

  ghost function Values<K>(keys: seq<K>, f: map<K, int>): (v: seq<int>)
    requires Elements(keys) <= f.Keys
    ensures |v| == |keys|
    ensures forall i :: 0 <= i < |keys| ==> keys[i] in f && v[i] == f[keys[i]]
  {
    assert forall i :: 0 <= i < |keys| ==> keys[i] in Elements(keys);
    seq(|keys|, i requires 0 <= i < |keys| => f[keys[i]])
  }

  lemma ValuesWithout<K>(keys: seq<K>, f: map<K, int>, j: nat)
    requires NoDuplicates(keys) && j < |keys| && Elements(keys) <= f.Keys
    ensures Elements(Without(keys, j)) <= f.Keys
    ensures keys[j] in f && Sum(Values(keys, f)) == f[keys[j]] + Sum(Values(Without(keys, j), f))
  {
    ElementsWithout(keys, j);
    assert keys[j] in Elements(keys);
    SumWithout(Values(keys, f), j, |keys|);
    assert Without(Values(keys, f), j) == Values(Without(keys, j), f);
  }

  /** A sum over distinct keys depends on the set of keys only. */
  lemma {:induction false} SumOverKeys<K>(a: seq<K>, b: seq<K>, f: map<K, int>)
    requires NoDuplicates(a) && NoDuplicates(b)
    requires Elements(a) == Elements(b) <= f.Keys
    ensures Sum(Values(a, f)) == Sum(Values(b, f))
    decreases |a|
  {
    if a == [] {
      EmptyIffNoElements(b);
    } else {
      assert a[0] in Elements(b);
      var j :| 0 <= j < |b| && b[j] == a[0];
      ElementsWithout(a, 0);
      ElementsWithout(b, j);
      SumOverKeys(Without(a, 0), Without(b, j), f);
      ValuesWithout(a, f, 0);
      ValuesWithout(b, f, j);
    }
  }
}
