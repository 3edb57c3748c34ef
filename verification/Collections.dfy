/** Sequences without duplicates, their elements, and sizes of sets. */
module Collections {

  ghost predicate NoDuplicates<T>(s: seq<T>) {
    forall i, j :: 0 <= i < j < |s| ==> s[i] != s[j]
  }

  ghost function Elements<T>(s: seq<T>): set<T> {
    set x | x in s
  }

  lemma EmptyIffNoElements<T>(s: seq<T>)
    ensures s == [] <==> Elements(s) == {}
  {
    if s != [] {
      assert s[0] in Elements(s);
    }
  }

  function Without<T>(s: seq<T>, j: nat): (r: seq<T>)
    requires j < |s|
    ensures |r| == |s| - 1
    ensures forall i :: 0 <= i < |r| ==> r[i] == s[if i < j then i else i + 1]
  {
    s[..j] + s[j + 1..]
  }

  lemma ElementsWithout<T>(s: seq<T>, j: nat)
    requires NoDuplicates(s) && j < |s|
    ensures NoDuplicates(Without(s, j)) && Elements(Without(s, j)) == Elements(s) - {s[j]}
  {
    var s' := Without(s, j);
    forall x | x in Elements(s) - {s[j]} ensures x in s' {
      var i :| 0 <= i < |s| && s[i] == x;
      assert s'[if i < j then i else i - 1] == x;
    }
  }

  lemma {:induction false} SubsetCount<T>(a: set<T>, b: set<T>)
    requires a <= b
    ensures |a| <= |b|
  {
    if a != {} {
      var x :| x in a;
      SubsetCount(a - {x}, b - {x});
    }
  }

  lemma FreshNat(s: set<nat>) returns (n: nat)
    ensures n !in s
  {
    n := 0;
    var seen: set<nat> := {};
    while n in s
      invariant seen <= s
      invariant forall k :: k in seen <==> 0 <= k < n
      decreases s - seen
    {
      seen := seen + {n};
      n := n + 1;
    }
  }
}
