/** A value or none. */
module Wrappers {
  datatype Option<T> = None | Some(value: T)
}

/** Counting the elements of a sequence of numbers. */
module Finite {

  function Elements(s: seq<int>): set<int> {
    set k | 0 <= k < |s| :: s[k]
  }

  predicate Distinct<T(==)>(s: seq<T>) {
    forall j, k :: 0 <= j < k < |s| ==> s[j] != s[k]
  }

  /** The numbers below `n`. */
  function Below(n: nat): (s: set<nat>)
    ensures |s| == n && forall i: int :: i in s <==> 0 <= i < n
  {
    if n == 0 then {} else Below(n - 1) + {n - 1}
  }

  lemma {:induction false} DistinctSize(s: seq<int>)
    requires Distinct(s)
    ensures |Elements(s)| == |s|
  {
    if s != [] {
      var n := |s| - 1;
      DistinctSize(s[..n]);
      assert Elements(s) == Elements(s[..n]) + {s[n]};
    }
  }

  lemma Subset(a: set<int>, b: set<int>)
    requires a <= b
    ensures |a| <= |b|
  {
    assert b == a + (b - a);
  }

  lemma Pigeonhole(s: seq<int>, n: nat)
    requires Distinct(s) && forall i :: 0 <= i < |s| ==> 0 <= s[i] < n
    ensures |s| <= n
  {
    DistinctSize(s);
    assert Elements(s) <= Below(n);
    Subset(Elements(s), Below(n));
  }

  /** A set of `n` numbers below `n` has them all. */
  lemma FullSet(s: set<nat>, n: nat)
    requires (forall i :: i in s ==> i < n) && |s| == n
    ensures s == Below(n)
  {
    var all := Below(n);
    assert s <= all;
    assert all == s + (all - s);
    assert |all - s| == 0;
    assert forall i :: i in all ==> i !in all - s;
  }
}
