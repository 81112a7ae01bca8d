/** Sums of natural numbers. */
module Sums {
  ghost function Sum(ns: seq<nat>): nat {
    if ns == [] then 0 else Sum(ns[..|ns| - 1]) + ns[|ns| - 1]
  }

  lemma {:induction false} SumConcat(a: seq<nat>, b: seq<nat>)
    ensures Sum(a + b) == Sum(a) + Sum(b)
    decreases |b|
  {
    if b == [] {
      assert a + b == a;
    } else {
      assert (a + b)[..|a + b| - 1] == a + b[..|b| - 1];
      SumConcat(a, b[..|b| - 1]);
    }
  }

  lemma {:induction false} SumUpdate(ns: seq<nat>, i: nat, n: nat)
    requires i < |ns|
    ensures Sum(ns[i := n]) + ns[i] == Sum(ns) + n
    decreases |ns|
  {
    var last := |ns| - 1;
    if i < last {
      assert ns[i := n][..last] == ns[..last][i := n];
      SumUpdate(ns[..last], i, n);
    } else {
      assert ns[i := n][..last] == ns[..last];
    }
  }

  lemma {:induction false} SumOfZeros(ns: seq<nat>)
    requires forall i {:trigger ns[i]} :: 0 <= i < |ns| ==> ns[i] == 0
    ensures Sum(ns) == 0
  {
    if ns != [] { SumOfZeros(ns[..|ns| - 1]); }
  }

  lemma SumOne(n: nat)
    ensures Sum([n]) == n
  {
    assert [n][..0] == [];
  }
}
