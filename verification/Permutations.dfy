/** Reordering by a permutation, out of place and in place. */
module Permutations {
  /** `q` undoes `p`. */
  predicate Inverse(p: seq<nat>, q: seq<nat>) {
    && |q| == |p|
    && (forall i {:trigger p[i]} :: 0 <= i < |p| ==> p[i] < |p| && q[p[i]] == i)
    && (forall i {:trigger q[i]} :: 0 <= i < |q| ==> q[i] < |q| && p[q[i]] == i)
  }

  ghost predicate IsPermutation(p: seq<nat>) {
    exists q :: Inverse(p, q)
  }

  /** apply_permutation: position `i` receives what was at `p[i]`. */
  function Applied<T>(v: seq<T>, p: seq<nat>): (r: seq<T>)
    requires |p| == |v| && forall i {:trigger p[i]} :: 0 <= i < |p| ==> p[i] < |p|
    ensures |r| == |v| && forall i {:trigger r[i]} :: 0 <= i < |v| ==> r[i] == v[p[i]]
  {
    seq(|v|, i requires 0 <= i < |v| => v[p[i]])
  }

  /** What is known while the cycle that starts at `i` is being followed and `prev` holds its first element:
      the done positions have their final element, the others their first one, and the done positions form whole
      cycles except for the way from `prev` back to `i`. */
  ghost predicate OnCycle<T(!new)>(v: seq<T>, old_v: seq<T>, p: seq<nat>, q: seq<nat>, done: seq<bool>, i: nat, prev: nat) {
    && Inverse(p, q) && |v| == |old_v| == |done| == |p| && i < |p| && prev < |p|
    && done[i] && done[prev] && v[prev] == old_v[i]
    && (forall x {:trigger v[x]} :: 0 <= x < |v| && x != prev ==> v[x] == if done[x] then old_v[p[x]] else old_v[x])
    && (forall x {:trigger done[p[x]]} :: 0 <= x < |p| && x != prev && done[x] ==> done[p[x]])
    && (forall x {:trigger done[q[x]]} :: 0 <= x < |p| && x != i && done[x] ==> done[q[x]] && q[x] != prev)
  }

  /** What is known between cycles. */
  ghost predicate BetweenCycles<T(!new)>(v: seq<T>, old_v: seq<T>, p: seq<nat>, q: seq<nat>, done: seq<bool>) {
    && Inverse(p, q) && |v| == |old_v| == |done| == |p|
    && (forall x {:trigger v[x]} :: 0 <= x < |v| ==> v[x] == if done[x] then old_v[p[x]] else old_v[x])
    && (forall x {:trigger done[p[x]]} :: 0 <= x < |p| && done[x] ==> done[p[x]])
    && (forall x {:trigger done[q[x]]} :: 0 <= x < |p| && done[x] ==> done[q[x]])
  }

  lemma CycleStarts<T(!new)>(v: seq<T>, old_v: seq<T>, p: seq<nat>, q: seq<nat>, done: seq<bool>, i: nat)
    requires BetweenCycles(v, old_v, p, q, done) && i < |p| && !done[i]
    ensures OnCycle(v, old_v, p, q, done[i := true], i, i)
  {
    forall x | 0 <= x < |p| && x != i && done[i := true][x] ensures done[i := true][p[x]] {
      assert done[p[x]];
    }
    forall x | 0 <= x < |p| && x != i && done[i := true][x] ensures done[i := true][q[x]] && q[x] != i {
      assert done[q[x]];
    }
  }

  /** The next position of the cycle is its start or still to be done. */
  lemma CycleStep<T(!new)>(v: seq<T>, old_v: seq<T>, p: seq<nat>, q: seq<nat>, done: seq<bool>, i: nat, prev: nat)
    requires OnCycle(v, old_v, p, q, done, i, prev) && p[prev] != i
    ensures var j := p[prev]; !done[j] && OnCycle(v[prev := v[j]][j := v[prev]], old_v, p, q, done[j := true], i, j)
  {
    var j := p[prev];
    assert q[j] == prev;
    assert done[q[j]];
    var done' := done[j := true];
    forall x | 0 <= x < |p| && x != j && done'[x] ensures done'[p[x]] {
      if x != prev { assert done[p[x]]; }
    }
    forall x | 0 <= x < |p| && x != i && done'[x] ensures done'[q[x]] && q[x] != j {
      if x != j { assert done[q[x]]; }
    }
  }

  lemma CycleEnds<T(!new)>(v: seq<T>, old_v: seq<T>, p: seq<nat>, q: seq<nat>, done: seq<bool>, i: nat, prev: nat)
    requires OnCycle(v, old_v, p, q, done, i, prev) && p[prev] == i
    ensures BetweenCycles(v, old_v, p, q, done)
  {
    assert q[i] == prev;
    forall x | 0 <= x < |p| && done[x] ensures done[p[x]] && done[q[x]] {
      if x != prev { assert done[p[x]]; }
      if x != i { assert done[q[x]]; }
    }
  }

  ghost function Undone(done: seq<bool>): (s: set<nat>)
  {
    set x: nat | x < |done| && !done[x]
  }

  lemma FewerUndone(done: seq<bool>, j: nat)
    requires j < |done| && !done[j]
    ensures |Undone(done[j := true])| < |Undone(done)|
  {
    assert Undone(done) == Undone(done[j := true]) + {j};
  }

  /** apply_permutation_in_place: follows the cycles of `p` and swaps along them; equals apply_permutation. */
  method ApplyInPlace<T(!new)>(vec: array<T>, p: seq<nat>)
    requires vec.Length == |p| && IsPermutation(p)
    modifies vec
    ensures vec[..] == Applied(old(vec[..]), p)
    ensures multiset(vec[..]) == multiset(old(vec[..]))
  {
    hide OnCycle, BetweenCycles, Inverse, Undone;
    ghost var q :| Inverse(p, q);
    InverseInRange(p, q);
    ghost var v := vec[..];
    var done := seq(|p|, _ => false);
    Untouched(v, p, q, done);
    for i := 0 to vec.Length
      invariant |done| == |p| && BetweenCycles(vec[..], v, p, q, done)
      invariant forall x {:trigger done[x]} :: 0 <= x < i ==> done[x]
      invariant multiset(vec[..]) == multiset(v)
    {
      if done[i] {
        continue;
      }
      CycleStarts(vec[..], v, p, q, done, i);
      done := done[i := true];
      var prev := i;
      var j := p[i];
      while i != j
        invariant |done| == |p| && prev < |p| && j == p[prev] && OnCycle(vec[..], v, p, q, done, i, prev)
        invariant forall x {:trigger done[x]} :: 0 <= x <= i ==> done[x]
        invariant multiset(vec[..]) == multiset(v)
        decreases |Undone(done)|
      {
        CycleStep(vec[..], v, p, q, done, i, prev);
        FewerUndone(done, j);
        ghost var w := vec[..];
        vec[prev], vec[j] := vec[j], vec[prev];
        assert vec[..] == w[prev := w[j]][j := w[prev]];
        done := done[j := true];
        prev := j;
        j := p[j];
      }
      CycleEnds(vec[..], v, p, q, done, i, prev);
    }
    AllDone(vec[..], v, p, q, done);
  }

  lemma InverseInRange(p: seq<nat>, q: seq<nat>)
    requires Inverse(p, q)
    ensures forall i {:trigger p[i]} :: 0 <= i < |p| ==> p[i] < |p|
  {
  }

  lemma Untouched<T(!new)>(v: seq<T>, p: seq<nat>, q: seq<nat>, done: seq<bool>)
    requires Inverse(p, q) && |v| == |p| == |done| && forall x {:trigger done[x]} :: 0 <= x < |done| ==> !done[x]
    ensures BetweenCycles(v, v, p, q, done)
  {
  }

  lemma AllDone<T(!new)>(v: seq<T>, old_v: seq<T>, p: seq<nat>, q: seq<nat>, done: seq<bool>)
    requires BetweenCycles(v, old_v, p, q, done) && |v| == |old_v| == |p| == |done|
    requires forall i {:trigger p[i]} :: 0 <= i < |p| ==> p[i] < |p|
    requires forall x {:trigger done[x]} :: 0 <= x < |done| ==> done[x]
    ensures v == Applied(old_v, p)
  {
    forall x | 0 <= x < |v| ensures v[x] == Applied(old_v, p)[x] {
      assert done[x];
    }
  }

  function Zip<A, B>(a: seq<A>, b: seq<B>): (r: seq<(A, B)>)
    requires |a| == |b|
    ensures |r| == |a| && forall i {:trigger r[i]} :: 0 <= i < |r| ==> r[i] == (a[i], b[i])
  {
    seq(|a|, i requires 0 <= i < |a| => (a[i], b[i]))
  }

  /** Edges and weights reordered in place by the same permutation keep their pairing. */
  method ReorderPairs<A(!new), B(!new)>(edges: array<A>, weights: array<B>, p: seq<nat>)
    requires edges.Length == weights.Length == |p| && IsPermutation(p) && edges as object != weights as object
    modifies edges, weights
    ensures Zip(edges[..], weights[..]) == Applied(Zip(old(edges[..]), old(weights[..])), p)
  {
    ghost var e, w := edges[..], weights[..];
    ApplyInPlace(edges, p);
    ghost var e' := edges[..];
    ApplyInPlace(weights, p);
    assert edges[..] == e';
  }
}
