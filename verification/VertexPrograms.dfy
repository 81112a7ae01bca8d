/** The vertex programs whose state is a 32-bit minimum: breadth-first search and connected components. */
module VertexPrograms {
  import opened LocalEdges

  /** UINT32_MAX: not reached, and the neutral element of both programs. */
  const INFINITE: nat := 0xffff_ffff

  type value = v: nat | v <= 0xffff_ffff

  datatype Program = BFS | CC

  /** pullGather: what the local value `v` of a target becomes when it sees the value `u` of a source. */
  function Gather(p: Program, u: value, v: value): value {
    match p
    case BFS => if u != INFINITE && v > u + 1 then u + 1 else v
    case CC => if u != INFINITE && u < v then u else v
  }

  /** What a source of value `u` offers its targets. */
  function Offer(p: Program, u: value): value {
    if p == BFS && u != INFINITE then u + 1 else u
  }

  lemma GatherIsMinimum(p: Program, u: value, v: value)
    ensures Gather(p, u, v) == if Offer(p, u) < v then Offer(p, u) else v
  {
  }

  /** `m` is the least of `base` and the elements of `s`. */
  ghost predicate Least(m: nat, base: nat, s: set<nat>) {
    m <= base && (forall o {:trigger o in s} :: o in s ==> m <= o) && (m == base || m in s)
  }

  lemma LeastIsUnique(m: nat, m': nat, base: nat, s: set<nat>)
    requires Least(m, base, s) && Least(m', base, s)
    ensures m == m'
  {
  }

  /** Minima in steps. */
  lemma LeastTwice(m: nat, m': nat, base: nat, s: set<nat>, s': set<nat>)
    requires Least(m, base, s) && Least(m', m, s')
    ensures Least(m', base, s + s')
  {
  }

  /** The global id of local vertex `i` in row or column `x` of tiles of `n` vertices. */
  function Id(x: nat, n: nat, i: nat): nat {
    x * n + i
  }

  /** The sources and targets of a tile in column `x` are vertices. */
  predicate Sources(current: seq<value>, x: nat, edges: seq<LocalEdge>, n: nat) {
    forall i {:trigger edges[i]} :: 0 <= i < |edges| ==> Id(x, n, edges[i].src) < |current| && edges[i].tgt < n
  }

  /** Gathering along `edges`, in order, into the local array of a tile row. */
  function GatherAll(p: Program, current: seq<value>, x: nat, n: nat, edges: seq<LocalEdge>, local: seq<value>): (r: seq<value>)
    requires |local| == n && Sources(current, x, edges, n)
    ensures |r| == n
  {
    if edges == [] then local
    else
      var e := edges[|edges| - 1];
      var before := GatherAll(p, current, x, n, edges[..|edges| - 1], local);
      before[e.tgt := Gather(p, current[Id(x, n, e.src)], before[e.tgt])]
  }

  /** Gathering in two stretches. */
  lemma {:induction false} GatherMore(p: Program, current: seq<value>, x: nat, n: nat, a: seq<LocalEdge>, b: seq<LocalEdge>, local: seq<value>)
    requires |local| == n && Sources(current, x, a + b, n)
    ensures Sources(current, x, a, n) && Sources(current, x, b, n)
    ensures GatherAll(p, current, x, n, a + b, local) == GatherAll(p, current, x, n, b, GatherAll(p, current, x, n, a, local))
    decreases |b|
  {
    assert forall i {:trigger a[i]} :: 0 <= i < |a| ==> a[i] == (a + b)[i];
    assert forall i {:trigger b[i]} :: 0 <= i < |b| ==> b[i] == (a + b)[|a| + i];
    if b == [] {
      assert a + b == a;
    } else {
      assert (a + b)[..|a + b| - 1] == a + b[..|b| - 1];
      GatherMore(p, current, x, n, a, b[..|b| - 1], local);
    }
  }

  /** What the edges of a tile offer target `t`. */
  ghost function Offers(p: Program, current: seq<value>, x: nat, n: nat, edges: set<LocalEdge>, t: nat): set<nat> {
    set e | e in edges && e.tgt == t && Id(x, n, e.src) < |current| :: Offer(p, current[Id(x, n, e.src)]) as nat
  }

  lemma OffersSnoc(p: Program, current: seq<value>, x: nat, n: nat, edges: seq<LocalEdge>, t: nat)
    requires edges != [] && Sources(current, x, edges, n)
    ensures var e := edges[|edges| - 1];
            Id(x, n, e.src) < |current| &&
            Offers(p, current, x, n, SetOf(edges), t) ==
              Offers(p, current, x, n, SetOf(edges[..|edges| - 1]), t)
              + if e.tgt == t then {Offer(p, current[Id(x, n, e.src)]) as nat} else {}
  {
    var e := edges[|edges| - 1];
    assert edges == edges[..|edges| - 1] + [e];
    assert SetOf(edges) == SetOf(edges[..|edges| - 1]) + {e};
  }

  lemma NoOffers(p: Program, current: seq<value>, x: nat, n: nat, t: nat)
    ensures Offers(p, current, x, n, SetOf([]), t) == {}
  {
  }

  /** Gathering gives every target the least of its old value and its offers: the order of the edges and how often
      each occurs make no difference. */
  lemma {:induction false} GatherIsLeast(p: Program, current: seq<value>, x: nat, n: nat, edges: seq<LocalEdge>, local: seq<value>, t: nat)
    requires |local| == n && t < n && Sources(current, x, edges, n)
    ensures Least(GatherAll(p, current, x, n, edges, local)[t], local[t], Offers(p, current, x, n, SetOf(edges), t))
    decreases |edges|
  {
    hide Id, Offers;
    if edges == [] {
      NoOffers(p, current, x, n, t);
    } else {
      var e := edges[|edges| - 1];
      GatherIsLeast(p, current, x, n, edges[..|edges| - 1], local, t);
      OffersSnoc(p, current, x, n, edges, t);
      GatherIsMinimum(p, current[Id(x, n, e.src)], GatherAll(p, current, x, n, edges[..|edges| - 1], local)[e.tgt]);
    }
  }

  /** ... so any two lists of the same edges give the same local array. */
  lemma GatherOfSet(p: Program, current: seq<value>, x: nat, n: nat, a: seq<LocalEdge>, b: seq<LocalEdge>, local: seq<value>)
    requires |local| == n && Sources(current, x, a, n) && SetOf(a) == SetOf(b)
    ensures Sources(current, x, b, n)
    ensures GatherAll(p, current, x, n, a, local) == GatherAll(p, current, x, n, b, local)
  {
    forall i | 0 <= i < |b| ensures Id(x, n, b[i].src) < |current| && b[i].tgt < n {
      assert b[i] in SetOf(a);
    }
    forall t | 0 <= t < n ensures GatherAll(p, current, x, n, a, local)[t] == GatherAll(p, current, x, n, b, local)[t] {
      GatherIsLeast(p, current, x, n, a, local, t);
      GatherIsLeast(p, current, x, n, b, local, t);
      LeastIsUnique(GatherAll(p, current, x, n, a, local)[t], GatherAll(p, current, x, n, b, local)[t], local[t],
                    Offers(p, current, x, n, SetOf(a), t));
    }
  }
}
