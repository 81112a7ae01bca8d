/** Edges of the graph and inside a tile, their order, and the compressed row format that compaction writes and reads. */
module LocalEdges {
  const U16_MAX: nat := 65535

  /** An edge between vertices. */
  datatype Edge = Edge(src: nat, tgt: nat)

  type local_id = n: nat | n <= 65535

  datatype LocalEdge = LocalEdge(src: local_id, tgt: local_id)

  /** vertex_count_t: a source and the number of its targets. */
  datatype Run = Run(id: local_id, count: nat)

  /** Sort by source, then by target. */
  predicate Less(a: LocalEdge, b: LocalEdge) {
    if a.src == b.src then a.tgt < b.tgt else a.src < b.src
  }

  predicate AtMost(a: LocalEdge, b: LocalEdge) {
    !Less(b, a)
  }

  predicate Sorted(s: seq<LocalEdge>) {
    forall i, j {:trigger s[i], s[j]} :: 0 <= i < j < |s| ==> AtMost(s[i], s[j])
  }

  predicate StrictlySorted(s: seq<LocalEdge>) {
    forall i, j {:trigger s[i], s[j]} :: 0 <= i < j < |s| ==> Less(s[i], s[j])
  }

  ghost function SetOf<T>(s: seq<T>): set<T> {
    set e | e in s
  }

  lemma EmptySet<T>(s: seq<T>)
    ensures SetOf(s) == {} <==> s == []
  {
    if s != [] { assert s[0] in SetOf(s); }
  }

  /** A strictly sorted sequence is determined by its elements. */
  lemma {:induction false} SortedIsUnique(s: seq<LocalEdge>, t: seq<LocalEdge>)
    requires StrictlySorted(s) && StrictlySorted(t) && SetOf(s) == SetOf(t)
    ensures s == t
  {
    if s == [] {
      EmptySet(t);
      EmptySet(s);
    } else {
      assert s[0] in SetOf(t);
      assert t[0] in SetOf(s);
      var i :| 0 <= i < |t| && t[i] == s[0];
      var j :| 0 <= j < |s| && s[j] == t[0];
      assert i == 0 && j == 0;
      TailSet(s);
      TailSet(t);
      SortedIsUnique(s[1..], t[1..]);
    }
  }

  lemma TailSet(s: seq<LocalEdge>)
    requires s != [] && StrictlySorted(s)
    ensures SetOf(s[1..]) == SetOf(s) - {s[0]} && StrictlySorted(s[1..])
  {
    forall e | e in SetOf(s) - {s[0]} ensures e in SetOf(s[1..]) {
      var i :| 0 <= i < |s| && s[i] == e;
      assert s[1..][i - 1] == e;
    }
    forall e | e in SetOf(s[1..]) ensures e in SetOf(s) - {s[0]} {
      var i :| 0 <= i < |s[1..]| && s[1..][i] == e;
      assert s[i + 1] == e && Less(s[0], s[i + 1]);
    }
  }

  // ---- std::sort.

  function Insert(e: LocalEdge, s: seq<LocalEdge>): (r: seq<LocalEdge>)
    requires Sorted(s)
    ensures Sorted(r) && multiset(r) == multiset(s) + multiset{e}
    ensures forall x :: x in r <==> x == e || x in s
  {
    if s == [] || AtMost(e, s[0]) then
      [e] + s
    else
      var r := Insert(e, s[1..]);
      InsertBehind(e, s, r);
      [s[0]] + r
  }

  lemma InsertBehind(e: LocalEdge, s: seq<LocalEdge>, r: seq<LocalEdge>)
    requires s != [] && Sorted(s) && !AtMost(e, s[0])
    requires Sorted(r) && multiset(r) == multiset(s[1..]) + multiset{e} && forall x :: x in r <==> x == e || x in s[1..]
    ensures Sorted([s[0]] + r) && multiset([s[0]] + r) == multiset(s) + multiset{e}
    ensures forall x :: x in [s[0]] + r <==> x == e || x in s
  {
    assert s == [s[0]] + s[1..];
    assert forall i :: 0 <= i < |r| ==> r[i] in r;
  }

  function SortEdges(s: seq<LocalEdge>): (r: seq<LocalEdge>)
    ensures Sorted(r) && multiset(r) == multiset(s) && |r| == |s|
    ensures forall x :: x in r <==> x in s
  {
    if s == [] then [] else
      assert s == [s[0]] + s[1..];
      assert |multiset(Insert(s[0], SortEdges(s[1..])))| == |multiset(s)|;
      Insert(s[0], SortEdges(s[1..]))
  }

  // ---- Rows.

  function Total(runs: seq<Run>): nat {
    if runs == [] then 0 else runs[0].count + Total(runs[1..])
  }

  function Row(src: local_id, targets: seq<local_id>): (r: seq<LocalEdge>)
    ensures |r| == |targets| && forall i {:trigger r[i]} :: 0 <= i < |r| ==> r[i] == LocalEdge(src, targets[i])
  {
    seq(|targets|, i requires 0 <= i < |targets| => LocalEdge(src, targets[i]))
  }

  /** The edges that the runs and the targets stand for. */
  function Expand(runs: seq<Run>, targets: seq<local_id>): (r: seq<LocalEdge>)
    requires Total(runs) == |targets|
    ensures |r| == |targets|
  {
    if runs == [] then []
    else Row(runs[0].id, targets[..runs[0].count]) + Expand(runs[1..], targets[runs[0].count..])
  }

  lemma {:induction false} NoTargets(runs: seq<Run>)
    requires forall k {:trigger runs[k]} :: 0 <= k < |runs| ==> runs[k].count == 0
    ensures Total(runs) == 0
  {
    if runs != [] { NoTargets(runs[1..]); }
  }

  function Bumped(runs: seq<Run>, i: nat): seq<Run>
    requires i < |runs|
  {
    runs[i := runs[i].(count := runs[i].count + 1)]
  }

  /** Counting one more target for the last run that is not empty appends an edge. */
  lemma {:induction false} ExpandBump(runs: seq<Run>, targets: seq<local_id>, i: nat, t: local_id)
    requires i < |runs| && Total(runs) == |targets|
    requires forall k {:trigger runs[k]} :: i < k < |runs| ==> runs[k].count == 0
    ensures Total(Bumped(runs, i)) == |targets| + 1
    ensures Expand(Bumped(runs, i), targets + [t]) == Expand(runs, targets) + [LocalEdge(runs[i].id, t)]
    decreases i
  {
    hide Total, Expand, Row;
    var b := Bumped(runs, i);
    var c := runs[0].count;
    if i == 0 {
      ExpandBumpFirst(runs, targets, t);
    } else {
      assert b[1..] == Bumped(runs[1..], i - 1);
      TotalCons(runs);
      TotalCons(b);
      ExpandCons(runs, targets);
      assert (targets + [t])[..c] == targets[..c] && (targets + [t])[c..] == targets[c..] + [t];
      ExpandBump(runs[1..], targets[c..], i - 1, t);
      ExpandCons(b, targets + [t]);
    }
  }

  lemma TotalCons(runs: seq<Run>)
    requires runs != []
    ensures Total(runs) == runs[0].count + Total(runs[1..])
  {
  }

  lemma ExpandCons(runs: seq<Run>, targets: seq<local_id>)
    requires runs != [] && Total(runs) == |targets|
    ensures var c := runs[0].count; c <= |targets| && Total(runs[1..]) == |targets[c..]|
    ensures var c := runs[0].count;
            Expand(runs, targets) == Row(runs[0].id, targets[..c]) + Expand(runs[1..], targets[c..])
  {
  }

  lemma ExpandBumpFirst(runs: seq<Run>, targets: seq<local_id>, t: local_id)
    requires runs != [] && Total(runs) == |targets|
    requires forall k {:trigger runs[k]} :: 0 < k < |runs| ==> runs[k].count == 0
    ensures Total(Bumped(runs, 0)) == |targets| + 1
    ensures Expand(Bumped(runs, 0), targets + [t]) == Expand(runs, targets) + [LocalEdge(runs[0].id, t)]
  {
    var c := runs[0].count;
    NoTargets(runs[1..]);
    assert Bumped(runs, 0)[1..] == runs[1..] && targets[..c] == targets;
    assert (targets + [t])[..c + 1] == targets + [t] && (targets + [t])[c + 1..] == targets[c..] == [];
    assert Row(runs[0].id, targets + [t]) == Row(runs[0].id, targets) + [LocalEdge(runs[0].id, t)];
    assert Expand(runs[1..], []) == [];
  }

  /** A run without targets changes nothing. */
  lemma {:induction false} ExpandEmptyRun(runs: seq<Run>, targets: seq<local_id>, id: local_id)
    requires Total(runs) == |targets|
    ensures Total(runs + [Run(id, 0)]) == |targets|
    ensures Expand(runs + [Run(id, 0)], targets) == Expand(runs, targets)
  {
    if runs == [] {
      assert targets == [];
    } else {
      assert (runs + [Run(id, 0)])[1..] == runs[1..] + [Run(id, 0)];
      ExpandEmptyRun(runs[1..], targets[runs[0].count..], id);
    }
  }

  /** Rows in which nothing is stored. */
  lemma {:induction false} ExpandNothing(runs: seq<Run>)
    requires forall k {:trigger runs[k]} :: 0 <= k < |runs| ==> runs[k].count == 0
    ensures Total(runs) == 0 && Expand(runs, []) == []
  {
    NoTargets(runs);
  }

  // ---- What compaction keeps.

  const LAST: LocalEdge := LocalEdge(65535, 65535)

  /** The edges of `s` that fillCSR keeps, when it has last kept `prev`. */
  function Kept(s: seq<LocalEdge>, deleted: set<LocalEdge>, prev: LocalEdge): seq<LocalEdge> {
    if s == [] then []
    else if s[0] in deleted || s[0] == prev then Kept(s[1..], deleted, prev)
    else [s[0]] + Kept(s[1..], deleted, s[0])
  }

  ghost function Live(s: seq<LocalEdge>, deleted: set<LocalEdge>): set<LocalEdge> {
    SetOf(s) - deleted
  }

  lemma LiveCons(s: seq<LocalEdge>, deleted: set<LocalEdge>)
    requires s != []
    ensures Live(s, deleted) == (if s[0] in deleted then {} else {s[0]}) + Live(s[1..], deleted)
  {
    assert s == [s[0]] + s[1..];
  }

  lemma ConsSorted(e: LocalEdge, s: seq<LocalEdge>)
    requires StrictlySorted(s) && forall x {:trigger x in s} :: x in s ==> Less(e, x)
    ensures StrictlySorted([e] + s) && SetOf([e] + s) == {e} + SetOf(s)
  {
    var r := [e] + s;
    forall i, j | 0 <= i < j < |r| ensures Less(r[i], r[j]) {
      assert r[j] == s[j - 1] && s[j - 1] in s;
      if i > 0 { assert r[i] == s[i - 1]; }
    }
  }

  /** After something was kept, exactly the live edges above it are kept, in strict order. */
  lemma {:induction false} KeptAfter(s: seq<LocalEdge>, deleted: set<LocalEdge>, prev: LocalEdge)
    requires Sorted(s) && forall i {:trigger s[i]} :: 0 <= i < |s| ==> AtMost(prev, s[i])
    ensures StrictlySorted(Kept(s, deleted, prev)) && SetOf(Kept(s, deleted, prev)) == Live(s, deleted) - {prev}
    ensures forall x {:trigger x in Kept(s, deleted, prev)} :: x in Kept(s, deleted, prev) ==> Less(prev, x)
  {
    if s != [] {
      LiveCons(s, deleted);
      if s[0] in deleted || s[0] == prev {
        KeptAfter(s[1..], deleted, prev);
      } else {
        KeptAfter(s[1..], deleted, s[0]);
        ConsSorted(s[0], Kept(s[1..], deleted, s[0]));
        AfterNotBefore(s, deleted, prev);
      }
    }
  }

  lemma AfterNotBefore(s: seq<LocalEdge>, deleted: set<LocalEdge>, prev: LocalEdge)
    requires s != [] && Sorted(s) && AtMost(prev, s[0]) && s[0] != prev
    ensures prev !in s && s[0] in s
  {
  }

  lemma {:induction false} KeptLast(s: seq<LocalEdge>, deleted: set<LocalEdge>)
    requires forall i {:trigger s[i]} :: 0 <= i < |s| ==> s[i] == LAST
    ensures Kept(s, deleted, LAST) == []
  {
    if s != [] { KeptLast(s[1..], deleted); }
  }

  /** fillCSR starts as if it had last kept (65535, 65535).  It keeps exactly the live edges, in strict order and
      each once, if and only if that edge is not the only live one; then it loses it. */
  lemma {:induction false} KeptFromStart(s: seq<LocalEdge>, deleted: set<LocalEdge>)
    requires Sorted(s)
    ensures StrictlySorted(Kept(s, deleted, LAST))
    ensures SetOf(Kept(s, deleted, LAST)) == if Live(s, deleted) == {LAST} then {} else Live(s, deleted)
  {
    if s != [] {
      LiveCons(s, deleted);
      if s[0] in deleted {
        KeptFromStart(s[1..], deleted);
      } else if s[0] == LAST {
        KeptLast(s, deleted);
        assert forall e :: e in s ==> e == LAST;
      } else {
        KeptAfter(s[1..], deleted, s[0]);
        ConsSorted(s[0], Kept(s[1..], deleted, s[0]));
      }
    }
  }
}
