/** Rounds of the algorithm after the last edge has arrived: when their labels settle, how soon, and what can go wrong. */
module LabelRounds {
  import opened LocalEdges
  import opened VertexPrograms
  import opened Labels
  import opened ApplyPhase
  import A = ApplyMachine
  import X = Executors
  import P = PullRound

  // ---- One round.

  /** What all edges offer vertex `v`. */
  ghost function EdgeOffers(p: Program, edges: set<Edge>, current: seq<value>, v: nat): set<nat> {
    set e | e in edges && e.tgt == v && e.src < |current| :: Offer(p, current[e.src]) as nat
  }

  /** All inserted edges lie in the arrays. */
  ghost predicate Spans(s: State) {
    |s.current| == |s.next| && forall e {:trigger e in s.edges} :: e in s.edges ==> InRange(s, e)
  }

  /** A round of the loop over iterations, with no edge arriving: a pull phase takes the next values to their minimum with
      all offers and flags what changes, in addition to the flags `before`; then the apply phase runs on these flags. */
  ghost predicate Round(p: Program, before: seq<set<nat>>, s: State, changed: seq<set<nat>>, s': State) {
    && |s'.next| == |s.next| == |s.current| && s'.edges == s.edges && s'.pcs == s.pcs
    && (forall v {:trigger s'.next[v]} :: 0 <= v < |s.next| ==>
          && Least(s'.next[v], s.next[v], EdgeOffers(p, s.edges, s.current, v))
          && (Marked(changed, v) <==> Marked(before, v) || s'.next[v] != s.next[v]))
    && s'.current == AppliedValues(s'.next, s.current, changed)
  }

  /** Every value that was not applied yet is flagged. */
  ghost predicate Tracked(flags: seq<set<nat>>, s: State) {
    |s.current| == |s.next| && forall v {:trigger s.next[v]} :: 0 <= v < |s.next| && s.next[v] != s.current[v] ==> Marked(flags, v)
  }

  /** The apply phase comes to test every flag that is set. */
  predicate Complete(changed: seq<set<nat>>, count: nat) {
    forall v {:trigger Marked(changed, v)} :: 0 <= v < count && Marked(changed, v) ==> LookedAt(changed, count, v)
  }

  /** A complete round applies everything. */
  lemma CompleteApplies(p: Program, before: seq<set<nat>>, s: State, changed: seq<set<nat>>, s': State)
    requires Round(p, before, s, changed, s') && Tracked(before, s) && Complete(changed, |s.next|)
    ensures s'.current == s'.next
  {
    hide LookedAt;
    forall v | 0 <= v < |s.next| ensures s'.current[v] == s'.next[v] {
      if s.next[v] == s'.next[v] != s.current[v] { assert Marked(before, v); }
    }
  }

  /** In a complete round the test for convergence is exact: nothing was applied if and only if the labels are settled. */
  lemma ConvergedExactly(p: Program, before: seq<set<nat>>, s: State, changed: seq<set<nat>>, s': State)
    requires Round(p, before, s, changed, s') && Tracked(before, s) && Complete(changed, |s.next|) && Spans(s)
    ensures s'.current == s.current ==> Settled(p, s')
    ensures Settled(p, s) ==> s'.next == s.next && s'.current == s.current && Settled(p, s')
  {
    hide LookedAt, Marked;
    CompleteApplies(p, before, s, changed, s');
    if s'.current == s.current {
      forall e | e in s.edges ensures InRange(s', e) && s'.next[e.tgt] <= Offer(p, s'.current[e.src]) {
        assert Offer(p, s.current[e.src]) as nat in EdgeOffers(p, s.edges, s.current, e.tgt);
      }
    }
    if Settled(p, s) {
      assert forall v {:trigger s'.next[v]} :: 0 <= v < |s.next| ==> s'.next[v] == s.next[v];
    }
  }

  // ---- A round over the tiles is such a round.

  /** The edges that the tiles stand for. */
  ghost function GlobalEdges(n: nat, tiles: seq<X.TileView>): set<Edge> {
    set k, e | 0 <= k < |tiles| && e in tiles[k].edges :: Edge(Id(tiles[k].x, n, e.src), Id(tiles[k].y, n, e.tgt))
  }

  lemma FlatIsEdges(p: Program, n: nat, current: seq<value>, tiles: seq<X.TileView>, v: nat)
    ensures P.FlatOffers(p, current, n, tiles, v) == EdgeOffers(p, GlobalEdges(n, tiles), current, v)
  {
    hide Id, Offer;
    var flat, offers := P.FlatOffers(p, current, n, tiles, v), EdgeOffers(p, GlobalEdges(n, tiles), current, v);
    forall o | o in flat ensures o in offers {
      var k, e :| 0 <= k < |tiles| && e in tiles[k].edges && Id(tiles[k].y, n, e.tgt) == v && Id(tiles[k].x, n, e.src) < |current|
                  && Offer(p, current[Id(tiles[k].x, n, e.src)]) as nat == o;
      assert Edge(Id(tiles[k].x, n, e.src), Id(tiles[k].y, n, e.tgt)) in GlobalEdges(n, tiles);
    }
    forall o | o in offers ensures o in flat {
      var g :| g in GlobalEdges(n, tiles) && g.tgt == v && g.src < |current| && Offer(p, current[g.src]) as nat == o;
      var k, e :| 0 <= k < |tiles| && e in tiles[k].edges && g == Edge(Id(tiles[k].x, n, e.src), Id(tiles[k].y, n, e.tgt));
    }
  }

  /** A pull phase over the tiles, as RunRound does it from the arrays of `a` to those of `a'`, and the apply phase after it
      are a round over the edges that the tiles stand for. */
  lemma TiledRound(p: Program, n: nat, tiles: seq<X.TileView>, a: A.State, a': A.State, s: State, s': State)
    requires P.FlatRound(p, n, s.current, tiles, a, a') && s.edges == GlobalEdges(n, tiles) && a.next == s.next
    requires |s.current| == |s.next| == |s'.next| && s' == s.(next := s'.next, current := s'.current)
    requires a'.next == s'.next && s'.current == AppliedValues(s'.next, s.current, a'.changed)
    ensures Round(p, a.changed, s, a'.changed, s')
  {
    hide P.FlatOffers, EdgeOffers, AppliedValues;
    forall v | 0 <= v < |s.next|
      ensures Least(s'.next[v], s.next[v], EdgeOffers(p, s.edges, s.current, v))
      ensures Marked(a'.changed, v) <==> Marked(a.changed, v) || s'.next[v] != s.next[v]
    {
      FlatIsEdges(p, n, s.current, tiles, v);
      assert a'.next[v] == s'.next[v] && a.next[v] == s.next[v];
    }
  }

  // ---- Walks without loops.

  /** More numbers below `n` than `n` are not all different. */
  lemma {:induction false} Pigeonhole(w: seq<nat>, n: nat) returns (i: nat, j: nat)
    requires |w| > n && forall k {:trigger w[k]} :: 0 <= k < |w| ==> w[k] < n
    ensures i < j < |w| && w[i] == w[j]
    decreases n
  {
    if k :| 0 <= k < |w| && w[k] == n - 1 {
      var rest := w[..k] + w[k + 1..];
      if m :| 0 <= m < |rest| && rest[m] == n - 1 {
        i, j := if m < k then m else k, if m < k then k else m + 1;
      } else {
        i, j := Pigeonhole(rest, n - 1);
        i, j := if i < k then i else i + 1, if j < k then j else j + 1;
      }
    } else {
      assert n > 0 by { assert w[0] < n; }
      i, j := Pigeonhole(w, n - 1);
    }
  }

  /** A walk can be made so short that it visits no vertex twice. */
  lemma {:induction false} Shorten(edges: set<Edge>, w: seq<nat>, n: nat) returns (u: seq<nat>)
    requires IsWalk(edges, w) && forall k {:trigger w[k]} :: 0 <= k < |w| ==> w[k] < n
    ensures IsWalk(edges, u) && u[0] == w[0] && u[|u| - 1] == w[|w| - 1] && |u| <= n && |u| <= |w|
    decreases |w|
  {
    u := w;
    if |w| > n {
      var i, j := Pigeonhole(w, n);
      var cut := w[..i + 1] + w[j + 1..];
      forall k | 0 <= k < |cut| - 1 ensures Edge(cut[k], cut[k + 1]) in edges {
        if k < i { assert w[k] == cut[k] && w[k + 1] == cut[k + 1]; }
        else { assert w[k - i + j] == cut[k] && w[k - i + j + 1] == cut[k + 1]; }
      }
      u := Shorten(edges, cut, n);
    }
  }

  // ---- What labels are after some rounds.

  /** After `k` rounds from labels `first`, every label is what some walk of at most `k` edges gives. */
  ghost predicate Attained(p: Program, edges: set<Edge>, first: seq<value>, labels: seq<value>, k: nat) {
    |labels| == |first| && forall v {:trigger labels[v]} :: 0 <= v < |labels| ==>
      Explained(p, edges, first, labels[v], v, k)
  }

  ghost predicate Explained(p: Program, edges: set<Edge>, first: seq<value>, x: nat, v: nat, k: nat) {
    exists w :: Explains(p, edges, first, x, v, w, k)
  }

  predicate Explains(p: Program, edges: set<Edge>, first: seq<value>, x: nat, v: nat, w: seq<nat>, k: nat) {
    IsWalk(edges, w) && |w| <= k + 1 && w[0] < |first| && w[|w| - 1] == v && x == WalkBound(p, first[w[0]], |w| - 1)
  }

  /** ... and no walk of at most `k` edges gives less. */
  ghost predicate Covered(p: Program, edges: set<Edge>, first: seq<value>, labels: seq<value>, k: nat) {
    |labels| == |first| && forall w: seq<nat> {:trigger IsWalk(edges, w)} :: IsWalk(edges, w) && |w| <= k + 1 && w[0] < |first| ==>
      w[|w| - 1] < |labels| && labels[w[|w| - 1]] <= WalkBound(p, first[w[0]], |w| - 1)
  }

  lemma OneMoreEdge(p: Program, x: value, steps: nat)
    ensures WalkBound(p, x, steps) <= INFINITE
    ensures Offer(p, WalkBound(p, x, steps)) == WalkBound(p, x, steps + 1)
  {
  }

  lemma LongerIsWorse(p: Program, x: value, steps: nat, steps': nat)
    requires steps <= steps'
    ensures WalkBound(p, x, steps) <= WalkBound(p, x, steps')
  {
  }

  /** The first labels give themselves. */
  lemma NoRounds(p: Program, edges: set<Edge>, first: seq<value>)
    ensures Attained(p, edges, first, first, 0) && Covered(p, edges, first, first, 0)
  {
    forall v | 0 <= v < |first| ensures Explained(p, edges, first, first[v], v, 0) {
      assert Explains(p, edges, first, first[v], v, [v], 0);
    }
  }

  lemma WalkGoesOn(edges: set<Edge>, w: seq<nat>, e: Edge)
    requires IsWalk(edges, w) && e in edges && w[|w| - 1] == e.src
    ensures IsWalk(edges, w + [e.tgt])
  {
    var u := w + [e.tgt];
    forall i | 0 <= i < |u| - 1 ensures Edge(u[i], u[i + 1]) in edges {
      if i < |w| - 1 { assert u[i] == w[i] && u[i + 1] == w[i + 1]; } else { assert Edge(u[i], u[i + 1]) == e; }
    }
  }

  lemma WalkBefore(edges: set<Edge>, w: seq<nat>)
    requires IsWalk(edges, w) && |w| > 1
    ensures IsWalk(edges, w[..|w| - 1]) && Edge(w[|w| - 2], w[|w| - 1]) in edges
  {
    var u := w[..|w| - 1];
    forall i | 0 <= i < |u| - 1 ensures Edge(u[i], u[i + 1]) in edges { assert u[i] == w[i] && u[i + 1] == w[i + 1]; }
    assert Edge(w[|w| - 2], w[|w| - 2 + 1]) in edges;
  }

  /** One complete round more takes in walks of one edge more. */
  lemma RoundExtends(p: Program, before: seq<set<nat>>, first: seq<value>, s: State, changed: seq<set<nat>>, s': State, k: nat)
    requires Round(p, before, s, changed, s') && s.current == s.next && Spans(s)
    requires Attained(p, s.edges, first, s.next, k) && Covered(p, s.edges, first, s.next, k)
    ensures Attained(p, s.edges, first, s'.next, k + 1) && Covered(p, s.edges, first, s'.next, k + 1)
  {
    hide AppliedValues, Marked, WalkBound, Offer, Explained, Round;
    RoundShape(p, before, s, changed, s');
    forall v | 0 <= v < |s'.next| ensures Explained(p, s.edges, first, s'.next[v], v, k + 1) {
      NowExplained(p, before, first, s, changed, s', k, v);
    }
    forall w: seq<nat> | IsWalk(s.edges, w) && |w| <= k + 2 && w[0] < |first|
      ensures w[|w| - 1] < |s'.next| && s'.next[w[|w| - 1]] <= WalkBound(p, first[w[0]], |w| - 1)
    {
      NowCovered(p, before, first, s, changed, s', k, w);
    }
  }

  lemma RoundShape(p: Program, before: seq<set<nat>>, s: State, changed: seq<set<nat>>, s': State)
    requires Round(p, before, s, changed, s')
    ensures |s'.next| == |s.next|
  {
  }

  lemma NowCovered(p: Program, before: seq<set<nat>>, first: seq<value>, s: State, changed: seq<set<nat>>, s': State, k: nat, w: seq<nat>)
    requires Round(p, before, s, changed, s') && s.current == s.next && Spans(s) && Covered(p, s.edges, first, s.next, k)
    requires IsWalk(s.edges, w) && |w| <= k + 2 && w[0] < |first|
    ensures w[|w| - 1] < |s'.next| && s'.next[w[|w| - 1]] <= WalkBound(p, first[w[0]], |w| - 1)
  {
    hide AppliedValues, Marked, WalkBound, Offer;
    if |w| == k + 2 && |w| > 1 {
      WalkBefore(s.edges, w);
      var e := Edge(w[|w| - 2], w[|w| - 1]);
      var u := w[..|w| - 1];
      assert InRange(s, e) && s.next[u[|u| - 1]] <= WalkBound(p, first[u[0]], |u| - 1);
      assert Offer(p, s.current[e.src]) as nat in EdgeOffers(p, s.edges, s.current, e.tgt);
      OneMoreEdge(p, first[w[0]], |u| - 1);
      OffersRise(p, s.next[e.src], WalkBound(p, first[w[0]], |u| - 1));
    } else {
      assert s'.next[w[|w| - 1]] <= s.next[w[|w| - 1]];
    }
  }

  lemma OffersRise(p: Program, x: value, y: value)
    requires x <= y
    ensures Offer(p, x) <= Offer(p, y)
  {
  }

  lemma NowExplained(p: Program, before: seq<set<nat>>, first: seq<value>, s: State, changed: seq<set<nat>>, s': State, k: nat, v: nat)
    requires Round(p, before, s, changed, s') && s.current == s.next && Spans(s) && v < |s.next|
    requires Attained(p, s.edges, first, s.next, k)
    ensures Explained(p, s.edges, first, s'.next[v], v, k + 1)
  {
    hide AppliedValues, Marked, WalkBound, Offer;
    assert Explained(p, s.edges, first, s.next[v], v, k);
    if s'.next[v] == s.next[v] {
      var w :| Explains(p, s.edges, first, s.next[v], v, w, k);
      assert Explains(p, s.edges, first, s'.next[v], v, w, k + 1);
    } else {
      assert s'.next[v] as nat in EdgeOffers(p, s.edges, s.current, v);
      var e :| e in s.edges && e.tgt == v && e.src < |s.current| && Offer(p, s.current[e.src]) as nat == s'.next[v];
      assert Explained(p, s.edges, first, s.next[e.src], e.src, k);
      var w :| Explains(p, s.edges, first, s.next[e.src], e.src, w, k);
      WalkGoesOn(s.edges, w, e);
      OneMoreEdge(p, first[w[0]], |w| - 1);
      assert Explains(p, s.edges, first, s'.next[v], v, w + [v], k + 1);
    }
  }

  /** Walks of as many edges as there are other vertices are all it takes. */
  lemma ShortWalksSettle(p: Program, first: seq<value>, s: State, k: nat)
    requires Spans(s) && s.current == s.next && |s.next| <= k + 1
    requires Attained(p, s.edges, first, s.next, k) && Covered(p, s.edges, first, s.next, k)
    ensures Settled(p, s)
  {
    hide WalkBound, Offer;
    forall e | e in s.edges ensures InRange(s, e) && s.next[e.tgt] <= Offer(p, s.current[e.src]) {
      assert Explained(p, s.edges, first, s.next[e.src], e.src, k);
      var w :| Explains(p, s.edges, first, s.next[e.src], e.src, w, k);
      WalkGoesOn(s.edges, w, e);
      WalkInRange(s, w + [e.tgt]);
      var u := Shorten(s.edges, w + [e.tgt], |s.next|);
      OneMoreEdge(p, first[w[0]], |w| - 1);
      LongerIsWorse(p, first[w[0]], |u| - 1, |w|);
      assert s.next[u[|u| - 1]] <= WalkBound(p, first[u[0]], |u| - 1);
    }
  }

  lemma {:induction false} WalkInRange(s: State, w: seq<nat>)
    requires Spans(s) && IsWalk(s.edges, w) && w[0] < |s.next|
    ensures forall k {:trigger w[k]} :: 0 <= k < |w| ==> w[k] < |s.next|
  {
    forall k | 0 <= k < |w| ensures w[k] < |s.next| {
      if k > 0 {
        assert w[k - 1] == w[k - 1];
        assert InRange(s, Edge(w[k - 1], w[k - 1 + 1]));
      }
    }
  }

  // ---- The loop over iterations.

  /** What one iteration leaves: the flags its apply phase went by, and the arrays. */
  datatype Iteration = Iteration(changed: seq<set<nat>>, after: State)

  /** The flags are reset between rounds. */
  function NoFlags(): seq<set<nat>> {
    []
  }

  ghost predicate Executes(p: Program, before: seq<set<nat>>, s: State, rounds: seq<Iteration>)
    decreases |rounds|
  {
    rounds != [] ==>
      Round(p, before, s, rounds[0].changed, rounds[0].after) && Executes(p, NoFlags(), rounds[0].after, rounds[1..])
  }

  ghost predicate AllComplete(rounds: seq<Iteration>, count: nat) {
    forall i {:trigger rounds[i]} :: 0 <= i < |rounds| ==> Complete(rounds[i].changed, count)
  }

  lemma RoundSpans(p: Program, before: seq<set<nat>>, s: State, changed: seq<set<nat>>, s': State)
    requires Round(p, before, s, changed, s') && Spans(s)
    ensures Spans(s') && s'.edges == s.edges && |s'.next| == |s.next|
  {
    hide Marked, AppliedValues;
  }

  lemma AllCompleteRest(rounds: seq<Iteration>, count: nat)
    requires AllComplete(rounds, count) && rounds != []
    ensures Complete(rounds[0].changed, count) && AllComplete(rounds[1..], count)
  {
    hide Complete;
  }

  /** From applied labels on, every complete round takes in walks of one edge more. */
  lemma {:induction false} RoundsTakeInWalks(p: Program, first: seq<value>, s: State, rounds: seq<Iteration>, k: nat)
    requires Spans(s) && s.current == s.next && Executes(p, NoFlags(), s, rounds) && AllComplete(rounds, |s.next|)
    requires Attained(p, s.edges, first, s.next, k) && Covered(p, s.edges, first, s.next, k)
    ensures var last := if rounds == [] then s else rounds[|rounds| - 1].after;
            && Spans(last) && last.current == last.next && last.edges == s.edges && |last.next| == |s.next|
            && Attained(p, s.edges, first, last.next, k + |rounds|) && Covered(p, s.edges, first, last.next, k + |rounds|)
    decreases |rounds|
  {
    hide Round, Attained, Covered, Complete, AllComplete;
    if rounds != [] {
      var s1 := rounds[0].after;
      AllCompleteRest(rounds, |s.next|);
      AppliedIsTracked(s);
      CompleteApplies(p, NoFlags(), s, rounds[0].changed, s1);
      RoundSpans(p, NoFlags(), s, rounds[0].changed, s1);
      RoundExtends(p, NoFlags(), first, s, rounds[0].changed, s1, k);
      RoundsTakeInWalks(p, first, s1, rounds[1..], k + 1);
    }
  }

  lemma AppliedIsTracked(s: State)
    requires s.current == s.next
    ensures Tracked(NoFlags(), s)
  {
  }

  /** Once no edge arrives and all rounds are complete, the labels are settled after at most as many rounds as there are
      vertices. */
  lemma SettlesInTime(p: Program, before: seq<set<nat>>, s: State, rounds: seq<Iteration>)
    requires Spans(s) && Tracked(before, s) && Executes(p, before, s, rounds) && AllComplete(rounds, |s.next|)
    requires |rounds| >= |s.next| && rounds != []
    ensures var last := rounds[|rounds| - 1].after;
            Settled(p, last) && Spans(last) && last.edges == s.edges && |last.next| == |s.next|
  {
    hide Round, Attained, Covered, Complete, AllComplete;
    var s1 := rounds[0].after;
    AllCompleteRest(rounds, |s.next|);
    CompleteApplies(p, before, s, rounds[0].changed, s1);
    RoundSpans(p, before, s, rounds[0].changed, s1);
    NoRounds(p, s.edges, s1.next);
    RoundsTakeInWalks(p, s1.next, s1, rounds[1..], 0);
    ShortWalksSettle(p, s1.next, rounds[|rounds| - 1].after, |rounds| - 1);
  }

  // ---- The labels at the end.

  /** Rounds keep every label justified. */
  lemma RoundInv(p: Program, start: nat, before: seq<set<nat>>, s: State, changed: seq<set<nat>>, s': State)
    requires Inv(p, start, s) && Round(p, before, s, changed, s')
    ensures Inv(p, start, s')
  {
    hide PcOk, VertexOk, Marked, AppliedValues;
    forall t | 0 <= t < |s'.pcs| ensures PcInRange(s', s'.pcs[t]) && PcOk(p, start, s'.edges, s'.pcs[t]) {
      assert PcInRange(s, s.pcs[t]);
    }
    forall v | 0 <= v < |s'.next| ensures VertexOk(p, start, s', v) {
      InvVertex(p, start, s, v);
      RoundVertex(p, start, before, s, changed, s', v);
    }
  }

  lemma RoundVertex(p: Program, start: nat, before: seq<set<nat>>, s: State, changed: seq<set<nat>>, s': State, v: nat)
    requires Inv(p, start, s) && Round(p, before, s, changed, s') && v < |s.next|
    ensures VertexOk(p, start, s', v)
  {
    hide Good, HasSmaller, Marked, Inv, PcOk;
    InvVertex(p, start, s, v);
    if s'.next[v] != s.next[v] {
      assert s'.next[v] as nat in EdgeOffers(p, s.edges, s.current, v);
      var e :| e in s.edges && e.tgt == v && e.src < |s.current| && Offer(p, s.current[e.src]) as nat == s'.next[v];
      InvVertex(p, start, s, e.src);
      GoodOffer(p, s.edges, start, e, s.current[e.src]);
    }
    assert s'.current[v] == s'.next[v] || s'.current[v] == s.current[v];
  }

  lemma {:induction false} ExecutesInv(p: Program, start: nat, before: seq<set<nat>>, s: State, rounds: seq<Iteration>)
    requires Inv(p, start, s) && Executes(p, before, s, rounds)
    ensures Inv(p, start, if rounds == [] then s else rounds[|rounds| - 1].after)
    decreases |rounds|
  {
    hide Inv, Round;
    if rounds != [] {
      RoundInv(p, start, before, s, rounds[0].changed, rounds[0].after);
      ExecutesInv(p, start, NoFlags(), rounds[0].after, rounds[1..]);
    }
  }

  /** Labels are what the program is for. */
  ghost predicate Right(p: Program, start: nat, edges: set<Edge>, labels: seq<value>) {
    match p
    case BFS => AreDistances(edges, start, labels)
    case CC => AreComponents(edges, labels)
  }

  /** Edges are inserted between vertices of the arrays. */
  lemma {:induction false} RunSpans(p: Program, s: State, actions: seq<Action>, s': State)
    requires Spans(s) && Runs(p, s, actions, s')
    ensures Spans(s')
    decreases |actions|
  {
    if actions != [] {
      ActSpans(p, s, actions[0]);
      RunSpans(p, Act(p, s, actions[0]), actions[1..], s');
    }
  }

  lemma ActSpans(p: Program, s: State, a: Action)
    requires Spans(s) && CanAct(s, a)
    ensures Spans(Act(p, s, a))
  {
    hide NextPc;
    if a.Step? { Lengths(p, s, a.t); }
  }

  /** From any run of insertions, pulls and applies on: once no edge arrives, at most as many complete rounds as there are
      vertices make the current labels the shortest distances, or the least vertices that lead to each one. */
  lemma RightInTime(p: Program, start: nat, s0: State, actions: seq<Action>, s: State, before: seq<set<nat>>, rounds: seq<Iteration>)
    requires Initial(p, start, s0) && Runs(p, s0, actions, s) && Tracked(before, s)
    requires Executes(p, before, s, rounds) && AllComplete(rounds, |s.next|) && |rounds| >= |s.next| && rounds != []
    requires p == CC ==> start == 0
    ensures Right(p, start, s.edges, rounds[|rounds| - 1].after.current)
  {
    hide Inv, Executes, AllComplete, AreDistances, AreComponents;
    InitialInv(p, start, s0);
    RunInv(p, start, s0, actions, s);
    SameLength(p, s0, actions, s);
    RunSpans(p, s0, actions, s);
    SettlesInTime(p, before, s, rounds);
    ExecutesInv(p, start, before, s, rounds);
    var last := rounds[|rounds| - 1].after;
    if p == BFS { SettledDistances(start, last); } else { SettledComponents(last); }
  }

  /** The loop stops rightly: in complete rounds, the first round that converges leaves right labels, and one of the first
      |V| + 1 rounds does. */
  lemma ConvergesInTime(p: Program, before: seq<set<nat>>, s: State, rounds: seq<Iteration>, next: Iteration)
    requires Spans(s) && Tracked(before, s) && Executes(p, before, s, rounds) && AllComplete(rounds, |s.next|)
    requires |rounds| >= |s.next| && rounds != []
    requires Round(p, NoFlags(), rounds[|rounds| - 1].after, next.changed, next.after) && Complete(next.changed, |s.next|)
    ensures next.after.current == rounds[|rounds| - 1].after.current
  {
    hide Round, Complete, Executes, AllComplete;
    SettlesInTime(p, before, s, rounds);
    var last := rounds[|rounds| - 1].after;
    AppliedIsTracked(last);
    ConvergedExactly(p, NoFlags(), last, next.changed, next.after);
  }

  // ---- Incomplete rounds.

  /** Every round is complete, whatever its flags, if and only if the graph has fewer than 72 vertices. */
  lemma CompleteExactly(count: nat)
    ensures (forall changed :: Complete(changed, count)) <==> count < 72
  {
    if count < 72 {
      forall changed ensures Complete(changed, count) {
      }
    } else {
      OneFlagIsMissed(count);
      assert !Complete([{}, {1}], count);
    }
  }

  /** The flag of vertex 9 alone is not seen in a larger graph. */
  lemma OneFlagIsMissed(count: nat)
    requires count >= 72
    ensures Marked([{}, {1}], 9) && !LookedAt([{}, {1}], count, 9)
  {
  }

  // ---- A label that is lost.

  function Fresh(count: nat): seq<value> {
    seq(count, v => if v == 0 then 0 else INFINITE)
  }

  function Late(): set<Edge> {
    {Edge(8, 9), Edge(0, 8)}
  }

  /** The edges come in the wrong order: first from 8 to 9, when 8 is not reached yet, and then from the start to 8. */
  lemma LateEdges(count: nat) returns (s0: State, actions: seq<Action>)
    requires 72 <= count <= INFINITE
    ensures Initial(BFS, 0, s0) && |s0.next| == count
    ensures Runs(BFS, s0, actions, State(Late(), Fresh(count)[8 := 1], Fresh(count)[8 := 1], [Idle]))
  {
    var e, n := Edge(8, 9), Fresh(count);
    s0 := State({}, n, n, [Idle]);
    var s1 := State({e}, n, n, [Idle]);
    var s2 := State({e}, n, n, [Changed(e)]);
    var a := [Start(0, Insert(e))] + [Step(0)];
    assert {} + {e} == {e};
    RunsOne(s2, Step(0), s1);
    RunsCons(s0, Start(0, Insert(e)), s2, [Step(0)], s1);
    var b := InsertReached(count);
    RunsBoth(s0, a, s1, b, State(Late(), n[8 := 1], n[8 := 1], [Idle]));
    actions := a + b;
  }

  /** The second insertion writes both labels of vertex 8. */
  lemma InsertReached(count: nat) returns (b: seq<Action>)
    requires count >= 72
    ensures Runs(BFS, State({Edge(8, 9)}, Fresh(count), Fresh(count), [Idle]), b,
                 State(Late(), Fresh(count)[8 := 1], Fresh(count)[8 := 1], [Idle]))
  {
    var f, n, m := Edge(0, 8), Fresh(count), Fresh(count)[8 := 1];
    var s1 := State(Late(), n, n, [Changed(f)]);
    var s2 := State(Late(), n, n, [Compared(f, 0)]);
    var s3 := State(Late(), n, n, [SetNext(f, 1)]);
    var s4 := State(Late(), m, n, [SetCurrent(8, 1)]);
    var s5 := State(Late(), m, m, [Idle]);
    RunsOne(s4, Step(0), s5);
    RunsCons(s3, Step(0), s4, [Step(0)], s5);
    RunsCons(s2, Step(0), s3, [Step(0)] + [Step(0)], s5);
    RunsCons(s1, Step(0), s2, [Step(0)] + ([Step(0)] + [Step(0)]), s5);
    b := [Start(0, Insert(f))] + ([Step(0)] + ([Step(0)] + ([Step(0)] + [Step(0)])));
    assert {Edge(8, 9)} + {f} == Late();
    RunsCons(State({Edge(8, 9)}, n, n, [Idle]), Start(0, Insert(f)), s1, b[1..], s5);
    assert [Start(0, Insert(f))] + b[1..] == b;
  }

  lemma RunsOne(s: State, a: Action, s': State)
    requires CanAct(s, a) && Act(BFS, s, a) == s'
    ensures Runs(BFS, s, [a], s')
  {
    assert [a][1..] == [];
  }

  lemma RunsCons(s: State, a: Action, s1: State, rest: seq<Action>, s': State)
    requires CanAct(s, a) && Act(BFS, s, a) == s1 && Runs(BFS, s1, rest, s')
    ensures Runs(BFS, s, [a] + rest, s')
  {
    assert ([a] + rest)[1..] == rest;
  }

  lemma {:induction false} RunsBoth(s: State, a: seq<Action>, s1: State, b: seq<Action>, s': State)
    requires Runs(BFS, s, a, s1) && Runs(BFS, s1, b, s')
    ensures Runs(BFS, s, a + b, s')
    decreases |a|
  {
    hide Act, CanAct;
    if a == [] {
      assert a + b == b;
    } else {
      RunsBoth(Act(BFS, s, a[0]), a[1..], s1, b, s');
      assert (a + b)[1..] == a[1..] + b;
    }
  }

  /** In every graph of 72 vertices or more a round can lose a label: after these edges the pull phase finds the distance of
      vertex 9, but the apply phase does not look at its flag and the loop takes the labels for converged, with vertex 9
      out of reach. */
  lemma LabelLost(count: nat) returns (s0: State, actions: seq<Action>, s: State, before: seq<set<nat>>, round: Iteration)
    requires 72 <= count <= INFINITE
    ensures Initial(BFS, 0, s0) && |s0.next| == count && Runs(BFS, s0, actions, s) && Tracked(before, s)
    ensures |round.after.next| == |round.after.current| == count
    ensures Round(BFS, before, s, round.changed, round.after) && round.after.current == s.current
    ensures round.after.next[9] == 2 && round.after.current[9] == INFINITE && !Right(BFS, 0, s.edges, round.after.current)
  {
    s0, actions := LateEdges(count);
    var m := Fresh(count)[8 := 1];
    s := State(Late(), m, m, [Idle]);
    before := [{}, {0}];
    round := Iteration([{}, {0, 1}], s.(next := m[9 := 2]));
    LostRound(count, s, before, round);
    var w := [0, 8, 9];
    assert IsWalk(s.edges, w) by { assert Edge(w[0], w[1]) in s.edges && Edge(w[1], w[2]) in s.edges; }
    assert !IsDistance(s.edges, 0, 9, round.after.current[9]);
  }

  lemma LostRound(count: nat, s: State, before: seq<set<nat>>, round: Iteration)
    requires count >= 72 && s == State(Late(), Fresh(count)[8 := 1], Fresh(count)[8 := 1], [Idle])
    requires before == [{}, {0}] && round == Iteration([{}, {0, 1}], s.(next := s.next[9 := 2]))
    ensures Round(BFS, before, s, round.changed, round.after)
  {
    forall v | 0 <= v < count ensures Least(round.after.next[v], s.next[v], EdgeOffers(BFS, s.edges, s.current, v)) {
      if v == 8 { assert EdgeOffers(BFS, s.edges, s.current, v) == {1}; }
      else if v == 9 {
        assert Offer(BFS, s.current[Edge(8, 9).src]) as nat in EdgeOffers(BFS, s.edges, s.current, v);
        assert EdgeOffers(BFS, s.edges, s.current, v) == {2};
      }
      else { assert EdgeOffers(BFS, s.edges, s.current, v) == {}; }
    }
    forall v | 0 <= v < count ensures !Applied(round.changed, count, v) {
      if Marked(round.changed, v) { NotLookedAt(round.changed, count, v); }
    }
    assert AppliedValues(round.after.next, s.current, round.changed) == s.current;
  }

  lemma NotLookedAt(changed: seq<set<nat>>, count: nat, v: nat)
    requires changed == [{}, {0, 1}] && count >= 72 && Marked(changed, v)
    ensures (v == 8 || v == 9) && !LookedAt(changed, count, v)
  {
  }
}
