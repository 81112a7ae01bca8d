/** Labels over insert-only runs: insertions, pull steps and apply steps of any number of threads interleave, with one
    access to the vertex arrays at a time and no locks. */
module Labels {
  import opened LocalEdges
  import opened VertexPrograms

  /** What a thread is doing.  Changed to SetCurrent are the steps of edgeChanged for an inserted edge; Pull to Swap those
      of a pulled edge, whose push reads the old label, reads it again to reduce with it, and then tries to swap; Applying
      and ReloadOwn are the rest of apply. */
  datatype Pc =
    | Idle
    | Changed(e: Edge)
    | Compared(e: Edge, x: value)
    | Reload(e: Edge)
    | SetNext(e: Edge, x: value)
    | ReloadCurrent(e: Edge)
    | SetCurrent(v: nat, x: value)
    | Pull(e: Edge)
    | Push(v: nat, x: value)
    | Reduce(v: nat, x: value, old_value: value)
    | Swap(v: nat, x: value, old_value: value, new_value: value)
    | Applying(v: nat, x: value)
    | ReloadOwn(v: nat)

  datatype State = State(edges: set<Edge>, next: seq<value>, current: seq<value>, pcs: seq<Pc>)

  /** What an idle thread can begin. */
  datatype Job = Insert(e: Edge) | PullEdge(e: Edge) | Apply(v: nat)

  predicate InRange(s: State, e: Edge) {
    e.src < |s.next| && e.tgt < |s.next|
  }

  predicate CanBegin(s: State, t: nat, j: Job) {
    && t < |s.pcs| && s.pcs[t] == Idle && |s.current| == |s.next|
    && match j
       case Insert(e) => InRange(s, e)
       case PullEdge(e) => InRange(s, e) && e in s.edges
       case Apply(v) => v < |s.next|
  }

  function Begin(s: State, t: nat, j: Job): State
    requires CanBegin(s, t, j)
  {
    match j
    case Insert(e) => s.(edges := s.edges + {e}, pcs := s.pcs[t := Changed(e)])
    case PullEdge(e) => s.(pcs := s.pcs[t := Pull(e)])
    case Apply(v) => s.(pcs := s.pcs[t := Applying(v, s.next[v])])
  }

  /** The vertex a thread is about to read or write lies in the arrays. */
  predicate PcInRange(s: State, pc: Pc) {
    match pc
    case Idle => true
    case Changed(e) => InRange(s, e)
    case Compared(e, _) => InRange(s, e)
    case Reload(e) => InRange(s, e)
    case SetNext(e, _) => InRange(s, e)
    case ReloadCurrent(e) => InRange(s, e)
    case SetCurrent(v, _) => v < |s.next|
    case Pull(e) => InRange(s, e)
    case Push(v, _) => v < |s.next|
    case Reduce(v, _, _) => v < |s.next|
    case Swap(v, _, _, _) => v < |s.next|
    case Applying(v, _) => v < |s.next|
    case ReloadOwn(v) => v < |s.next|
  }

  predicate CanContinue(s: State, t: nat) {
    t < |s.pcs| && s.pcs[t] != Idle && |s.current| == |s.next| && PcInRange(s, s.pcs[t])
  }

  /** The thread's next program counter. */
  function NextPc(p: Program, s: State, pc: Pc): Pc
    requires |s.current| == |s.next| && PcInRange(s, pc)
  {
    match pc
    case Idle => Idle
    case Changed(e) => if p == BFS && s.next[e.src] == INFINITE then Idle else Compared(e, s.next[e.src])
    case Compared(e, x) =>
      if p == BFS then (if x < INFINITE && x + 1 < s.next[e.tgt] then SetNext(e, x + 1) else Idle)
      else if x < s.next[e.tgt] then Reload(e) else Idle
    case Reload(e) => SetNext(e, s.next[e.src])
    case SetNext(e, x) => if p == BFS then SetCurrent(e.tgt, x) else ReloadCurrent(e)
    case ReloadCurrent(e) => SetCurrent(e.tgt, s.next[e.src])
    case SetCurrent(_, _) => Idle
    case Pull(e) => if s.current[e.src] == INFINITE then Idle else Push(e.tgt, Offer(p, s.current[e.src]))
    case Push(v, x) => Reduce(v, x, s.next[v])
    case Reduce(v, x, old_value) => Swap(v, x, old_value, if x < s.next[v] then x else s.next[v])
    case Swap(v, x, old_value, new_value) => if old_value != new_value && s.next[v] != old_value then Push(v, x) else Idle
    case Applying(v, x) => if x == s.current[v] then Idle else if p == BFS then SetCurrent(v, x) else ReloadOwn(v)
    case ReloadOwn(v) => SetCurrent(v, s.next[v])
  }

  /** What the step writes to the arrays. */
  function NextArray(s: State, pc: Pc): seq<value>
    requires PcInRange(s, pc)
  {
    match pc
    case SetNext(e, x) => s.next[e.tgt := x]
    case Swap(v, _, old_value, new_value) =>
      if old_value != new_value && s.next[v] == old_value then s.next[v := new_value] else s.next
    case _ => s.next
  }

  function CurrentArray(s: State, pc: Pc): seq<value>
    requires |s.current| == |s.next| && PcInRange(s, pc)
  {
    if pc.SetCurrent? then s.current[pc.v := pc.x] else s.current
  }

  function Continue(p: Program, s: State, t: nat): State
    requires CanContinue(s, t)
  {
    var pc := s.pcs[t];
    State(s.edges, NextArray(s, pc), CurrentArray(s, pc), s.pcs[t := NextPc(p, s, pc)])
  }

  // ---- What a label means.

  predicate IsWalk(edges: set<Edge>, w: seq<nat>) {
    w != [] && forall i {:trigger w[i]} :: 0 <= i < |w| - 1 ==> Edge(w[i], w[i + 1]) in edges
  }

  /** The walk `w` gives vertex `v` the label `x`: its length from the start vertex, or the id it comes from. */
  predicate Gives(p: Program, edges: set<Edge>, start: nat, v: nat, x: nat, w: seq<nat>) {
    IsWalk(edges, w) && w[|w| - 1] == v && if p == BFS then w[0] == start && |w| - 1 == x else w[0] == x
  }

  /** Label `x` of vertex `v` is infinite or given by a walk of the inserted graph. */
  ghost predicate Good(p: Program, edges: set<Edge>, start: nat, v: nat, x: nat) {
    x == INFINITE || exists w :: Gives(p, edges, start, v, x, w)
  }

  lemma GoodLater(p: Program, edges: set<Edge>, edges': set<Edge>, start: nat, v: nat, x: nat)
    requires Good(p, edges, start, v, x) && edges <= edges'
    ensures Good(p, edges', start, v, x)
  {
    if x != INFINITE {
      var w :| Gives(p, edges, start, v, x, w);
      assert Gives(p, edges', start, v, x, w);
    }
  }

  /** What a good label offers along an edge is good. */
  lemma GoodOffer(p: Program, edges: set<Edge>, start: nat, e: Edge, x: value)
    requires Good(p, edges, start, e.src, x) && e in edges
    ensures Good(p, edges, start, e.tgt, Offer(p, x))
  {
    if x != INFINITE {
      var w :| Gives(p, edges, start, e.src, x, w);
      var w' := w + [e.tgt];
      forall i | 0 <= i < |w'| - 1 ensures Edge(w'[i], w'[i + 1]) in edges {
        if i < |w| - 1 { assert w'[i] == w[i] && w'[i + 1] == w[i + 1]; }
      }
      assert Gives(p, edges, start, e.tgt, Offer(p, x), w');
    }
  }

  // ---- Soundness: what every step keeps.

  /** A vertex with a smaller id reaches `v`. */
  ghost predicate HasSmaller(edges: set<Edge>, v: nat) {
    exists x: nat, w :: x < v && Gives(CC, edges, 0, v, x, w)
  }

  lemma HasSmallerLater(edges: set<Edge>, edges': set<Edge>, v: nat)
    requires HasSmaller(edges, v) && edges <= edges'
    ensures HasSmaller(edges', v)
  {
    var x: nat, w :| x < v && Gives(CC, edges, 0, v, x, w);
    assert Gives(CC, edges', 0, v, x, w);
  }

  /** What a thread knows. */
  ghost predicate PcOk(p: Program, start: nat, edges: set<Edge>, pc: Pc) {
    match pc
    case Idle => true
    case Changed(e) => e in edges
    case Compared(e, x) => e in edges && Good(p, edges, start, e.src, x)
    case Reload(e) => e in edges && p == CC && HasSmaller(edges, e.tgt)
    case SetNext(e, x) =>
      e in edges && Good(p, edges, start, e.tgt, x) && if p == BFS then e.tgt != start else HasSmaller(edges, e.tgt)
    case ReloadCurrent(e) => e in edges && p == CC
    case SetCurrent(v, x) => Good(p, edges, start, v, x)
    case Pull(e) => e in edges
    case Push(v, x) => Good(p, edges, start, v, x)
    case Reduce(v, x, _) => Good(p, edges, start, v, x)
    case Swap(v, x, _, new_value) =>
      && Good(p, edges, start, v, x) && Good(p, edges, start, v, new_value) && new_value <= x
      && if p == BFS then v == start ==> new_value == 0 else new_value <= v || HasSmaller(edges, v)
    case Applying(v, x) => Good(p, edges, start, v, x)
    case ReloadOwn(v) => true
  }

  /** The labels of vertex `v` are good.  The start vertex keeps distance 0; a vertex can only lose its own id as its
      component if a smaller one reaches it. */
  ghost predicate VertexOk(p: Program, start: nat, s: State, v: nat)
    requires v < |s.next| == |s.current|
  {
    && Good(p, s.edges, start, v, s.next[v]) && Good(p, s.edges, start, v, s.current[v])
    && (p == BFS && v == start ==> s.next[v] == 0)
    && (p == CC ==> s.next[v] <= v || HasSmaller(s.edges, v))
  }

  ghost predicate Inv(p: Program, start: nat, s: State) {
    && |s.current| == |s.next|
    && (forall t {:trigger s.pcs[t]} :: 0 <= t < |s.pcs| ==> PcInRange(s, s.pcs[t]) && PcOk(p, start, s.edges, s.pcs[t]))
    && (forall v {:trigger s.next[v]} :: 0 <= v < |s.next| ==> VertexOk(p, start, s, v))
  }

  lemma PcLater(p: Program, start: nat, edges: set<Edge>, edges': set<Edge>, pc: Pc)
    requires PcOk(p, start, edges, pc) && edges <= edges'
    ensures PcOk(p, start, edges', pc)
  {
    hide Good, HasSmaller;
    match pc
    case Compared(e, x) => GoodLater(p, edges, edges', start, e.src, x);
    case Reload(e) => HasSmallerLater(edges, edges', e.tgt);
    case SetNext(e, x) =>
      GoodLater(p, edges, edges', start, e.tgt, x);
      if p == CC { HasSmallerLater(edges, edges', e.tgt); }
    case SetCurrent(v, x) => GoodLater(p, edges, edges', start, v, x);
    case Push(v, x) => GoodLater(p, edges, edges', start, v, x);
    case Reduce(v, x, _) => GoodLater(p, edges, edges', start, v, x);
    case Swap(v, x, _, new_value) =>
      GoodLater(p, edges, edges', start, v, x);
      GoodLater(p, edges, edges', start, v, new_value);
      if p == CC && new_value > v { HasSmallerLater(edges, edges', v); }
    case Applying(v, x) => GoodLater(p, edges, edges', start, v, x);
    case _ =>
  }

  lemma VertexLater(p: Program, start: nat, s: State, edges': set<Edge>, v: nat)
    requires v < |s.next| == |s.current| && VertexOk(p, start, s, v) && s.edges <= edges'
    ensures VertexOk(p, start, s.(edges := edges'), v)
  {
    hide Good, HasSmaller;
    GoodLater(p, s.edges, edges', start, v, s.next[v]);
    GoodLater(p, s.edges, edges', start, v, s.current[v]);
    if p == CC && s.next[v] > v { HasSmallerLater(s.edges, edges', v); }
  }

  lemma InvVertex(p: Program, start: nat, s: State, v: nat)
    requires Inv(p, start, s) && v < |s.next|
    ensures VertexOk(p, start, s, v)
  {
    assert s.next[v] >= 0;
  }

  lemma BeginInv(p: Program, start: nat, s: State, t: nat, j: Job)
    requires Inv(p, start, s) && CanBegin(s, t, j)
    ensures Inv(p, start, Begin(s, t, j))
  {
    hide PcOk, VertexOk;
    var s' := Begin(s, t, j);
    forall u | 0 <= u < |s.pcs| ensures PcInRange(s', s'.pcs[u]) && PcOk(p, start, s'.edges, s'.pcs[u]) {
      if u != t {
        assert PcInRange(s, s.pcs[u]);
        PcLater(p, start, s.edges, s'.edges, s.pcs[u]);
      } else {
        BegunPc(p, start, s, t, j);
      }
    }
    forall v | 0 <= v < |s'.next| ensures VertexOk(p, start, s', v) {
      InvVertex(p, start, s, v);
      VertexLater(p, start, s, s'.edges, v);
      SameVertex(p, start, s.(edges := s'.edges), s', v);
    }
  }

  lemma SameVertex(p: Program, start: nat, s: State, s': State, v: nat)
    requires v < |s.next| == |s.current| && VertexOk(p, start, s, v) && s' == s.(pcs := s'.pcs)
    ensures VertexOk(p, start, s', v)
  {
  }

  lemma BegunPc(p: Program, start: nat, s: State, t: nat, j: Job)
    requires Inv(p, start, s) && CanBegin(s, t, j)
    ensures PcOk(p, start, Begin(s, t, j).edges, Begin(s, t, j).pcs[t])
  {
    if j.Apply? { InvVertex(p, start, s, j.v); }
  }

  /** A compared edge shows that a smaller id reaches its target. */
  lemma ComparedSmaller(start: nat, s: State, e: Edge, x: value)
    requires e in s.edges && Good(CC, s.edges, start, e.src, x) && InRange(s, e) && |s.current| == |s.next|
    requires VertexOk(CC, start, s, e.tgt) && x < s.next[e.tgt]
    ensures HasSmaller(s.edges, e.tgt)
  {
    if s.next[e.tgt] <= e.tgt {
      GoodOffer(CC, s.edges, start, e, x);
      var w :| Gives(CC, s.edges, start, e.tgt, x, w);
      assert Gives(CC, s.edges, 0, e.tgt, x as nat, w);
    }
  }

  lemma ContinuedPc(p: Program, start: nat, s: State, pc: Pc)
    requires Inv(p, start, s) && PcInRange(s, pc) && PcOk(p, start, s.edges, pc)
    ensures PcInRange(s, NextPc(p, s, pc)) && PcOk(p, start, s.edges, NextPc(p, s, pc))
  {
    hide Good, HasSmaller;
    match pc
    case Compared(e, x) =>
      GoodOffer(p, s.edges, start, e, x);
      if p == CC && x < s.next[e.tgt] { ComparedSmaller(start, s, e, x); }
    case Reload(e) => GoodOffer(p, s.edges, start, e, s.next[e.src]);
    case ReloadCurrent(e) => GoodOffer(p, s.edges, start, e, s.next[e.src]);
    case Pull(e) =>
      InvVertex(p, start, s, e.src);
      GoodOffer(p, s.edges, start, e, s.current[e.src]);
    case Reduce(v, _, _) => InvVertex(p, start, s, v);
    case _ =>
  }

  lemma ContinuedVertex(p: Program, start: nat, s: State, t: nat, v: nat)
    requires CanContinue(s, t) && PcOk(p, start, s.edges, s.pcs[t]) && v < |s.next| && VertexOk(p, start, s, v)
    ensures |Continue(p, s, t).next| == |Continue(p, s, t).current| == |s.next|
    ensures VertexOk(p, start, Continue(p, s, t), v)
  {
    hide Good, HasSmaller, NextPc;
  }

  lemma ContinueInv(p: Program, start: nat, s: State, t: nat)
    requires Inv(p, start, s) && CanContinue(s, t)
    ensures Inv(p, start, Continue(p, s, t))
  {
    hide PcOk, VertexOk, NextPc, NextArray, CurrentArray;
    var s' := Continue(p, s, t);
    ContinuedPc(p, start, s, s.pcs[t]);
    Lengths(p, s, t);
    forall u | 0 <= u < |s.pcs| ensures PcInRange(s', s'.pcs[u]) && PcOk(p, start, s'.edges, s'.pcs[u]) {
      assert PcInRange(s, s.pcs[u]) && PcOk(p, start, s.edges, s.pcs[u]);
    }
    forall v | 0 <= v < |s'.next| ensures VertexOk(p, start, s', v) {
      InvVertex(p, start, s, v);
      ContinuedVertex(p, start, s, t, v);
    }
  }

  lemma Lengths(p: Program, s: State, t: nat)
    requires CanContinue(s, t)
    ensures |Continue(p, s, t).next| == |s.next| && |Continue(p, s, t).current| == |s.next|
    ensures Continue(p, s, t).edges == s.edges && Continue(p, s, t).pcs == s.pcs[t := NextPc(p, s, s.pcs[t])]
  {
  }

  // ---- Whole runs.

  /** A thread begins a job or takes its next step. */
  datatype Action = Start(t: nat, j: Job) | Step(t: nat)

  predicate CanAct(s: State, a: Action) {
    match a
    case Start(t, j) => CanBegin(s, t, j)
    case Step(t) => CanContinue(s, t)
  }

  function Act(p: Program, s: State, a: Action): State
    requires CanAct(s, a)
  {
    match a
    case Start(t, j) => Begin(s, t, j)
    case Step(t) => Continue(p, s, t)
  }

  ghost predicate Runs(p: Program, s: State, actions: seq<Action>, s': State)
    decreases |actions|
  {
    if actions == [] then s' == s
    else CanAct(s, actions[0]) && Runs(p, Act(p, s, actions[0]), actions[1..], s')
  }

  lemma ActInv(p: Program, start: nat, s: State, a: Action)
    requires Inv(p, start, s) && CanAct(s, a)
    ensures Inv(p, start, Act(p, s, a))
  {
    match a
    case Start(t, j) => BeginInv(p, start, s, t, j);
    case Step(t) => ContinueInv(p, start, s, t);
  }

  lemma {:induction false} RunInv(p: Program, start: nat, s: State, actions: seq<Action>, s': State)
    requires Inv(p, start, s) && Runs(p, s, actions, s')
    ensures Inv(p, start, s')
    decreases |actions|
  {
    if actions != [] {
      ActInv(p, start, s, actions[0]);
      RunInv(p, start, Act(p, s, actions[0]), actions[1..], s');
    }
  }

  /** init_vertices: BFS starts with distance 0 for the start vertex only, CC with every vertex in its own component. */
  ghost predicate Initial(p: Program, start: nat, s: State) {
    && s.edges == {} && |s.next| == |s.current| <= INFINITE && (p == BFS ==> start < |s.next|)
    && (forall t {:trigger s.pcs[t]} :: 0 <= t < |s.pcs| ==> s.pcs[t] == Idle)
    && (forall v {:trigger s.next[v]} {:trigger s.current[v]} :: 0 <= v < |s.next| ==>
          s.next[v] == s.current[v] == if p == CC then v else if v == start then 0 else INFINITE)
  }

  lemma InitialInv(p: Program, start: nat, s: State)
    requires Initial(p, start, s)
    ensures Inv(p, start, s)
  {
    forall v | 0 <= v < |s.next| ensures VertexOk(p, start, s, v) {
      if p == CC {
        assert Gives(p, s.edges, start, v, v, [v]);
      } else if v == start {
        assert Gives(p, s.edges, start, v, 0, [v]);
      }
    }
  }

  /** Whatever the threads do, every finite label is the length of a walk from the start vertex of the inserted graph,
      or the id of a vertex that reaches its own. */
  lemma LabelsAreSound(p: Program, start: nat, s0: State, actions: seq<Action>, s: State, v: nat)
    requires Initial(p, start, s0) && Runs(p, s0, actions, s) && v < |s.next|
    ensures |s.current| == |s.next| && Good(p, s.edges, start, v, s.next[v]) && Good(p, s.edges, start, v, s.current[v])
  {
    InitialInv(p, start, s0);
    RunInv(p, start, s0, actions, s);
    InvVertex(p, start, s, v);
  }

  // ---- Exactness.

  /** A flat round over all edges would change nothing, and apply has nothing to copy. */
  ghost predicate Settled(p: Program, s: State) {
    && s.current == s.next
    && (forall e {:trigger e in s.edges} :: e in s.edges ==> InRange(s, e) && s.next[e.tgt] <= Offer(p, s.current[e.src]))
  }

  /** What a walk says about its last vertex, from what is known about its first. */
  function WalkBound(p: Program, x: nat, steps: nat): nat {
    if p == BFS && x + steps < INFINITE then x + steps else if p == BFS then INFINITE else x
  }

  lemma {:induction false} SettledAlongWalk(p: Program, s: State, w: seq<nat>)
    requires Settled(p, s) && IsWalk(s.edges, w) && w[0] < |s.next|
    ensures w[|w| - 1] < |s.next| && s.next[w[|w| - 1]] <= WalkBound(p, s.next[w[0]], |w| - 1)
    decreases |w|
  {
    if |w| > 1 {
      var w' := w[..|w| - 1];
      forall i | 0 <= i < |w'| - 1 ensures Edge(w'[i], w'[i + 1]) in s.edges {
        assert w'[i] == w[i] && w'[i + 1] == w[i + 1];
      }
      SettledAlongWalk(p, s, w');
      assert Edge(w[|w| - 2], w[|w| - 1]) in s.edges;
    }
  }

  /** The label `x` of vertex `v` is the length of the shortest walk from the start vertex; vertices at distance 2^32 - 1 or
      more, or out of reach, have none. */
  ghost predicate IsDistance(edges: set<Edge>, start: nat, v: nat, x: value) {
    && (x < INFINITE ==> exists w :: Gives(BFS, edges, start, v, x, w))
    && (forall w: seq<nat> {:trigger IsWalk(edges, w)} :: IsWalk(edges, w) && w[0] == start && w[|w| - 1] == v ==> x <= |w| - 1)
    && (x == INFINITE <==> forall w: seq<nat> {:trigger IsWalk(edges, w)} ::
          IsWalk(edges, w) && w[0] == start && w[|w| - 1] == v ==> |w| - 1 >= INFINITE)
  }

  ghost predicate AreDistances(edges: set<Edge>, start: nat, labels: seq<value>) {
    forall v {:trigger labels[v]} :: 0 <= v < |labels| ==> IsDistance(edges, start, v, labels[v])
  }

  /** Once a flat round changes nothing, breadth-first labels are the shortest distances. */
  lemma SettledDistances(start: nat, s: State)
    requires Inv(BFS, start, s) && Settled(BFS, s) && start < |s.next|
    ensures AreDistances(s.edges, start, s.next)
  {
    InvVertex(BFS, start, s, start);
    forall v | 0 <= v < |s.next| ensures IsDistance(s.edges, start, v, s.next[v]) {
      InvVertex(BFS, start, s, v);
      forall w: seq<nat> | IsWalk(s.edges, w) && w[0] == start && w[|w| - 1] == v ensures s.next[v] <= WalkBound(BFS, 0, |w| - 1) {
        SettledAlongWalk(BFS, s, w);
      }
    }
  }

  lemma {:induction false} SameLength(p: Program, s: State, actions: seq<Action>, s': State)
    requires Runs(p, s, actions, s')
    ensures |s'.next| == |s.next|
    decreases |actions|
  {
    if actions != [] {
      SameLength(p, Act(p, s, actions[0]), actions[1..], s');
    }
  }

  lemma Joined(edges: set<Edge>, a: seq<nat>, b: seq<nat>)
    requires IsWalk(edges, a) && IsWalk(edges, b) && a[|a| - 1] == b[0]
    ensures IsWalk(edges, a + b[1..]) && (a + b[1..])[0] == a[0] && (a + b[1..])[|a + b[1..]| - 1] == b[|b| - 1]
  {
    var w := a + b[1..];
    forall i | 0 <= i < |w| - 1 ensures Edge(w[i], w[i + 1]) in edges {
      if i < |a| - 1 {
        assert w[i] == a[i] && w[i + 1] == a[i + 1];
      } else {
        assert w[i] == b[i - |a| + 1] && w[i + 1] == b[i - |a| + 2];
      }
    }
  }

  lemma {:induction false} ComponentBound(s: State, v: nat, w: seq<nat>)
    requires Inv(CC, 0, s) && Settled(CC, s) && v < |s.next| && IsWalk(s.edges, w) && w[|w| - 1] == v
    ensures s.next[v] <= w[0] < |s.next|
    decreases w[0]
  {
    hide PcOk, PcInRange, Inv, Good;
    if |w| > 1 { assert Edge(w[0], w[1]) in s.edges; }
    InvVertex(CC, 0, s, w[0]);
    if s.next[w[0]] <= w[0] {
      SettledAlongWalk(CC, s, w);
    } else {
      var x: nat, w' :| x < w[0] && Gives(CC, s.edges, 0, w[0], x, w');
      Joined(s.edges, w', w);
      ComponentBound(s, v, w' + w[1..]);
    }
  }

  /** The label `x` is the least vertex from which a walk leads to `v`. */
  ghost predicate IsComponent(edges: set<Edge>, v: nat, x: nat) {
    && (exists w :: Gives(CC, edges, 0, v, x, w))
    && (forall w: seq<nat> {:trigger IsWalk(edges, w)} :: IsWalk(edges, w) && w[|w| - 1] == v ==> x <= w[0])
  }

  ghost predicate AreComponents(edges: set<Edge>, labels: seq<value>) {
    forall v {:trigger labels[v]} :: 0 <= v < |labels| ==> IsComponent(edges, v, labels[v])
  }

  /** Once a flat round changes nothing, the component of every vertex is the least id that reaches it: racing
      insertions cannot make a vertex lose its own id for good. */
  lemma SettledComponents(s: State)
    requires Inv(CC, 0, s) && Settled(CC, s) && |s.next| <= INFINITE
    ensures AreComponents(s.edges, s.next)
  {
    forall v | 0 <= v < |s.next| ensures IsComponent(s.edges, v, s.next[v]) {
      InvVertex(CC, 0, s, v);
      forall w: seq<nat> | IsWalk(s.edges, w) && w[|w| - 1] == v ensures s.next[v] <= w[0] {
        ComponentBound(s, v, w);
      }
      ComponentBound(s, v, [v]);
    }
  }

  // ---- What a thread does if nobody else takes a step.

  /** At most `n` steps of thread `t` alone. */
  function Alone(p: Program, s: State, t: nat, n: nat): State
    decreases n
  {
    if n == 0 || !CanContinue(s, t) then s else Alone(p, Continue(p, s, t), t, n - 1)
  }

  function Lower(a: value, b: value): value {
    if a < b then a else b
  }

  /** The state after one more step, or at the end. */
  lemma AloneStep(p: Program, s: State, t: nat, n: nat)
    requires CanContinue(s, t) && n > 0
    ensures Alone(p, s, t, n) == Alone(p, Continue(p, s, t), t, n - 1)
    ensures Continue(p, s, t).pcs[t] == Idle ==> Alone(p, s, t, n) == Continue(p, s, t)
  {
  }

  /** An inserted edge lowers both labels of its target to what the source offers, if that is less, and changes nothing
      else. */
  lemma InsertAlone(p: Program, s: State, t: nat, e: Edge)
    requires CanBegin(s, t, Insert(e))
    ensures
      var x := Lower(Offer(p, s.next[e.src]), s.next[e.tgt]);
      Alone(p, Begin(s, t, Insert(e)), t, 6) ==
        s.(edges := s.edges + {e}, next := s.next[e.tgt := x],
           current := if x < s.next[e.tgt] then s.current[e.tgt := x] else s.current)
  {
    hide Alone;
    var s0 := Begin(s, t, Insert(e));
    var s1 := Continue(p, s0, t);
    AloneStep(p, s0, t, 6);
    if s1.pcs[t] == Idle {
      assert s1.pcs == s.pcs;
    } else {
      var s2 := Continue(p, s1, t);
      AloneStep(p, s1, t, 5);
      if s2.pcs[t] == Idle {
        assert s2.pcs == s.pcs;
      } else {
        assert s2.pcs == s.pcs[t := s2.pcs[t]];
        FinishInsert(p, s, s2, t, e);
      }
    }
  }

  /** edgeChanged behind its test. */
  lemma FinishInsert(p: Program, s: State, s2: State, t: nat, e: Edge)
    requires CanBegin(s, t, Insert(e)) && e.src != e.tgt && Offer(p, s.next[e.src]) < s.next[e.tgt]
    requires s2 == s.(edges := s.edges + {e}, pcs := s.pcs[t := if p == BFS then SetNext(e, Offer(p, s.next[e.src])) else Reload(e)])
    ensures
      var x := Offer(p, s.next[e.src]);
      Alone(p, s2, t, 4) ==
        s.(edges := s.edges + {e}, next := s.next[e.tgt := x], current := s.current[e.tgt := x])
  {
    hide Alone;
    var x := Offer(p, s.next[e.src]);
    var s3 := Continue(p, s2, t);
    var s4 := Continue(p, s3, t);
    AloneStep(p, s2, t, 4);
    AloneStep(p, s3, t, 3);
    if p == CC {
      assert s4.pcs[t] == ReloadCurrent(e) && s4.next[e.src] == x;
      var s5 := Continue(p, s4, t);
      AloneStep(p, s4, t, 2);
      AloneStep(p, s5, t, 1);
      assert Continue(p, s5, t).pcs == s.pcs;
    } else {
      assert s4.pcs == s.pcs;
    }
  }

  /** A pulled edge lowers the next label of its target to what the current label of its source offers, if that is less,
      and changes nothing else. */
  lemma PullAlone(p: Program, s: State, t: nat, e: Edge)
    requires CanBegin(s, t, PullEdge(e))
    ensures Alone(p, Begin(s, t, PullEdge(e)), t, 4) ==
              s.(next := s.next[e.tgt := Lower(Offer(p, s.current[e.src]), s.next[e.tgt])])
  {
    hide Alone;
    var s0 := Begin(s, t, PullEdge(e));
    var s1 := Continue(p, s0, t);
    AloneStep(p, s0, t, 4);
    if s1.pcs[t] == Idle {
      assert s1.pcs == s.pcs;
    } else {
      PushAlone(p, s, s1, t, e.tgt, Offer(p, s.current[e.src]));
    }
  }

  lemma PushAlone(p: Program, s: State, s1: State, t: nat, v: nat, x: value)
    requires t < |s.pcs| && s.pcs[t] == Idle && |s.current| == |s.next| && v < |s.next| && s1 == s.(pcs := s.pcs[t := Push(v, x)])
    ensures Alone(p, s1, t, 3) == s.(next := s.next[v := Lower(x, s.next[v])])
  {
    hide Alone;
    var s2 := Continue(p, s1, t);
    var s3 := Continue(p, s2, t);
    AloneStep(p, s1, t, 3);
    AloneStep(p, s2, t, 2);
    AloneStep(p, s3, t, 1);
    assert Continue(p, s3, t).pcs == s.pcs;
  }

  /** Applying a vertex makes its current label the next one and changes nothing else. */
  lemma ApplyAlone(p: Program, s: State, t: nat, v: nat)
    requires CanBegin(s, t, Apply(v))
    ensures Alone(p, Begin(s, t, Apply(v)), t, 3) == s.(current := s.current[v := s.next[v]])
  {
    hide Alone;
    var s0 := Begin(s, t, Apply(v));
    var s1 := Continue(p, s0, t);
    AloneStep(p, s0, t, 3);
    if s1.pcs[t] == Idle {
      assert s1.pcs == s.pcs;
    } else {
      var s2 := Continue(p, s1, t);
      AloneStep(p, s1, t, 2);
      if s2.pcs[t] == Idle {
        assert s2.pcs == s.pcs;
      } else {
        AloneStep(p, s2, t, 1);
        assert Continue(p, s2, t).pcs == s.pcs;
      }
    }
  }

  /** Whatever others do meanwhile: the swap at the end of a push replaces the label if it is the one that was read, and
      changes nothing otherwise.  The push only ends when it has left a label of at most its own value, or when the label
      it had read was no greater than that; if not, it starts again. */
  lemma PushEnds(p: Program, start: nat, s: State, t: nat)
    requires Inv(p, start, s) && CanContinue(s, t) && s.pcs[t].Swap?
    ensures
      var s', Swap(v, x, old_value, new_value) := Continue(p, s, t), s.pcs[t];
      && s' == s.(next := s.next[v := if s.next[v] == old_value then new_value else s.next[v]], pcs := s'.pcs)
      && if s'.pcs[t] == Idle then s'.next[v] <= x || old_value <= x else s'.pcs[t] == Push(v, x) && s'.next[v] != old_value
  {
    hide Good, HasSmaller, VertexOk;
    assert PcOk(p, start, s.edges, s.pcs[t]);
  }
}
