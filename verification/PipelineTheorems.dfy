/** The end of the pipeline: counted shutdowns lose no edge.  The main results about whole runs. */
module PipelineTheorems {
  import opened Sums
  import opened LocalEdges
  import opened TileManagers
  import opened Pipeline
  import opened PipelineConservation
  import opened PipelineOwnership
  import opened PipelineOrder
  import opened PipelineBatches

  /** Position `i` of the queue is the final batch of provider `p`. */
  predicate FinalAt(queue: seq<Message>, i: nat, p: nat) {
    i < |queue| && queue[i].last && queue[i].provider == p
  }

  predicate AllEmpty(temp: seq<seq<Edge>>) {
    forall m {:trigger temp[m]} :: 0 <= m < |temp| ==> temp[m] == []
  }

  /** The shutdown counter counts the providers whose final batch was received, and the flag is up when that is all. */
  ghost predicate ShutdownsCounted(c: Config, s: State) {
    && (forall p {:trigger p in s.finals} :: p in s.finals ==> p < c.providers)
    && s.shutdowns == |s.finals| <= c.providers
    && (s.shutdown <==> |s.finals| == c.providers)
    && (s.inserter == Ended ==> s.shutdown)
    && (s.inserter == Receiving ==> !s.shutdown)
  }

  /** A provider's final batch is behind all its others, and nothing comes after it. */
  ghost predicate FinalsLast(c: Config, s: State)
    requires |s.providers| == c.providers
  {
    && (forall i {:trigger s.queue[i]} :: 0 <= i < |s.queue| ==> s.queue[i].provider < c.providers && s.queue[i].provider !in s.finals)
    && (forall i, j {:trigger s.queue[i], s.queue[j]} :: 0 <= i < j < |s.queue| && s.queue[i].last ==>
          s.queue[j].provider != s.queue[i].provider)
    && (forall i {:trigger s.queue[i]} :: 0 <= i < |s.queue| && s.queue[i].last ==> s.providers[s.queue[i].provider].closed)
  }

  /** A closed provider has sent everything, and its final batch is on its way or has been received. */
  ghost predicate ClosedSent(c: Config, s: State)
    requires |s.providers| == c.providers
  {
    && (forall p {:trigger s.providers[p]} :: 0 <= p < c.providers && s.providers[p].closed ==>
          AllEmpty(s.providers[p].temp) && (p in s.finals || exists i: nat :: FinalAt(s.queue, i, p)))
    && (forall p {:trigger p in s.finals} :: p in s.finals ==> p < c.providers && s.providers[p].closed)
  }

  ghost predicate Counted(c: Config, s: State) {
    ConfigOk(c) && |s.providers| == c.providers && ShutdownsCounted(c, s) && FinalsLast(c, s) && ClosedSent(c, s)
  }

  /** Shutdown messages for managers come last, one for each, and only after the inserter has ended. */
  ghost predicate JoinOk(c: Config, s: State)
    requires |s.controls| == |s.managers|
  {
    && (s.joining ==> s.inserter == Ended)
    && (forall m {:trigger s.managers[m]} :: 0 <= m < |s.managers| && s.managers[m] == Stopped ==> s.joining && s.controls[m] == [])
    && (forall m, k {:trigger s.controls[m][k]} :: 0 <= m < |s.controls| && 0 <= k < |s.controls[m]| && s.controls[m][k].Shutdown? ==>
          s.joining && k == |s.controls[m]| - 1)
    && (forall m {:trigger s.managers[m]} :: 0 <= m < |s.managers| && s.joining && s.managers[m] != Stopped ==>
          s.controls[m] != [] && s.controls[m][|s.controls[m]| - 1].Shutdown?)
  }

  lemma SentCounted(c: Config, s: State, p: nat, last: bool)
    requires Counted(c, s) && p < c.providers && !s.providers[p].closed
    ensures Counted(c, Sent(c, s, p, last))
  {
    hide AllEmpty, Shares;
    var s' := Sent(c, s, p, last);
    assert p !in s.finals;
    ClosedTemp(c.managers);
    forall q | 0 <= q < c.providers && s'.providers[q].closed
      ensures AllEmpty(s'.providers[q].temp) && (q in s'.finals || exists i: nat :: FinalAt(s'.queue, i, q))
    {
      if q == p {
        assert FinalAt(s'.queue, |s.queue|, p);
      } else if q !in s.finals {
        var i: nat :| FinalAt(s.queue, i, q);
        assert FinalAt(s'.queue, i, q);
      }
    }
  }

  lemma ClosedTemp(n: nat)
    ensures AllEmpty(seq(n, _ => []))
  {
  }

  lemma AddedCounted(c: Config, s: State, p: nat, e: Edge)
    requires Counted(c, s) && p < c.providers == |s.given| && !s.providers[p].closed && |s.providers[p].temp| == c.managers
    ensures Counted(c, Added(c, s, p, e))
  {
    hide AllEmpty, Sent;
    var pr, o := s.providers[p], Owner(c, e);
    var s' := s.(providers := s.providers[p := pr.(temp := pr.temp[o := pr.temp[o] + [e]], size := pr.size + 1)], added := s.added + [e],
                 given := s.given[p := s.given[p] + [e]]);
    assert Counted(c, s');
    if pr.size + 1 >= c.batch { SentCounted(c, s', p, false); }
  }

  lemma FinalsFit(finals: set<nat>, n: nat)
    requires forall p {:trigger p in finals} :: p in finals ==> p < n
    ensures |finals| <= n && (|finals| == n ==> finals == Below(n))
  {
    Subset(finals, Below(n));
  }

  ghost function Below(n: nat): (s: set<nat>)
    ensures |s| == n && forall p {:trigger p in s} :: p in s <==> 0 <= p < n
  {
    if n == 0 then {} else Below(n - 1) + {n - 1}
  }

  lemma {:induction false} Subset(a: set<nat>, b: set<nat>)
    requires a <= b
    ensures |a| <= |b| && (|a| == |b| ==> a == b)
  {
    assert b == a + (b - a);
  }

  lemma ReceivedShutdown(c: Config, s: State)
    requires Counted(c, s) && s.queue != [] && s.inserter == Receiving
    ensures ShutdownsCounted(c, Received(c, s))
  {
    hide ClosedSent, FinalsLast;
    NextIsOpen(c, s);
    OneMoreFinal(s.finals, s.queue[0].provider, c.providers);
  }

  lemma OneMoreFinal(finals: set<nat>, p: nat, n: nat)
    requires p < n && p !in finals && forall q {:trigger q in finals} :: q in finals ==> q < n
    ensures |finals + {p}| == |finals| + 1 <= n
  {
    FinalsFit(finals + {p}, n);
  }

  lemma ReceivedClosed(c: Config, s: State)
    requires Counted(c, s) && s.queue != [] && s.inserter == Receiving
    ensures |Received(c, s).providers| == c.providers && ClosedSent(c, Received(c, s)) && FinalsLast(c, Received(c, s))
  {
    hide AllEmpty;
    var s' := Received(c, s);
    forall p | 0 <= p < c.providers && s'.providers[p].closed
      ensures AllEmpty(s'.providers[p].temp) && (p in s'.finals || exists i: nat :: FinalAt(s'.queue, i, p))
    {
      if p !in s'.finals {
        var i: nat :| FinalAt(s.queue, i, p);
        assert i > 0;
        assert FinalAt(s'.queue, i - 1, p);
      }
    }
  }

  lemma ReceivedCounted(c: Config, s: State)
    requires Counted(c, s) && s.queue != [] && s.inserter == Receiving
    ensures Counted(c, Received(c, s))
  {
    ReceivedShutdown(c, s);
    ReceivedClosed(c, s);
  }

  lemma NextIsOpen(c: Config, s: State)
    requires Counted(c, s) && s.queue != []
    ensures s.queue[0].provider < c.providers && s.queue[0].provider !in s.finals
  {
  }

  /** Steps that are not about providers and their messages. */
  lemma OtherCounted(c: Config, s: State, s': State)
    requires Counted(c, s) && s'.providers == s.providers && s'.queue == s.queue && s'.finals == s.finals
    requires s'.shutdowns == s.shutdowns && s'.shutdown == s.shutdown
    requires s'.inserter == Ended ==> s.shutdown
    requires s'.inserter == Receiving ==> !s.shutdown
    ensures Counted(c, s')
  {
  }

  lemma ActCounted(c: Config, s: State, a: Action)
    requires Counted(c, s) && CanAct(c, s, a)
    ensures Counted(c, Act(c, s, a))
  {
    match a
    case Add(p, e) => AddedCounted(c, s, p, e);
    case Finish(p) => SentCounted(c, s, p, true);
    case Receive => ReceivedCounted(c, s);
    case _ =>
      hide Counted;
      CountedEnds(c, s);
      OtherCounted(c, s, Act(c, s, a));
  }

  lemma CountedEnds(c: Config, s: State)
    requires Counted(c, s)
    ensures (s.inserter == Ended ==> s.shutdown) && (s.inserter == Receiving ==> !s.shutdown)
  {
  }

  lemma ActJoinOk(c: Config, s: State, a: Action)
    requires Shaped(c, s) && JoinOk(c, s) && CanAct(c, s, a)
    ensures var s' := Act(c, s, a); |s'.controls| == |s'.managers| && JoinOk(c, s')
  {
    hide JoinOk, Shares, Owner;
    match a
    case Join => JoinedJoinOk(c, s);
    case Forward => ForwardedJoinOk(c, s);
    case Fetch(m) => FetchedJoinOk(c, s, m);
    case Insert(m) => BusyJoinOk(c, s, Inserted(c, s, m), m);
    case Complete(m) => BusyJoinOk(c, s, Completed(c, s, m), m);
    case _ => OtherJoinOk(c, s, a);
  }

  lemma JoinedJoinOk(c: Config, s: State)
    requires Shaped(c, s) && JoinOk(c, s) && !s.joining && s.inserter == Ended
    ensures var s' := Joined(s); |s'.controls| == |s'.managers| && JoinOk(c, s')
  {
    var s' := Joined(s);
    forall m | 0 <= m < |s'.controls| ensures s'.controls[m] == s.controls[m] + [Shutdown] {}
  }

  lemma ForwardedJoinOk(c: Config, s: State)
    requires Shaped(c, s) && JoinOk(c, s) && s.inserter.Forwarding?
    ensures var s' := Forwarded(c, s); |s'.controls| == |s'.managers| && JoinOk(c, s')
  {
  }

  lemma FetchedJoinOk(c: Config, s: State, m: nat)
    requires Shaped(c, s) && JoinOk(c, s) && m < c.managers && s.managers[m] == Waiting && s.controls[m] != []
    ensures var s' := Fetched(s, m); |s'.controls| == |s'.managers| && JoinOk(c, s')
  {
  }

  /** A manager at work. */
  lemma BusyJoinOk(c: Config, s: State, s': State, m: nat)
    requires |s.controls| == |s.managers| && JoinOk(c, s) && m < |s.managers| && s.managers[m].Inserting?
    requires s'.controls == s.controls && s'.joining == s.joining && s'.inserter == s.inserter
    requires |s'.managers| == |s.managers| && s'.managers == s.managers[m := s'.managers[m]] && s'.managers[m] != Stopped
    ensures JoinOk(c, s')
  {
  }

  lemma OtherJoinOk(c: Config, s: State, a: Action)
    requires Shaped(c, s) && JoinOk(c, s) && CanAct(c, s, a)
    requires a.Add? || a.Finish? || a.Receive? || a.Reply? || a.Execute?
    ensures var s' := Act(c, s, a); |s'.controls| == |s'.managers| && JoinOk(c, s')
  {
    hide Shares, Owner;
  }

  // ---- Tiles.

  /** Those of `edges` that belong into tile `t`, in order. */
  function EdgesOf(c: Config, edges: seq<Edge>, t: Coordinates): seq<Edge>
    requires ConfigOk(c)
  {
    if edges == [] then []
    else
      var last := |edges| - 1;
      EdgesOf(c, edges[..last], t) + if TileOf(c, edges[last]) == t then [edges[last]] else []
  }

  /** Every tile holds the local forms of what was stored into it. */
  ghost predicate TilesHold(c: Config, s: State) {
    ConfigOk(c) &&
    forall t {:trigger Contents(s, t)} :: Contents(s, t) == Locals(EdgesOf(c, s.stored, t), c.verticesPerTile)
  }

  lemma ActTilesHold(c: Config, s: State, a: Action)
    requires TilesHold(c, s) && CanAct(c, s, a)
    ensures TilesHold(c, Act(c, s, a))
  {
    hide Inserted, Sent, Added, Received, Forwarded, Replied, Fetched, Completed, Joined, EdgesOf;
    if a.Insert? {
      InsertedTilesHold(c, s, a.m);
    } else {
      StoredStays(c, s, a);
      hide Act, CanAct;
      var s' := Act(c, s, a);
      forall t ensures Contents(s', t) == Locals(EdgesOf(c, s'.stored, t), c.verticesPerTile) {
        assert Contents(s, t) == Contents(s', t);
      }
    }
  }

  lemma InsertedTilesHold(c: Config, s: State, m: nat)
    requires TilesHold(c, s) && m < |s.managers| && s.managers[m].Inserting? && s.managers[m].i < |s.managers[m].edges|
    ensures TilesHold(c, Inserted(c, s, m))
  {
    hide ToLocal, TileOf, Locals, EdgesOf;
    var s', e := Inserted(c, s, m), s.managers[m].edges[s.managers[m].i];
    forall t ensures Contents(s', t) == Locals(EdgesOf(c, s'.stored, t), c.verticesPerTile) {
      assert Contents(s, t) == Locals(EdgesOf(c, s.stored, t), c.verticesPerTile);
      EdgesOfSnoc(c, s.stored, e, t);
      LocalsSnoc(EdgesOf(c, s.stored, t), e, c.verticesPerTile);
    }
  }

  lemma EdgesOfSnoc(c: Config, edges: seq<Edge>, e: Edge, t: Coordinates)
    requires ConfigOk(c)
    ensures EdgesOf(c, edges + [e], t) == EdgesOf(c, edges, t) + if TileOf(c, e) == t then [e] else []
  {
    assert (edges + [e])[..|edges|] == edges;
  }

  lemma LocalsSnoc(edges: seq<Edge>, e: Edge, n: nat)
    requires 1 <= n <= U16
    ensures Locals(edges + [e], n) == Locals(edges, n) + [ToLocal(e, n)] && edges + [] == edges
  {
  }

  lemma StoredStays(c: Config, s: State, a: Action)
    requires CanAct(c, s, a) && !a.Insert?
    ensures Act(c, s, a).stored == s.stored && Act(c, s, a).tiles == s.tiles
  {
    hide Shares, Owner, TileOf, Contents;
    match a
    case Add(_, _) => hide Received, Forwarded, Replied, Fetched, Completed, Joined, NextMessage;
    case Finish(_) => hide Added, Received, Forwarded, Replied, Fetched, Completed, Joined, NextMessage;
    case _ => hide Added, Sent;
  }

  lemma {:induction false} EdgesOfCount(c: Config, edges: seq<Edge>, t: Coordinates, x: Edge)
    requires ConfigOk(c)
    ensures multiset(EdgesOf(c, edges, t))[x] == if TileOf(c, x) == t then multiset(edges)[x] else 0
  {
    hide TileOf;
    if edges != [] {
      EdgesOfCount(c, edges[..|edges| - 1], t, x);
      assert edges == edges[..|edges| - 1] + [edges[|edges| - 1]];
    }
  }

  lemma {:induction false} EdgesOfIsInTile(c: Config, edges: seq<Edge>, t: Coordinates)
    requires ConfigOk(c)
    ensures forall i {:trigger EdgesOf(c, edges, t)[i]} :: 0 <= i < |EdgesOf(c, edges, t)| ==> TileOf(c, EdgesOf(c, edges, t)[i]) == t
  {
    if edges != [] { EdgesOfIsInTile(c, edges[..|edges| - 1], t); }
  }

  /** The edges of tile `t` that the local edges `s` stand for. */
  function Globals(t: Coordinates, s: seq<LocalEdge>, n: nat): (r: seq<Edge>)
    ensures |r| == |s| && forall i {:trigger r[i]} :: 0 <= i < |r| ==> r[i] == ToGlobal(t.x, t.y, s[i], n)
  {
    seq(|s|, i requires 0 <= i < |s| => ToGlobal(t.x, t.y, s[i], n))
  }

  lemma GlobalsOfLocals(c: Config, edges: seq<Edge>, t: Coordinates)
    requires ConfigOk(c) && forall i {:trigger edges[i]} :: 0 <= i < |edges| ==> TileOf(c, edges[i]) == t
    ensures Globals(t, Locals(edges, c.verticesPerTile), c.verticesPerTile) == edges
  {
    forall i | 0 <= i < |edges| ensures ToGlobal(t.x, t.y, ToLocal(edges[i], c.verticesPerTile), c.verticesPerTile) == edges[i] {
      assert TileOf(c, edges[i]) == t;
      GlobalOfLocal(t.x, t.y, edges[i], ToLocal(edges[i], c.verticesPerTile), c.verticesPerTile);
    }
  }

  // ---- Whole runs.

  ghost predicate Inv(c: Config, s: State) {
    && Shaped(c, s) && (forall x {:trigger Conserved(s, x)} :: Conserved(s, x)) && Owned(c, s) && Balanced(c, s)
    && Counted(c, s) && JoinOk(c, s) && TilesHold(c, s) && AllInOrder(c, s) && Tallied(c, s) && AllBatched(c, s)
  }

  lemma InitialInv(c: Config, s: State)
    requires Initial(c, s)
    ensures Inv(c, s)
  {
    hide AllInOrder, AllBatched;
    InitialBatched(c, s);
    InitialInOrder(c, s);
    ClosedTemp(c.managers);
    assert Shaped(c, s);
    forall x ensures Conserved(s, x) { InitialConserved(c, s, x); }
    SumOfZeros(Loads(s));
  }

  lemma InitialConserved(c: Config, s: State, x: Edge)
    requires Initial(c, s)
    ensures Conserved(s, x)
  {
    forall p | 0 <= p < |s.providers| ensures ProviderCounts(s.providers, x)[p] == 0 { EmptyTemp(c.managers, x); }
    SumOfZeros(ProviderCounts(s.providers, x));
    forall m | 0 <= m < |s.controls| ensures AllControlCounts(s.controls, x)[m] == 0 { SumOfZeros(ControlCounts(s.controls[m], x)); }
    SumOfZeros(AllControlCounts(s.controls, x));
    SumOfZeros(ManagerCounts(s.managers, x));
    SumOfZeros(QueueCounts(s.queue, x));
  }

  lemma InitialInOrder(c: Config, s: State)
    requires Initial(c, s)
    ensures AllInOrder(c, s) && Tallied(c, s)
  {
  }

  lemma InitialBatched(c: Config, s: State)
    requires Initial(c, s)
    ensures AllBatched(c, s)
  {
    forall p | 0 <= p < c.providers ensures Batched(c, s, p) {
      assert s.given[p] == [] && s.providers[p] == Provider(seq(c.managers, _ => []), 0, false);
      HeldNothing(c);
    }
  }

  lemma ActInv(c: Config, s: State, a: Action)
    requires Inv(c, s) && CanAct(c, s, a)
    ensures Inv(c, Act(c, s, a))
  {
    hide Shaped, Conserved, Owned, Balanced, Counted, JoinOk, TilesHold, AllInOrder, Tallied, AllBatched, Act, CanAct;
    var s' := Act(c, s, a);
    forall x ensures Conserved(s', x) && Shaped(c, s') { ActConserves(c, s, a, x); }
    ActConserves(c, s, a, Edge(0, 0));
    ActOwned(c, s, a);
    ActBalanced(c, s, a);
    ActCounted(c, s, a);
    ActJoinOk(c, s, a);
    ActTilesHold(c, s, a);
    ActAllInOrder(c, s, a);
    ActTallied(c, s, a);
    ActAllBatched(c, s, a);
  }

  lemma {:induction false} RunInv(c: Config, s: State, actions: seq<Action>, s': State)
    requires Inv(c, s) && Runs(c, s, actions, s')
    ensures Inv(c, s')
    decreases |actions|
  {
    hide Inv, Act;
    if actions != [] {
      ActInv(c, s, actions[0]);
      RunInv(c, Act(c, s, actions[0]), actions[1..], s');
    }
  }

  ghost predicate Reachable(c: Config, s: State) {
    exists s0, actions :: Initial(c, s0) && Runs(c, s0, actions, s)
  }

  lemma ReachableInv(c: Config, s: State)
    requires Reachable(c, s)
    ensures Inv(c, s)
  {
    hide Inv, Initial;
    var s0, actions :| Initial(c, s0) && Runs(c, s0, actions, s);
    InitialInv(c, s0);
    RunInv(c, s0, actions, s);
  }

  /** No two managers ever put edges into the same tile, at whatever times. */
  lemma OneManagerPerTile(c: Config, s: State, m: nat, s': State, m': nat)
    requires Reachable(c, s) && CanAct(c, s, Insert(m)) && Reachable(c, s') && CanAct(c, s', Insert(m'))
    ensures ConfigOk(c)
    ensures var e, e' := s.managers[m].edges[s.managers[m].i], s'.managers[m'].edges[s'.managers[m'].i];
            TileX(c, e) == TileX(c, e') && TileY(c, e) == TileY(c, e') ==> m == m'
  {
    ReachableInv(c, s);
    ReachableInv(c, s');
    PipelineOrder.OwnEdge(c, s, m);
    PipelineOrder.OwnEdge(c, s', m');
  }

  /** In dynamic mode, while the inserter runs the algorithm no manager inserts and none has anything to insert. */
  lemma QuietWhileRunning(c: Config, s: State, m: nat)
    requires Reachable(c, s) && c.dynamic && s.inserter == Running && m < c.managers
    ensures m < |s.managers| == |s.controls| && !s.managers[m].Inserting? && DataMessages(s.controls[m]) == 0
  {
    ReachableInv(c, s);
    assert Balanced(c, s);
    SumIsZero(Loads(s), m);
  }

  /** When all managers have ended, every provider has closed and the tiles hold exactly the edges that were added. */
  lemma NothingLost(c: Config, s: State)
    requires Reachable(c, s) && forall m {:trigger s.managers[m]} :: 0 <= m < |s.managers| ==> s.managers[m] == Stopped
    ensures |s.providers| == c.providers && forall p {:trigger s.providers[p]} :: 0 <= p < c.providers ==> s.providers[p].closed
    ensures multiset(s.stored) == multiset(s.added)
  {
    ReachableInv(c, s);
    AllClosed(c, s);
    forall x ensures multiset(s.stored)[x] == multiset(s.added)[x] {
      assert Conserved(s, x);
      AllStored(c, s, x);
    }
  }

  /** Then every tile holds exactly the added edges of its coordinates: what its local edges stand for is, as a multiset,
      what was passed to addEdge for this tile. */
  lemma TilesComplete(c: Config, s: State, t: Coordinates)
    requires Reachable(c, s) && forall m {:trigger s.managers[m]} :: 0 <= m < |s.managers| ==> s.managers[m] == Stopped
    ensures ConfigOk(c) && multiset(Globals(t, Contents(s, t), c.verticesPerTile)) == multiset(EdgesOf(c, s.added, t))
  {
    ReachableInv(c, s);
    NothingLost(c, s);
    hide Shaped, Conserved, Owned, Balanced, Counted, JoinOk, EdgesOf, Reachable;
    EdgesOfIsInTile(c, s.stored, t);
    GlobalsOfLocals(c, EdgesOf(c, s.stored, t), t);
    forall x ensures multiset(EdgesOf(c, s.stored, t))[x] == multiset(EdgesOf(c, s.added, t))[x] {
      EdgesOfCount(c, s.stored, t, x);
      EdgesOfCount(c, s.added, t, x);
    }
  }

  lemma AllClosed(c: Config, s: State)
    requires Shaped(c, s) && Counted(c, s) && JoinOk(c, s)
    requires forall m {:trigger s.managers[m]} :: 0 <= m < |s.managers| ==> s.managers[m] == Stopped
    ensures s.inserter == Ended && s.queue == []
    ensures forall m {:trigger s.controls[m]} :: 0 <= m < |s.controls| ==> s.controls[m] == []
    ensures forall p {:trigger s.providers[p]} :: 0 <= p < c.providers ==> s.providers[p].closed && AllEmpty(s.providers[p].temp)
  {
    assert s.managers[0] == Stopped;
    FinalsFit(s.finals, c.providers);
    forall m | 0 <= m < |s.controls| ensures s.controls[m] == [] { assert s.managers[m] == Stopped; }
    if s.queue != [] { NextIsOpen(c, s); }
    forall p | 0 <= p < c.providers ensures s.providers[p].closed { assert p in s.finals; }
  }

  lemma AllStored(c: Config, s: State, x: Edge)
    requires Shaped(c, s) && s.inserter == Ended && s.queue == []
    requires forall m {:trigger s.managers[m]} :: 0 <= m < |s.managers| ==> s.managers[m] == Stopped
    requires forall m {:trigger s.controls[m]} :: 0 <= m < |s.controls| ==> s.controls[m] == []
    requires forall p {:trigger s.providers[p]} :: 0 <= p < c.providers ==> AllEmpty(s.providers[p].temp)
    ensures Everywhere(s, x) == Count(s.stored, x)
  {
    forall p | 0 <= p < |s.providers| ensures ProviderCounts(s.providers, x)[p] == 0 { SumOfZeros(TempCounts(s.providers[p].temp, x)); }
    SumOfZeros(ProviderCounts(s.providers, x));
    forall m | 0 <= m < |s.controls| ensures AllControlCounts(s.controls, x)[m] == 0 { SumOfZeros(ControlCounts(s.controls[m], x)); }
    SumOfZeros(AllControlCounts(s.controls, x));
    SumOfZeros(ManagerCounts(s.managers, x));
    SumOfZeros(QueueCounts(s.queue, x));
  }
}
