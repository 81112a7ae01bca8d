/** No edge is lost or duplicated on its way through the pipeline, and every manager only gets edges of its own tiles. */
module PipelineConservation {
  import opened Sums
  import opened LocalEdges
  import opened Pipeline

  // ---- Counting one edge.

  /** How often `x` occurs. */
  ghost function Count(edges: seq<Edge>, x: Edge): nat {
    multiset(edges)[x]
  }

  lemma CountConcat(a: seq<Edge>, b: seq<Edge>, x: Edge)
    ensures Count(a + b, x) == Count(a, x) + Count(b, x)
  {
  }

  // ---- Where the edge is.

  ghost function TempCounts(temp: seq<seq<Edge>>, x: Edge): (r: seq<nat>)
    ensures |r| == |temp| && forall i {:trigger r[i]} :: 0 <= i < |r| ==> r[i] == Count(temp[i], x)
  {
    seq(|temp|, i requires 0 <= i < |temp| => Count(temp[i], x))
  }

  ghost function ProviderCounts(providers: seq<Provider>, x: Edge): (r: seq<nat>)
    ensures |r| == |providers| && forall p {:trigger r[p]} :: 0 <= p < |r| ==> r[p] == Sum(TempCounts(providers[p].temp, x))
  {
    seq(|providers|, p requires 0 <= p < |providers| => Sum(TempCounts(providers[p].temp, x)))
  }

  ghost function ShareCounts(shares: seq<Share>, x: Edge): (r: seq<nat>)
    ensures |r| == |shares| && forall i {:trigger r[i]} :: 0 <= i < |r| ==> r[i] == Count(shares[i].edges, x)
  {
    seq(|shares|, i requires 0 <= i < |shares| => Count(shares[i].edges, x))
  }

  ghost function QueueCounts(queue: seq<Message>, x: Edge): (r: seq<nat>)
    ensures |r| == |queue| && forall i {:trigger r[i]} :: 0 <= i < |r| ==> r[i] == Sum(ShareCounts(queue[i].shares, x))
  {
    seq(|queue|, i requires 0 <= i < |queue| => Sum(ShareCounts(queue[i].shares, x)))
  }

  ghost function InserterCount(ins: Inserter, x: Edge): nat {
    if ins.Forwarding? && ins.i <= |ins.message.shares| then Sum(ShareCounts(ins.message.shares[ins.i..], x)) else 0
  }

  ghost function ControlCount(msg: Control, x: Edge): nat {
    if msg.Data? then Count(msg.edges, x) else 0
  }

  ghost function ControlCounts(controls: seq<Control>, x: Edge): (r: seq<nat>)
    ensures |r| == |controls| && forall i {:trigger r[i]} :: 0 <= i < |r| ==> r[i] == ControlCount(controls[i], x)
  {
    seq(|controls|, i requires 0 <= i < |controls| => ControlCount(controls[i], x))
  }

  ghost function AllControlCounts(controls: seq<seq<Control>>, x: Edge): (r: seq<nat>)
    ensures |r| == |controls| && forall m {:trigger r[m]} :: 0 <= m < |r| ==> r[m] == Sum(ControlCounts(controls[m], x))
  {
    seq(|controls|, m requires 0 <= m < |controls| => Sum(ControlCounts(controls[m], x)))
  }

  ghost function ManagerCount(mgr: Manager, x: Edge): nat {
    if mgr.Inserting? && mgr.i <= |mgr.edges| then Count(mgr.edges[mgr.i..], x) else 0
  }

  ghost function ManagerCounts(managers: seq<Manager>, x: Edge): (r: seq<nat>)
    ensures |r| == |managers| && forall m {:trigger r[m]} :: 0 <= m < |r| ==> r[m] == ManagerCount(managers[m], x)
  {
    seq(|managers|, m requires 0 <= m < |managers| => ManagerCount(managers[m], x))
  }

  /** How often `x` is with providers, with the inserter and before it, with the managers and before them, and in tiles. */
  ghost function Everywhere(s: State, x: Edge): nat {
    Sum(ProviderCounts(s.providers, x)) + Sum(QueueCounts(s.queue, x)) + InserterCount(s.inserter, x)
    + Sum(AllControlCounts(s.controls, x)) + Sum(ManagerCounts(s.managers, x)) + Count(s.stored, x)
  }

  predicate Shaped(c: Config, s: State) {
    && ConfigOk(c) && |s.providers| == |s.given| == c.providers && |s.controls| == |s.managers| == c.managers
    && (forall p {:trigger s.providers[p]} :: 0 <= p < c.providers ==> |s.providers[p].temp| == c.managers)
    && (forall i {:trigger s.queue[i]} :: 0 <= i < |s.queue| ==> Addressed(c, s.queue[i].shares))
    && (s.inserter.Forwarding? ==> s.inserter.i <= |s.inserter.message.shares| && Addressed(c, s.inserter.message.shares))
    && (s.inserter.Awaiting? ==> s.inserter.i <= |s.inserter.message.shares|)
    && (forall m {:trigger s.managers[m]} :: 0 <= m < c.managers && s.managers[m].Inserting? ==>
          s.managers[m].i <= |s.managers[m].edges|)
  }

  predicate Addressed(c: Config, shares: seq<Share>) {
    forall i {:trigger shares[i]} :: 0 <= i < |shares| ==> shares[i].manager < c.managers
  }

  ghost predicate Conserved(s: State, x: Edge) {
    Everywhere(s, x) == Count(s.added, x)
  }

  // ---- Every step moves edges and keeps their number.

  lemma {:induction false} SharesHoldAll(temp: seq<seq<Edge>>, m: nat, x: Edge)
    requires m <= |temp|
    ensures Sum(ShareCounts(Shares(temp, m), x)) == Sum(TempCounts(temp[..m], x))
    ensures forall i {:trigger Shares(temp, m)[i]} :: 0 <= i < |Shares(temp, m)| ==> Shares(temp, m)[i].manager < m
  {
    hide Count;
    if m == 0 {
      assert ShareCounts([], x) == [] && TempCounts(temp[..0], x) == [];
    } else {
      SharesHoldAll(temp, m - 1, x);
      assert TempCounts(temp[..m], x)[..m - 1] == TempCounts(temp[..m - 1], x);
      var before := Shares(temp, m - 1);
      if temp[m - 1] != [] {
        assert ShareCounts(before + [Share(m - 1, temp[m - 1])], x)[..|before|] == ShareCounts(before, x);
      } else {
        CountNone(x);
        assert Shares(temp, m) == before;
      }
    }
  }

  lemma CountNone(x: Edge)
    ensures Count([], x) == 0
  {
  }

  lemma EmptyTemp(n: nat, x: Edge)
    ensures Sum(TempCounts(seq(n, _ => []), x)) == 0
  {
    SumOfZeros(TempCounts(seq(n, _ => []), x));
  }

  lemma ProviderChanges(providers: seq<Provider>, p: nat, pr: Provider, x: Edge)
    requires p < |providers|
    ensures Sum(ProviderCounts(providers[p := pr], x)) + Sum(TempCounts(providers[p].temp, x))
         == Sum(ProviderCounts(providers, x)) + Sum(TempCounts(pr.temp, x))
  {
    hide Count, Sum;
    assert ProviderCounts(providers[p := pr], x) == ProviderCounts(providers, x)[p := Sum(TempCounts(pr.temp, x))];
    SumUpdate(ProviderCounts(providers, x), p, Sum(TempCounts(pr.temp, x)));
  }

  lemma QueueGrows(queue: seq<Message>, msg: Message, x: Edge)
    ensures Sum(QueueCounts(queue + [msg], x)) == Sum(QueueCounts(queue, x)) + Sum(ShareCounts(msg.shares, x))
  {
    hide Count, Sum;
    assert QueueCounts(queue + [msg], x) == QueueCounts(queue, x) + [Sum(ShareCounts(msg.shares, x))];
    SumConcat(QueueCounts(queue, x), [Sum(ShareCounts(msg.shares, x))]);
    SumOne(Sum(ShareCounts(msg.shares, x)));
  }

  lemma QueueShrinks(queue: seq<Message>, x: Edge)
    requires queue != []
    ensures Sum(QueueCounts(queue, x)) == Sum(ShareCounts(queue[0].shares, x)) + Sum(QueueCounts(queue[1..], x))
  {
    hide Count, Sum;
    assert QueueCounts(queue, x) == [Sum(ShareCounts(queue[0].shares, x))] + QueueCounts(queue[1..], x);
    SumConcat([Sum(ShareCounts(queue[0].shares, x))], QueueCounts(queue[1..], x));
    SumOne(Sum(ShareCounts(queue[0].shares, x)));
  }

  lemma SharesShrink(shares: seq<Share>, i: nat, x: Edge)
    requires i < |shares|
    ensures Sum(ShareCounts(shares[i..], x)) == Count(shares[i].edges, x) + Sum(ShareCounts(shares[i + 1..], x))
  {
    hide Count, Sum;
    assert ShareCounts(shares[i..], x) == [Count(shares[i].edges, x)] + ShareCounts(shares[i + 1..], x);
    SumConcat([Count(shares[i].edges, x)], ShareCounts(shares[i + 1..], x));
    SumOne(Count(shares[i].edges, x));
  }

  lemma ControlGrows(controls: seq<Control>, msg: Control, x: Edge)
    ensures Sum(ControlCounts(controls + [msg], x)) == Sum(ControlCounts(controls, x)) + ControlCount(msg, x)
  {
    hide Count, Sum, ControlCount;
    assert ControlCounts(controls + [msg], x) == ControlCounts(controls, x) + [ControlCount(msg, x)];
    SumConcat(ControlCounts(controls, x), [ControlCount(msg, x)]);
    SumOne(ControlCount(msg, x));
  }

  lemma ControlShrinks(controls: seq<Control>, x: Edge)
    requires controls != []
    ensures Sum(ControlCounts(controls, x)) == ControlCount(controls[0], x) + Sum(ControlCounts(controls[1..], x))
  {
    hide Count, Sum, ControlCount;
    assert ControlCounts(controls, x) == [ControlCount(controls[0], x)] + ControlCounts(controls[1..], x);
    SumConcat([ControlCount(controls[0], x)], ControlCounts(controls[1..], x));
    SumOne(ControlCount(controls[0], x));
  }

  lemma ControlsChange(controls: seq<seq<Control>>, m: nat, q: seq<Control>, x: Edge)
    requires m < |controls|
    ensures Sum(AllControlCounts(controls[m := q], x)) + Sum(ControlCounts(controls[m], x))
         == Sum(AllControlCounts(controls, x)) + Sum(ControlCounts(q, x))
  {
    hide Count, Sum, ControlCount;
    assert AllControlCounts(controls[m := q], x) == AllControlCounts(controls, x)[m := Sum(ControlCounts(q, x))];
    SumUpdate(AllControlCounts(controls, x), m, Sum(ControlCounts(q, x)));
  }

  lemma ManagerChanges(managers: seq<Manager>, m: nat, mgr: Manager, x: Edge)
    requires m < |managers|
    ensures Sum(ManagerCounts(managers[m := mgr], x)) + ManagerCount(managers[m], x)
         == Sum(ManagerCounts(managers, x)) + ManagerCount(mgr, x)
  {
    hide Count, Sum, ManagerCount;
    assert ManagerCounts(managers[m := mgr], x) == ManagerCounts(managers, x)[m := ManagerCount(mgr, x)];
    SumUpdate(ManagerCounts(managers, x), m, ManagerCount(mgr, x));
  }

  lemma SentConserves(c: Config, s: State, p: nat, last: bool, x: Edge)
    requires Shaped(c, s) && Conserved(s, x) && p < |s.providers|
    ensures Shaped(c, Sent(c, s, p, last)) && Conserved(Sent(c, s, p, last), x)
  {
    hide Count, Sum;
    var pr := s.providers[p];
    SharesHoldAll(pr.temp, |pr.temp|, x);
    assert pr.temp[..|pr.temp|] == pr.temp;
    EmptyTemp(c.managers, x);
    ProviderChanges(s.providers, p, Provider(seq(c.managers, _ => []), 0, last), x);
    QueueGrows(s.queue, Message(p, Shares(pr.temp, |pr.temp|), last), x);
  }

  lemma TempGrows(temp: seq<seq<Edge>>, o: nat, e: Edge, x: Edge)
    requires o < |temp|
    ensures Sum(TempCounts(temp[o := temp[o] + [e]], x)) == Sum(TempCounts(temp, x)) + Count([e], x)
  {
    hide Count, Sum;
    assert TempCounts(temp[o := temp[o] + [e]], x) == TempCounts(temp, x)[o := Count(temp[o] + [e], x)];
    SumUpdate(TempCounts(temp, x), o, Count(temp[o] + [e], x));
    CountConcat(temp[o], [e], x);
  }

  lemma AddedConserves(c: Config, s: State, p: nat, e: Edge, x: Edge)
    requires Shaped(c, s) && Conserved(s, x) && p < |s.providers|
    ensures Shaped(c, Added(c, s, p, e)) && Conserved(Added(c, s, p, e), x)
  {
    hide Count, Sum, Sent;
    var pr, o := s.providers[p], Owner(c, e);
    var pr' := pr.(temp := pr.temp[o := pr.temp[o] + [e]], size := pr.size + 1);
    var s' := s.(providers := s.providers[p := pr'], added := s.added + [e], given := s.given[p := s.given[p] + [e]]);
    TempGrows(pr.temp, o, e, x);
    ProviderChanges(s.providers, p, pr', x);
    CountConcat(s.added, [e], x);
    assert Shaped(c, s') && Conserved(s', x);
    if pr.size + 1 >= c.batch { SentConserves(c, s', p, false, x); }
  }

  lemma ReceivedConserves(c: Config, s: State, x: Edge)
    requires Shaped(c, s) && Conserved(s, x) && s.queue != [] && s.inserter == Receiving
    ensures Shaped(c, Received(c, s)) && Conserved(Received(c, s), x)
  {
    hide Count, Sum;
    assert s.queue[0].shares[0..] == s.queue[0].shares;
    QueueShrinks(s.queue, x);
  }

  lemma ForwardedConserves(c: Config, s: State, x: Edge)
    requires Shaped(c, s) && Conserved(s, x) && s.inserter.Forwarding?
    ensures Shaped(c, Forwarded(c, s)) && Conserved(Forwarded(c, s), x)
  {
    hide Count, Sum;
    var Forwarding(m, i) := s.inserter;
    if i < |m.shares| {
      var o, data := m.shares[i].manager, Data(m.shares[i].edges);
      SharesShrink(m.shares, i, x);
      ControlGrows(s.controls[o], data, x);
      ControlsChange(s.controls, o, s.controls[o] + [data], x);
    } else {
      NoShares(m.shares, i, x);
    }
  }

  lemma NoShares(shares: seq<Share>, i: nat, x: Edge)
    requires i == |shares|
    ensures Sum(ShareCounts(shares[i..], x)) == 0
  {
    assert shares[i..] == [];
  }

  lemma FetchedConserves(c: Config, s: State, m: nat, x: Edge)
    requires Shaped(c, s) && Conserved(s, x) && m < c.managers && s.controls[m] != [] && s.managers[m] == Waiting
    ensures Shaped(c, Fetched(s, m)) && Conserved(Fetched(s, m), x)
  {
    hide Count, Sum;
    var msg := s.controls[m][0];
    ControlShrinks(s.controls[m], x);
    ControlsChange(s.controls, m, s.controls[m][1..], x);
    if msg.Data? { assert msg.edges[0..] == msg.edges; }
    ManagerChanges(s.managers, m, if msg.Shutdown? then Stopped else Inserting(msg.edges, 0), x);
  }

  lemma InsertedConserves(c: Config, s: State, m: nat, x: Edge)
    requires Shaped(c, s) && Conserved(s, x) && m < c.managers && s.managers[m].Inserting? && s.managers[m].i < |s.managers[m].edges|
    ensures Shaped(c, Inserted(c, s, m)) && Conserved(Inserted(c, s, m), x)
  {
    hide Count, Sum;
    var Inserting(edges, i) := s.managers[m];
    assert edges[i..] == [edges[i]] + edges[i + 1..];
    CountConcat([edges[i]], edges[i + 1..], x);
    CountConcat(s.stored, [edges[i]], x);
    ManagerChanges(s.managers, m, Inserting(edges, i + 1), x);
  }

  lemma CompletedConserves(c: Config, s: State, m: nat, x: Edge)
    requires Shaped(c, s) && Conserved(s, x) && m < c.managers && s.managers[m].Inserting? && s.managers[m].i == |s.managers[m].edges|
    ensures Shaped(c, Completed(c, s, m)) && Conserved(Completed(c, s, m), x)
  {
    hide Count, Sum;
    assert s.managers[m].edges[s.managers[m].i..] == [];
    CountNone(x);
    ManagerChanges(s.managers, m, Waiting, x);
  }

  lemma JoinedConserves(c: Config, s: State, x: Edge)
    requires Shaped(c, s) && Conserved(s, x)
    ensures Shaped(c, Joined(s)) && Conserved(Joined(s), x)
  {
    hide Count, Sum;
    var s' := Joined(s);
    forall m | 0 <= m < |s.controls| ensures AllControlCounts(s'.controls, x)[m] == AllControlCounts(s.controls, x)[m] {
      ControlGrows(s.controls[m], Shutdown, x);
    }
    assert AllControlCounts(s'.controls, x) == AllControlCounts(s.controls, x);
  }

  lemma ActConserves(c: Config, s: State, a: Action, x: Edge)
    requires Shaped(c, s) && Conserved(s, x) && CanAct(c, s, a)
    ensures Shaped(c, Act(c, s, a)) && Conserved(Act(c, s, a), x)
  {
    hide Conserved, Shaped, Received, Forwarded, Fetched, Inserted, Completed, Joined, Sent, Added;
    ShapedSizes(c, s);
    match a
    case Add(p, e) => AddedConserves(c, s, p, e, x);
    case Finish(p) => SentConserves(c, s, p, true, x);
    case Receive => ReceivedConserves(c, s, x);
    case Forward => ForwardedConserves(c, s, x);
    case Join => JoinedConserves(c, s, x);
    case Fetch(m) => FetchedConserves(c, s, m, x);
    case Insert(m) => InsertedConserves(c, s, m, x);
    case Complete(m) => CompletedConserves(c, s, m, x);
    case Reply => InserterOnly(c, s, Replied(c, s), x);
    case Execute => InserterOnly(c, s, NextMessage(s), x);
  }

  lemma ShapedSizes(c: Config, s: State)
    requires Shaped(c, s)
    ensures ConfigOk(c) && |s.providers| == |s.given| == c.providers && |s.controls| == |s.managers| == c.managers
    ensures s.inserter.Awaiting? ==> s.inserter.i <= |s.inserter.message.shares|
  {
  }

  /** Steps of the inserter that do not hold edges. */
  lemma InserterOnly(c: Config, s: State, s': State, x: Edge)
    requires Shaped(c, s) && Conserved(s, x) && !s.inserter.Forwarding? && !s'.inserter.Forwarding?
    requires s' == s.(inserter := s'.inserter, replies := s'.replies, countEdges := s'.countEdges)
    requires s'.inserter.Awaiting? ==> s'.inserter.i <= |s'.inserter.message.shares|
    ensures Shaped(c, s') && Conserved(s', x)
  {
  }
}
