/** The pipeline always runs dry: without new edges it can only stop with all managers ended, and it does so after a
    number of steps that is linear in the number of edges. */
module PipelineProgress {
  import opened Sums
  import opened LocalEdges
  import opened Pipeline
  import opened PipelineConservation
  import opened PipelineOwnership
  import opened PipelineTheorems

  /** Only a provider that adds an edge could take a step. */
  ghost predicate Dry(c: Config, s: State) {
    forall a {:trigger CanAct(c, s, a)} :: CanAct(c, s, a) ==> a.Add?
  }

  ghost predicate AllStopped(s: State) {
    forall m {:trigger s.managers[m]} :: 0 <= m < |s.managers| ==> s.managers[m] == Stopped
  }

  /** No deadlock: whenever not all managers have ended, there is a step besides adding edges. */
  lemma DryExactly(c: Config, s: State)
    requires Reachable(c, s)
    ensures Dry(c, s) <==> AllStopped(s)
  {
    ReachableInv(c, s);
    if AllStopped(s) {
      AllClosed(c, s);
      StoppedJoining(c, s);
    } else if Dry(c, s) {
      hide Reachable, Conserved, Owned, TilesHold;
      DryProviders(c, s);
      DryInserter(c, s);
      DryManagers(c, s);
    }
  }

  lemma StoppedJoining(c: Config, s: State)
    requires Shaped(c, s) && JoinOk(c, s) && AllStopped(s)
    ensures s.joining && s.inserter == Ended
  {
    assert s.managers[0] == Stopped;
  }

  lemma DryProviders(c: Config, s: State)
    requires Shaped(c, s) && Dry(c, s)
    ensures forall p {:trigger s.providers[p]} :: 0 <= p < c.providers ==> s.providers[p].closed
  {
    forall p | 0 <= p < c.providers ensures s.providers[p].closed { assert !CanAct(c, s, Finish(p)); }
  }

  /** A manager with something to do can do it. */
  lemma IdleManager(c: Config, s: State, m: nat)
    requires Shaped(c, s) && Dry(c, s) && m < c.managers
    ensures s.managers[m] == Stopped || (s.managers[m] == Waiting && s.controls[m] == [])
  {
    assert !CanAct(c, s, Fetch(m)) && !CanAct(c, s, Insert(m)) && !CanAct(c, s, Complete(m));
  }

  lemma IdleLoads(c: Config, s: State)
    requires Shaped(c, s) && JoinOk(c, s) && Dry(c, s)
    ensures Sum(Loads(s)) == 0
  {
    forall m | 0 <= m < |Loads(s)| ensures Loads(s)[m] == 0 {
      IdleManager(c, s, m);
      assert s.managers[m] == Stopped ==> s.controls[m] == [];
    }
    SumOfZeros(Loads(s));
  }

  lemma DryInserter(c: Config, s: State)
    requires Shaped(c, s) && Balanced(c, s) && Counted(c, s) && JoinOk(c, s) && PipelineOrder.Tallied(c, s) && Dry(c, s)
    requires forall p {:trigger s.providers[p]} :: 0 <= p < c.providers ==> s.providers[p].closed
    ensures s.inserter == Ended && s.joining
  {
    IdleLoads(c, s);
    assert !CanAct(c, s, Receive) && !CanAct(c, s, Forward) && !CanAct(c, s, Reply) && !CanAct(c, s, Execute) && !CanAct(c, s, Join);
    if s.inserter == Receiving {
      assert s.queue == [];
      forall p | 0 <= p < c.providers ensures p in s.finals {
        assert s.providers[p].closed;
        if i: nat :| FinalAt(s.queue, i, p) { assert false; }
      }
      FinalsFit(s.finals, c.providers);
      Subset(Below(c.providers), s.finals);
    }
  }

  lemma DryManagers(c: Config, s: State)
    requires Shaped(c, s) && JoinOk(c, s) && Dry(c, s) && s.joining
    ensures AllStopped(s)
  {
    forall m | 0 <= m < |s.managers| ensures s.managers[m] == Stopped { IdleManager(c, s, m); }
  }

  // ---- How many steps there are.

  ghost function TempWork(temp: seq<seq<Edge>>): (r: seq<nat>)
    ensures |r| == |temp|
    ensures forall m {:trigger r[m]} :: 0 <= m < |r| ==> r[m] == if temp[m] == [] then 0 else |temp[m]| + 5
  {
    seq(|temp|, m requires 0 <= m < |temp| => if temp[m] == [] then 0 else |temp[m]| + 5)
  }

  ghost function ProviderWork(pr: Provider): nat {
    if pr.closed then 0 else Sum(TempWork(pr.temp)) + 6
  }

  ghost function ProviderWorks(providers: seq<Provider>): (r: seq<nat>)
    ensures |r| == |providers| && forall p {:trigger r[p]} :: 0 <= p < |r| ==> r[p] == ProviderWork(providers[p])
  {
    seq(|providers|, p requires 0 <= p < |providers| => ProviderWork(providers[p]))
  }

  /** A share is forwarded, fetched, put into tiles edge by edge, completed and replied to. */
  function ShareWork(shares: seq<Share>): nat {
    if shares == [] then 0 else |shares[0].edges| + 5 + ShareWork(shares[1..])
  }

  function QueueWork(queue: seq<Message>): nat {
    if queue == [] then 0 else ShareWork(queue[0].shares) + 5 + QueueWork(queue[1..])
  }

  function InserterWork(ins: Inserter): nat {
    match ins
    case Forwarding(msg, i) => if i <= |msg.shares| then ShareWork(msg.shares[i..]) + i + 4 else 0
    case Awaiting(msg, i) => if i <= |msg.shares| then |msg.shares| - i + 3 else 0
    case Running => 1
    case _ => 0
  }

  function ControlWork(controls: seq<Control>): nat {
    if controls == [] then 0 else (if controls[0].Data? then |controls[0].edges| + 2 else 1) + ControlWork(controls[1..])
  }

  function ManagerWork(mgr: Manager): nat {
    if mgr.Inserting? && mgr.i <= |mgr.edges| then |mgr.edges| - mgr.i + 1 else 0
  }

  ghost function ManagerWorks(s: State): (r: seq<nat>)
    requires |s.controls| == |s.managers|
    ensures |r| == |s.controls|
    ensures forall m {:trigger r[m]} :: 0 <= m < |r| ==> r[m] == ControlWork(s.controls[m]) + ManagerWork(s.managers[m])
  {
    seq(|s.controls|, m requires 0 <= m < |s.controls| == |s.managers| => ControlWork(s.controls[m]) + ManagerWork(s.managers[m]))
  }

  /** A bound on the steps that are left if no edge is added. */
  ghost function Work(c: Config, s: State): nat
    requires |s.controls| == |s.managers|
  {
    Sum(ProviderWorks(s.providers)) + QueueWork(s.queue) + InserterWork(s.inserter) + Sum(ManagerWorks(s))
    + if s.joining then 0 else c.managers + 1
  }

  lemma {:induction false} QueueWorkSnoc(queue: seq<Message>, msg: Message)
    ensures QueueWork(queue + [msg]) == QueueWork(queue) + ShareWork(msg.shares) + 5
  {
    hide ShareWork;
    if queue == [] {
      assert [] + [msg] == [msg];
    } else {
      QueueWorkSnoc(queue[1..], msg);
      assert (queue + [msg])[1..] == queue[1..] + [msg];
    }
  }

  lemma {:induction false} ShareWorkSnoc(shares: seq<Share>, share: Share)
    ensures ShareWork(shares + [share]) == ShareWork(shares) + |share.edges| + 5
  {
    if shares == [] {
      assert [] + [share] == [share];
    } else {
      ShareWorkSnoc(shares[1..], share);
      assert (shares + [share])[1..] == shares[1..] + [share];
    }
  }

  lemma {:induction false} ControlWorkSnoc(controls: seq<Control>, msg: Control)
    ensures ControlWork(controls + [msg]) == ControlWork(controls) + if msg.Data? then |msg.edges| + 2 else 1
  {
    if controls == [] {
      assert [] + [msg] == [msg];
    } else {
      ControlWorkSnoc(controls[1..], msg);
      assert (controls + [msg])[1..] == controls[1..] + [msg];
    }
  }

  lemma {:induction false} SharesWork(temp: seq<seq<Edge>>, n: nat)
    requires n <= |temp|
    ensures ShareWork(Shares(temp, n)) == Sum(TempWork(temp[..n]))
  {
    hide ShareWork;
    if n == 0 {
      NoShareWork();
    } else {
      SharesWork(temp, n - 1);
      assert TempWork(temp[..n])[..n - 1] == TempWork(temp[..n - 1]);
      if temp[n - 1] != [] {
        ShareWorkSnoc(Shares(temp, n - 1), Share(n - 1, temp[n - 1]));
      } else {
        assert Shares(temp, n) == Shares(temp, n - 1);
      }
    }
  }

  lemma NoShareWork()
    ensures ShareWork([]) == 0
  {
  }

  lemma ProviderWorkChanges(providers: seq<Provider>, p: nat, pr: Provider)
    requires p < |providers|
    ensures Sum(ProviderWorks(providers[p := pr])) + ProviderWork(providers[p]) == Sum(ProviderWorks(providers)) + ProviderWork(pr)
  {
    hide Sum, ProviderWork;
    assert ProviderWorks(providers[p := pr]) == ProviderWorks(providers)[p := ProviderWork(pr)];
    SumUpdate(ProviderWorks(providers), p, ProviderWork(pr));
  }

  lemma ManagerWorkChanges(s: State, s': State, m: nat)
    requires m < |s.controls| == |s.managers| && |s'.controls| == |s'.managers| == |s.controls|
    requires s'.controls == s.controls[m := s'.controls[m]] && s'.managers == s.managers[m := s'.managers[m]]
    ensures Sum(ManagerWorks(s')) + ControlWork(s.controls[m]) + ManagerWork(s.managers[m])
         == Sum(ManagerWorks(s)) + ControlWork(s'.controls[m]) + ManagerWork(s'.managers[m])
  {
    hide Sum, ControlWork, ManagerWork;
    var n := ControlWork(s'.controls[m]) + ManagerWork(s'.managers[m]);
    assert ManagerWorks(s') == ManagerWorks(s)[m := n];
    SumUpdate(ManagerWorks(s), m, n);
  }

  lemma EmptyTempWork(n: nat)
    ensures Sum(TempWork(seq(n, _ => []))) == 0
  {
    SumOfZeros(TempWork(seq(n, _ => [])));
  }

  lemma SentWork(c: Config, s: State, p: nat, last: bool)
    requires Shaped(c, s) && p < c.providers && !s.providers[p].closed
    ensures var s' := Sent(c, s, p, last);
            |s'.controls| == |s'.managers| && Work(c, s') == Work(c, s) + if last then -1 else 5
  {
    hide Sum, ShareWork, QueueWork, InserterWork, Shares;
    var pr := s.providers[p];
    SharesWork(pr.temp, |pr.temp|);
    assert pr.temp[..|pr.temp|] == pr.temp;
    EmptyTempWork(c.managers);
    ProviderWorkChanges(s.providers, p, Provider(seq(c.managers, _ => []), 0, last));
    QueueWorkSnoc(s.queue, Message(p, Shares(pr.temp, |pr.temp|), last));
    assert ManagerWorks(Sent(c, s, p, last)) == ManagerWorks(s);
  }

  lemma TempWorkGrows(temp: seq<seq<Edge>>, o: nat, e: Edge)
    requires o < |temp|
    ensures Sum(TempWork(temp[o := temp[o] + [e]])) <= Sum(TempWork(temp)) + 6
  {
    hide Sum;
    var n := |temp[o]| + 6;
    assert TempWork(temp[o := temp[o] + [e]]) == TempWork(temp)[o := n];
    SumUpdate(TempWork(temp), o, n);
  }

  lemma AddedWork(c: Config, s: State, p: nat, e: Edge)
    requires Shaped(c, s) && p < c.providers && !s.providers[p].closed
    ensures var s' := Added(c, s, p, e); |s'.controls| == |s'.managers| && Work(c, s') <= Work(c, s) + 11
  {
    hide Sum, QueueWork, InserterWork, Sent, Owner;
    var pr, o := s.providers[p], Owner(c, e);
    var pr' := pr.(temp := pr.temp[o := pr.temp[o] + [e]], size := pr.size + 1);
    var s' := s.(providers := s.providers[p := pr'], added := s.added + [e], given := s.given[p := s.given[p] + [e]]);
    TempWorkGrows(pr.temp, o, e);
    ProviderWorkChanges(s.providers, p, pr');
    assert ManagerWorks(s') == ManagerWorks(s);
    assert Shaped(c, s');
    if pr.size + 1 >= c.batch { SentWork(c, s', p, false); }
  }

  lemma ForwardedWork(c: Config, s: State)
    requires Shaped(c, s) && s.inserter.Forwarding?
    ensures var s' := Forwarded(c, s); |s'.controls| == |s'.managers| && Work(c, s') < Work(c, s)
  {
    hide Sum, ProviderWorks, QueueWork, ControlWork;
    var s' := Forwarded(c, s);
    var Forwarding(msg, i) := s.inserter;
    if i < |msg.shares| {
      var o := msg.shares[i].manager;
      ControlWorkSnoc(s.controls[o], Data(msg.shares[i].edges));
      ManagerWorkChanges(s, s', o);
      assert msg.shares[i..][1..] == msg.shares[i + 1..];
    } else {
      assert ManagerWorks(s') == ManagerWorks(s);
    }
  }

  /** Steps of a manager. */
  lemma ManagerStepWork(c: Config, s: State, s': State, m: nat)
    requires Shaped(c, s) && m < c.managers && s' == s.(controls := s'.controls, managers := s'.managers, replies := s'.replies,
                                                        stored := s'.stored, tiles := s'.tiles)
    requires |s'.controls| == |s'.managers| == c.managers
    requires s'.controls == s.controls[m := s'.controls[m]] && s'.managers == s.managers[m := s'.managers[m]]
    requires ControlWork(s'.controls[m]) + ManagerWork(s'.managers[m]) < ControlWork(s.controls[m]) + ManagerWork(s.managers[m])
    ensures Work(c, s') < Work(c, s)
  {
    hide Sum, ProviderWorks, QueueWork, ControlWork, InserterWork;
    ManagerWorkChanges(s, s', m);
  }

  lemma {:induction false} SumPlusOnes(ns: seq<nat>, ks: seq<nat>)
    requires |ns| == |ks| && forall i {:trigger ks[i]} :: 0 <= i < |ks| ==> ks[i] == ns[i] + 1
    ensures Sum(ks) == Sum(ns) + |ns|
  {
    if ns != [] { SumPlusOnes(ns[..|ns| - 1], ks[..|ks| - 1]); }
  }

  lemma JoinedWork(c: Config, s: State)
    requires Shaped(c, s) && !s.joining
    ensures var s' := Joined(s); |s'.controls| == |s'.managers| && Work(c, s') < Work(c, s)
  {
    hide Sum, ProviderWorks, QueueWork, ControlWork, InserterWork;
    var s' := Joined(s);
    forall m | 0 <= m < |s.controls| ensures ManagerWorks(s')[m] == ManagerWorks(s)[m] + 1 {
      ControlWorkSnoc(s.controls[m], Shutdown);
    }
    SumPlusOnes(ManagerWorks(s), ManagerWorks(s'));
  }

  lemma InserterStepWork(c: Config, s: State, a: Action)
    requires Shaped(c, s) && CanAct(c, s, a) && (a.Receive? || a.Reply? || a.Execute?)
    ensures var s' := Act(c, s, a); |s'.controls| == |s'.managers| && Work(c, s') < Work(c, s)
  {
    hide Sum, ProviderWorks, ControlWork;
    var s' := Act(c, s, a);
    assert ManagerWorks(s') == ManagerWorks(s);
    if a.Receive? { assert s.queue[0].shares[0..] == s.queue[0].shares; }
  }

  lemma ActWork(c: Config, s: State, a: Action)
    requires Shaped(c, s) && CanAct(c, s, a)
    ensures var s' := Act(c, s, a);
            |s'.controls| == |s'.managers| && if a.Add? then Work(c, s') <= Work(c, s) + 11 else Work(c, s') < Work(c, s)
  {
    hide Work, Shares, Owner;
    match a
    case Add(p, e) => AddedWork(c, s, p, e);
    case Finish(p) => SentWork(c, s, p, true);
    case Forward => ForwardedWork(c, s);
    case Fetch(m) => ManagerStepWork(c, s, Fetched(s, m), m);
    case Insert(m) => ManagerStepWork(c, s, Inserted(c, s, m), m);
    case Complete(m) => ManagerStepWork(c, s, Completed(c, s, m), m);
    case Join => JoinedWork(c, s);
    case _ => InserterStepWork(c, s, a);
  }

  lemma {:induction false} RunWork(c: Config, s: State, actions: seq<Action>, s': State)
    requires Inv(c, s) && Runs(c, s, actions, s')
    ensures Inv(c, s') && |actions| + Work(c, s') + 12 * |s.added| <= Work(c, s) + 12 * |s'.added|
    decreases |actions|
  {
    hide Inv, Work, Act;
    InvShaped(c, s);
    if actions != [] {
      ActInv(c, s, actions[0]);
      ActWork(c, s, actions[0]);
      ActAdds(c, s, actions[0]);
      InvShaped(c, Act(c, s, actions[0]));
      RunWork(c, Act(c, s, actions[0]), actions[1..], s');
    }
  }

  lemma InvShaped(c: Config, s: State)
    requires Inv(c, s)
    ensures Shaped(c, s)
  {
  }

  lemma ActAdds(c: Config, s: State, a: Action)
    requires CanAct(c, s, a)
    ensures |Act(c, s, a).added| == |s.added| + if a.Add? then 1 else 0
  {
  }

  /** Every run that adds `n` edges ends after at most 6 steps for each provider, one for each manager, 12 for each edge
      and one more; and where it ends, unless more edges could be added, every provider has closed and the tiles hold all
      edges. */
  lemma RunsDry(c: Config, s: State, actions: seq<Action>, s': State)
    requires Initial(c, s) && Runs(c, s, actions, s')
    ensures |actions| <= 6 * c.providers + c.managers + 1 + 12 * |s'.added|
    ensures Dry(c, s') ==> AllStopped(s') && multiset(s'.stored) == multiset(s'.added)
  {
    hide Inv, Runs;
    InitialInv(c, s);
    RunWork(c, s, actions, s');
    InitialWork(c, s);
    assert Reachable(c, s');
    DryExactly(c, s');
    if Dry(c, s') { NothingLost(c, s'); }
  }

  lemma {:induction false} SumOfSixes(ns: seq<nat>)
    requires forall i {:trigger ns[i]} :: 0 <= i < |ns| ==> ns[i] == 6
    ensures Sum(ns) == 6 * |ns|
  {
    if ns != [] { SumOfSixes(ns[..|ns| - 1]); }
  }

  lemma InitialWork(c: Config, s: State)
    requires Initial(c, s)
    ensures Work(c, s) == 6 * c.providers + c.managers + 1
  {
    hide Sum;
    EmptyTempWork(c.managers);
    SumOfSixes(ProviderWorks(s.providers));
    SumOfZeros(ManagerWorks(s));
  }
}
