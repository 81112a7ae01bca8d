/** Each tile has one manager: two managers never touch the same tile.  In dynamic mode the reply barrier keeps all
    managers idle while the inserter runs the algorithm. */
module PipelineOwnership {
  import opened Modular
  import opened Sums
  import opened LocalEdges
  import opened Pipeline
  import opened PipelineConservation

  /** Tiles next to each other are spread over all managers: as many consecutive tiles of a row, or of a column, as there
      are managers have all different ones. */
  lemma OwnersSpread(c: Config, x: nat, y: nat, i: nat, j: nat)
    requires ConfigOk(c) && i < j < c.managers
    ensures TileOwner(c, x + i, y) != TileOwner(c, x + j, y)
    ensures TileOwner(c, x, y + i) != TileOwner(c, x, y + j)
  {
    var n, a := c.managers, x + y + i;
    var r := a % n + (j - i);
    if r < n { ModUnique(a + (j - i), n, a / n, r); } else { ModUnique(a + (j - i), n, a / n + 1, r - n); }
  }

  predicate OwnedBy(c: Config, edges: seq<Edge>, m: nat)
    requires ConfigOk(c)
  {
    forall k {:trigger edges[k]} :: 0 <= k < |edges| ==> Owner(c, edges[k]) == m
  }

  predicate SharesOwned(c: Config, shares: seq<Share>)
    requires ConfigOk(c)
  {
    forall i {:trigger shares[i]} :: 0 <= i < |shares| ==> OwnedBy(c, shares[i].edges, shares[i].manager)
  }

  predicate TempOwned(c: Config, temp: seq<seq<Edge>>)
    requires ConfigOk(c)
  {
    forall m {:trigger temp[m]} :: 0 <= m < |temp| ==> OwnedBy(c, temp[m], m)
  }

  predicate ControlsOwned(c: Config, controls: seq<Control>, m: nat)
    requires ConfigOk(c)
  {
    forall k {:trigger controls[k]} :: 0 <= k < |controls| && controls[k].Data? ==> OwnedBy(c, controls[k].edges, m)
  }

  /** Whatever waits for a manager, or has been received for one, are edges of its own tiles. */
  ghost predicate Owned(c: Config, s: State) {
    && Shaped(c, s)
    && (forall p {:trigger s.providers[p]} :: 0 <= p < c.providers ==> TempOwned(c, s.providers[p].temp))
    && (forall i {:trigger s.queue[i]} :: 0 <= i < |s.queue| ==> SharesOwned(c, s.queue[i].shares))
    && (forall i {:trigger s.received[i]} :: 0 <= i < |s.received| ==> SharesOwned(c, s.received[i].shares))
    && (s.inserter.Forwarding? ==> SharesOwned(c, s.inserter.message.shares))
    && (forall m {:trigger s.controls[m]} :: 0 <= m < c.managers ==> ControlsOwned(c, s.controls[m], m))
    && (forall m {:trigger s.managers[m]} :: 0 <= m < c.managers && s.managers[m].Inserting? ==> OwnedBy(c, s.managers[m].edges, m))
  }

  lemma {:induction false} SharesOfOwned(c: Config, temp: seq<seq<Edge>>, m: nat)
    requires ConfigOk(c) && m <= |temp| && TempOwned(c, temp)
    ensures SharesOwned(c, Shares(temp, m))
  {
    hide OwnedBy;
    if m > 0 { SharesOfOwned(c, temp, m - 1); }
  }

  lemma SentOwned(c: Config, s: State, p: nat, last: bool)
    requires Owned(c, s) && p < |s.providers| && Shaped(c, Sent(c, s, p, last))
    ensures Owned(c, Sent(c, s, p, last))
  {
    SharesOfOwned(c, s.providers[p].temp, |s.providers[p].temp|);
  }

  lemma AddedOwned(c: Config, s: State, p: nat, e: Edge)
    requires Owned(c, s) && p < |s.providers| && Shaped(c, Added(c, s, p, e))
    ensures Owned(c, Added(c, s, p, e))
  {
    hide Owner;
    var pr, o := s.providers[p], Owner(c, e);
    var s' := s.(providers := s.providers[p := pr.(temp := pr.temp[o := pr.temp[o] + [e]], size := pr.size + 1)], added := s.added + [e], given := s.given[p := s.given[p] + [e]]);
    assert TempOwned(c, s'.providers[p].temp);
    assert Owned(c, s');
    if pr.size + 1 >= c.batch { SentOwned(c, s', p, false); }
  }

  lemma ForwardedOwned(c: Config, s: State)
    requires Owned(c, s) && s.inserter.Forwarding? && Shaped(c, Forwarded(c, s))
    ensures Owned(c, Forwarded(c, s))
  {
    hide OwnedBy;
  }

  lemma FetchedOwned(c: Config, s: State, m: nat)
    requires Owned(c, s) && m < c.managers && s.controls[m] != [] && Shaped(c, Fetched(s, m))
    ensures Owned(c, Fetched(s, m))
  {
    hide OwnedBy;
    assert ControlsOwned(c, s.controls[m], m);
  }

  lemma ActOwned(c: Config, s: State, a: Action)
    requires Owned(c, s) && CanAct(c, s, a) && Shaped(c, Act(c, s, a))
    ensures Owned(c, Act(c, s, a))
  {
    hide OwnedBy, Owner, Shares, TileOf, Contents;
    match a
    case Add(p, e) => AddedOwned(c, s, p, e);
    case Finish(p) => SentOwned(c, s, p, true);
    case Forward => ForwardedOwned(c, s);
    case Fetch(m) => FetchedOwned(c, s, m);
    case _ =>
  }

  // ---- The reply barrier.

  function DataMessages(controls: seq<Control>): nat {
    if controls == [] then 0 else DataMessages(controls[..|controls| - 1]) + if controls[|controls| - 1].Data? then 1 else 0
  }

  function Load(controls: seq<Control>, mgr: Manager): nat {
    DataMessages(controls) + if mgr.Inserting? then 1 else 0
  }

  ghost function Loads(s: State): (r: seq<nat>)
    requires |s.controls| == |s.managers|
    ensures |r| == |s.controls| && forall m {:trigger r[m]} :: 0 <= m < |r| ==> r[m] == Load(s.controls[m], s.managers[m])
  {
    seq(|s.controls|, m requires 0 <= m < |s.controls| == |s.managers| => Load(s.controls[m], s.managers[m]))
  }

  /** In dynamic mode every forwarded share that the inserter has no reply for is with its manager or has one waiting. */
  ghost predicate Balanced(c: Config, s: State)
    requires |s.controls| == |s.managers|
  {
    c.dynamic ==>
      Sum(Loads(s)) + s.replies ==
        match s.inserter
        case Forwarding(_, i) => i
        case Awaiting(msg, i) => if i <= |msg.shares| then |msg.shares| - i else 0
        case _ => 0
  }

  lemma DataMessagesSnoc(controls: seq<Control>, msg: Control)
    ensures DataMessages(controls + [msg]) == DataMessages(controls) + if msg.Data? then 1 else 0
  {
    assert (controls + [msg])[..|controls|] == controls;
  }

  lemma {:induction false} DataMessagesTail(controls: seq<Control>)
    requires controls != []
    ensures DataMessages(controls) == DataMessages(controls[1..]) + if controls[0].Data? then 1 else 0
  {
    var last := |controls| - 1;
    if last > 0 {
      DataMessagesTail(controls[..last]);
      assert controls[1..][..last - 1] == controls[..last][1..];
    } else {
      assert controls[..0] == [] && controls[1..] == [];
    }
  }

  lemma {:induction false} SumIsZero(ns: seq<nat>, i: nat)
    requires Sum(ns) == 0 && i < |ns|
    ensures ns[i] == 0
  {
    if i < |ns| - 1 { SumIsZero(ns[..|ns| - 1], i); }
  }

  /** One manager's queue and state change. */
  lemma LoadChanges(s: State, s': State, m: nat)
    requires m < |s.controls| == |s.managers| && |s'.controls| == |s'.managers| == |s.controls|
    requires s'.controls == s.controls[m := s'.controls[m]] && s'.managers == s.managers[m := s'.managers[m]]
    ensures Sum(Loads(s')) + Load(s.controls[m], s.managers[m]) == Sum(Loads(s)) + Load(s'.controls[m], s'.managers[m])
  {
    hide Load, Sum;
    assert Loads(s') == Loads(s)[m := Load(s'.controls[m], s'.managers[m])];
    SumUpdate(Loads(s), m, Load(s'.controls[m], s'.managers[m]));
  }

  lemma ForwardedBalanced(c: Config, s: State)
    requires Shaped(c, s) && Balanced(c, s) && s.inserter.Forwarding?
    ensures var s' := Forwarded(c, s); |s'.controls| == |s'.managers| && Balanced(c, s')
  {
    hide Sum;
    var s' := Forwarded(c, s);
    if s.inserter.i < |s.inserter.message.shares| {
      var o := s.inserter.message.shares[s.inserter.i].manager;
      LoadChanges(s, s', o);
      DataMessagesSnoc(s.controls[o], Data(s.inserter.message.shares[s.inserter.i].edges));
    } else {
      assert Loads(s') == Loads(s);
    }
  }

  lemma FetchedBalanced(c: Config, s: State, m: nat)
    requires Shaped(c, s) && Balanced(c, s) && m < c.managers && s.managers[m] == Waiting && s.controls[m] != []
    ensures var s' := Fetched(s, m); |s'.controls| == |s'.managers| && Balanced(c, s')
  {
    hide Sum;
    LoadChanges(s, Fetched(s, m), m);
    DataMessagesTail(s.controls[m]);
  }

  lemma ManagerBalanced(c: Config, s: State, s': State, m: nat)
    requires Shaped(c, s) && Balanced(c, s) && m < c.managers && s.managers[m].Inserting?
    requires s' == Completed(c, s, m) || (s.managers[m].i < |s.managers[m].edges| && s' == Inserted(c, s, m))
    ensures |s'.controls| == |s'.managers| && Balanced(c, s')
  {
    hide Sum;
    LoadChanges(s, s', m);
  }

  lemma JoinedBalanced(c: Config, s: State)
    requires Shaped(c, s) && Balanced(c, s)
    ensures var s' := Joined(s); |s'.controls| == |s'.managers| && Balanced(c, s')
  {
    hide Sum;
    var s' := Joined(s);
    forall m | 0 <= m < |s.controls| ensures Loads(s')[m] == Loads(s)[m] {
      DataMessagesSnoc(s.controls[m], Shutdown);
    }
    assert Loads(s') == Loads(s);
  }

  lemma InserterBalanced(c: Config, s: State, s': State)
    requires Shaped(c, s) && Balanced(c, s) && s'.controls == s.controls && s'.managers == s.managers
    requires
      || !c.dynamic
      || (s'.replies == s.replies && s.inserter == s'.inserter)
      || (s.inserter == Receiving && s'.inserter.Forwarding? && s'.inserter.i == 0 && s'.replies == s.replies)
      || (s.inserter == Running && s' == NextMessage(s))
      || (s.inserter.Awaiting? && s' == Replied(c, s) && (s.inserter.i < |s.inserter.message.shares| ==> s.replies > 0))
    ensures Balanced(c, s')
  {
    assert Loads(s') == Loads(s);
  }

  lemma ActBalanced(c: Config, s: State, a: Action)
    requires Shaped(c, s) && Balanced(c, s) && CanAct(c, s, a)
    ensures var s' := Act(c, s, a); |s'.controls| == |s'.managers| && Balanced(c, s')
  {
    hide Balanced, Shaped;
    match a
    case Forward => ForwardedBalanced(c, s);
    case Fetch(m) => FetchedBalanced(c, s, m);
    case Insert(m) => ManagerBalanced(c, s, Inserted(c, s, m), m);
    case Complete(m) => ManagerBalanced(c, s, Completed(c, s, m), m);
    case Join => JoinedBalanced(c, s);
    case _ => InserterBalanced(c, s, Act(c, s, a));
  }
}
