/** Edges reach their tiles in the order of the messages, and the inserter counts what it has been told is stored. */
module PipelineOrder {
  import opened LocalEdges
  import TileManagers
  import opened Pipeline
  import opened PipelineConservation
  import opened PipelineOwnership

  /** Those of `edges` that are for manager `m`, in order. */
  function OwnedEdges(c: Config, edges: seq<Edge>, m: nat): seq<Edge>
    requires ConfigOk(c)
  {
    if edges == [] then []
    else
      var last := |edges| - 1;
      OwnedEdges(c, edges[..last], m) + if Owner(c, edges[last]) == m then [edges[last]] else []
  }

  /** What a message addresses to manager `m`. */
  function EdgesFor(shares: seq<Share>, m: nat): seq<Edge> {
    if shares == [] then []
    else
      var last := |shares| - 1;
      EdgesFor(shares[..last], m) + if shares[last].manager == m then shares[last].edges else []
  }

  /** What a sequence of messages addresses to manager `m`. */
  function AllFor(messages: seq<Message>, m: nat): seq<Edge> {
    if messages == [] then [] else AllFor(messages[..|messages| - 1], m) + EdgesFor(messages[|messages| - 1].shares, m)
  }

  /** All edges of a message. */
  function EdgesIn(shares: seq<Share>): seq<Edge> {
    if shares == [] then [] else EdgesIn(shares[..|shares| - 1]) + shares[|shares| - 1].edges
  }

  /** All edges of a sequence of messages. */
  function AllEdges(messages: seq<Message>): seq<Edge> {
    if messages == [] then [] else AllEdges(messages[..|messages| - 1]) + EdgesIn(messages[|messages| - 1].shares)
  }

  function DataIn(controls: seq<Control>): seq<Edge> {
    if controls == [] then []
    else
      var last := |controls| - 1;
      DataIn(controls[..last]) + if controls[last].Data? then controls[last].edges else []
  }

  function ToForward(ins: Inserter, m: nat): seq<Edge> {
    if ins.Forwarding? && ins.i <= |ins.message.shares| then EdgesFor(ins.message.shares[ins.i..], m) else []
  }

  function ToInsert(mgr: Manager): seq<Edge> {
    if mgr.Inserting? && mgr.i <= |mgr.edges| then mgr.edges[mgr.i..] else []
  }

  /** What manager `m` has stored, works on and has waiting, and what the inserter still has for it, are in this order
      what the received messages address to it. */
  ghost predicate InOrder(c: Config, s: State, m: nat)
    requires ConfigOk(c) && m < |s.controls| == |s.managers|
  {
    OwnedEdges(c, s.stored, m) + ToInsert(s.managers[m]) + DataIn(s.controls[m]) + ToForward(s.inserter, m)
    == AllFor(s.received, m)
  }

  ghost predicate AllInOrder(c: Config, s: State) {
    ConfigOk(c) && |s.controls| == |s.managers| == c.managers &&
    forall m {:trigger InOrder(c, s, m)} :: 0 <= m < c.managers ==> InOrder(c, s, m)
  }

  lemma OwnedSnoc(c: Config, edges: seq<Edge>, e: Edge, m: nat)
    requires ConfigOk(c)
    ensures OwnedEdges(c, edges + [e], m) == OwnedEdges(c, edges, m) + if Owner(c, e) == m then [e] else []
  {
    assert (edges + [e])[..|edges|] == edges;
  }

  lemma {:induction false} FirstFor(shares: seq<Share>, i: nat, m: nat)
    requires i < |shares|
    ensures EdgesFor(shares[i..], m) == (if shares[i].manager == m then shares[i].edges else []) + EdgesFor(shares[i + 1..], m)
    decreases |shares|
  {
    var last := |shares| - 1;
    assert shares[i..][..last - i] == shares[..last][i..];
    if i < last {
      FirstFor(shares[..last], i, m);
      assert shares[i + 1..][..last - i - 1] == shares[..last][i + 1..];
    }
  }

  lemma {:induction false} FirstData(controls: seq<Control>)
    requires controls != []
    ensures DataIn(controls) == (if controls[0].Data? then controls[0].edges else []) + DataIn(controls[1..])
  {
    var last := |controls| - 1;
    if last > 0 {
      FirstData(controls[..last]);
      assert controls[1..][..last - 1] == controls[..last][1..];
    }
  }

  lemma LastData(controls: seq<Control>, msg: Control)
    ensures DataIn(controls + [msg]) == DataIn(controls) + if msg.Data? then msg.edges else []
  {
    assert (controls + [msg])[..|controls|] == controls;
  }

  lemma ReceivedInOrder(c: Config, s: State, m: nat)
    requires Shaped(c, s) && m < c.managers && InOrder(c, s, m) && s.inserter == Receiving && s.queue != []
    ensures InOrder(c, Received(c, s), m)
  {
    hide OwnedEdges, EdgesFor, DataIn;
    var shares := s.queue[0].shares;
    assert shares[0..] == shares;
    assert (s.received + [s.queue[0]])[..|s.received|] == s.received;
  }

  lemma ForwardedInOrder(c: Config, s: State, m: nat)
    requires Shaped(c, s) && m < c.managers && InOrder(c, s, m) && s.inserter.Forwarding?
    ensures InOrder(c, Forwarded(c, s), m)
  {
    hide OwnedEdges, EdgesFor, DataIn, AllFor;
    var Forwarding(msg, i) := s.inserter;
    if i < |msg.shares| {
      ShareInOrder(c, s, m);
    } else {
      assert msg.shares[i..] == [];
      NothingFor(m);
    }
  }

  lemma ShareInOrder(c: Config, s: State, m: nat)
    requires Shaped(c, s) && m < c.managers && InOrder(c, s, m) && s.inserter.Forwarding?
    requires s.inserter.i < |s.inserter.message.shares|
    ensures InOrder(c, Forwarded(c, s), m)
  {
    hide OwnedEdges, EdgesFor, DataIn, AllFor, ToInsert, NextMessage;
    var Forwarding(msg, i) := s.inserter;
    var edges, rest := msg.shares[i].edges, EdgesFor(msg.shares[i + 1..], m);
    FirstFor(msg.shares, i, m);
    if msg.shares[i].manager == m {
      LastData(s.controls[m], Data(edges));
      Regroup(OwnedEdges(c, s.stored, m) + ToInsert(s.managers[m]), DataIn(s.controls[m]), edges, rest);
    } else {
      assert [] + rest == rest;
    }
  }

  lemma Regroup(a: seq<Edge>, b: seq<Edge>, d: seq<Edge>, e: seq<Edge>)
    ensures a + b + (d + e) == a + (b + d) + e
  {
  }

  lemma NothingFor(m: nat)
    ensures EdgesFor([], m) == []
  {
  }

  lemma FetchedInOrder(c: Config, s: State, m: nat, k: nat)
    requires Shaped(c, s) && m < c.managers && InOrder(c, s, m)
    requires k < c.managers && s.controls[k] != [] && s.managers[k] == Waiting
    ensures InOrder(c, Fetched(s, k), m)
  {
    hide OwnedEdges, EdgesFor, DataIn, AllFor;
    if k == m {
      FirstData(s.controls[m]);
      var msg := s.controls[m][0];
      if msg.Data? { assert msg.edges[0..] == msg.edges; }
    }
  }

  lemma OwnEdge(c: Config, s: State, k: nat)
    requires Owned(c, s) && k < c.managers && s.managers[k].Inserting? && s.managers[k].i < |s.managers[k].edges|
    ensures Owner(c, s.managers[k].edges[s.managers[k].i]) == k
  {
    assert OwnedBy(c, s.managers[k].edges, k);
  }

  lemma InsertedInOrder(c: Config, s: State, m: nat, k: nat)
    requires ConfigOk(c) && |s.controls| == |s.managers| == c.managers && m < c.managers && InOrder(c, s, m)
    requires k < c.managers && s.managers[k].Inserting? && s.managers[k].i < |s.managers[k].edges|
    requires Owner(c, s.managers[k].edges[s.managers[k].i]) == k
    ensures var s' := Inserted(c, s, k); |s'.controls| == |s'.managers| == c.managers && InOrder(c, s', m)
  {
    hide OwnedEdges, EdgesFor, DataIn, AllFor, Owner, Contents, TileOf, TileManagers.ToLocal;
    var Inserting(edges, i) := s.managers[k];
    var s', e := Inserted(c, s, k), edges[i];
    hide Inserted, ToForward, ToInsert;
    OwnedSnoc(c, s.stored, e, m);
    if k == m {
      NextToInsert(edges, i);
      Shift(OwnedEdges(c, s.stored, m), e, edges[i + 1..], DataIn(s.controls[m]), ToForward(s.inserter, m));
    } else {
      assert OwnedEdges(c, s.stored, m) + [] == OwnedEdges(c, s.stored, m);
    }
  }

  lemma NextToInsert(edges: seq<Edge>, i: nat)
    requires i < |edges|
    ensures ToInsert(Inserting(edges, i)) == [edges[i]] + edges[i + 1..] && ToInsert(Inserting(edges, i + 1)) == edges[i + 1..]
  {
  }

  lemma Shift(a: seq<Edge>, e: Edge, b: seq<Edge>, d: seq<Edge>, f: seq<Edge>)
    ensures a + ([e] + b) + d + f == (a + [e]) + b + d + f
  {
  }

  lemma CompletedInOrder(c: Config, s: State, m: nat, k: nat)
    requires Shaped(c, s) && m < c.managers && InOrder(c, s, m)
    requires k < c.managers && s.managers[k].Inserting? && s.managers[k].i == |s.managers[k].edges|
    ensures InOrder(c, Completed(c, s, k), m)
  {
    hide OwnedEdges, EdgesFor, DataIn, AllFor;
    assert s.managers[k].edges[s.managers[k].i..] == [];
  }

  lemma JoinedInOrder(c: Config, s: State, m: nat)
    requires Shaped(c, s) && m < c.managers && InOrder(c, s, m)
    ensures InOrder(c, Joined(s), m)
  {
    hide OwnedEdges, EdgesFor, DataIn, AllFor;
    LastData(s.controls[m], Shutdown);
  }

  /** Steps of providers, and of the inserter without edges in its hands. */
  lemma OtherInOrder(c: Config, s: State, s': State, m: nat)
    requires Shaped(c, s) && m < c.managers && InOrder(c, s, m)
    requires s'.controls == s.controls && s'.managers == s.managers && s'.received == s.received && s'.stored == s.stored
    requires s'.inserter == s.inserter || (!s.inserter.Forwarding? && !s'.inserter.Forwarding?)
    ensures InOrder(c, s', m)
  {
  }

  lemma ActInOrder(c: Config, s: State, a: Action, m: nat)
    requires Owned(c, s) && CanAct(c, s, a) && m < c.managers && InOrder(c, s, m)
    ensures var s' := Act(c, s, a); |s'.controls| == |s'.managers| == c.managers && InOrder(c, s', m)
  {
    hide InOrder, Inserted, Owner, Shares;
    match a
    case Receive => ReceivedInOrder(c, s, m);
    case Forward => ForwardedInOrder(c, s, m);
    case Fetch(k) => FetchedInOrder(c, s, m, k);
    case Insert(k) =>
      OwnEdge(c, s, k);
      InsertedInOrder(c, s, m, k);
    case Complete(k) => CompletedInOrder(c, s, m, k);
    case Join => JoinedInOrder(c, s, m);
    case _ => OtherInOrder(c, s, Act(c, s, a), m);
  }

  lemma ActAllInOrder(c: Config, s: State, a: Action)
    requires Owned(c, s) && AllInOrder(c, s) && CanAct(c, s, a)
    ensures AllInOrder(c, Act(c, s, a))
  {
    hide InOrder, Act, CanAct, Owned;
    var s' := Act(c, s, a);
    ActInOrder(c, s, a, 0);
    forall m | 0 <= m < c.managers ensures InOrder(c, s', m) { ActInOrder(c, s, a, m); }
  }

  // ---- The count of stored edges.

  /** What the inserter has not been told to be stored yet. */
  function Unreplied(ins: Inserter): seq<Edge> {
    match ins
    case Forwarding(msg, _) => EdgesIn(msg.shares)
    case Awaiting(msg, i) => if i <= |msg.shares| then EdgesIn(msg.shares[i..]) else []
    case _ => []
  }

  /** In dynamic mode the inserter counts the edges of received messages, up to the reply that it waits for; in the other
      mode there are no replies. */
  ghost predicate Tallied(c: Config, s: State) {
    if c.dynamic then s.countEdges + |Unreplied(s.inserter)| == c.present + |AllEdges(s.received)|
    else !s.inserter.Awaiting? && !s.inserter.Running? && s.replies == 0
  }

  lemma {:induction false} FirstIn(shares: seq<Share>, i: nat)
    requires i < |shares|
    ensures EdgesIn(shares[i..]) == shares[i].edges + EdgesIn(shares[i + 1..])
    decreases |shares|
  {
    var last := |shares| - 1;
    assert shares[i..][..last - i] == shares[..last][i..];
    if i < last {
      FirstIn(shares[..last], i);
      assert shares[i + 1..][..last - i - 1] == shares[..last][i + 1..];
    }
  }

  lemma ActTallied(c: Config, s: State, a: Action)
    requires Shaped(c, s) && Tallied(c, s) && CanAct(c, s, a)
    ensures Tallied(c, Act(c, s, a))
  {
    hide EdgesIn, Shares, Owner, Tallied;
    match a
    case Receive => ReceivedTallied(c, s);
    case Forward => ForwardedTallied(c, s);
    case Reply => RepliedTallied(c, s);
    case _ => OtherTallied(c, s, a);
  }

  lemma ReceivedTallied(c: Config, s: State)
    requires Tallied(c, s) && s.queue != [] && s.inserter == Receiving
    ensures Tallied(c, Received(c, s))
  {
    assert (s.received + [s.queue[0]])[..|s.received|] == s.received;
  }

  lemma ForwardedTallied(c: Config, s: State)
    requires Shaped(c, s) && Tallied(c, s) && s.inserter.Forwarding?
    ensures Tallied(c, Forwarded(c, s))
  {
    hide EdgesIn, AllEdges;
    var msg := s.inserter.message;
    assert msg.shares[0..] == msg.shares;
  }

  lemma RepliedTallied(c: Config, s: State)
    requires Shaped(c, s) && Tallied(c, s) && s.inserter.Awaiting?
    ensures Tallied(c, Replied(c, s))
  {
    hide EdgesIn, AllEdges;
    var Awaiting(msg, i) := s.inserter;
    if i < |msg.shares| { FirstIn(msg.shares, i); } else { NothingIn(msg.shares[i..]); }
  }

  lemma OtherTallied(c: Config, s: State, a: Action)
    requires Shaped(c, s) && Tallied(c, s) && CanAct(c, s, a) && !a.Receive? && !a.Forward? && !a.Reply?
    ensures Tallied(c, Act(c, s, a))
  {
    hide EdgesIn, AllEdges, Shares, Owner, Contents, TileOf;
  }

  lemma NothingIn(shares: seq<Share>)
    requires |shares| == 0
    ensures EdgesIn(shares) == []
  {
  }
}
