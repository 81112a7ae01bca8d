/** What the pipeline promises while edges arrive: batches, their order, and when the algorithm runs on them. */
module PipelineRounds {
  import opened Sums
  import opened LocalEdges
  import opened Pipeline
  import opened PipelineConservation
  import opened PipelineOwnership
  import opened PipelineOrder
  import opened PipelineBatches
  import opened PipelineTheorems

  /** Every provider cuts what it is given into batches of exactly the set number and sends each in one message as soon
      as it is full, all shares in order; what is left goes into its final message. */
  lemma SentInBatches(c: Config, s: State, p: nat)
    requires Reachable(c, s) && p < c.providers
    ensures ConfigOk(c) && p < |s.providers| == |s.given| && Batched(c, s, p)
  {
    ReachableInv(c, s);
  }

  /** A manager stores the edges that received messages address to it in the order of these, none before another. */
  lemma StoredInOrder(c: Config, s: State, m: nat)
    requires Reachable(c, s) && m < c.managers
    ensures ConfigOk(c) && OwnedEdges(c, s.stored, m) <= AllFor(s.received, m)
  {
    ReachableInv(c, s);
    assert InOrder(c, s, m);
  }

  /** In dynamic mode, when the inserter has all replies to a message, everything received so far is in the tiles.  It
      runs the algorithm next if and only if these edges, with those that were there before, are at least the set
      number; otherwise it ends if all providers have sent their final message, and goes on receiving if not. */
  lemma RunsExactly(c: Config, s: State)
    requires Reachable(c, s) && c.dynamic && CanAct(c, s, Reply) && s.inserter.i == |s.inserter.message.shares|
    ensures multiset(s.stored) == multiset(AllEdges(s.received))
    ensures Act(c, s, Reply).inserter.Running? <==> c.present + |AllEdges(s.received)| >= c.minCount
    ensures !Act(c, s, Reply).inserter.Running? ==>
              Act(c, s, Reply).inserter == if |s.finals| == c.providers then Ended else Receiving
  {
    ReachableInv(c, s);
    AllReplied(c, s);
    AllReceivedStored(c, s);
    hide Reachable, AllInOrder, AllBatched, Owned, Balanced, TilesHold, JoinOk, Conserved;
    var msg := s.inserter.message;
    assert msg.shares[|msg.shares|..] == [];
  }

  /** Without dynamic mode no manager replies, and the inserter waits for nothing and never runs the algorithm. */
  lemma NeverRuns(c: Config, s: State)
    requires Reachable(c, s) && !c.dynamic
    ensures !s.inserter.Awaiting? && !s.inserter.Running? && s.replies == 0
  {
    ReachableInv(c, s);
  }

  lemma AllReplied(c: Config, s: State)
    requires Shaped(c, s) && Balanced(c, s) && AllInOrder(c, s) && c.dynamic
    requires s.inserter.Awaiting? && s.inserter.i == |s.inserter.message.shares|
    ensures forall m {:trigger AllFor(s.received, m)} :: 0 <= m < c.managers ==> OwnedEdges(c, s.stored, m) == AllFor(s.received, m)
  {
    hide OwnedEdges, AllFor;
    forall m | 0 <= m < c.managers ensures OwnedEdges(c, s.stored, m) == AllFor(s.received, m) {
      SumIsZero(Loads(s), m);
      NoData(s.controls[m]);
      assert InOrder(c, s, m);
    }
  }

  lemma {:induction false} NoData(controls: seq<Control>)
    requires DataMessages(controls) == 0
    ensures DataIn(controls) == []
  {
    if controls != [] { NoData(controls[..|controls| - 1]); }
  }

  lemma AllReceivedStored(c: Config, s: State)
    requires Owned(c, s)
    requires forall m {:trigger AllFor(s.received, m)} :: 0 <= m < c.managers ==> OwnedEdges(c, s.stored, m) == AllFor(s.received, m)
    ensures multiset(s.stored) == multiset(AllEdges(s.received)) && |s.stored| == |AllEdges(s.received)|
  {
    hide OwnedEdges, AllFor, AllEdges, Owner, SharesOwned;
    forall x ensures multiset(s.stored)[x] == multiset(AllEdges(s.received))[x] {
      OwnedCount(c, s.stored, x);
      ReceivedCount(c, s.received, x);
      var m := Owner(c, x);
      assert OwnedEdges(c, s.stored, m) == AllFor(s.received, m);
    }
    SameSize(s.stored, AllEdges(s.received));
  }

  lemma SameSize(a: seq<Edge>, b: seq<Edge>)
    requires multiset(a) == multiset(b)
    ensures |a| == |b|
  {
    assert |multiset(a)| == |a| && |multiset(b)| == |b|;
  }

  lemma {:induction false} OwnedCount(c: Config, edges: seq<Edge>, x: Edge)
    requires ConfigOk(c)
    ensures multiset(OwnedEdges(c, edges, Owner(c, x)))[x] == multiset(edges)[x]
  {
    hide Owner;
    if edges != [] {
      OwnedCount(c, edges[..|edges| - 1], x);
      assert edges == edges[..|edges| - 1] + [edges[|edges| - 1]];
    }
  }

  lemma {:induction false} ReceivedCount(c: Config, messages: seq<Message>, x: Edge)
    requires ConfigOk(c) && forall i {:trigger messages[i]} :: 0 <= i < |messages| ==> SharesOwned(c, messages[i].shares)
    ensures multiset(AllFor(messages, Owner(c, x)))[x] == multiset(AllEdges(messages))[x]
  {
    hide Owner, SharesOwned;
    if messages != [] {
      ReceivedCount(c, messages[..|messages| - 1], x);
      SharesCount(c, messages[|messages| - 1].shares, x);
    }
  }

  lemma {:induction false} SharesCount(c: Config, shares: seq<Share>, x: Edge)
    requires ConfigOk(c) && SharesOwned(c, shares)
    ensures multiset(EdgesFor(shares, Owner(c, x)))[x] == multiset(EdgesIn(shares))[x]
  {
    hide Owner;
    if shares != [] {
      SharesCount(c, shares[..|shares| - 1], x);
      var share := shares[|shares| - 1];
      assert OwnedBy(c, share.edges, share.manager);
      if x in share.edges { assert Owner(c, x) == share.manager; }
    }
  }
}
