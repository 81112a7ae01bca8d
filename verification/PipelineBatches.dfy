/** Providers send their edges in batches of a fixed number, each split by manager. */
module PipelineBatches {
  import opened LocalEdges
  import opened Pipeline
  import opened PipelineConservation
  import opened PipelineOrder

  /** The number of edges in a batch that is not the final one. */
  function BatchSize(c: Config): (b: nat)
    ensures b >= 1
  {
    if c.batch == 0 then 1 else c.batch
  }

  /** `edges` cut into pieces of `b`. */
  function Blocks(edges: seq<Edge>, b: nat): seq<seq<Edge>>
    requires b >= 1
  {
    if |edges| < b then [] else [edges[..b]] + Blocks(edges[b..], b)
  }

  /** What is left at the end of that. */
  function Rest(edges: seq<Edge>, b: nat): (r: seq<Edge>)
    requires b >= 1
    ensures |r| < b
  {
    if |edges| < b then edges else Rest(edges[b..], b)
  }

  predicate Named(shares: seq<Share>, m: nat) {
    exists i :: 0 <= i < |shares| && shares[i].manager == m
  }

  /** A message with `shares` brings exactly `edges` to their managers: each that gets any is named once, in order, with
      its edges in order. */
  predicate Delivers(c: Config, shares: seq<Share>, edges: seq<Edge>)
    requires ConfigOk(c)
  {
    && (forall i, j {:trigger shares[i], shares[j]} :: 0 <= i < j < |shares| ==> shares[i].manager < shares[j].manager)
    && (forall i {:trigger shares[i]} :: 0 <= i < |shares| ==>
          shares[i].manager < c.managers && shares[i].edges == OwnedEdges(c, edges, shares[i].manager) != [])
    && (forall m {:trigger OwnedEdges(c, edges, m)} :: 0 <= m < c.managers && OwnedEdges(c, edges, m) != [] ==>
          Named(shares, m))
  }

  ghost predicate HeldFor(c: Config, temp: seq<seq<Edge>>, edges: seq<Edge>)
    requires ConfigOk(c)
  {
    |temp| == c.managers && forall m {:trigger temp[m]} :: 0 <= m < c.managers ==> temp[m] == OwnedEdges(c, edges, m)
  }

  /** The messages of provider `p`. */
  function MessagesOf(messages: seq<Message>, p: nat): seq<Message> {
    if messages == [] then []
    else
      var last := |messages| - 1;
      MessagesOf(messages[..last], p) + if messages[last].provider == p then [messages[last]] else []
  }

  /** A provider that was given `edges` has sent `msgs`, one for each full batch, and still holds the rest, unless it
      has closed with a final message for that. */
  ghost predicate BatchedAs(c: Config, pr: Provider, edges: seq<Edge>, msgs: seq<Message>)
    requires ConfigOk(c)
  {
    var blocks, rest := Blocks(edges, BatchSize(c)), Rest(edges, BatchSize(c));
    && |msgs| == |blocks| + (if pr.closed then 1 else 0)
    && (forall k {:trigger msgs[k]} :: 0 <= k < |blocks| ==> !msgs[k].last && Delivers(c, msgs[k].shares, blocks[k]))
    && if pr.closed then msgs[|blocks|].last && Delivers(c, msgs[|blocks|].shares, rest)
       else HeldFor(c, pr.temp, rest) && pr.size == |rest|
  }

  ghost predicate Batched(c: Config, s: State, p: nat)
    requires ConfigOk(c) && p < |s.providers| == |s.given|
  {
    BatchedAs(c, s.providers[p], s.given[p], MessagesOf(s.received + s.queue, p))
  }

  ghost predicate AllBatched(c: Config, s: State) {
    ConfigOk(c) && |s.providers| == |s.given| == c.providers &&
    forall p {:trigger Batched(c, s, p)} :: 0 <= p < c.providers ==> Batched(c, s, p)
  }

  lemma {:induction false} CutSnoc(edges: seq<Edge>, e: Edge, b: nat)
    requires b >= 1
    ensures
      var r := Rest(edges, b) + [e];
      if |r| == b then Blocks(edges + [e], b) == Blocks(edges, b) + [r] && Rest(edges + [e], b) == []
      else Blocks(edges + [e], b) == Blocks(edges, b) && Rest(edges + [e], b) == r
  {
    if |edges| < b {
      if |edges| + 1 == b {
        assert (edges + [e])[..b] == edges + [e] && (edges + [e])[b..] == [];
      }
    } else {
      CutSnoc(edges[b..], e, b);
      assert (edges + [e])[..b] == edges[..b] && (edges + [e])[b..] == edges[b..] + [e];
    }
  }

  lemma {:induction false} SharesNamed(temp: seq<seq<Edge>>, n: nat, m: nat)
    requires m < n <= |temp| && temp[m] != []
    ensures Named(Shares(temp, n), m)
  {
    var before, shares := Shares(temp, n - 1), Shares(temp, n);
    if m < n - 1 {
      SharesNamed(temp, n - 1, m);
      var i :| 0 <= i < |before| && before[i].manager == m;
      assert shares[i].manager == m;
    } else {
      assert shares[|before|].manager == m;
    }
  }

  lemma {:induction false} SharesOfTemp(temp: seq<seq<Edge>>, n: nat)
    requires n <= |temp|
    ensures forall i {:trigger Shares(temp, n)[i]} :: 0 <= i < |Shares(temp, n)| ==>
              Shares(temp, n)[i].manager < n && Shares(temp, n)[i].edges == temp[Shares(temp, n)[i].manager] != []
    ensures forall i, j {:trigger Shares(temp, n)[i], Shares(temp, n)[j]} :: 0 <= i < j < |Shares(temp, n)| ==>
              Shares(temp, n)[i].manager < Shares(temp, n)[j].manager
  {
    if n > 0 { SharesOfTemp(temp, n - 1); }
  }

  lemma DeliversHeld(c: Config, temp: seq<seq<Edge>>, edges: seq<Edge>)
    requires ConfigOk(c) && HeldFor(c, temp, edges)
    ensures Delivers(c, Shares(temp, |temp|), edges)
  {
    hide OwnedEdges, Shares;
    SharesOfTemp(temp, |temp|);
    forall m | 0 <= m < c.managers && OwnedEdges(c, edges, m) != [] ensures Named(Shares(temp, |temp|), m) {
      assert temp[m] == OwnedEdges(c, edges, m);
      SharesNamed(temp, |temp|, m);
    }
  }

  lemma HeldSnoc(c: Config, temp: seq<seq<Edge>>, edges: seq<Edge>, e: Edge)
    requires ConfigOk(c) && HeldFor(c, temp, edges)
    ensures var o := Owner(c, e); HeldFor(c, temp[o := temp[o] + [e]], edges + [e])
  {
    hide OwnedEdges, Owner;
    var o := Owner(c, e);
    forall m | 0 <= m < c.managers ensures temp[o := temp[o] + [e]][m] == OwnedEdges(c, edges + [e], m) {
      OwnedSnoc(c, edges, e, m);
    }
  }

  lemma HeldNothing(c: Config)
    requires ConfigOk(c)
    ensures HeldFor(c, seq(c.managers, _ => []), [])
  {
  }

  lemma LastMessage(messages: seq<Message>, msg: Message, p: nat)
    ensures MessagesOf(messages + [msg], p) == MessagesOf(messages, p) + if msg.provider == p then [msg] else []
  {
    assert (messages + [msg])[..|messages|] == messages;
  }

  lemma FinalBatch(c: Config, pr: Provider, edges: seq<Edge>, msgs: seq<Message>, p: nat)
    requires ConfigOk(c) && BatchedAs(c, pr, edges, msgs) && !pr.closed
    ensures BatchedAs(c, Provider(seq(c.managers, _ => []), 0, true), edges, msgs + [Message(p, Shares(pr.temp, |pr.temp|), true)])
  {
    hide Blocks, Rest, Delivers, HeldFor, OwnedEdges, Shares;
    DeliversHeld(c, pr.temp, Rest(edges, BatchSize(c)));
  }

  lemma NextEdge(c: Config, pr: Provider, edges: seq<Edge>, msgs: seq<Message>, p: nat, e: Edge)
    requires ConfigOk(c) && BatchedAs(c, pr, edges, msgs) && !pr.closed && |pr.temp| == c.managers
    ensures
      var o := Owner(c, e);
      var temp := pr.temp[o := pr.temp[o] + [e]];
      if pr.size + 1 >= c.batch then
        BatchedAs(c, Provider(seq(c.managers, _ => []), 0, false), edges + [e], msgs + [Message(p, Shares(temp, |temp|), false)])
      else
        BatchedAs(c, pr.(temp := temp, size := pr.size + 1), edges + [e], msgs)
  {
    hide Blocks, Rest, Delivers, HeldFor, OwnedEdges, Shares, Owner;
    var rest := Rest(edges, BatchSize(c));
    HeldSnoc(c, pr.temp, rest, e);
    CutSnoc(edges, e, BatchSize(c));
    if pr.size + 1 >= c.batch {
      var o := Owner(c, e);
      DeliversHeld(c, pr.temp[o := pr.temp[o] + [e]], rest + [e]);
      HeldNothing(c);
    }
  }

  lemma SentMessage(s: State, msg: Message, q: nat)
    ensures MessagesOf(s.received + (s.queue + [msg]), q)
         == if msg.provider == q then MessagesOf(s.received + s.queue, q) + [msg] else MessagesOf(s.received + s.queue, q)
  {
    assert s.received + (s.queue + [msg]) == s.received + s.queue + [msg];
    LastMessage(s.received + s.queue, msg, q);
    assert MessagesOf(s.received + s.queue, q) + [] == MessagesOf(s.received + s.queue, q);
  }

  lemma FinishedBatched(c: Config, s: State, p: nat, q: nat)
    requires Shaped(c, s) && p < c.providers && q < c.providers && Batched(c, s, q) && !s.providers[p].closed
    ensures Batched(c, Sent(c, s, p, true), q)
  {
    hide BatchedAs, MessagesOf, Shares;
    var pr := s.providers[p];
    SentMessage(s, Message(p, Shares(pr.temp, |pr.temp|), true), q);
    if q == p { FinalBatch(c, pr, s.given[p], MessagesOf(s.received + s.queue, p), p); }
  }

  lemma AddedBatched(c: Config, s: State, p: nat, e: Edge, q: nat)
    requires Shaped(c, s) && p < c.providers && q < c.providers && Batched(c, s, q) && !s.providers[p].closed
    ensures Batched(c, Added(c, s, p, e), q)
  {
    hide BatchedAs, MessagesOf, Shares, Owner;
    var pr, o := s.providers[p], Owner(c, e);
    var temp := pr.temp[o := pr.temp[o] + [e]];
    SentMessage(s, Message(p, Shares(temp, |temp|), false), q);
    if q == p { NextEdge(c, pr, s.given[p], MessagesOf(s.received + s.queue, p), p, e); }
  }

  /** Steps of others: the messages sent stay the same. */
  lemma OtherBatched(c: Config, s: State, s': State, p: nat)
    requires Shaped(c, s) && p < c.providers && Batched(c, s, p) && s'.providers == s.providers && s'.given == s.given
    requires s'.received + s'.queue == s.received + s.queue
    ensures Batched(c, s', p)
  {
  }

  lemma ActAllBatched(c: Config, s: State, a: Action)
    requires Shaped(c, s) && AllBatched(c, s) && CanAct(c, s, a)
    ensures AllBatched(c, Act(c, s, a))
  {
    hide Batched, Shares, Owner;
    var s' := Act(c, s, a);
    if a.Receive? { assert s.received + s.queue == s'.received + s'.queue; }
    forall q | 0 <= q < c.providers ensures Batched(c, s', q) {
      assert Batched(c, s, q);
      match a
      case Add(p, e) => AddedBatched(c, s, p, e, q);
      case Finish(p) => FinishedBatched(c, s, p, q);
      case _ => OtherBatched(c, s, s', q);
    }
  }
}
