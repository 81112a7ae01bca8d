/** The edge pipeline as a step system: providers batch edges per meta tile manager, one inserter forwards the batches,
    the managers put the edges into their tiles.  Messages travel through first-in first-out ring buffers. */
module Pipeline {
  import opened LocalEdges
  import TileManagers

  /** The settings, with the number of edges that the store has had before. */
  datatype Config = Config(
    managers: nat, providers: nat, verticesPerTile: nat, batch: nat, dynamic: bool, minCount: nat, present: nat)

  predicate ConfigOk(c: Config) {
    1 <= c.managers <= 255 && 1 <= c.providers <= 255 && 1 <= c.verticesPerTile <= TileManagers.U16
  }

  /** TileStore::getTileManagerCoordinates. */
  function TileX(c: Config, e: Edge): nat
    requires c.verticesPerTile >= 1
  {
    e.src / c.verticesPerTile
  }

  function TileY(c: Config, e: Edge): nat
    requires c.verticesPerTile >= 1
  {
    e.tgt / c.verticesPerTile
  }

  datatype Coordinates = Coordinates(x: nat, y: nat)

  function TileOf(c: Config, e: Edge): Coordinates
    requires c.verticesPerTile >= 1
  {
    Coordinates(TileX(c, e), TileY(c, e))
  }

  /** The mapping of tiles to meta tile managers. */
  function TileOwner(c: Config, x: nat, y: nat): (m: nat)
    requires ConfigOk(c)
    ensures m < c.managers
  {
    (x + y) % c.managers
  }

  function Owner(c: Config, e: Edge): (m: nat)
    requires ConfigOk(c)
    ensures m < c.managers
  {
    TileOwner(c, TileX(c, e), TileY(c, e))
  }

  /** One manager's share of a batch. */
  datatype Share = Share(manager: nat, edges: seq<Edge>)

  /** MetaEdgeInserterMessage, with the provider it comes from. */
  datatype Message = Message(provider: nat, shares: seq<Share>, last: bool)

  /** EdgeInserterControlMessage, with the data it points to. */
  datatype Control = Data(edges: seq<Edge>) | Shutdown

  /** An edge provider: its edges waiting to be sent, per manager, and whether it has sent its final batch. */
  datatype Provider = Provider(temp: seq<seq<Edge>>, size: nat, closed: bool)

  /** The edge inserter between messages, forwarding the shares of one from `i` on, waiting for replies with `i`
      received, running the algorithm, or ended. */
  datatype Inserter =
    | Receiving
    | Forwarding(message: Message, i: nat)
    | Awaiting(message: Message, i: nat)
    | Running
    | Ended

  /** A meta tile manager waiting for a message, inserting the edges of one from `i` on, or ended. */
  datatype Manager = Waiting | Inserting(edges: seq<Edge>, i: nat) | Stopped

  /** `added` are all edges that were passed to addEdge and `given` those passed to each provider, `received` the
      messages that the inserter has taken from its queue, and `stored` all edges that are in tiles, all of these in
      order; `tiles` are the overflow lists of the tiles that have got an edge.  `finals` are the providers whose final
      batch the inserter has received. */
  datatype State = State(
    providers: seq<Provider>, queue: seq<Message>, inserter: Inserter, shutdowns: nat, shutdown: bool, countEdges: nat,
    controls: seq<seq<Control>>, managers: seq<Manager>, replies: nat, joining: bool,
    added: seq<Edge>, given: seq<seq<Edge>>, received: seq<Message>, stored: seq<Edge>, tiles: map<Coordinates, seq<LocalEdge>>, finals: set<nat>)

  datatype Action =
    | Add(p: nat, e: Edge)
    | Finish(p: nat)
    | Receive
    | Forward
    | Reply
    | Execute
    | Join
    | Fetch(m: nat)
    | Insert(m: nat)
    | Complete(m: nat)

  // ---- Providers.

  /** The shares of a batch: what is waiting for each manager, without empty ones. */
  function Shares(temp: seq<seq<Edge>>, m: nat): seq<Share>
    requires m <= |temp|
  {
    if m == 0 then []
    else Shares(temp, m - 1) + if temp[m - 1] == [] then [] else [Share(m - 1, temp[m - 1])]
  }

  /** sendEdgesToTileManagers. */
  function Sent(c: Config, s: State, p: nat, last: bool): State
    requires p < |s.providers|
  {
    var pr := s.providers[p];
    s.(providers := s.providers[p := Provider(seq(c.managers, _ => []), 0, last)],
       queue := s.queue + [Message(p, Shares(pr.temp, |pr.temp|), last)])
  }

  /** addEdge and processEdge. */
  function Added(c: Config, s: State, p: nat, e: Edge): State
    requires ConfigOk(c) && p < |s.providers| == |s.given| && |s.providers[p].temp| == c.managers
  {
    var pr := s.providers[p];
    var o := Owner(c, e);
    var s' := s.(providers := s.providers[p := pr.(temp := pr.temp[o := pr.temp[o] + [e]], size := pr.size + 1)],
                 added := s.added + [e], given := s.given[p := s.given[p] + [e]]);
    if pr.size + 1 >= c.batch then Sent(c, s', p, false) else s'
  }

  // ---- The inserter.

  function Received(c: Config, s: State): State
    requires s.queue != []
  {
    var m := s.queue[0];
    var n := if m.last then (s.shutdowns + 1) % 256 else s.shutdowns;
    s.(queue := s.queue[1..], received := s.received + [m], inserter := Forwarding(m, 0), shutdowns := n,
       shutdown := s.shutdown || (m.last && n == c.providers),
       finals := if m.last then s.finals + {m.provider} else s.finals)
  }

  function NextMessage(s: State): State {
    s.(inserter := if s.shutdown then Ended else Receiving)
  }

  function Forwarded(c: Config, s: State): State
    requires s.inserter.Forwarding?
  {
    var Forwarding(m, i) := s.inserter;
    if i < |m.shares| && m.shares[i].manager < |s.controls| then
      var o := m.shares[i].manager;
      s.(controls := s.controls[o := s.controls[o] + [Data(m.shares[i].edges)]], inserter := Forwarding(m, i + 1))
    else if c.dynamic then s.(inserter := Awaiting(m, 0))
    else NextMessage(s)
  }

  function Replied(c: Config, s: State): State
    requires s.inserter.Awaiting?
  {
    var Awaiting(m, i) := s.inserter;
    if i < |m.shares| then
      s.(inserter := Awaiting(m, i + 1), replies := if s.replies > 0 then s.replies - 1 else 0,
         countEdges := s.countEdges + |m.shares[i].edges|)
    else if s.countEdges >= c.minCount then s.(inserter := Running)
    else NextMessage(s)
  }

  // ---- The managers.

  function Fetched(s: State, m: nat): State
    requires m < |s.controls| == |s.managers| && s.controls[m] != []
  {
    var msg := s.controls[m][0];
    s.(controls := s.controls[m := s.controls[m][1..]],
       managers := s.managers[m := if msg.Shutdown? then Stopped else Inserting(msg.edges, 0)])
  }

  /** What is in a tile. */
  function Contents(s: State, t: Coordinates): seq<LocalEdge> {
    if t in s.tiles then s.tiles[t] else []
  }

  /** insertEdge: the edge goes, in its local form, to the end of its tile's list. */
  function Inserted(c: Config, s: State, m: nat): State
    requires ConfigOk(c) && m < |s.managers| && s.managers[m].Inserting? && s.managers[m].i < |s.managers[m].edges|
  {
    var Inserting(edges, i) := s.managers[m];
    var t := TileOf(c, edges[i]);
    s.(managers := s.managers[m := Inserting(edges, i + 1)], stored := s.stored + [edges[i]],
       tiles := s.tiles[t := Contents(s, t) + [TileManagers.ToLocal(edges[i], c.verticesPerTile)]])
  }

  function Completed(c: Config, s: State, m: nat): State
    requires m < |s.managers|
  {
    s.(managers := s.managers[m := Waiting], replies := if c.dynamic then s.replies + 1 else s.replies)
  }

  /** MetaTileStore::join, after the inserter has ended: a shutdown message for every manager. */
  function Joined(s: State): State {
    s.(joining := true, controls := seq(|s.controls|, m requires 0 <= m < |s.controls| => s.controls[m] + [Shutdown]))
  }

  predicate CanAct(c: Config, s: State, a: Action) {
    && ConfigOk(c) && |s.providers| == |s.given| == c.providers && |s.controls| == |s.managers| == c.managers
    && match a
       case Add(p, e) => p < c.providers && !s.providers[p].closed && |s.providers[p].temp| == c.managers
       case Finish(p) => p < c.providers && !s.providers[p].closed
       case Receive => s.inserter == Receiving && s.queue != []
       case Forward => s.inserter.Forwarding?
       case Reply => s.inserter.Awaiting? && (s.inserter.i < |s.inserter.message.shares| ==> s.replies > 0)
       case Execute => s.inserter == Running
       case Join => s.inserter == Ended && !s.joining
       case Fetch(m) => m < c.managers && s.managers[m] == Waiting && s.controls[m] != []
       case Insert(m) => m < c.managers && s.managers[m].Inserting? && s.managers[m].i < |s.managers[m].edges|
       case Complete(m) => m < c.managers && s.managers[m].Inserting? && s.managers[m].i == |s.managers[m].edges|
  }

  function Act(c: Config, s: State, a: Action): State
    requires CanAct(c, s, a)
  {
    match a
    case Add(p, e) => Added(c, s, p, e)
    case Finish(p) => Sent(c, s, p, true)
    case Receive => Received(c, s)
    case Forward => Forwarded(c, s)
    case Reply => Replied(c, s)
    case Execute => NextMessage(s)
    case Join => Joined(s)
    case Fetch(m) => Fetched(s, m)
    case Insert(m) => Inserted(c, s, m)
    case Complete(m) => Completed(c, s, m)
  }

  ghost predicate Runs(c: Config, s: State, actions: seq<Action>, s': State)
    decreases |actions|
  {
    if actions == [] then s' == s
    else CanAct(c, s, actions[0]) && Runs(c, Act(c, s, actions[0]), actions[1..], s')
  }

  predicate Initial(c: Config, s: State) {
    && ConfigOk(c) && |s.providers| == |s.given| == c.providers && |s.controls| == |s.managers| == c.managers
    && (forall p {:trigger s.providers[p]} :: 0 <= p < c.providers ==>
          s.providers[p] == Provider(seq(c.managers, _ => []), 0, false))
    && (forall m {:trigger s.controls[m]} :: 0 <= m < c.managers ==> s.controls[m] == [])
    && (forall m {:trigger s.managers[m]} :: 0 <= m < c.managers ==> s.managers[m] == Waiting)
    && (forall p {:trigger s.given[p]} :: 0 <= p < c.providers ==> s.given[p] == [])
    && s.queue == [] && s.inserter == Receiving && s.shutdowns == 0 && !s.shutdown && s.replies == 0 && !s.joining
    && s.countEdges == c.present && s.added == [] && s.received == [] && s.stored == [] && s.tiles == map[] && s.finals == {}
  }
}
