/** A whole pull phase: the tile distributor cuts the store into batches, flat or meta tile by meta tile, the batches go
    to the executors, and what they push is one flat round over all edges. */
module PullPhases {
  import opened LocalEdges
  import opened TileManagers
  import opened VertexPrograms
  import opened Executors
  import opened ApplyMachine
  import opened PullRound
  import opened TileIndex
  import opened TileDistribution
  import opened MetaTileCounts

  // ---- Both modes of the distributor schedule the same.

  /** The lists of a store's meta tiles, as positions on the traversal. */
  function Lists(store: TileStore): (r: seq<seq<nat>>)
    reads store.metaTileToTm
  {
    AllIds(store.metaTileToTm[..])
  }

  function AllIds(metaTiles: seq<seq<Tile>>): (r: seq<seq<nat>>)
    ensures |r| == |metaTiles| && forall m {:trigger r[m]} :: 0 <= m < |r| ==> r[m] == Ids(metaTiles[m])
  {
    seq(|metaTiles|, m requires 0 <= m < |metaTiles| => Ids(metaTiles[m]))
  }

  function Ids(tiles: seq<Tile>): (r: seq<nat>)
    ensures |r| == |tiles| && forall i {:trigger r[i]} :: 0 <= i < |r| ==> r[i] == tiles[i].id
  {
    seq(|tiles|, i requires 0 <= i < |tiles| => tiles[i].id)
  }

  /** The `m`-th meta tile is the `m`-th run of positions. */
  lemma ListIsRun(store: TileStore, c: nat, m: nat)
    requires store.TwoLevel(c) && m < store.metaTileToTm.Length
    ensures Start(m, c) + c <= store.traversalToTm.Length && Lists(store)[m] == Range(Start(m, c), Start(m, c) + c)
  {
    hide Start, TileAt;
    var run := store.metaTileToTm[m];
    assert run == store.traversalToTm[Start(m, c)..Start(m, c) + c];
    forall i | 0 <= i < c ensures run[i].id == Start(m, c) + i {
      store.TileId(Start(m, c) + i);
      assert run[i] == store.traversalToTm[Start(m, c) + i];
    }
    assert Ids(run) == Range(Start(m, c), Start(m, c) + c);
  }

  /** Put together, the meta tiles are the traversal. */
  lemma ListsAreTraversal(store: TileStore, c: nat)
    requires store.TwoLevel(c)
    ensures Flatten(Lists(store)) == Range(0, store.traversalToTm.Length)
  {
    hide Start;
    forall m | 0 <= m < |Lists(store)| ensures Lists(store)[m] == Range(Start(m, c), Start(m, c) + c) {
      ListIsRun(store, c, m);
    }
    RunsAreFlat(Lists(store), c);
  }

  /** A list of the store is as RunTwoLevel asks for it, and its tiles know their meta tile. */
  lemma ListFits(store: TileStore, c: nat, m: nat)
    requires store.TwoLevel(c) && m < store.metaTileToTm.Length
    ensures var list := Lists(store)[m]; |list| == c && Distinct(list)
    ensures var list := Lists(store)[m];
            forall i {:trigger list[i]} :: 0 <= i < |list| ==> list[i] < store.metaTileId.Length && store.metaTileId[list[i]] == m
  {
    hide Start;
    var list := Lists(store)[m];
    ListIsRun(store, c, m);
    RangeIsDistinct(Start(m, c), Start(m, c) + c);
    forall i | 0 <= i < |list| ensures list[i] < store.metaTileId.Length && store.metaTileId[list[i]] == m {
      OneRun(store.metaTileId[list[i]], m, c, list[i]);
    }
  }

  lemma ListsFit(store: TileStore, c: nat, sizes: seq<nat>)
    requires store.TwoLevel(c) && |sizes| == store.traversalToTm.Length
    ensures forall m {:trigger Lists(store)[m]} :: 0 <= m < |Lists(store)| ==>
              InStore(Lists(store)[m], sizes) && Distinct(Lists(store)[m]) && |Lists(store)[m]| == c
    ensures forall m, i {:trigger Lists(store)[m][i]} :: 0 <= m < |Lists(store)| && 0 <= i < |Lists(store)[m]| ==>
              Lists(store)[m][i] < |sizes| == store.metaTileId.Length && store.metaTileId[Lists(store)[m][i]] == m
  {
    hide Start, TileStore.CutIntoRuns, TileStore.Indexed, Distinct;
    forall m | 0 <= m < |Lists(store)|
      ensures InStore(Lists(store)[m], sizes) && Distinct(Lists(store)[m]) && |Lists(store)[m]| == c
      ensures forall i {:trigger Lists(store)[m][i]} :: 0 <= i < |Lists(store)[m]| ==>
                Lists(store)[m][i] < store.metaTileId.Length && store.metaTileId[Lists(store)[m][i]] == m
    {
      ListFits(store, c, m);
    }
  }

  /** A position lies in one run only. */
  lemma OneRun(m: nat, m': nat, c: nat, d: nat)
    requires Start(m, c) <= d < Start(m, c) + c && Start(m', c) <= d < Start(m', c) + c
    ensures m == m'
  {
    hide Start;
    if m < m' { StartMonotone(m, m', c); }
    if m' < m { StartMonotone(m', m, c); }
  }

  /** The counters that the managers keep are such that skipping meta tiles loses nothing: on the lists of the store, if
      edges only get into tiles by insertions that the managers counted, a meta tile without count has no edge. */
  lemma CountersAreRight(store: TileStore, c: nat, logs: seq<seq<nat>>, counts: seq<seq<nat>>, sizes: seq<nat>)
    requires store.TwoLevel(c) && |sizes| == store.traversalToTm.Length && |counts| == |logs|
    requires forall i {:trigger counts[i]} :: 0 <= i < |counts| ==>
               |counts[i]| == |Lists(store)|
               && forall k {:trigger counts[i][k]} :: 0 <= k < |counts[i]| ==> counts[i][k] == Hits(logs[i], store.metaTileId[..], k)
    requires forall t {:trigger sizes[t]} :: 0 <= t < |sizes| && sizes[t] > 0 ==> InsertedInto(logs, t)
    ensures MetaTilesKnown(store, counts, c, sizes)
  {
    hide Start, Hits, InsertedInto, Counted, TileStore.Indexed, TileStore.CutIntoRuns;
    ListsFit(store, c, sizes);
    SkippedAreEmpty(Lists(store), store.metaTileId[..], logs, counts, sizes);
  }

  /** Scheduling meta tile by meta tile refines scheduling flat: on the lists that TileStore::init makes, both modes send
      the same tiles in the same order, namely those with edges, and count as many tiles as skipped. */
  lemma TwoLevelIsFlat(store: TileStore, c: nat, sizes: seq<nat>, flat: TileDistributor, twoLevel: TileDistributor)
    requires store.TwoLevel(c) && |sizes| == store.traversalToTm.Length && flat.Configured() && twoLevel.Configured()
    requires InStore(Range(0, |sizes|), sizes) && flat.Scheduled([], 0, Range(0, |sizes|), sizes)
    requires InStore(Flatten(Lists(store)), sizes) && twoLevel.Scheduled([], 0, Flatten(Lists(store)), sizes)
    ensures Flatten(twoLevel.messages) == Flatten(flat.messages) == NonEmpty(Range(0, |sizes|), sizes)
    ensures twoLevel.countSkippedTiles == flat.countSkippedTiles == Empties(Range(0, |sizes|), sizes)
  {
    ListsAreTraversal(store, c);
  }

  // ---- Dealing the batches to executors.

  /** The messages that executor `e` receives when the `i`-th goes to executor `deal[i]`. */
  function Share(messages: seq<seq<nat>>, deal: seq<nat>, e: nat): seq<seq<nat>>
    requires |deal| == |messages|
  {
    if messages == [] then []
    else
      var last := |messages| - 1;
      Share(messages[..last], deal[..last], e) + if deal[last] == e then [messages[last]] else []
  }

  lemma {:induction false} InShare(messages: seq<seq<nat>>, deal: seq<nat>, e: nat, message: seq<nat>)
    requires |deal| == |messages|
    ensures message in Share(messages, deal, e)
        <==> exists i {:trigger messages[i]} :: 0 <= i < |messages| && deal[i] == e && messages[i] == message
  {
    if messages != [] {
      var last := |messages| - 1;
      InShare(messages[..last], deal[..last], e, message);
      assert forall i {:trigger messages[i]} :: 0 <= i < last ==> messages[..last][i] == messages[i] && deal[..last][i] == deal[i];
      assert messages[last] == messages[last];
    }
  }

  lemma {:induction false} InFlatten(batches: seq<seq<nat>>, t: nat)
    ensures t in Flatten(batches) <==> exists i {:trigger batches[i]} :: 0 <= i < |batches| && t in batches[i]
  {
    if batches != [] {
      var last := |batches| - 1;
      InFlatten(batches[..last], t);
      assert forall i {:trigger batches[i]} :: 0 <= i < last ==> batches[..last][i] == batches[i];
      assert batches[last] == batches[last];
    }
  }

  lemma {:induction false} InNonEmpty(tiles: seq<nat>, sizes: seq<nat>, t: nat)
    requires InStore(tiles, sizes)
    ensures t in NonEmpty(tiles, sizes) <==> t in tiles && sizes[t] != 0
  {
    if tiles != [] {
      InNonEmpty(tiles[..|tiles| - 1], sizes, t);
      assert tiles == tiles[..|tiles| - 1] + [tiles[|tiles| - 1]];
    }
  }

  /** What the executors have after processing their shares of `messages`: batch by batch the tiles named. */
  ghost predicate AllProcessed(p: Program, n: nat, current: seq<value>, views: seq<TileView>, messages: seq<seq<nat>>,
                               deal: seq<nat>, rounds: seq<seq<Batch>>)
    requires |deal| == |messages|
  {
    forall e {:trigger rounds[e]} :: 0 <= e < |rounds| ==> ShareProcessed(p, n, current, views, Share(messages, deal, e), rounds[e])
  }

  ghost predicate ShareProcessed(p: Program, n: nat, current: seq<value>, views: seq<TileView>, share: seq<seq<nat>>,
                                 batches: seq<Batch>)
  {
    && |batches| == |share|
    && (forall b {:trigger batches[b]} :: 0 <= b < |batches| ==>
          Processed(p, n, current, batches[b]) && |batches[b].tiles| == |share[b]|)
    && (forall b, j {:trigger batches[b].tiles[j]} :: 0 <= b < |batches| && 0 <= j < |batches[b].tiles| ==>
          share[b][j] < |views| && batches[b].tiles[j] == views[share[b][j]])
  }

  /** The messages of a round name exactly the tiles with edges. */
  ghost predicate NamesAll(views: seq<TileView>, messages: seq<seq<nat>>) {
    forall t {:trigger views[t]} :: 0 <= t < |views| && views[t].edges != {} ==> t in Flatten(messages)
  }

  /** However the batches are dealt to the executors, after processing them every tile with edges is in a batch. */
  lemma DealtRoundIsOk(p: Program, n: nat, current: seq<value>, views: seq<TileView>, messages: seq<seq<nat>>, deal: seq<nat>,
                       rounds: seq<seq<Batch>>)
    requires |deal| == |messages| && (forall i {:trigger deal[i]} :: 0 <= i < |deal| ==> deal[i] < |rounds|)
    requires AllProcessed(p, n, current, views, messages, deal, rounds) && NamesAll(views, messages)
    requires forall k, e {:trigger e in views[k].edges} :: 0 <= k < |views| && e in views[k].edges ==>
               Id(views[k].x, n, e.src) < |current| && e.tgt < n
    ensures RoundOk(p, n, current, rounds, views)
  {
    hide Id, Share, Flatten, Processed;
    forall e, b | 0 <= e < |rounds| && 0 <= b < |rounds[e]|
      ensures WellFormed(rounds[e][b]) && Processed(p, n, current, rounds[e][b])
    {
      assert ShareProcessed(p, n, current, views, Share(messages, deal, e), rounds[e]);
      ProcessedIsWellFormed(p, n, current, rounds[e][b]);
    }
    forall k | 0 <= k < |views| && views[k].edges != {} ensures Distributed(rounds, views[k]) {
      InFlatten(messages, k);
      var i :| 0 <= i < |messages| && k in messages[i];
      var e := deal[i];
      InShare(messages, deal, e, messages[i]);
      var share := Share(messages, deal, e);
      assert ShareProcessed(p, n, current, views, share, rounds[e]);
      var b: nat :| b < |share| && share[b] == messages[i];
      var j: nat :| j < |share[b]| && share[b][j] == k;
      assert HasTile(rounds, e, b, j, views[k]);
    }
    forall e, b, j | 0 <= e < |rounds| && 0 <= b < |rounds[e]| && 0 <= j < |rounds[e][b].tiles|
      ensures rounds[e][b].tiles[j] in views
    {
      assert ShareProcessed(p, n, current, views, Share(messages, deal, e), rounds[e]);
    }
  }

  lemma ProcessedIsWellFormed(p: Program, n: nat, current: seq<value>, b: Batch)
    requires Processed(p, n, current, b)
    ensures WellFormed(b)
  {
  }

  // ---- One phase.

  /** What countEdges tells of every tile. */
  function Sizes(tms: seq<TileManager>): (r: seq<nat>)
    reads tms
  {
    seq(|tms|, t requires 0 <= t < |tms| reads tms => |tms[t].edges| + |tms[t].targets|)
  }

  ghost predicate AllStored(tms: seq<TileManager>)
    reads tms, set t | 0 <= t < |tms| :: tms[t].counts
  {
    forall t {:trigger tms[t]} :: 0 <= t < |tms| ==> tms[t].Stored()
  }

  ghost predicate AllReadable(current: array<value>, tms: seq<TileManager>, n: nat)
    reads current, tms, set t | 0 <= t < |tms| :: tms[t].counts
  {
    forall t {:trigger tms[t]} :: 0 <= t < |tms| ==> tms[t].Stored() && Sources(current[..], tms[t].x, tms[t].Contents(), n)
  }

  lemma ReadableIsStored(current: array<value>, tms: seq<TileManager>, n: nat)
    requires AllReadable(current, tms, n)
    ensures AllStored(tms)
  {
  }

  ghost function Views(tms: seq<TileManager>): (r: seq<TileView>)
    requires AllStored(tms)
    reads tms, set t | 0 <= t < |tms| :: tms[t].counts
  {
    seq(|tms|, t requires 0 <= t < |tms| && tms[t].Stored() reads tms, set t | 0 <= t < |tms| :: tms[t].counts => ViewOf(tms[t]))
  }

  /** Executors of one configuration, each with arrays of its own. */
  ghost predicate Team(executors: seq<Executor>, p: Program, n: nat, batching: nat) {
    && (forall e {:trigger executors[e]} :: 0 <= e < |executors| ==>
          executors[e].program == p && executors[e].verticesPerTile == n && executors[e].batching == batching)
    && (forall e, f {:trigger executors[e], executors[f]} :: 0 <= e < f < |executors| ==>
          executors[e].tileY != executors[f].tileY && executors[e].local != executors[f].local)
  }

  ghost predicate TeamReady(executors: seq<Executor>, current: array<value>, tms: seq<TileManager>)
    reads current, tms, set t | 0 <= t < |tms| :: tms[t].counts, set e | e in executors :: e.tileY
  {
    forall e {:trigger executors[e]} :: 0 <= e < |executors| ==>
      && executors[e].Resettable() && current as object != executors[e].tileY
      && forall t {:trigger tms[t]} :: 0 <= t < |tms| ==> executors[e].Readable(current, tms[t])
  }

  /** All executors process what they are dealt.  Each works on arrays of its own, so the order they take turns in makes
      no difference. */
  method ProcessAll(executors: seq<Executor>, current: array<value>, tms: seq<TileManager>, messages: seq<seq<nat>>, deal: seq<nat>,
                    ghost p: Program, ghost n: nat, ghost batching: nat)
    returns (ghost rounds: seq<seq<Batch>>)
    requires Team(executors, p, n, batching) && TeamReady(executors, current, tms) && |deal| == |messages|
    requires AllReadable(current, tms, n) && AllStored(tms)
    requires forall i {:trigger deal[i]} :: 0 <= i < |deal| ==> deal[i] < |executors|
    requires forall i {:trigger messages[i]} :: 0 <= i < |messages| ==>
               |messages[i]| <= batching && forall j {:trigger messages[i][j]} :: 0 <= j < |messages[i]| ==> messages[i][j] < |tms|
    modifies set e | e in executors :: e.tileY, set e | e in executors :: e.local
    ensures AllReadable(current, tms, n) && AllStored(tms) && |rounds| == |executors|
    ensures current[..] == old(current[..]) && Views(tms) == old(Views(tms))
    ensures AllProcessed(p, n, current[..], Views(tms), messages, deal, rounds)
  {
    hide Gathered, Expand, CountRuns, Sources, FreeFrom;
    rounds := [];
    for e := 0 to |executors|
      invariant TeamReady(executors, current, tms) && AllReadable(current, tms, n) && AllStored(tms) && |rounds| == e
      invariant current[..] == old(current[..]) && Views(tms) == old(Views(tms))
      invariant forall f {:trigger rounds[f]} :: 0 <= f < e ==>
                  ShareProcessed(p, n, current[..], Views(tms), Share(messages, deal, f), rounds[f])
    {
      var share := Share(messages, deal, e);
      forall b | 0 <= b < |share|
        ensures |share[b]| <= batching && forall j {:trigger share[b][j]} :: 0 <= j < |share[b]| ==> share[b][j] < |tms|
      {
        InShare(messages, deal, e, share[b]);
      }
      ghost var batches := executors[e].Run(current, tms, share);
      rounds := rounds + [batches];
    }
  }

  /** The batches of a round name every tile that has edges. */
  lemma ScheduledNamesAll(d: TileDistributor, tms: seq<TileManager>, sizes: seq<nat>)
    requires d.Configured() && AllStored(tms) && sizes == Sizes(tms) && InStore(Range(0, |sizes|), sizes)
    requires exists skipped :: d.Scheduled([], skipped, Range(0, |sizes|), sizes)
    ensures NamesAll(Views(tms), d.messages)
  {
    hide Flatten, NonEmpty, Empties, Expand, BatchesOk;
    forall t | 0 <= t < |tms| && Views(tms)[t].edges != {} ensures t in Flatten(d.messages) {
      EdgesAreCounted(tms[t]);
      assert Range(0, |sizes|)[t] == t;
      InNonEmpty(Range(0, |sizes|), sizes, t);
      assert Flatten([]) + NonEmpty(Range(0, |sizes|), sizes) == Flatten(d.messages);
    }
  }

  lemma EdgesAreCounted(tm: TileManager)
    requires tm.Stored() && ViewOf(tm).edges != {}
    ensures |tm.edges| + |tm.targets| != 0
  {
    EmptySet(tm.Contents());
  }

  /** What a round with meta tiles needs of the store and of the managers' counts. */
  ghost predicate MetaTilesKnown(store: TileStore, counts: seq<seq<nat>>, tilesPerMeta: nat, sizes: seq<nat>)
    reads store.tileManagers, store.traversalToTm, store.metaTileToTm, store.metaTileId
  {
    && store.TwoLevel(tilesPerMeta) && store.traversalToTm.Length == |sizes|
    && (forall c {:trigger counts[c]} :: 0 <= c < |counts| ==> |counts[c]| == |Lists(store)|)
    && (forall m {:trigger Lists(store)[m]} :: 0 <= m < |Lists(store)| ==> InStore(Lists(store)[m], sizes))
    && Counted(Lists(store), counts, sizes)
  }

  /** run of the distributor, one round in either mode. */
  method Schedule(d: TileDistributor, store: TileStore, twoLevel: bool, counts: seq<seq<nat>>, tilesPerMeta: nat, sizes: seq<nat>)
    requires d.Configured() && (twoLevel ==> MetaTilesKnown(store, counts, tilesPerMeta, sizes))
    modifies d
    ensures InStore(Range(0, |sizes|), sizes)
    ensures d.Scheduled(old(d.messages), old(d.countSkippedTiles), Range(0, |sizes|), sizes)
  {
    hide TileDistributor.Scheduled, TileStore.TwoLevel, Counted, Flatten;
    if twoLevel {
      ListsFit(store, tilesPerMeta, sizes);
      ListsAreTraversal(store, tilesPerMeta);
      d.RunTwoLevel(Lists(store), counts, tilesPerMeta, sizes);
    } else {
      d.RunFlat(sizes);
    }
  }

  /** One pull phase, which starts with an empty ring buffer: the distributor's round in either mode, and the executors'
      in any assignment `pick` of batches to executors.  Every batch fits an executor's slots, and the batches hold the
      whole store, so that what the executors push is the flat round of PullPhaseIsFlatRound. */
  method RunPhase(d: TileDistributor, executors: seq<Executor>, current: array<value>, tms: seq<TileManager>, pick: nat -> nat,
                  store: TileStore, twoLevel: bool, counts: seq<seq<nat>>, tilesPerMeta: nat, ghost p: Program, ghost n: nat)
    returns (ghost rounds: seq<seq<Batch>>)
    requires d.Configured() && d.messages == [] && (twoLevel ==> MetaTilesKnown(store, counts, tilesPerMeta, Sizes(tms)))
    requires Team(executors, p, n, d.tileBatching) && TeamReady(executors, current, tms) && AllReadable(current, tms, n)
    requires forall i: nat {:trigger pick(i)} :: pick(i) < |executors|
    modifies d, set e | e in executors :: e.tileY, set e | e in executors :: e.local
    ensures AllStored(tms) && |rounds| == |executors| && RoundOk(p, n, current[..], rounds, Views(tms))
    ensures d.countSkippedTiles == old(d.countSkippedTiles) + Empties(Range(0, |tms|), Sizes(tms))
  {
    hide Team, TeamReady, RoundOk, TileDistributor.Scheduled, Empties, NonEmpty, Flatten, BatchesOk, AllReadable, MetaTilesKnown;
    var sizes := Sizes(tms);
    Schedule(d, store, twoLevel, counts, tilesPerMeta, sizes);
    ReadableIsStored(current, tms, n);
    ScheduledNamesAll(d, tms, sizes);
    ScheduledFits(d, tms, sizes);
    SkipsCounted(d, old(d.countSkippedTiles), sizes);
    assert Sizes(tms) == sizes;
    var deal := seq(|d.messages|, i requires 0 <= i => pick(i));
    rounds := ProcessAll(executors, current, tms, d.messages, deal, p, n, d.tileBatching);
    SourcesKnown(current, tms, n);
    DealtRoundIsOk(p, n, current[..], Views(tms), d.messages, deal, rounds);
  }

  lemma SkipsCounted(d: TileDistributor, skipped: nat, sizes: seq<nat>)
    requires d.Configured() && InStore(Range(0, |sizes|), sizes) && d.Scheduled([], skipped, Range(0, |sizes|), sizes)
    ensures d.countSkippedTiles == skipped + Empties(Range(0, |sizes|), sizes)
  {
  }

  lemma ScheduledFits(d: TileDistributor, tms: seq<TileManager>, sizes: seq<nat>)
    requires d.Configured() && sizes == Sizes(tms) && InStore(Range(0, |sizes|), sizes)
    requires exists skipped :: d.Scheduled([], skipped, Range(0, |sizes|), sizes)
    ensures forall i {:trigger d.messages[i]} :: 0 <= i < |d.messages| ==>
              |d.messages[i]| <= d.tileBatching
              && forall j {:trigger d.messages[i][j]} :: 0 <= j < |d.messages[i]| ==> d.messages[i][j] < |tms|
  {
    hide Flatten, NonEmpty, Empties, Edges;
    forall i | 0 <= i < |d.messages| ensures BatchOk(d.messages[i], sizes, d.tileBatching, d.MaxEdges()) {
      assert d.messages[0..][i] == d.messages[i];
    }
  }

  lemma SourcesKnown(current: array<value>, tms: seq<TileManager>, n: nat)
    requires AllReadable(current, tms, n) && AllStored(tms)
    ensures forall k, e {:trigger e in Views(tms)[k].edges} :: 0 <= k < |Views(tms)| && e in Views(tms)[k].edges ==>
              Id(Views(tms)[k].x, n, e.src) < |current[..]| && e.tgt < n
  {
    hide Id, Expand;
    forall k, e | 0 <= k < |tms| && e in Views(tms)[k].edges ensures Id(tms[k].x, n, e.src) < |current[..]| && e.tgt < n {
      assert Sources(current[..], tms[k].x, tms[k].Contents(), n);
      var i :| 0 <= i < |tms[k].Contents()| && tms[k].Contents()[i] == e;
    }
  }

  /** A whole pull phase with its push: the distributor's round in either mode, any assignment of batches to executors, and
      then any interleaving of their compare-and-swap loops on the global arrays are one flat round over all edges in the
      store. */
  method RunRound(d: TileDistributor, executors: seq<Executor>, current: array<value>, tms: seq<TileManager>, pick: nat -> nat,
                  store: TileStore, twoLevel: bool, counts: seq<seq<nat>>, tilesPerMeta: nat, ghost p: Program, ghost n: nat)
    returns (ghost plan: seq<seq<Task>>)
    requires d.Configured() && d.messages == [] && (twoLevel ==> MetaTilesKnown(store, counts, tilesPerMeta, Sizes(tms)))
    requires Team(executors, p, n, d.tileBatching) && TeamReady(executors, current, tms) && AllReadable(current, tms, n)
    requires forall i: nat {:trigger pick(i)} :: pick(i) < |executors|
    modifies d, set e | e in executors :: e.tileY, set e | e in executors :: e.local
    ensures AllStored(tms)
    ensures forall s0, schedule, s {:trigger Pushes(plan, s0, schedule, s)} :: Pushes(plan, s0, schedule, s) ==>
              FlatRound(p, n, current[..], Views(tms), s0, s)
  {
    hide Team, TeamReady, AllReadable, AllStored, MetaTilesKnown, Pushes, FlatRound, TileDistributor.Configured;
    ghost var rounds := RunPhase(d, executors, current, tms, pick, store, twoLevel, counts, tilesPerMeta, p, n);
    PlanForIsPlan(n, rounds);
    plan := PlanFor(n, rounds);
    forall s0, schedule, s | Pushes(plan, s0, schedule, s) ensures FlatRound(p, n, current[..], Views(tms), s0, s) {
      PushesAreFlatRound(p, n, current[..], rounds, Views(tms), plan, s0, schedule, s);
    }
  }
}
