/** One tiled pull phase equals one flat round over all stored edges. */
module PullRound {
  import opened LocalEdges
  import opened TileManagers
  import opened VertexPrograms
  import opened Executors
  import opened ApplyMachine

  /** What applyTiles pushes from the local array of row `y`: all values but neutral ones, by rising vertex. */
  function SlotTasks(y: nat, n: nat, local: seq<value>, count: nat): seq<Task>
    requires count <= |local|
  {
    if count == 0 then []
    else SlotTasks(y, n, local, count - 1)
         + if local[count - 1] == INFINITE then [] else [Task(Id(y, n, count - 1), local[count - 1])]
  }

  /** What applyTiles pushes for a batch: slot after slot. */
  function BatchTasks(n: nat, b: Batch, slots: nat): seq<Task>
    requires slots <= |b.ys| == |b.locals|
  {
    if slots == 0 then []
    else BatchTasks(n, b, slots - 1) + SlotTasks(b.ys[slots - 1], n, b.locals[slots - 1], |b.locals[slots - 1]|)
  }

  ghost predicate WellFormed(b: Batch) {
    b.used <= |b.ys| == |b.locals|
  }

  /** What an executor pushes for all the batches it received. */
  function ExecutorTasks(n: nat, batches: seq<Batch>): seq<Task>
    requires forall i {:trigger batches[i]} :: 0 <= i < |batches| ==> batches[i].used <= |batches[i].ys| == |batches[i].locals|
  {
    if batches == [] then []
    else ExecutorTasks(n, batches[..|batches| - 1]) + BatchTasks(n, batches[|batches| - 1], batches[|batches| - 1].used)
  }

  lemma {:induction false} SlotTaskIff(y: nat, n: nat, local: seq<value>, count: nat, task: Task)
    requires count <= |local|
    ensures task in SlotTasks(y, n, local, count)
        <==> exists t {:trigger local[t]} :: 0 <= t < count && local[t] != INFINITE && task == Task(Id(y, n, t), local[t])
  {
    hide Id;
    if count > 0 {
      SlotTaskIff(y, n, local, count - 1, task);
      assert local[count - 1] == local[count - 1];
    }
  }

  /** The pushed values: those of the slots' arrays that are not neutral. */
  ghost predicate SlotTask(n: nat, b: Batch, i: nat, t: nat, task: Task)
    requires |b.ys| == |b.locals|
  {
    i < |b.ys| && t < |b.locals[i]| && b.locals[i][t] != INFINITE && task == Task(Id(b.ys[i], n, t), b.locals[i][t])
  }

  lemma {:induction false} BatchTaskIff(n: nat, b: Batch, slots: nat, task: Task)
    requires slots <= |b.ys| == |b.locals|
    ensures task in BatchTasks(n, b, slots) <==> exists i, t :: 0 <= i < slots && SlotTask(n, b, i, t, task)
  {
    hide Id;
    if slots > 0 {
      var i := slots - 1;
      BatchTaskIff(n, b, i, task);
      SlotTaskIff(b.ys[i], n, b.locals[i], |b.locals[i]|, task);
      if task in SlotTasks(b.ys[i], n, b.locals[i], |b.locals[i]|) {
        var t :| 0 <= t < |b.locals[i]| && b.locals[i][t] != INFINITE && task == Task(Id(b.ys[i], n, t), b.locals[i][t]);
        assert SlotTask(n, b, i, t, task);
      }
    }
  }

  lemma {:induction false} ExecutorTaskIff(n: nat, batches: seq<Batch>, task: Task)
    requires forall i {:trigger batches[i]} :: 0 <= i < |batches| ==> batches[i].used <= |batches[i].ys| == |batches[i].locals|
    ensures task in ExecutorTasks(n, batches)
        <==> exists k {:trigger batches[k]} :: 0 <= k < |batches| && task in BatchTasks(n, batches[k], batches[k].used)
  {
    hide BatchTasks;
    if batches != [] {
      var last := |batches| - 1;
      ExecutorTaskIff(n, batches[..last], task);
      if k :| 0 <= k < last && task in BatchTasks(n, batches[..last][k], batches[..last][k].used) {
        assert batches[..last][k] == batches[k];
      }
      if k :| 0 <= k < last && task in BatchTasks(n, batches[k], batches[k].used) {
        assert batches[..last][k] == batches[k];
      }
    }
  }

  // ---- The flat round.

  /** What all edges of all tiles offer vertex `v`. */
  ghost function FlatOffers(p: Program, current: seq<value>, n: nat, tiles: seq<TileView>, v: nat): set<nat> {
    set k, e | 0 <= k < |tiles| && e in tiles[k].edges && Id(tiles[k].y, n, e.tgt) == v && Id(tiles[k].x, n, e.src) < |current|
      :: Offer(p, current[Id(tiles[k].x, n, e.src)]) as nat
  }

  lemma {:induction false} RowOfferIff(p: Program, current: seq<value>, n: nat, tiles: seq<TileView>, y: nat, t: nat, o: nat)
    ensures o in RowOffers(p, current, n, tiles, y, t)
        <==> exists k {:trigger tiles[k]} :: 0 <= k < |tiles| && tiles[k].y == y && o in Offers(p, current, tiles[k].x, n, tiles[k].edges, t)
  {
    hide Offers;
    if tiles != [] {
      var last := |tiles| - 1;
      RowOfferIff(p, current, n, tiles[..last], y, t, o);
      assert forall k {:trigger tiles[k]} :: 0 <= k < last ==> tiles[k] == tiles[..last][k];
      assert tiles[last] == tiles[last];
    }
  }

  /** Every value that is pushed is offered by an edge of the batch. */
  lemma PushedIsOffered(p: Program, n: nat, current: seq<value>, b: Batch, i: nat, t: nat, task: Task)
    requires Processed(p, n, current, b) && |b.ys| == |b.locals| && i < b.used && SlotTask(n, b, i, t, task)
    ensures task.value as nat in FlatOffers(p, current, n, b.tiles, task.vertex)
  {
    hide Id;
    assert HoldsLeast(p, n, current, b.ys[i], b.locals[i], b.tiles);
    assert Least(b.locals[i][t], INFINITE, RowOffers(p, current, n, b.tiles, b.ys[i], t));
    RowOfferIff(p, current, n, b.tiles, b.ys[i], t, task.value);
    var k :| 0 <= k < |b.tiles| && b.tiles[k].y == b.ys[i] && task.value as nat in Offers(p, current, b.tiles[k].x, n, b.tiles[k].edges, t);
    var e :| e in b.tiles[k].edges && e.tgt == t && Id(b.tiles[k].x, n, e.src) < |current|
             && Offer(p, current[Id(b.tiles[k].x, n, e.src)]) as nat == task.value;
  }

  /** Every offer of a tile of the batch that is not infinite is met by a value that is pushed. */
  lemma OfferedIsPushed(p: Program, n: nat, current: seq<value>, b: Batch, k: nat, e: LocalEdge) returns (i: nat, task: Task)
    requires Processed(p, n, current, b) && k < |b.tiles| && e in b.tiles[k].edges && e.tgt < n
    requires Id(b.tiles[k].x, n, e.src) < |current| && Offer(p, current[Id(b.tiles[k].x, n, e.src)]) != INFINITE
    ensures WellFormed(b) && task in BatchTasks(n, b, b.used)
    ensures task.vertex == Id(b.tiles[k].y, n, e.tgt) && task.value <= Offer(p, current[Id(b.tiles[k].x, n, e.src)])
  {
    hide Id;
    var o := Offer(p, current[Id(b.tiles[k].x, n, e.src)]) as nat;
    assert b.tiles[k].y in b.ys[..b.used];
    i :| 0 <= i < b.used && b.ys[..b.used][i] == b.tiles[k].y;
    assert HoldsLeast(p, n, current, b.ys[i], b.locals[i], b.tiles);
    assert Least(b.locals[i][e.tgt], INFINITE, RowOffers(p, current, n, b.tiles, b.ys[i], e.tgt));
    assert o in Offers(p, current, b.tiles[k].x, n, b.tiles[k].edges, e.tgt);
    RowOfferIff(p, current, n, b.tiles, b.ys[i], e.tgt, o);
    assert b.locals[i][e.tgt] <= o;
    task := Task(Id(b.ys[i], n, e.tgt), b.locals[i][e.tgt]);
    BatchTaskIff(n, b, b.used, task);
    assert SlotTask(n, b, i, e.tgt, task);
  }

  // ---- All executors together.

  /** Batch `b` of executor `e` has `tile` at `j`. */
  ghost predicate HasTile(rounds: seq<seq<Batch>>, e: nat, b: nat, j: nat, tile: TileView) {
    e < |rounds| && b < |rounds[e]| && j < |rounds[e][b].tiles| && rounds[e][b].tiles[j] == tile
  }

  ghost predicate Distributed(rounds: seq<seq<Batch>>, tile: TileView) {
    exists e: nat, b: nat, j: nat :: HasTile(rounds, e, b, j, tile)
  }

  /** The batches that the executors received and processed, in any split, hold all tiles with edges and no others
      than those of the store. */
  ghost predicate RoundOk(p: Program, n: nat, current: seq<value>, rounds: seq<seq<Batch>>, tiles: seq<TileView>) {
    && (forall e, b {:trigger rounds[e][b]} :: 0 <= e < |rounds| && 0 <= b < |rounds[e]| ==>
          WellFormed(rounds[e][b]) && Processed(p, n, current, rounds[e][b]))
    && (forall k {:trigger tiles[k]} :: 0 <= k < |tiles| && tiles[k].edges != {} ==> Distributed(rounds, tiles[k]))
    && (forall e, b, j {:trigger rounds[e][b].tiles[j]} :: 0 <= e < |rounds| && 0 <= b < |rounds[e]| && 0 <= j < |rounds[e][b].tiles| ==>
          rounds[e][b].tiles[j] in tiles)
    && (forall k, e {:trigger e in tiles[k].edges} :: 0 <= k < |tiles| && e in tiles[k].edges ==>
          Id(tiles[k].x, n, e.src) < |current| && e.tgt < n)
  }

  /** Each executor pushes what its batches left in its slots. */
  ghost predicate PlanOf(n: nat, rounds: seq<seq<Batch>>, plan: seq<seq<Task>>) {
    && |plan| == |rounds|
    && (forall e {:trigger plan[e]} :: 0 <= e < |plan| ==>
          && (forall b {:trigger rounds[e][b]} :: 0 <= b < |rounds[e]| ==> WellFormed(rounds[e][b]))
          && plan[e] == ExecutorTasks(n, rounds[e]))
  }

  lemma ValuesAreOffered(p: Program, n: nat, current: seq<value>, rounds: seq<seq<Batch>>, tiles: seq<TileView>, plan: seq<seq<Task>>,
                         v: nat, x: nat)
    requires RoundOk(p, n, current, rounds, tiles) && PlanOf(n, rounds, plan) && x in Values(plan, v)
    ensures x in FlatOffers(p, current, n, tiles, v)
  {
    hide Id, Processed;
    var e, k :| 0 <= e < |plan| && 0 <= k < |plan[e]| && plan[e][k].vertex == v && plan[e][k].value as nat == x;
    var task := plan[e][k];
    ExecutorTaskIff(n, rounds[e], task);
    var b :| 0 <= b < |rounds[e]| && task in BatchTasks(n, rounds[e][b], rounds[e][b].used);
    var batch := rounds[e][b];
    BatchTaskIff(n, batch, batch.used, task);
    var i, t :| 0 <= i < batch.used && SlotTask(n, batch, i, t, task);
    PushedIsOffered(p, n, current, batch, i, t, task);
    var j, edge :| 0 <= j < |batch.tiles| && edge in batch.tiles[j].edges && Id(batch.tiles[j].y, n, edge.tgt) == v
                   && Id(batch.tiles[j].x, n, edge.src) < |current|
                   && Offer(p, current[Id(batch.tiles[j].x, n, edge.src)]) as nat == x;
    assert rounds[e][b].tiles[j] in tiles;
    var m :| 0 <= m < |tiles| && tiles[m] == batch.tiles[j];
  }

  lemma OffersAreMet(p: Program, n: nat, current: seq<value>, rounds: seq<seq<Batch>>, tiles: seq<TileView>, plan: seq<seq<Task>>,
                     v: nat, o: nat)
    requires RoundOk(p, n, current, rounds, tiles) && PlanOf(n, rounds, plan) && o in FlatOffers(p, current, n, tiles, v)
    ensures o >= INFINITE || exists x {:trigger x in Values(plan, v)} :: x in Values(plan, v) && x <= o
  {
    hide Id, Processed;
    if o < INFINITE {
      var k, edge :| 0 <= k < |tiles| && edge in tiles[k].edges && Id(tiles[k].y, n, edge.tgt) == v
                     && Id(tiles[k].x, n, edge.src) < |current|
                     && Offer(p, current[Id(tiles[k].x, n, edge.src)]) as nat == o;
      assert Distributed(rounds, tiles[k]);
      var e: nat, b: nat, j: nat :| HasTile(rounds, e, b, j, tiles[k]);
      var batch := rounds[e][b];
      var i, task := OfferedIsPushed(p, n, current, batch, j, edge);
      ExecutorTaskIff(n, rounds[e], task);
      var m :| 0 <= m < |plan[e]| && plan[e][m] == task;
      assert task.value as nat in Values(plan, v);
    }
  }

  /** One tiled pull phase is one flat round: for any split of the tiles into batches, any assignment of batches to
      executors and any interleaving of their compare-and-swap loops, the new value of every vertex is the least of
      its old one and of what all edges into it gather, and exactly the vertices that changed are newly flagged. */
  lemma PullPhaseIsFlatRound(p: Program, n: nat, current: seq<value>, rounds: seq<seq<Batch>>, tiles: seq<TileView>,
                             plan: seq<seq<Task>>, s0: State, schedule: seq<nat>, s: State, v: nat)
    requires RoundOk(p, n, current, rounds, tiles) && PlanOf(n, rounds, plan)
    requires Initial(plan, s0) && Runs(plan, s0, schedule, s) && |plan| == |s.threads| && AllDone(plan, s)
    requires v < |s0.next| && s0.next[v] <= INFINITE
    ensures |s.next| == |s0.next| && Least(s.next[v], s0.next[v], FlatOffers(p, current, n, tiles, v))
    ensures Flagged(s, v) <==> Flagged(s0, v) || s.next[v] != s0.next[v]
  {
    hide RoundOk, PlanOf, FlatOffers, Values, Initial, Runs, AllDone;
    PushIsMinimum(plan, s0, schedule, s, v);
    forall o | o in FlatOffers(p, current, n, tiles, v) ensures s.next[v] <= o {
      OffersAreMet(p, n, current, rounds, tiles, plan, v, o);
    }
    if s.next[v] != s0.next[v] {
      ValuesAreOffered(p, n, current, rounds, tiles, plan, v, s.next[v]);
    }
  }

  /** What the executors push for the batches they processed. */
  function PlanFor(n: nat, rounds: seq<seq<Batch>>): seq<seq<Task>>
    requires forall e, b {:trigger rounds[e][b]} :: 0 <= e < |rounds| && 0 <= b < |rounds[e]| ==> WellFormed(rounds[e][b])
  {
    if rounds == [] then []
    else
      var e := |rounds| - 1;
      assert forall b {:trigger rounds[e][b]} :: 0 <= b < |rounds[e]| ==> WellFormed(rounds[e][b]);
      PlanFor(n, rounds[..e]) + [ExecutorTasks(n, rounds[e])]
  }

  lemma {:induction false} PlanForIsPlan(n: nat, rounds: seq<seq<Batch>>)
    requires forall e, b {:trigger rounds[e][b]} :: 0 <= e < |rounds| && 0 <= b < |rounds[e]| ==> WellFormed(rounds[e][b])
    ensures PlanOf(n, rounds, PlanFor(n, rounds))
  {
    hide ExecutorTasks;
    if rounds != [] {
      var last := |rounds| - 1;
      assert forall e {:trigger rounds[e]} :: 0 <= e < last ==> rounds[..last][e] == rounds[e];
      PlanForIsPlan(n, rounds[..last]);
    }
  }

  /** Some interleaving of the executors' compare-and-swap loops takes the global arrays from `s0` to `s`. */
  ghost predicate Pushes(plan: seq<seq<Task>>, s0: State, schedule: seq<nat>, s: State) {
    Initial(plan, s0) && Runs(plan, s0, schedule, s) && |plan| == |s.threads| && AllDone(plan, s)
  }

  /** The arrays after one flat round over all stored edges. */
  ghost predicate FlatRound(p: Program, n: nat, current: seq<value>, tiles: seq<TileView>, s0: State, s: State) {
    && |s.next| == |s0.next|
    && forall v {:trigger s.next[v]} :: 0 <= v < |s0.next| && s0.next[v] <= INFINITE ==>
         && Least(s.next[v], s0.next[v], FlatOffers(p, current, n, tiles, v))
         && (Flagged(s, v) <==> Flagged(s0, v) || s.next[v] != s0.next[v])
  }

  lemma PushesAreFlatRound(p: Program, n: nat, current: seq<value>, rounds: seq<seq<Batch>>, tiles: seq<TileView>,
                           plan: seq<seq<Task>>, s0: State, schedule: seq<nat>, s: State)
    requires RoundOk(p, n, current, rounds, tiles) && PlanOf(n, rounds, plan) && Pushes(plan, s0, schedule, s)
    ensures FlatRound(p, n, current, tiles, s0, s)
  {
    hide RoundOk, PlanOf, FlatOffers, Initial, Runs, AllDone, Flagged;
    RunLength(plan, s0, schedule, s);
    forall v | 0 <= v < |s0.next| && s0.next[v] <= INFINITE
      ensures Least(s.next[v], s0.next[v], FlatOffers(p, current, n, tiles, v))
      ensures Flagged(s, v) <==> Flagged(s0, v) || s.next[v] != s0.next[v]
    {
      PullPhaseIsFlatRound(p, n, current, rounds, tiles, plan, s0, schedule, s, v);
    }
  }

  lemma RunLength(plan: seq<seq<Task>>, s0: State, schedule: seq<nat>, s: State)
    requires Initial(plan, s0) && Runs(plan, s0, schedule, s)
    ensures |s.next| == |s0.next|
  {
    InitialInv(plan, s0);
    RunInv(plan, s0, s0, schedule, s);
  }

  // ---- Compaction.

  /** What an executor gathers from a tile. */
  ghost function GatheredFrom(p: Program, current: seq<value>, tm: TileManager, local: seq<value>): seq<value>
    requires tm.Stored() && |local| == tm.verticesPerTile && Sources(current, tm.x, tm.Contents(), tm.verticesPerTile)
    reads tm, tm.counts
  {
    GatherAll(p, current, tm.x, tm.verticesPerTile, tm.Contents(), local)
  }

  /** Compacting a tile without deletions, any number of times, leaves what the executors gather from it unchanged, if
      (65535, 65535) is not its only edge. */
  method CompactRepeatedly(tm: TileManager, times: nat, ghost p: Program, ghost current: seq<value>, ghost local: seq<value>)
    requires tm.Valid() && tm.deletedEdges == {} && SetOf(tm.Contents()) != {LAST} && CountersSuffice(SetOf(tm.Contents()))
    requires |local| == tm.verticesPerTile && Sources(current, tm.x, tm.Contents(), tm.verticesPerTile)
    modifies tm, tm.counts
    ensures tm.Valid() && SetOf(tm.Contents()) == old(SetOf(tm.Contents())) && (times > 0 ==> StrictlySorted(tm.Contents()))
    ensures Sources(current, tm.x, tm.Contents(), tm.verticesPerTile)
    ensures GatheredFrom(p, current, tm, local) == old(GatheredFrom(p, current, tm, local))
  {
    hide TileManager.Contents, AllInTile, AccountedFor, Total, CountersSuffice, GatherAll, Sources, StrictlySorted;
    for i := 0 to times
      invariant tm.Valid() && tm.Stored() && tm.deletedEdges == {} && SetOf(tm.Contents()) == old(SetOf(tm.Contents()))
      invariant tm.counts == old(tm.counts) || fresh(tm.counts)
      invariant i > 0 ==> StrictlySorted(tm.Contents())
    {
      NothingDeleted(tm.Contents());
      var ok := tm.CompactStorage();
      assert ok;
    }
    GatherOfSet(p, current, tm.x, tm.verticesPerTile, old(tm.Contents()), tm.Contents(), local);
  }

  lemma NothingDeleted(s: seq<LocalEdge>)
    ensures Live(s, {}) == SetOf(s)
  {
  }

  /** What is gathered from a compacted list of edges is what is gathered from the list itself if and only if
      (65535, 65535) is not all there is, or offers no less than what its target has. */
  lemma CompactionPreservesExactly(p: Program, current: seq<value>, x: nat, n: nat, edges: seq<LocalEdge>, local: seq<value>)
    requires |local| == n && Sources(current, x, edges, n)
    ensures var compacted := Kept(SortEdges(edges), {}, LAST);
            Sources(current, x, compacted, n)
            && (GatherAll(p, current, x, n, compacted, local) == GatherAll(p, current, x, n, edges, local)
                <==> (SetOf(edges) == {LAST} ==>
                        Id(x, n, LAST.src) < |current| && LAST.tgt < n && local[LAST.tgt] <= Offer(p, current[Id(x, n, LAST.src)])))
  {
    hide GatherAll, Id;
    NothingDeleted(edges);
    if SetOf(edges) != {LAST} {
      CompactionPreservesMeaning(p, current, x, n, edges, local);
    } else {
      LastIsLost(p, current, x, n, edges, local);
    }
  }

  lemma LastIsLost(p: Program, current: seq<value>, x: nat, n: nat, edges: seq<LocalEdge>, local: seq<value>)
    requires |local| == n && Sources(current, x, edges, n) && SetOf(edges) == {LAST}
    ensures Kept(SortEdges(edges), {}, LAST) == [] && Sources(current, x, [], n) && GatherAll(p, current, x, n, [], local) == local
    ensures Id(x, n, LAST.src) < |current| && LAST.tgt < n
    ensures GatherAll(p, current, x, n, edges, local) == local <==> local[LAST.tgt] <= Offer(p, current[Id(x, n, LAST.src)])
  {
    hide Id;
    assert forall i {:trigger edges[i]} :: 0 <= i < |edges| ==> edges[i] in SetOf(edges);
    forall i | 0 <= i < |SortEdges(edges)| ensures SortEdges(edges)[i] == LAST {
      assert SortEdges(edges)[i] in SortEdges(edges);
    }
    KeptLast(SortEdges(edges), {});
    assert LAST in SetOf(edges);
    var k :| 0 <= k < |edges| && edges[k] == LAST;
    GatherOfSet(p, current, x, n, edges, [LAST], local);
    assert [LAST][..0] == [];
    GatherIsMinimum(p, current[Id(x, n, LAST.src)], local[LAST.tgt]);
    assert GatherAll(p, current, x, n, [LAST], local)
        == local[LAST.tgt := Gather(p, current[Id(x, n, LAST.src)], local[LAST.tgt])];
  }

  /** Gathering along the compacted form of a list of edges. */
  lemma CompactionPreservesMeaning(p: Program, current: seq<value>, x: nat, n: nat, edges: seq<LocalEdge>, local: seq<value>)
    requires |local| == n && Sources(current, x, edges, n) && Live(edges, {}) != {LAST}
    ensures var compacted := Kept(SortEdges(edges), {}, LAST);
            Sources(current, x, compacted, n)
            && GatherAll(p, current, x, n, compacted, local) == GatherAll(p, current, x, n, edges, local)
  {
    CompactionIsExactly(edges, {});
    GatherOfSet(p, current, x, n, edges, Kept(SortEdges(edges), {}, LAST), local);
  }
}
