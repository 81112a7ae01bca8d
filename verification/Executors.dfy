/** An algorithm executor: gathering the tiles of a batch into local arrays, one per tile row. */
module Executors {
  import opened LocalEdges
  import opened TileManagers
  import opened VertexPrograms

  /** UINT64_MAX: a slot that is not in use. */
  const FREE: nat := 0xffff_ffff_ffff_ffff

  class Executor {
    const program: Program
    const batching: nat
    const verticesPerTile: nat
    const tileY: array<nat>
    const local: array2<value>

    ghost predicate Shaped() {
      tileY.Length == local.Length0 == batching && local.Length1 == verticesPerTile
    }

    ghost predicate SlotsInUse(used: nat)
      reads tileY
    {
      Shaped() && InUse(tileY[..], used)
    }

    /** All local arrays. */
    ghost function Locals(): (r: seq<seq<value>>)
      reads local
      ensures |r| == local.Length0 && forall i {:trigger r[i]} :: 0 <= i < |r| ==> r[i] == LocalArray(i)
    {
      seq(local.Length0, i requires 0 <= i < local.Length0 reads local => LocalArray(i))
    }

    ghost function LocalArray(slot: nat): (r: seq<value>)
      requires slot < local.Length0
      reads local
      ensures |r| == local.Length1
    {
      seq(local.Length1, j requires 0 <= j < local.Length1 reads local => local[slot, j])
    }

    /** What resetTileInfos needs: behind the first free slot there are only free ones. */
    ghost predicate Resettable()
      reads tileY
    {
      Shaped() && exists used: nat :: FreeFrom(tileY[..], used)
    }

    /** The slots are zeroed: none is free, and all seem to belong to row 0. */
    constructor (program: Program, batching: nat, verticesPerTile: nat)
      ensures Resettable() && fresh(tileY) && fresh(local)
      ensures this.program == program && this.batching == batching && this.verticesPerTile == verticesPerTile
    {
      this.program, this.batching, this.verticesPerTile := program, batching, verticesPerTile;
      tileY := new nat[batching](_ => 0);
      local := new value[batching, verticesPerTile]((_, _) => 0);
      new;
      assert FreeFrom(tileY[..], batching);
    }

    /** resetTileInfos stops at the first free slot; behind it there are only free ones. */
    method ResetTileInfos()
      requires Resettable()
      modifies tileY
      ensures SlotsInUse(0)
    {
      ghost var used: nat :| FreeFrom(tileY[..], used);
      var i := 0;
      while i < batching
        invariant i <= used
        invariant forall k {:trigger tileY[k]} :: 0 <= k < i ==> tileY[k] == FREE
        invariant forall k {:trigger tileY[k]} :: i <= k < batching ==> tileY[k] == old(tileY[k])
      {
        if tileY[i] == FREE {
          break;
        }
        tileY[i] := FREE;
        i := i + 1;
      }
    }

    /** getLocalNextArray: the slot of row `y`, taken into use with neutral values if there is none. */
    method GetLocalNextArray(y: nat, ghost used: nat) returns (slot: nat, ghost used': nat)
      requires SlotsInUse(used) && y != FREE && (used < batching || y in tileY[..used])
      modifies tileY, local
      ensures SlotsInUse(used') && slot < used' && tileY[slot] == y
      ensures y in old(tileY[..used]) ==> used' == used && tileY[..] == old(tileY[..]) && Locals() == old(Locals())
      ensures y !in old(tileY[..used]) ==> used' == used + 1 && slot == used && tileY[..] == old(tileY[..])[slot := y]
                                           && Locals() == old(Locals())[slot := Neutral(verticesPerTile)]
    {
      used' := used;
      slot := 0;
      while slot < batching
        invariant slot <= batching
        invariant forall i {:trigger tileY[i]} :: 0 <= i < slot ==> tileY[i] != y
      {
        if tileY[slot] == y {
          assert slot < used;
          return;
        }
        slot := slot + 1;
      }
      slot := 0;
      while slot < batching && tileY[slot] != FREE
        invariant slot <= used
      {
        slot := slot + 1;
      }
      tileY[slot] := y;
      used' := used + 1;
      ghost var before := Locals();
      for j := 0 to verticesPerTile
        invariant tileY[..] == old(tileY[..])[slot := y]
        invariant forall i, k {:trigger local[i, k]} :: 0 <= i < batching && 0 <= k < verticesPerTile ==>
                    local[i, k] == if i == slot && k < j then INFINITE else before[i][k]
      {
        local[slot, j] := INFINITE;
      }
      assert Locals() == before[slot := Neutral(verticesPerTile)] by {
        forall i | 0 <= i < batching ensures LocalArray(i) == before[slot := Neutral(verticesPerTile)][i] {
        }
      }
    }

    /** executeAlgorithmSingleEdge. */
    method GatherEdge(current: array<value>, x: nat, slot: nat, e: LocalEdge)
      requires Shaped() && slot < batching && Id(x, verticesPerTile, e.src) < current.Length && e.tgt < verticesPerTile
      modifies local
      ensures LocalArray(slot)
           == old(LocalArray(slot))[e.tgt := Gather(program, current[Id(x, verticesPerTile, e.src)], old(LocalArray(slot)[e.tgt]))]
      ensures Locals() == old(Locals())[slot := LocalArray(slot)]
    {
      hide Id, Gather;
      ghost var before := Locals();
      local[slot, e.tgt] := Gather(program, current[Id(x, verticesPerTile, e.src)], local[slot, e.tgt]);
      forall i | 0 <= i < batching && i != slot ensures LocalArray(i) == before[i] {
        assert forall j :: 0 <= j < verticesPerTile ==> LocalArray(i)[j] == before[i][j];
      }
    }

    /** One row of a tile, from its source and a stretch of targets. */
    method GatherRow(current: array<value>, x: nat, slot: nat, id: local_id, targets: seq<local_id>, from: nat, to: nat)
      requires Shaped() && slot < batching && from <= to <= |targets|
      requires Sources(current[..], x, Row(id, targets[from..to]), verticesPerTile)
      modifies local
      ensures LocalArray(slot)
           == GatherAll(program, current[..], x, verticesPerTile, Row(id, targets[from..to]), old(LocalArray(slot)))
      ensures Locals() == old(Locals())[slot := LocalArray(slot)]
    {
      hide Id, Gather, GatherAll;
      ghost var row, values, before := Row(id, targets[from..to]), current[..], LocalArray(slot);
      GatherNothing(program, values, x, verticesPerTile, before);
      var k := from;
      while k < to
        invariant from <= k <= to && current[..] == values
        invariant Sources(values, x, row[..k - from], verticesPerTile)
        invariant LocalArray(slot) == GatherAll(program, values, x, verticesPerTile, row[..k - from], before)
        invariant Locals() == old(Locals())[slot := LocalArray(slot)]
      {
        GatherNext(program, values, x, verticesPerTile, row, k - from, before);
        GatherEdge(current, x, slot, LocalEdge(id, targets[k]));
        k := k + 1;
      }
      assert row[..to - from] == row;
    }

    /** The overflow list of a tile. */
    method GatherList(current: array<value>, x: nat, slot: nat, edges: seq<LocalEdge>)
      requires Shaped() && slot < batching && Sources(current[..], x, edges, verticesPerTile)
      modifies local
      ensures LocalArray(slot) == GatherAll(program, current[..], x, verticesPerTile, edges, old(LocalArray(slot)))
      ensures Locals() == old(Locals())[slot := LocalArray(slot)]
    {
      hide Id, Gather, GatherAll;
      ghost var values, before := current[..], LocalArray(slot);
      GatherNothing(program, values, x, verticesPerTile, before);
      for k := 0 to |edges|
        invariant current[..] == values && Sources(values, x, edges[..k], verticesPerTile)
        invariant LocalArray(slot) == GatherAll(program, values, x, verticesPerTile, edges[..k], before)
        invariant Locals() == old(Locals())[slot := LocalArray(slot)]
      {
        GatherNext(program, values, x, verticesPerTile, edges, k, before);
        GatherEdge(current, x, slot, edges[k]);
      }
      assert edges[..|edges|] == edges;
    }

    /** executeAlgoOnTile, the loop over the counters of all sources. */
    method GatherCounts(current: array<value>, tm: TileManager, slot: nat)
      requires Shaped() && slot < batching && tm.Stored() && tm.compactStorage && tm.verticesPerTile == verticesPerTile
      requires Sources(current[..], tm.x, Expand(tm.Runs(), tm.targets), verticesPerTile)
      modifies local
      ensures LocalArray(slot)
           == GatherAll(program, current[..], tm.x, verticesPerTile, Expand(tm.Runs(), tm.targets), old(LocalArray(slot)))
      ensures Locals() == old(Locals())[slot := LocalArray(slot)]
    {
      hide Id, GatherAll, Sources, Expand, Total, CountRuns;
      ghost var values, before, runs := current[..], LocalArray(slot), tm.Runs();
      ghost var all := Expand(runs, tm.targets);
      assert runs[0..] == runs && tm.targets[0..] == tm.targets;
      tm.RunsAre();
      var count: nat := 0;
      for i := 0 to verticesPerTile
        invariant count <= |tm.targets| && Total(runs[i..]) == |tm.targets| - count
        invariant current[..] == values && tm.Runs() == runs && Locals() == old(Locals())[slot := LocalArray(slot)]
        invariant Sources(values, tm.x, Expand(runs[i..], tm.targets[count..]), verticesPerTile)
        invariant GatherAll(program, values, tm.x, verticesPerTile, Expand(runs[i..], tm.targets[count..]), LocalArray(slot))
               == GatherAll(program, values, tm.x, verticesPerTile, all, before)
      {
        var maxCount := count + tm.counts[i];
        GatherRun(program, values, tm.x, verticesPerTile, runs, tm.targets, i, count, LocalArray(slot));
        GatherRow(current, tm.x, slot, i, tm.targets, count, maxCount);
        count := maxCount;
      }
      assert runs[|runs|..] == [];
      NothingLeft(program, values, tm.x, verticesPerTile, tm.targets, count, LocalArray(slot));
    }

    /** executeAlgoOnTile, the loop over the listed sources. */
    method GatherIdCounts(current: array<value>, tm: TileManager, slot: nat)
      requires Shaped() && slot < batching && tm.Stored() && !tm.compactStorage && tm.verticesPerTile == verticesPerTile
      requires Sources(current[..], tm.x, Expand(tm.Runs(), tm.targets), verticesPerTile)
      modifies local
      ensures LocalArray(slot)
           == GatherAll(program, current[..], tm.x, verticesPerTile, Expand(tm.Runs(), tm.targets), old(LocalArray(slot)))
      ensures Locals() == old(Locals())[slot := LocalArray(slot)]
    {
      hide Id, GatherAll, Sources, Expand, Total;
      ghost var values, before, runs := current[..], LocalArray(slot), tm.Runs();
      ghost var all := Expand(runs, tm.targets);
      assert runs[0..] == runs && tm.targets[0..] == tm.targets;
      var count: nat := 0;
      for i := 0 to |tm.idCounts|
        invariant count <= |tm.targets| && Total(runs[i..]) == |tm.targets| - count
        invariant current[..] == values && tm.Runs() == runs && Locals() == old(Locals())[slot := LocalArray(slot)]
        invariant Sources(values, tm.x, Expand(runs[i..], tm.targets[count..]), verticesPerTile)
        invariant GatherAll(program, values, tm.x, verticesPerTile, Expand(runs[i..], tm.targets[count..]), LocalArray(slot))
               == GatherAll(program, values, tm.x, verticesPerTile, all, before)
      {
        var maxCount := count + tm.idCounts[i].count;
        GatherRun(program, values, tm.x, verticesPerTile, runs, tm.targets, i, count, LocalArray(slot));
        GatherRow(current, tm.x, slot, tm.idCounts[i].id, tm.targets, count, maxCount);
        count := maxCount;
      }
      assert runs[|runs|..] == [];
      NothingLeft(program, values, tm.x, verticesPerTile, tm.targets, count, LocalArray(slot));
    }

    /** executeAlgoOnTile: the rows in either encoding, then the overflow list. */
    method ExecuteAlgoOnTile(current: array<value>, tm: TileManager, slot: nat)
      requires Shaped() && slot < batching && tm.Stored() && tm.verticesPerTile == verticesPerTile
      requires Sources(current[..], tm.x, tm.Contents(), verticesPerTile)
      modifies local
      ensures LocalArray(slot)
           == GatherAll(program, current[..], tm.x, verticesPerTile, tm.Contents(), old(LocalArray(slot)))
      ensures Locals() == old(Locals())[slot := LocalArray(slot)]
    {
      hide Id, GatherAll, Sources, Expand, Total, CountRuns;
      GatherMore(program, current[..], tm.x, verticesPerTile, Expand(tm.Runs(), tm.targets), tm.edges, LocalArray(slot));
      if tm.compactStorage {
        GatherCounts(current, tm, slot);
      } else {
        GatherIdCounts(current, tm, slot);
      }
      GatherList(current, tm.x, slot, tm.edges);
    }

    /** executeTile: a tile without edges is skipped, any other gathered into the array of its row. */
    method ExecuteTile(current: array<value>, tm: TileManager, ghost tiles: seq<TileView>, ghost used: nat) returns (ghost used': nat)
      requires Shaped() && Gathered(program, verticesPerTile, current[..], tileY[..], Locals(), tiles, used)
      requires |tiles| < batching && used <= |tiles|
      requires tm.Stored() && tm.verticesPerTile == verticesPerTile && tm.y != FREE
      requires Sources(current[..], tm.x, tm.Contents(), verticesPerTile)
      requires tm.counts != tileY && current as object != tileY
      modifies tileY, local
      ensures Gathered(program, verticesPerTile, current[..], tileY[..], Locals(), tiles + [ViewOf(tm)], used')
      ensures used' <= |tiles| + 1
      ensures |tm.edges| + |tm.targets| == 0 ==> tileY[..] == old(tileY[..]) && Locals() == old(Locals())
      ensures |tm.edges| + |tm.targets| != 0 && tm.y !in old(tileY[..]) ==> used' == used + 1 && tileY[..] == old(tileY[..])[used := tm.y]
    {
      hide Gathered, InUse, GatherAll, Sources, Expand, CountRuns, Total;
      ghost var values, ys, locals, edges := current[..], tileY[..], Locals(), tm.Contents();
      GatheredInUse(program, verticesPerTile, values, ys, locals, tiles, used);
      assert tileY[..used] == ys[..used];
      used' := used;
      if |tm.edges| + |tm.targets| == 0 {
        SkipEmpty(program, verticesPerTile, values, ys, locals, tiles, used, ViewOf(tm));
        return;
      }
      var slot;
      slot, used' := GetLocalNextArray(tm.y, used);
      if tm.y !in ys[..used] {
        SlotTaken(program, verticesPerTile, values, ys, locals, tiles, used, tm.y);
      }
      ghost var ys', locals' := tileY[..], Locals();
      ExecuteAlgoOnTile(current, tm, slot);
      TileGathered(program, verticesPerTile, values, ys', locals', tiles, used', slot, ViewOf(tm), edges);
    }

    /** The tile is of this executor's size and its edges start at known vertices. */
    ghost predicate Readable(current: array<value>, tm: TileManager)
      reads current, tm, tm.counts
    {
      && tm.Stored() && tm.verticesPerTile == verticesPerTile && tm.y != FREE && tm.counts != tileY
      && Sources(current[..], tm.x, tm.Contents(), verticesPerTile)
    }

    /** processTiles, for one batch that the tile distributor sent, after resetTileInfos. */
    method ProcessTiles(current: array<value>, batch: seq<TileManager>) returns (ghost b: Batch)
      requires Resettable() && |batch| <= batching && current as object != tileY
      requires forall k {:trigger batch[k]} :: 0 <= k < |batch| ==> Readable(current, batch[k])
      modifies tileY, local
      ensures Resettable() && Processed(program, verticesPerTile, current[..], b)
      ensures b.ys == tileY[..] && b.locals == Locals()
      ensures |b.tiles| == |batch|
      ensures forall k {:trigger b.tiles[k]} :: 0 <= k < |b.tiles| ==> batch[k].Stored() && b.tiles[k] == ViewOf(batch[k])
    {
      hide Gathered, GatherAll, Sources, Expand, CountRuns, Total;
      ResetTileInfos();
      NoTiles(program, verticesPerTile, current[..], tileY[..], Locals());
      ghost var values := current[..];
      ghost var tiles: seq<TileView>, used: nat := [], 0;
      for k := 0 to |batch|
        invariant current[..] == values && used <= |tiles| == k
        invariant forall i {:trigger batch[i]} :: 0 <= i < |batch| ==> Readable(current, batch[i])
        invariant Gathered(program, verticesPerTile, values, tileY[..], Locals(), tiles, used)
        invariant forall i {:trigger tiles[i]} :: 0 <= i < k ==> tiles[i] == ViewOf(batch[i])
      {
        var tm := batch[k];
        used := ExecuteTile(current, tm, tiles, used);
        tiles := tiles + [ViewOf(tm)];
      }
      b := Batch(tiles, tileY[..], Locals(), used);
      GatheredInUse(program, verticesPerTile, values, tileY[..], Locals(), tiles, used);
      assert FreeFrom(tileY[..], used);
    }

    /** run, one round of the loop between the barriers: the executor processes the batches it receives, one after the
        other.  Pushing their results is the subject of ApplyMachine. */
    method Run(current: array<value>, tms: seq<TileManager>, received: seq<seq<nat>>) returns (ghost batches: seq<Batch>)
      requires Resettable() && current as object != tileY
      requires forall t {:trigger tms[t]} :: 0 <= t < |tms| ==> Readable(current, tms[t])
      requires forall b {:trigger received[b]} :: 0 <= b < |received| ==>
                 |received[b]| <= batching && forall j {:trigger received[b][j]} :: 0 <= j < |received[b]| ==> received[b][j] < |tms|
      modifies tileY, local
      ensures Resettable() && |batches| == |received|
      ensures forall b {:trigger batches[b]} :: 0 <= b < |batches| ==>
                Processed(program, verticesPerTile, current[..], batches[b]) && |batches[b].tiles| == |received[b]|
      ensures forall b, j {:trigger batches[b].tiles[j]} :: 0 <= b < |batches| && 0 <= j < |batches[b].tiles| ==>
                var t := received[b][j]; tms[t].Stored() && batches[b].tiles[j] == ViewOf(tms[t])
    {
      hide Processed;
      batches := [];
      for b := 0 to |received|
        invariant Resettable() && |batches| == b
        invariant forall t {:trigger tms[t]} :: 0 <= t < |tms| ==> Readable(current, tms[t])
        invariant forall i {:trigger batches[i]} :: 0 <= i < b ==>
                    Processed(program, verticesPerTile, current[..], batches[i]) && |batches[i].tiles| == |received[i]|
        invariant forall i, j {:trigger batches[i].tiles[j]} :: 0 <= i < b && 0 <= j < |batches[i].tiles| ==>
                    var t := received[i][j]; tms[t].Stored() && batches[i].tiles[j] == ViewOf(tms[t])
      {
        var tiles := seq(|received[b]|, j requires 0 <= j < |received[b]| => tms[received[b][j]]);
        ghost var batch := ProcessTiles(current, tiles);
        batches := batches + [batch];
      }
    }
  }

  /** A batch after processTiles: its tiles, and the slots of the executor. */
  datatype Batch = Batch(tiles: seq<TileView>, ys: seq<nat>, locals: seq<seq<value>>, used: nat)

  ghost predicate Processed(p: Program, n: nat, current: seq<value>, b: Batch) {
    Gathered(p, n, current, b.ys, b.locals, b.tiles, b.used)
  }

  ghost predicate FreeFrom(ys: seq<nat>, used: nat) {
    && used <= |ys|
    && (forall i {:trigger ys[i]} :: 0 <= i < used ==> ys[i] != FREE)
    && (forall i {:trigger ys[i]} :: used <= i < |ys| ==> ys[i] == FREE)
  }

  function Neutral(n: nat): seq<value> {
    seq(n, _ => INFINITE)
  }

  /** The slots in use come first and belong to different rows of tiles. */
  ghost predicate InUse(ys: seq<nat>, used: nat) {
    && used <= |ys|
    && (forall i {:trigger ys[i]} :: 0 <= i < used ==> ys[i] != FREE)
    && (forall i {:trigger ys[i]} :: used <= i < |ys| ==> ys[i] == FREE)
    && (forall i, j {:trigger ys[i], ys[j]} :: 0 <= i < j < used ==> ys[i] != ys[j])
  }

  /** What the slots hold after the tiles of a batch: the rows of its tiles with edges have slots, and each slot holds
      the least that the edges of the tiles of its row offer. */
  ghost predicate Gathered(p: Program, n: nat, values: seq<value>, ys: seq<nat>, locals: seq<seq<value>>,
                           tiles: seq<TileView>, used: nat)
  {
    && InUse(ys, used) && |locals| == |ys| && (forall i {:trigger locals[i]} :: 0 <= i < |ys| ==> |locals[i]| == n)
    && (forall k {:trigger tiles[k]} :: 0 <= k < |tiles| && tiles[k].edges != {} ==> tiles[k].y in ys[..used])
    && (forall i {:trigger locals[i]} :: 0 <= i < used ==> HoldsLeast(p, n, values, ys[i], locals[i], tiles))
  }

  ghost predicate HoldsLeast(p: Program, n: nat, values: seq<value>, y: nat, local: seq<value>, tiles: seq<TileView>)
    requires |local| == n
  {
    forall t {:trigger local[t]} :: 0 <= t < n ==> Least(local[t], INFINITE, RowOffers(p, values, n, tiles, y, t))
  }

  lemma GatheredInUse(p: Program, n: nat, values: seq<value>, ys: seq<nat>, locals: seq<seq<value>>, tiles: seq<TileView>, used: nat)
    requires Gathered(p, n, values, ys, locals, tiles, used)
    ensures InUse(ys, used)
  {
  }

  lemma NoTiles(p: Program, n: nat, values: seq<value>, ys: seq<nat>, locals: seq<seq<value>>)
    requires InUse(ys, 0) && |locals| == |ys| && forall i {:trigger locals[i]} :: 0 <= i < |ys| ==> |locals[i]| == n
    ensures Gathered(p, n, values, ys, locals, [], 0)
  {
  }

  lemma SkipEmpty(p: Program, n: nat, values: seq<value>, ys: seq<nat>, locals: seq<seq<value>>, tiles: seq<TileView>, used: nat,
                  tile: TileView)
    requires Gathered(p, n, values, ys, locals, tiles, used) && tile.edges == {}
    ensures Gathered(p, n, values, ys, locals, tiles + [tile], used)
  {
    forall i | 0 <= i < used ensures HoldsLeast(p, n, values, ys[i], locals[i], tiles + [tile]) {
      assert HoldsLeast(p, n, values, ys[i], locals[i], tiles);
      forall t | 0 <= t < n ensures Least(locals[i][t], INFINITE, RowOffers(p, values, n, tiles + [tile], ys[i], t)) {
        RowOffersSnoc(p, values, n, tiles, tile, ys[i], t);
        assert Offers(p, values, tile.x, n, {}, t) == {};
      }
    }
  }

  /** A slot just taken into use holds what its row has been offered so far: nothing. */
  lemma SlotTaken(p: Program, n: nat, values: seq<value>, ys: seq<nat>, locals: seq<seq<value>>, tiles: seq<TileView>, used: nat, y: nat)
    requires Gathered(p, n, values, ys, locals, tiles, used) && used < |ys| && y !in ys[..used] && y != FREE
    ensures Gathered(p, n, values, ys[used := y], locals[used := Neutral(n)], tiles, used + 1)
  {
    var ys', locals' := ys[used := y], locals[used := Neutral(n)];
    assert ys'[..used + 1] == ys[..used] + [y];
    forall i | 0 <= i < used ensures ys'[i] != y {
      assert ys[i] in ys[..used];
    }
    forall i | 0 <= i < used + 1 ensures HoldsLeast(p, n, values, ys'[i], locals'[i], tiles) {
      if i < used {
        assert locals'[i] == locals[i];
      } else {
        forall t | 0 <= t < n ensures Least(locals'[i][t], INFINITE, RowOffers(p, values, n, tiles, y, t)) {
          RowWithoutSlot(p, n, values, ys[..used], tiles, y, t);
        }
      }
    }
  }

  lemma {:induction false} RowWithoutSlot(p: Program, n: nat, values: seq<value>, ys: seq<nat>, tiles: seq<TileView>, y: nat, t: nat)
    requires forall k {:trigger tiles[k]} :: 0 <= k < |tiles| && tiles[k].edges != {} ==> tiles[k].y in ys
    requires y !in ys
    ensures RowOffers(p, values, n, tiles, y, t) == {}
  {
    if tiles != [] {
      var tile := tiles[|tiles| - 1];
      RowWithoutSlot(p, n, values, ys, tiles[..|tiles| - 1], y, t);
      assert Offers(p, values, tile.x, n, {}, t) == {};
    }
  }

  /** Gathering a tile into the slot of its row. */
  lemma TileGathered(p: Program, n: nat, values: seq<value>, ys: seq<nat>, locals: seq<seq<value>>, tiles: seq<TileView>, used: nat,
                     slot: nat, tile: TileView, edges: seq<LocalEdge>)
    requires Gathered(p, n, values, ys, locals, tiles, used) && slot < used && tile.y == ys[slot] && tile.edges == SetOf(edges)
    requires Sources(values, tile.x, edges, n)
    ensures |locals[slot]| == n
    ensures Gathered(p, n, values, ys, locals[slot := GatherAll(p, values, tile.x, n, edges, locals[slot])], tiles + [tile], used)
  {
    assert |locals[slot]| == n;
    var after := GatherAll(p, values, tile.x, n, edges, locals[slot]);
    forall i | 0 <= i < used ensures HoldsLeast(p, n, values, ys[i], locals[slot := after][i], tiles + [tile]) {
      assert HoldsLeast(p, n, values, ys[i], locals[i], tiles);
      forall t | 0 <= t < n ensures Least(locals[slot := after][i][t], INFINITE, RowOffers(p, values, n, tiles + [tile], ys[i], t)) {
        RowOffersSnoc(p, values, n, tiles, tile, ys[i], t);
        if i == slot {
          GatherIsLeast(p, values, tile.x, n, edges, locals[slot], t);
          LeastTwice(locals[slot][t], after[t], INFINITE, RowOffers(p, values, n, tiles, ys[i], t),
                     Offers(p, values, tile.x, n, tile.edges, t));
        }
      }
    }
    assert ys[slot] in ys[..used] by { assert ys[..used][slot] == ys[slot]; }
  }

  /** A tile as the executors see it: coordinates and edges. */
  datatype TileView = TileView(x: nat, y: nat, edges: set<LocalEdge>)

  ghost function ViewOf(tm: TileManager): TileView
    requires tm.Stored()
    reads tm, tm.counts
  {
    TileView(tm.x, tm.y, SetOf(tm.Contents()))
  }

  /** What the tiles of row `y` offer its local vertex `t`. */
  ghost function RowOffers(p: Program, current: seq<value>, n: nat, tiles: seq<TileView>, y: nat, t: nat): set<nat> {
    if tiles == [] then {}
    else
      var tile := tiles[|tiles| - 1];
      RowOffers(p, current, n, tiles[..|tiles| - 1], y, t) + if tile.y == y then Offers(p, current, tile.x, n, tile.edges, t) else {}
  }

  lemma RowOffersSnoc(p: Program, current: seq<value>, n: nat, tiles: seq<TileView>, tile: TileView, y: nat, t: nat)
    ensures RowOffers(p, current, n, tiles + [tile], y, t)
         == RowOffers(p, current, n, tiles, y, t) + if tile.y == y then Offers(p, current, tile.x, n, tile.edges, t) else {}
  {
    assert (tiles + [tile])[..|tiles|] == tiles;
  }

  lemma GatherRun(p: Program, current: seq<value>, x: nat, n: nat, runs: seq<Run>, targets: seq<local_id>, i: nat, count: nat,
                  local: seq<value>)
    requires |local| == n && i < |runs| && count <= |targets| && Total(runs[i..]) == |targets| - count
    requires Sources(current, x, Expand(runs[i..], targets[count..]), n)
    ensures var to := count + runs[i].count;
            to <= |targets| && Total(runs[i + 1..]) == |targets| - to
            && Sources(current, x, Row(runs[i].id, targets[count..to]), n)
            && Sources(current, x, Expand(runs[i + 1..], targets[to..]), n)
            && GatherAll(p, current, x, n, Expand(runs[i..], targets[count..]), local)
               == GatherAll(p, current, x, n, Expand(runs[i + 1..], targets[to..]),
                            GatherAll(p, current, x, n, Row(runs[i].id, targets[count..to]), local))
  {
    hide Id, GatherAll, Sources;
    var to := count + runs[i].count;
    assert runs[i..][1..] == runs[i + 1..];
    assert targets[count..][..runs[i].count] == targets[count..to];
    assert targets[count..][runs[i].count..] == targets[to..];
    GatherMore(p, current, x, n, Row(runs[i].id, targets[count..to]), Expand(runs[i + 1..], targets[to..]), local);
  }

  lemma NothingLeft(p: Program, current: seq<value>, x: nat, n: nat, targets: seq<local_id>, count: nat, local: seq<value>)
    requires |local| == n && count <= |targets| && Total([]) == |targets| - count
    ensures Sources(current, x, [], n) && Expand([], targets[count..]) == []
    ensures GatherAll(p, current, x, n, [], local) == local
  {
  }

  lemma GatherNothing(p: Program, current: seq<value>, x: nat, n: nat, local: seq<value>)
    requires |local| == n
    ensures GatherAll(p, current, x, n, [], local) == local
  {
  }

  lemma GatherNext(p: Program, current: seq<value>, x: nat, n: nat, edges: seq<LocalEdge>, k: nat, local: seq<value>)
    requires |local| == n && k < |edges| && Sources(current, x, edges, n)
    ensures Sources(current, x, edges[..k], n) && Sources(current, x, edges[..k + 1], n)
    ensures Id(x, n, edges[k].src) < |current| && edges[k].tgt < n
    ensures var before := GatherAll(p, current, x, n, edges[..k], local);
            GatherAll(p, current, x, n, edges[..k + 1], local)
              == before[edges[k].tgt := Gather(p, current[Id(x, n, edges[k].src)], before[edges[k].tgt])]
  {
    assert edges[..k + 1][..k] == edges[..k];
  }
}
