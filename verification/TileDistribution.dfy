/** The tile distributor: cutting the tiles of a round into batches, flat or meta tile by meta tile. */
module TileDistribution {
  import opened TileIndex

  /** The tiles of `tiles` that hold edges, in order; `sizes` tells how many edges the tile at each position holds. */
  function NonEmpty(tiles: seq<nat>, sizes: seq<nat>): seq<nat>
    requires InStore(tiles, sizes)
  {
    if tiles == [] then []
    else NonEmpty(tiles[..|tiles| - 1], sizes) + if sizes[tiles[|tiles| - 1]] != 0 then [tiles[|tiles| - 1]] else []
  }

  function Empties(tiles: seq<nat>, sizes: seq<nat>): nat
    requires InStore(tiles, sizes)
  {
    if tiles == [] then 0
    else Empties(tiles[..|tiles| - 1], sizes) + if sizes[tiles[|tiles| - 1]] != 0 then 0 else 1
  }

  predicate InStore(tiles: seq<nat>, sizes: seq<nat>) {
    forall i {:trigger tiles[i]} :: 0 <= i < |tiles| ==> tiles[i] < |sizes|
  }

  function Flatten(batches: seq<seq<nat>>): seq<nat> {
    if batches == [] then [] else Flatten(batches[..|batches| - 1]) + batches[|batches| - 1]
  }

  function Edges(tiles: seq<nat>, sizes: seq<nat>): nat
    requires InStore(tiles, sizes)
  {
    if tiles == [] then 0 else Edges(tiles[..|tiles| - 1], sizes) + sizes[tiles[|tiles| - 1]]
  }

  predicate Distinct(tiles: seq<nat>) {
    forall i, j {:trigger tiles[i], tiles[j]} :: 0 <= i < j < |tiles| ==> tiles[i] != tiles[j]
  }

  /** What executors are promised: a batch has a tile, no more than they have slots for, and stays within the limit of
      edges before its last tile. */
  predicate BatchOk(batch: seq<nat>, sizes: seq<nat>, tileBatching: nat, maxEdges: nat) {
    InStore(batch, sizes) && 1 <= |batch| <= tileBatching && Edges(batch[..|batch| - 1], sizes) <= maxEdges
  }

  ghost predicate BatchesOk(batches: seq<seq<nat>>, sizes: seq<nat>, tileBatching: nat, maxEdges: nat) {
    forall k {:trigger batches[k]} :: 0 <= k < |batches| ==> BatchOk(batches[k], sizes, tileBatching, maxEdges)
  }

  /** A batch that had to be closed: it has all the tiles it may have, or exceeds the limit of edges. */
  predicate Full(batch: seq<nat>, sizes: seq<nat>, tileBatching: nat, maxEdges: nat) {
    InStore(batch, sizes) && (|batch| == tileBatching || Edges(batch, sizes) > maxEdges)
  }

  /** The first `n` batches had to be closed. */
  ghost predicate FullUpTo(batches: seq<seq<nat>>, n: int, sizes: seq<nat>, tileBatching: nat, maxEdges: nat) {
    forall k {:trigger batches[k]} :: 0 <= k < n && k < |batches| ==> Full(batches[k], sizes, tileBatching, maxEdges)
  }

  /** A list of tiles in batches as large as they may be. */
  ghost predicate Greedy(batches: seq<seq<nat>>, sizes: seq<nat>, tileBatching: nat, maxEdges: nat) {
    BatchesOk(batches, sizes, tileBatching, maxEdges) && FullUpTo(batches, |batches| - 1, sizes, tileBatching, maxEdges)
  }

  /** The non-empty tiles of each list in such batches, list after list. */
  ghost predicate GreedyLists(batches: seq<seq<nat>>, lists: seq<seq<nat>>, sizes: seq<nat>, tileBatching: nat, maxEdges: nat)
    requires forall m {:trigger lists[m]} :: 0 <= m < |lists| ==> InStore(lists[m], sizes)
    decreases |lists|
  {
    if lists == [] then batches == []
    else
      var last := |lists| - 1;
      exists n {:trigger batches[n..]} :: 0 <= n <= |batches|
        && GreedyLists(batches[..n], lists[..last], sizes, tileBatching, maxEdges)
        && Greedy(batches[n..], sizes, tileBatching, maxEdges) && Flatten(batches[n..]) == NonEmpty(lists[last], sizes)
  }

  lemma {:induction false} FlattenBoth(a: seq<seq<nat>>, b: seq<seq<nat>>)
    ensures Flatten(a + b) == Flatten(a) + Flatten(b)
    decreases |b|
  {
    if b == [] {
      assert a + b == a;
    } else {
      var last := |b| - 1;
      assert (a + b)[..|a + b| - 1] == a + b[..last];
      FlattenBoth(a, b[..last]);
    }
  }

  lemma {:induction false} FlattenFront(batches: seq<seq<nat>>)
    requires batches != []
    ensures Flatten(batches) == batches[0] + Flatten(batches[1..])
  {
    var last := |batches| - 1;
    if last > 0 {
      FlattenFront(batches[..last]);
      assert batches[..last][1..] == batches[1..][..last - 1];
      assert (batches[0] + Flatten(batches[1..][..last - 1])) + batches[last] == batches[0] + (Flatten(batches[1..][..last - 1]) + batches[last]);
    } else {
      assert batches[..0] == [] && batches[1..] == [];
    }
  }

  lemma {:induction false} EdgesOfPrefix(batch: seq<nat>, n: nat, sizes: seq<nat>)
    requires InStore(batch, sizes) && n <= |batch|
    ensures InStore(batch[..n], sizes) && Edges(batch[..n], sizes) <= Edges(batch, sizes)
    decreases |batch|
  {
    if n < |batch| {
      EdgesOfPrefix(batch[..|batch| - 1], n, sizes);
      assert batch[..|batch| - 1][..n] == batch[..n];
    } else {
      assert batch[..n] == batch;
    }
  }

  /** A batch that had to be closed is no proper beginning of one that is within the limits. */
  lemma ClosedIsNoPrefix(a: seq<nat>, b: seq<nat>, sizes: seq<nat>, tileBatching: nat, maxEdges: nat)
    requires Full(a, sizes, tileBatching, maxEdges) && BatchOk(b, sizes, tileBatching, maxEdges) && |a| <= |b| && b[..|a|] == a
    ensures |a| == |b|
  {
    if |a| < |b| {
      var before := b[..|b| - 1];
      assert before[..|a|] == a;
      EdgesOfPrefix(before, |a|, sizes);
    }
  }

  lemma FewerFull(batches: seq<seq<nat>>, sizes: seq<nat>, tileBatching: nat, maxEdges: nat)
    ensures FullUpTo(batches, |batches|, sizes, tileBatching, maxEdges) ==>
              FullUpTo(batches, |batches| - 1, sizes, tileBatching, maxEdges)
    ensures batches == [] ==> FullUpTo(batches, 0, sizes, tileBatching, maxEdges)
  {
  }

  lemma NoBatches(a: seq<seq<nat>>, sizes: seq<nat>, tileBatching: nat, maxEdges: nat)
    requires BatchesOk(a, sizes, tileBatching, maxEdges) && Flatten(a) == []
    ensures a == []
  {
  }

  /** These batches are determined by the tiles they hold. */
  lemma {:induction false} GreedyIsUnique(a: seq<seq<nat>>, b: seq<seq<nat>>, sizes: seq<nat>, tileBatching: nat, maxEdges: nat)
    requires Greedy(a, sizes, tileBatching, maxEdges) && Greedy(b, sizes, tileBatching, maxEdges) && Flatten(a) == Flatten(b)
    ensures a == b
    decreases |a|
  {
    if a == [] {
      NoBatches(b, sizes, tileBatching, maxEdges);
    } else if b == [] {
      NoBatches(a, sizes, tileBatching, maxEdges);
    } else {
      FlattenFront(a);
      FlattenFront(b);
      SameFirst(a, b, sizes, tileBatching, maxEdges);
      assert Flatten(a) == a[0] + Flatten(a[1..]) && Flatten(b) == a[0] + Flatten(b[1..]);
      assert Flatten(a)[|a[0]|..] == Flatten(a[1..]) && Flatten(b)[|a[0]|..] == Flatten(b[1..]);
      GreedyIsUnique(a[1..], b[1..], sizes, tileBatching, maxEdges);
      assert a == [a[0]] + a[1..] && b == [b[0]] + b[1..];
    }
  }

  lemma SameFirst(a: seq<seq<nat>>, b: seq<seq<nat>>, sizes: seq<nat>, tileBatching: nat, maxEdges: nat)
    requires Greedy(a, sizes, tileBatching, maxEdges) && Greedy(b, sizes, tileBatching, maxEdges) && a != [] && b != []
    requires a[0] + Flatten(a[1..]) == b[0] + Flatten(b[1..])
    ensures a[0] == b[0]
  {
    hide Edges;
    var whole := a[0] + Flatten(a[1..]);
    assert a[0] == whole[..|a[0]|] && b[0] == whole[..|b[0]|];
    assert (|a| == 1 ==> a[1..] == []) && (|b| == 1 ==> b[1..] == []);
    if |a[0]| < |b[0]| {
      assert b[0][..|a[0]|] == a[0];
      ClosedIsNoPrefix(a[0], b[0], sizes, tileBatching, maxEdges);
    } else if |b[0]| < |a[0]| {
      assert a[0][..|b[0]|] == b[0];
      ClosedIsNoPrefix(b[0], a[0], sizes, tileBatching, maxEdges);
    }
  }

  /** ... and so are those of several lists. */
  lemma {:induction false} GreedyListsAreUnique(a: seq<seq<nat>>, b: seq<seq<nat>>, lists: seq<seq<nat>>, sizes: seq<nat>,
                                                tileBatching: nat, maxEdges: nat)
    requires forall m {:trigger lists[m]} :: 0 <= m < |lists| ==> InStore(lists[m], sizes)
    requires GreedyLists(a, lists, sizes, tileBatching, maxEdges) && GreedyLists(b, lists, sizes, tileBatching, maxEdges)
    ensures a == b
    decreases |lists|
  {
    hide Greedy, Flatten, NonEmpty;
    if lists != [] {
      var last := |lists| - 1;
      var i :| 0 <= i <= |a| && GreedyLists(a[..i], lists[..last], sizes, tileBatching, maxEdges)
               && Greedy(a[i..], sizes, tileBatching, maxEdges) && Flatten(a[i..]) == NonEmpty(lists[last], sizes);
      var j :| 0 <= j <= |b| && GreedyLists(b[..j], lists[..last], sizes, tileBatching, maxEdges)
               && Greedy(b[j..], sizes, tileBatching, maxEdges) && Flatten(b[j..]) == NonEmpty(lists[last], sizes);
      GreedyListsAreUnique(a[..i], b[..j], lists[..last], sizes, tileBatching, maxEdges);
      GreedyIsUnique(a[i..], b[j..], sizes, tileBatching, maxEdges);
      assert a == a[..i] + a[i..] && b == b[..j] + b[j..];
    }
  }

  lemma {:induction false} SplitLists(a: seq<nat>, b: seq<nat>, sizes: seq<nat>)
    requires InStore(a, sizes) && InStore(b, sizes)
    ensures InStore(a + b, sizes) && NonEmpty(a + b, sizes) == NonEmpty(a, sizes) + NonEmpty(b, sizes)
    ensures Empties(a + b, sizes) == Empties(a, sizes) + Empties(b, sizes)
    decreases |b|
  {
    if b == [] {
      assert a + b == a;
    } else {
      assert (a + b)[..|a + b| - 1] == a + b[..|b| - 1];
      SplitLists(a, b[..|b| - 1], sizes);
    }
  }

  lemma FlattenSnoc(batches: seq<seq<nat>>, batch: seq<nat>)
    ensures Flatten(batches + [batch]) == Flatten(batches) + batch
  {
    assert (batches + [batch])[..|batches|] == batches;
  }

  lemma {:induction false} NoEdges(tiles: seq<nat>, sizes: seq<nat>)
    requires InStore(tiles, sizes) && forall i {:trigger tiles[i]} :: 0 <= i < |tiles| ==> sizes[tiles[i]] == 0
    ensures NonEmpty(tiles, sizes) == [] && Empties(tiles, sizes) == |tiles|
  {
    if tiles != [] { NoEdges(tiles[..|tiles| - 1], sizes); }
  }

  lemma DropSnoc(batches: seq<seq<nat>>, k: nat, batch: seq<nat>)
    requires k <= |batches|
    ensures (batches + [batch])[k..] == batches[k..] + [batch]
  {
  }

  class TileDistributor {
    const tileBatching: nat
    const countExecutors: nat
    var countEdges: nat
    var messages: seq<seq<nat>>
    var countSkippedTiles: nat
    var countSkippedMetaTiles: nat

    constructor (tileBatching: nat, countExecutors: nat)
      requires tileBatching >= 1 && countExecutors >= 1
      ensures Configured() && messages == [] && countSkippedTiles == countSkippedMetaTiles == 0
      ensures this.tileBatching == tileBatching && this.countExecutors == countExecutors
    {
      this.tileBatching, this.countExecutors := tileBatching, countExecutors;
      countEdges, messages, countSkippedTiles, countSkippedMetaTiles := 0, [], 0, 0;
    }

    ghost predicate Configured() {
      tileBatching >= 1 && countExecutors >= 1
    }

    function MaxEdges(): nat
      requires Configured()
      reads this
    {
      countEdges / countExecutors / 128
    }

    /** A batch is closed once it holds more than a 128th of an executor's part of all edges. */
    lemma MaxEdgesIsShare(edges: nat)
      requires Configured()
      ensures edges > MaxEdges() <==> edges * 128 * countExecutors > countEdges
    {
      var q := countEdges / countExecutors;
      assert countEdges == q * countExecutors + countEdges % countExecutors;
      assert edges > MaxEdges() <==> edges * 128 > q;
      if edges * 128 > q { Times(q + 1, edges * 128, countExecutors); } else { Times(edges * 128, q, countExecutors); }
    }

    /** What has been sent and counted since `sent` and `skipped`: the batches of `tiles`. */
    ghost predicate Scheduled(sent: seq<seq<nat>>, skipped: nat, tiles: seq<nat>, sizes: seq<nat>)
      requires Configured() && InStore(tiles, sizes)
      reads this
    {
      && |sent| <= |messages| && messages[..|sent|] == sent
      && BatchesOk(messages[|sent|..], sizes, tileBatching, MaxEdges())
      && Flatten(messages) == Flatten(sent) + NonEmpty(tiles, sizes)
      && countSkippedTiles == skipped + Empties(tiles, sizes)
    }

    /** util::sendMessage: the batch, which had to be closed or is the `last` one of its list, goes to the executors' ring
        buffer. */
    method Send(batch: seq<nat>, ghost sent: seq<seq<nat>>, ghost sizes: seq<nat>, ghost maxEdges: nat, ghost last: bool)
      requires |sent| <= |messages| && messages[..|sent|] == sent
      requires BatchesOk(messages[|sent|..], sizes, tileBatching, maxEdges) && BatchOk(batch, sizes, tileBatching, maxEdges)
      requires FullUpTo(messages[|sent|..], |messages| - |sent|, sizes, tileBatching, maxEdges)
      requires last || |batch| >= tileBatching || Edges(batch, sizes) > maxEdges
      modifies this`messages
      ensures |sent| <= |messages| && messages[..|sent|] == sent
      ensures BatchesOk(messages[|sent|..], sizes, tileBatching, maxEdges)
      ensures FullUpTo(messages[|sent|..], |messages| - |sent| - (if last then 1 else 0), sizes, tileBatching, maxEdges)
      ensures Flatten(messages) == Flatten(old(messages)) + batch
    {
      SentIsFull(messages[|sent|..], batch, sizes, maxEdges, last);
      hide BatchOk, Full;
      FlattenSnoc(messages, batch);
      DropSnoc(messages, |sent|, batch);
      messages := messages + [batch];
    }

    lemma SentIsFull(batches: seq<seq<nat>>, batch: seq<nat>, sizes: seq<nat>, maxEdges: nat, last: bool)
      requires FullUpTo(batches, |batches|, sizes, tileBatching, maxEdges) && BatchOk(batch, sizes, tileBatching, maxEdges)
      requires last || |batch| >= tileBatching || Edges(batch, sizes) > maxEdges
      ensures FullUpTo(batches + [batch], |batches| + 1 - (if last then 1 else 0), sizes, tileBatching, maxEdges)
    {
      hide Edges;
    }

    /** scheduleTiles over a list of tiles. */
    method ScheduleTiles(tiles: seq<nat>, sizes: seq<nat>)
      requires Configured() && InStore(tiles, sizes) && Distinct(tiles)
      modifies this`messages, this`countSkippedTiles
      ensures Scheduled(old(messages), old(countSkippedTiles), tiles, sizes)
      ensures Greedy(messages[|old(messages)|..], sizes, tileBatching, MaxEdges())
    {
      hide Flatten, NonEmpty, Empties, Edges, BatchOk, Full, FullUpTo;
      var tilesInBatch, edgesInBatch := 0, 0;
      var tileBatch: seq<nat> := [];
      var maxEdges := MaxEdges();
      ghost var sent, skipped := messages, countSkippedTiles;
      NothingYet(sent, sizes, tileBatch);
      FewerFull(messages[|sent|..], sizes, tileBatching, maxEdges);
      for i := 0 to |tiles|
        invariant |sent| <= |messages| && messages[..|sent|] == sent && maxEdges == MaxEdges()
        invariant BatchesOk(messages[|sent|..], sizes, tileBatching, maxEdges)
        invariant InStore(tileBatch, sizes) && tilesInBatch == |tileBatch| && edgesInBatch == Edges(tileBatch, sizes)
        invariant Flatten(messages) + tileBatch == Flatten(sent) + NonEmpty(tiles[..i], sizes)
        invariant countSkippedTiles == skipped + Empties(tiles[..i], sizes)
        invariant tileBatch == [] || (|tileBatch| < tileBatching && edgesInBatch <= maxEdges && i < |tiles|)
        invariant FullUpTo(messages[|sent|..], |messages| - |sent| - (if i < |tiles| || tiles == [] then 0 else 1), sizes, tileBatching, maxEdges)
      {
        var currentEdges := sizes[tiles[i]];
        ghost var before := tileBatch;
        NextTile(tiles, sizes, i, tileBatch);
        assert Flatten(messages) + (before + [tiles[i]]) == (Flatten(messages) + before) + [tiles[i]];
        if currentEdges != 0 {
          tileBatch := tileBatch + [tiles[i]];
          edgesInBatch := edgesInBatch + currentEdges;
          tilesInBatch := tilesInBatch + 1;
        } else {
          countSkippedTiles := countSkippedTiles + 1;
        }
        if tilesInBatch >= tileBatching || edgesInBatch > maxEdges || tiles[i] == tiles[|tiles| - 1] {
          if |tileBatch| > 0 {
            Accepted(before, tileBatch, sizes, tileBatching, maxEdges);
            Send(tileBatch, sent, sizes, maxEdges, i + 1 == |tiles|);
            tileBatch := [];
            tilesInBatch := 0;
            edgesInBatch := 0;
            NothingYet(sent, sizes, tileBatch);
          } else {
            FewerFull(messages[|sent|..], sizes, tileBatching, maxEdges);
          }
        }
      }
      assert tiles[..|tiles|] == tiles;
      FewerFull(messages[|sent|..], sizes, tileBatching, maxEdges);
    }

    /** run, one round without meta tiles: all tiles in the order of the traversal. */
    method RunFlat(sizes: seq<nat>)
      requires Configured()
      modifies this`messages, this`countSkippedTiles
      ensures InStore(Range(0, |sizes|), sizes)
      ensures Scheduled(old(messages), old(countSkippedTiles), Range(0, |sizes|), sizes)
      ensures Greedy(messages[|old(messages)|..], sizes, tileBatching, MaxEdges())
      ensures countSkippedMetaTiles == old(countSkippedMetaTiles)
    {
      var tms: seq<nat> := [];
      var currentTile := 0;
      while currentTile < |sizes|
        invariant currentTile <= |sizes| && tms == Range(0, currentTile)
      {
        tms := tms + [currentTile];
        currentTile := currentTile + 1;
      }
      RangeIsDistinct(0, |sizes|);
      ScheduleTiles(tms, sizes);
    }

    /** run, one round with meta tiles: `lists` are their tiles, `counts` what each meta tile manager has counted for
        each of them. */
    method RunTwoLevel(lists: seq<seq<nat>>, counts: seq<seq<nat>>, tilesPerMeta: nat, sizes: seq<nat>)
      requires Configured()
      requires forall m {:trigger lists[m]} :: 0 <= m < |lists| ==>
                 InStore(lists[m], sizes) && Distinct(lists[m]) && |lists[m]| == tilesPerMeta
      requires forall c {:trigger counts[c]} :: 0 <= c < |counts| ==> |counts[c]| == |lists|
      requires Counted(lists, counts, sizes)
      modifies this`messages, this`countSkippedTiles, this`countSkippedMetaTiles
      ensures InStore(Flatten(lists), sizes)
      ensures Scheduled(old(messages), old(countSkippedTiles), Flatten(lists), sizes)
      ensures GreedyLists(messages[|old(messages)|..], lists, sizes, tileBatching, MaxEdges())
      ensures countSkippedMetaTiles == old(countSkippedMetaTiles) + Uncounted(counts, |lists|)
    {
      hide Flatten, NonEmpty, Empties, BatchOk, Counted, Full, FullUpTo, Greedy, GreedyLists;
      ghost var sent, skipped := messages, countSkippedTiles;
      NothingSent(sizes);
      NoLists(lists, sizes, tileBatching, MaxEdges());
      assert messages[|sent|..] == [];
      for m := 0 to |lists|
        invariant InStore(Flatten(lists[..m]), sizes) && Scheduled(sent, skipped, Flatten(lists[..m]), sizes)
        invariant GreedyLists(messages[|sent|..], lists[..m], sizes, tileBatching, MaxEdges())
        invariant countSkippedMetaTiles == old(countSkippedMetaTiles) + Uncounted(counts, m)
      {
        var edgesInMetaTile: nat := 0;
        for c := 0 to |counts|
          invariant edgesInMetaTile == CountFor(counts[..c], m)
          modifies {}
        {
          assert counts[..c + 1][..c] == counts[..c];
          edgesInMetaTile := edgesInMetaTile + counts[c][m];
        }
        assert counts[..|counts|] == counts;
        assert lists[..m + 1] == lists[..m] + [lists[m]];
        FlattenSnoc(lists[..m], lists[m]);
        SplitLists(Flatten(lists[..m]), lists[m], sizes);
        ghost var soFar, skippedSoFar := messages, countSkippedTiles;
        if edgesInMetaTile == 0 {
          NothingCounted(lists, counts, sizes, m);
          countSkippedTiles := countSkippedTiles + tilesPerMeta;
          countSkippedMetaTiles := countSkippedMetaTiles + 1;
          NoMoreBatches(soFar, sizes);
        } else {
          ScheduleTiles(lists[m], sizes);
          MoreBatches(sent, soFar, sizes);
        }
        MoreLists(sent, soFar, lists, m, sizes);
      }
      assert lists[..|lists|] == lists;
    }

    static lemma NoLists(lists: seq<seq<nat>>, sizes: seq<nat>, tileBatching: nat, maxEdges: nat)
      ensures GreedyLists([], lists[..0], sizes, tileBatching, maxEdges)
    {
    }

    lemma NoMoreBatches(soFar: seq<seq<nat>>, sizes: seq<nat>)
      requires Configured() && messages == soFar
      ensures Greedy(messages[|soFar|..], sizes, tileBatching, MaxEdges())
      ensures Flatten(messages) == Flatten(soFar) + []
    {
    }

    /** The batches of one list more. */
    lemma MoreLists(sent: seq<seq<nat>>, soFar: seq<seq<nat>>, lists: seq<seq<nat>>, m: nat, sizes: seq<nat>)
      requires Configured() && |sent| <= |soFar| <= |messages| && soFar[..|sent|] == sent && messages[..|soFar|] == soFar
      requires m < |lists| && forall k {:trigger lists[k]} :: 0 <= k < |lists| ==> InStore(lists[k], sizes)
      requires GreedyLists(soFar[|sent|..], lists[..m], sizes, tileBatching, MaxEdges())
      requires Greedy(messages[|soFar|..], sizes, tileBatching, MaxEdges())
      requires Flatten(messages) == Flatten(soFar) + NonEmpty(lists[m], sizes)
      ensures GreedyLists(messages[|sent|..], lists[..m + 1], sizes, tileBatching, MaxEdges())
    {
      hide Greedy, Flatten, NonEmpty;
      var batches, n := messages[|sent|..], |soFar| - |sent|;
      assert lists[..m + 1][..m] == lists[..m];
      assert batches[..n] == soFar[|sent|..] && batches[n..] == messages[|soFar|..];
      assert messages == soFar + messages[|soFar|..];
      FlattenBoth(soFar, messages[|soFar|..]);
      assert Flatten(messages)[|Flatten(soFar)|..] == NonEmpty(lists[m], sizes) == Flatten(messages[|soFar|..]);
    }

    lemma NothingSent(sizes: seq<nat>)
      requires Configured()
      ensures Flatten([]) == [] && InStore([], sizes) && Scheduled(messages, countSkippedTiles, [], sizes)
    {
    }

    lemma MoreBatches(sent: seq<seq<nat>>, soFar: seq<seq<nat>>, sizes: seq<nat>)
      requires Configured() && |sent| <= |soFar| <= |messages| && soFar[..|sent|] == sent && messages[..|soFar|] == soFar
      requires BatchesOk(soFar[|sent|..], sizes, tileBatching, MaxEdges())
      requires BatchesOk(messages[|soFar|..], sizes, tileBatching, MaxEdges())
      ensures messages[..|sent|] == sent && BatchesOk(messages[|sent|..], sizes, tileBatching, MaxEdges())
    {
      hide BatchOk;
      assert messages[|sent|..] == soFar[|sent|..] + messages[|soFar|..];
    }
  }

  /** The meta tile managers' counts of meta tile `m`, together. */
  function CountFor(counts: seq<seq<nat>>, m: nat): nat
    requires forall c {:trigger counts[c]} :: 0 <= c < |counts| ==> m < |counts[c]|
  {
    if counts == [] then 0 else CountFor(counts[..|counts| - 1], m) + counts[|counts| - 1][m]
  }

  /** How many of the first `n` meta tiles nobody has counted an edge for. */
  function Uncounted(counts: seq<seq<nat>>, n: nat): nat
    requires forall c {:trigger counts[c]} :: 0 <= c < |counts| ==> n <= |counts[c]|
  {
    if n == 0 then 0 else Uncounted(counts, n - 1) + if CountFor(counts, n - 1) == 0 then 1 else 0
  }

  /** A meta tile that nobody has counted an edge for has none. */
  ghost predicate Counted(lists: seq<seq<nat>>, counts: seq<seq<nat>>, sizes: seq<nat>)
    requires forall m {:trigger lists[m]} :: 0 <= m < |lists| ==> InStore(lists[m], sizes)
    requires forall c {:trigger counts[c]} :: 0 <= c < |counts| ==> |counts[c]| == |lists|
  {
    forall m, i {:trigger lists[m][i]} :: 0 <= m < |lists| && 0 <= i < |lists[m]| && CountFor(counts, m) == 0 ==>
      lists[m][i] < |sizes| && sizes[lists[m][i]] == 0
  }

  lemma NothingCounted(lists: seq<seq<nat>>, counts: seq<seq<nat>>, sizes: seq<nat>, m: nat)
    requires forall k {:trigger lists[k]} :: 0 <= k < |lists| ==> InStore(lists[k], sizes)
    requires forall c {:trigger counts[c]} :: 0 <= c < |counts| ==> |counts[c]| == |lists|
    requires Counted(lists, counts, sizes) && m < |lists| && CountFor(counts, m) == 0
    ensures NonEmpty(lists[m], sizes) == [] && Empties(lists[m], sizes) == |lists[m]|
  {
    NoEdges(lists[m], sizes);
  }

  function Range(i: nat, j: nat): (r: seq<nat>)
    requires i <= j
    ensures |r| == j - i && forall k {:trigger r[k]} :: 0 <= k < |r| ==> r[k] == i + k
  {
    seq(j - i, k requires 0 <= k => i + k)
  }

  lemma RangeIsDistinct(i: nat, j: nat)
    requires i <= j
    ensures Distinct(Range(i, j))
  {
  }

  lemma RangeSplit(i: nat, j: nat, k: nat)
    requires i <= j <= k
    ensures Range(i, k) == Range(i, j) + Range(j, k)
  {
  }

  /** Consecutive runs of `c` positions, put together. */
  lemma {:induction false} RunsAreFlat(lists: seq<seq<nat>>, c: nat)
    requires forall m {:trigger lists[m]} :: 0 <= m < |lists| ==> lists[m] == Range(Start(m, c), Start(m, c) + c)
    ensures Flatten(lists) == Range(0, Start(|lists|, c))
  {
    if lists != [] {
      var last := |lists| - 1;
      RunsAreFlat(lists[..last], c);
      assert lists[last] == Range(Start(last, c), Start(last, c) + c);
      StartMonotone(0, last, c);
      RangeSplit(0, Start(last, c), Start(last + 1, c));
    }
  }

  lemma Times(a: nat, b: nat, m: nat)
    requires a <= b
    ensures a * m <= b * m && (a + 1) * m == a * m + m
  {
    assert (b - a) * m >= 0;
    assert b * m == a * m + (b - a) * m;
  }

  lemma NothingYet(sent: seq<seq<nat>>, sizes: seq<nat>, batch: seq<nat>)
    requires batch == []
    ensures Edges([], sizes) == 0 && NonEmpty([], sizes) == [] && Empties([], sizes) == 0
  {
  }

  lemma NextTile(tiles: seq<nat>, sizes: seq<nat>, i: nat, batch: seq<nat>)
    requires InStore(tiles, sizes) && i < |tiles| && InStore(batch, sizes)
    ensures var t := tiles[i];
            && NonEmpty(tiles[..i + 1], sizes) == NonEmpty(tiles[..i], sizes) + (if sizes[t] != 0 then [t] else [])
            && Empties(tiles[..i + 1], sizes) == Empties(tiles[..i], sizes) + (if sizes[t] != 0 then 0 else 1)
            && InStore(batch + [t], sizes) && Edges(batch + [t], sizes) == Edges(batch, sizes) + sizes[t]
  {
    assert tiles[..i + 1][..i] == tiles[..i];
    assert (batch + [tiles[i]])[..|batch|] == batch;
  }

  lemma Accepted(before: seq<nat>, batch: seq<nat>, sizes: seq<nat>, tileBatching: nat, maxEdges: nat)
    requires InStore(before, sizes) && InStore(batch, sizes) && Edges(before, sizes) <= maxEdges
    requires 1 <= |batch| <= tileBatching && (batch == before || batch[..|batch| - 1] == before)
    ensures BatchOk(batch, sizes, tileBatching, maxEdges)
  {
  }
}
