/** The counters per meta tile that the managers keep and the tile distributor reads to skip meta tiles. */
module MetaTileCounts {
  import opened TileDistribution

  /** How many of the tiles in `log` belong to meta tile `k`. */
  function Hits(log: seq<nat>, metaOf: seq<nat>, k: nat): nat {
    if log == [] then 0
    else
      var t := log[|log| - 1];
      Hits(log[..|log| - 1], metaOf, k) + if t < |metaOf| && metaOf[t] == k then 1 else 0
  }

  class MetaTileManager {
    const metaTileId: array<nat>
    const counts: array<nat>

    /** The tiles that this manager has inserted an edge into, in order. */
    ghost var log: seq<nat>

    ghost predicate Valid()
      reads this, metaTileId, counts
    {
      && metaTileId != counts
      && (forall t {:trigger metaTileId[t]} :: 0 <= t < metaTileId.Length ==> metaTileId[t] < counts.Length)
      && (forall k {:trigger counts[k]} :: 0 <= k < counts.Length ==> counts[k] == Hits(log, metaTileId[..], k))
    }

    constructor (metaTileId: array<nat>, countMetaTiles: nat)
      requires forall t {:trigger metaTileId[t]} :: 0 <= t < metaTileId.Length ==> metaTileId[t] < countMetaTiles
      ensures Valid() && log == [] && this.metaTileId == metaTileId && fresh(counts) && counts.Length == countMetaTiles
    {
      this.metaTileId := metaTileId;
      counts := new nat[countMetaTiles](_ => 0);
      log := [];
    }

    /** insertEdge, the part about the counters, for an edge of tile `t`. */
    method InsertEdge(t: nat)
      requires Valid() && t < metaTileId.Length
      modifies this`log, counts
      ensures Valid() && log == old(log) + [t]
    {
      ghost var ids := metaTileId[..];
      forall k | 0 <= k < counts.Length
        ensures Hits(log + [t], ids, k) == Hits(log, ids, k) + if ids[t] == k then 1 else 0
      {
        assert (log + [t])[..|log|] == log;
      }
      counts[metaTileId[t]] := counts[metaTileId[t]] + 1;
      log := log + [t];
      assert metaTileId[..] == ids;
    }
  }

  lemma {:induction false} HitOnce(log: seq<nat>, metaOf: seq<nat>, i: nat)
    requires i < |log| && log[i] < |metaOf|
    ensures Hits(log, metaOf, metaOf[log[i]]) >= 1
    decreases |log|
  {
    if i < |log| - 1 { HitOnce(log[..|log| - 1], metaOf, i); }
  }

  lemma {:induction false} CountedBySome(counts: seq<seq<nat>>, k: nat, c: nat)
    requires c < |counts| && forall i {:trigger counts[i]} :: 0 <= i < |counts| ==> k < |counts[i]|
    ensures CountFor(counts, k) >= counts[c][k]
    decreases |counts|
  {
    if c < |counts| - 1 { CountedBySome(counts[..|counts| - 1], k, c); }
  }

  /** What the distributor relies on when it skips a meta tile: if edges only get into tiles by the managers' insertions,
      a meta tile that no manager has counted an edge for is empty. */
  lemma SkippedAreEmpty(lists: seq<seq<nat>>, metaOf: seq<nat>, logs: seq<seq<nat>>, counts: seq<seq<nat>>, sizes: seq<nat>)
    requires |metaOf| == |sizes| && |counts| == |logs|
    requires forall m {:trigger lists[m]} :: 0 <= m < |lists| ==> InStore(lists[m], sizes)
    requires forall m, i {:trigger lists[m][i]} :: 0 <= m < |lists| && 0 <= i < |lists[m]| ==>
               lists[m][i] < |sizes| && metaOf[lists[m][i]] == m
    requires forall c {:trigger counts[c]} :: 0 <= c < |counts| ==>
               |counts[c]| == |lists| && forall k {:trigger counts[c][k]} :: 0 <= k < |lists| ==> counts[c][k] == Hits(logs[c], metaOf, k)
    requires forall t {:trigger sizes[t]} :: 0 <= t < |sizes| && sizes[t] > 0 ==> InsertedInto(logs, t)
    ensures Counted(lists, counts, sizes)
  {
    forall m, i | 0 <= m < |lists| && 0 <= i < |lists[m]| && CountFor(counts, m) == 0
      ensures lists[m][i] < |sizes| && sizes[lists[m][i]] == 0
    {
      var t := lists[m][i];
      if sizes[t] > 0 {
        var c: nat, j: nat :| c < |logs| && j < |logs[c]| && logs[c][j] == t;
        HitOnce(logs[c], metaOf, j);
        assert counts[c][m] >= 1;
        CountedBySome(counts, m, c);
        assert false;
      }
    }
  }

  ghost predicate InsertedInto(logs: seq<seq<nat>>, t: nat) {
    exists c: nat, j: nat :: c < |logs| && j < |logs[c]| && logs[c][j] == t
  }
}
