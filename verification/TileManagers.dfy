/** The edge store of one tile: an overflow list, and rows in one of two encodings that compaction rewrites. */
module TileManagers {
  import opened Modular
  import opened Powers
  import opened LocalEdges

  const PAGE_SIZE: nat := 4096
  const U16: nat := 0x1_0000
  const U31: nat := 0x8000_0000
  const U32: nat := 0x1_0000_0000

  predicate InTile(e: LocalEdge, verticesPerTile: nat) {
    e.src < verticesPerTile && e.tgt < verticesPerTile
  }

  /** getLocalEdge: the low bits of the global ids, for a power of two of vertices per tile. */
  function ToLocal(edge: Edge, verticesPerTile: nat): (e: LocalEdge)
    requires 1 <= verticesPerTile <= U16
    ensures InTile(e, verticesPerTile)
  {
    LocalEdge(edge.src % verticesPerTile, edge.tgt % verticesPerTile)
  }

  /** getGlobalEdge, in the tile at (x, y): the tile's coordinates above the low bits. */
  function ToGlobal(x: nat, y: nat, e: LocalEdge, verticesPerTile: nat): Edge {
    Edge(x * verticesPerTile + e.src, y * verticesPerTile + e.tgt)
  }

  /** Local and global ids determine each other inside a tile. */
  lemma GlobalOfLocal(x: nat, y: nat, edge: Edge, e: LocalEdge, n: nat)
    requires 1 <= n <= U16 && InTile(e, n)
    ensures edge.src / n == x && edge.tgt / n == y ==> ToGlobal(x, y, ToLocal(edge, n), n) == edge
    ensures var g := ToGlobal(x, y, e, n); ToLocal(g, n) == e && g.src / n == x && g.tgt / n == y
  {
    ModUnique(x * n + e.src, n, x, e.src);
    ModUnique(y * n + e.tgt, n, y, e.tgt);
    assert edge.src == edge.src / n * n + edge.src % n;
    assert edge.tgt == edge.tgt / n * n + edge.tgt % n;
  }

  ghost predicate AllInTile(s: seq<LocalEdge>, verticesPerTile: nat) {
    forall e {:trigger e in s} :: e in s ==> InTile(e, verticesPerTile)
  }

  function CountRuns(counts: seq<nat>): (r: seq<Run>)
    requires |counts| <= U16
    ensures |r| == |counts| && forall i {:trigger r[i]} :: 0 <= i < |r| ==> r[i] == Run(i, counts[i])
  {
    seq(|counts|, i requires 0 <= i < |counts| => Run(i, counts[i]))
  }

  /** The targets of source `s` among `edges`. */
  ghost function Fan(edges: set<LocalEdge>, s: nat): set<LocalEdge> {
    set e | e in edges && e.src == s
  }

  /** The 16-bit row counters suffice: no source has 65535 targets or more in this tile. */
  ghost predicate CountersSuffice(edges: set<LocalEdge>) {
    forall s {:trigger Fan(edges, s)} :: 0 <= s < U16 ==> |Fan(edges, s)| < U16_MAX
  }

  /** A tile that stores `count` of the `inserted` edges, with dynamic compaction having run `times` times and sorted
      `sorted` edges in all. */
  ghost predicate AccountedFor(count: nat, inserted: nat, next: nat, times: nat, sorted: nat, useDynamic: bool) {
    && count <= inserted
    && next == PAGE_SIZE * Pow2(times) && sorted == PAGE_SIZE * Pow2(times) - PAGE_SIZE
    && (times > 0 ==> next <= 2 * inserted)
    && (useDynamic ==> count < next)
  }

  lemma FewerAccounted(count: nat, inserted: nat, next: nat, times: nat, sorted: nat, useDynamic: bool, count': nat)
    requires AccountedFor(count, inserted, next, times, sorted, useDynamic) && count' <= count
    ensures AccountedFor(count', inserted, next, times, sorted, useDynamic)
  {
  }

  lemma OneMoreAccounted(count: nat, inserted: nat, next: nat, times: nat, sorted: nat, useDynamic: bool)
    requires AccountedFor(count, inserted, next, times, sorted, useDynamic) && inserted + 1 < U31
    ensures useDynamic ==> count + 1 <= next
    ensures useDynamic && count + 1 == next ==> next < U31
    ensures !useDynamic || count + 1 < next ==> AccountedFor(count + 1, inserted + 1, next, times, sorted, useDynamic)
    ensures useDynamic && count + 1 == next ==>
              AccountedFor(count + 1, inserted + 1, next * 2, times + 1, sorted + next, useDynamic)
  {
    assert Pow2(times + 1) == 2 * Pow2(times);
  }

  class TileManager {
    const x: nat
    const y: nat
    const verticesPerTile: nat
    const useDynamicCompaction: bool
    var compactStorage: bool
    var counts: array?<nat>
    var idCounts: seq<Run>
    var targets: seq<local_id>
    var edges: seq<LocalEdge>
    var deletedEdges: set<LocalEdge>
    var nextCompaction: nat
    var countCompactions: nat

    // How many edges were inserted, and how often and how much dynamic compaction has sorted.
    ghost var inserted: nat
    ghost var dynamicCompactions: nat
    ghost var dynamicSorted: nat

    ghost predicate Shaped()
      reads this, counts
    {
      1 <= verticesPerTile <= U16 && (counts != null ==> counts.Length == verticesPerTile) && (compactStorage ==> counts != null)
    }

    /** The rows that the current encoding stands for. */
    ghost function Runs(): seq<Run>
      requires Shaped()
      reads this, counts
    {
      if compactStorage then CountRuns(counts[..]) else idCounts
    }

    ghost predicate Stored()
      reads this, counts
    {
      Shaped() && Total(Runs()) == |targets|
    }

    /** All edges of the tile, rows first. */
    ghost function Contents(): seq<LocalEdge>
      requires Stored()
      reads this, counts
    {
      Expand(Runs(), targets) + edges
    }

    /** The books of dynamic compaction, up to where its threshold of 32 bits wraps around. */
    ghost predicate Accounted()
      reads this
    {
      inserted < U31 ==>
        AccountedFor(|edges| + |targets|, inserted, nextCompaction, dynamicCompactions, dynamicSorted, useDynamicCompaction)
    }

    ghost predicate Valid()
      reads this, counts
    {
      && Stored() && Accounted()
      && AllInTile(Contents(), verticesPerTile)
    }

    constructor (x: nat, y: nat, verticesPerTile: nat, useDynamicCompaction: bool)
      requires 1 <= verticesPerTile <= U16
      ensures Valid() && Contents() == [] && deletedEdges == {} && inserted == 0 && counts == null
      ensures this.verticesPerTile == verticesPerTile && this.useDynamicCompaction == useDynamicCompaction
      ensures this.x == x && this.y == y
    {
      this.x, this.y := x, y;
      this.verticesPerTile, this.useDynamicCompaction := verticesPerTile, useDynamicCompaction;
      compactStorage, counts, idCounts, targets, edges, deletedEdges := false, null, [], [], [], {};
      nextCompaction, countCompactions := PAGE_SIZE, 0;
      inserted, dynamicCompactions, dynamicSorted := 0, 0, 0;
    }

    /** The inner loop of copyCSRToEdgeList: one row. */
    method CopyRow(id: local_id, from: nat, to: nat)
      requires from <= to <= |targets|
      modifies this`edges
      ensures edges == old(edges) + Row(id, targets[from..to])
    {
      var current := from;
      while current < to
        invariant from <= current <= to
        invariant edges == old(edges) + Row(id, targets[from..current])
      {
        assert targets[from..current + 1] == targets[from..current] + [targets[current]];
        edges := edges + [LocalEdge(id, targets[current])];
        current := current + 1;
      }
    }

    lemma NextRow(runs: seq<Run>, i: nat, current: nat, copied: seq<LocalEdge>)
      requires i < |runs| && current <= |targets| && Total(runs[i..]) == |targets| - current
      ensures current + runs[i].count <= |targets| && Total(runs[i + 1..]) == |targets| - current - runs[i].count
      ensures copied + Expand(runs[i..], targets[current..])
           == copied + Row(runs[i].id, targets[current..current + runs[i].count])
                     + Expand(runs[i + 1..], targets[current + runs[i].count..])
    {
      var c := runs[i].count;
      assert runs[i..][1..] == runs[i + 1..];
      assert targets[current..][..c] == targets[current..current + c];
      assert targets[current..][c..] == targets[current + c..];
    }

    /** copyCSRToEdgeList. */
    method CopyCSRToEdgeList() returns (currentCount: nat)
      requires Stored()
      modifies this`edges
      ensures Stored() && edges == old(edges) + Expand(Runs(), targets) && currentCount == |targets|
    {
      if compactStorage {
        currentCount := CopyCounts();
      } else {
        currentCount := CopyIdCounts();
      }
    }

    /** Its loop over the counters of all sources. */
    method CopyCounts() returns (currentCount: nat)
      requires Stored() && compactStorage
      modifies this`edges
      ensures edges == old(edges) + Expand(Runs(), targets) && currentCount == |targets|
    {
      hide Expand, Total, CountRuns;
      currentCount := 0;
      ghost var runs := Runs();
      assert runs[0..] == runs && targets[0..] == targets;
      RunsAre();
      for i := 0 to verticesPerTile
        invariant currentCount <= |targets| && Total(runs[i..]) == |targets| - currentCount
        invariant edges + Expand(runs[i..], targets[currentCount..]) == old(edges) + Expand(runs, targets)
      {
        NextRow(runs, i, currentCount, edges);
        var maxCount := currentCount + counts[i];
        CopyRow(i, currentCount, maxCount);
        currentCount := maxCount;
      }
      assert runs[|runs|..] == [];
      Nothing(currentCount);
    }

    /** Its loop over the listed sources. */
    method CopyIdCounts() returns (currentCount: nat)
      requires Stored() && !compactStorage
      modifies this`edges
      ensures edges == old(edges) + Expand(Runs(), targets) && currentCount == |targets|
    {
      hide Expand, Total;
      currentCount := 0;
      ghost var runs := Runs();
      assert runs[0..] == runs && targets[0..] == targets;
      for i := 0 to |idCounts|
        invariant currentCount <= |targets| && Total(runs[i..]) == |targets| - currentCount
        invariant edges + Expand(runs[i..], targets[currentCount..]) == old(edges) + Expand(runs, targets)
      {
        NextRow(runs, i, currentCount, edges);
        var maxCount := currentCount + idCounts[i].count;
        CopyRow(idCounts[i].id, currentCount, maxCount);
        currentCount := maxCount;
      }
      assert runs[|runs|..] == [];
      Nothing(currentCount);
    }

    lemma RunsAre()
      requires Shaped() && compactStorage
      ensures |Runs()| == verticesPerTile
      ensures forall i {:trigger Runs()[i]} :: 0 <= i < verticesPerTile ==> Runs()[i] == Run(i, counts[i])
    {
    }

    lemma Nothing(current: nat)
      requires current <= |targets|
      ensures Total([]) == |targets| - current ==> current == |targets| && Expand([], targets[current..]) == []
    {
    }

    /** ++counts_[src]. */
    method CountTarget(src: nat)
      requires Shaped() && compactStorage && src < verticesPerTile
      modifies counts
      ensures Shaped() && Runs() == Bumped(old(Runs()), src) && counts[src] == Runs()[src].count
    {
      ghost var runs := Runs();
      counts[src] := counts[src] + 1;
      assert Runs() == Bumped(runs, src);
    }

    /** ++id_counts_.back().count. */
    method CountLastTarget()
      requires idCounts != []
      modifies this`idCounts
      ensures idCounts == Bumped(old(idCounts), |old(idCounts)| - 1)
    {
      var last := |idCounts| - 1;
      idCounts := idCounts[last := Run(idCounts[last].id, idCounts[last].count + 1)];
    }

    lemma EmptyRuns(last: nat)
      requires Shaped() && edges != [] && Sorted(edges)
      requires AllInTile(edges, verticesPerTile)
      requires last == if compactStorage then edges[0].src else 0
      requires !compactStorage ==> idCounts == [Run(edges[0].src, 0)]
      requires compactStorage ==> forall i {:trigger counts[i]} :: 0 <= i < counts.Length ==> counts[i] == 0
      ensures last < |Runs()| && Filling(Runs(), [], edges, deletedEdges, 0, LAST, last, {})
    {
      assert edges[0] in edges;
      FillingStarts(Runs(), edges, deletedEdges, last);
    }

    /** The runs and targets have room for what the edges from `i` on still need. */
    ghost predicate FillingAt(i: nat, prev: LocalEdge, currentSrc: local_id, last: nat, row: set<LocalEdge>)
      reads this, counts
    {
      && Shaped() && last < |Runs()| && Filling(Runs(), targets, edges, deletedEdges, i, prev, last, row)
      && (!compactStorage ==> last == |idCounts| - 1 && currentSrc == idCounts[last].id)
    }

    /** The part of fillCSR's loop that keeps an edge. */
    method KeepEdge(edge: LocalEdge, currentSrc: local_id, ghost i: nat, ghost prev: LocalEdge, ghost last0: nat,
                    ghost row0: set<LocalEdge>)
      returns (ok: bool, src: local_id, ghost last: nat, ghost row: set<LocalEdge>)
      requires FillingAt(i, prev, currentSrc, last0, row0)
      requires i < |edges| && edge == edges[i] && edge !in deletedEdges && edge != prev
      requires AllInTile(edges, verticesPerTile)
      modifies this`idCounts, this`targets, counts
      ensures ok ==> FillingAt(i + 1, edge, src, last, row)
      ensures !ok ==> !CountersSuffice(Live(edges, deletedEdges))
    {
      hide Filling, Kept, Expand, Total, CountersSuffice, Sorted, CountRuns, Bumped, AllInTile, Live, Fan, SetOf;
      src, last, row := currentSrc, last0, row0;
      ghost var runs;
      if compactStorage {
        SourceInRange(edge);
        FillingMoves(Runs(), targets, edges, deletedEdges, i, prev, last, row, edge.src);
        row := if last == edge.src then row else {};
        last := edge.src;
        runs := Runs();
        CountTarget(edge.src);
        BumpedCount(runs, last);
        ok := counts[edge.src] != U16_MAX;
      } else {
        if currentSrc != edge.src {
          FillingAppends(Runs(), targets, edges, deletedEdges, i, prev, last, row);
          src := edge.src;
          idCounts := idCounts + [Run(src, 0)];
          last, row := |idCounts| - 1, {};
        }
        runs := Runs();
        CountLastTarget();
        BumpedCount(runs, last);
        ok := idCounts[|idCounts| - 1].count != U16_MAX;
      }
      if !ok {
        RowIsFull(runs, targets, edges, deletedEdges, i, prev, last, row);
        return;
      }
      FillingKeeps(runs, targets, edges, deletedEdges, i, prev, last, row);
      targets := targets + [edge.tgt];
      row := row + {edge};
    }

    /** fillCSR: writes the sorted edges as rows in the current encoding, without deleted and repeated ones. */
    method FillCSR() returns (ok: bool)
      requires Shaped() && edges != [] && Sorted(edges) && targets == []
      requires AllInTile(edges, verticesPerTile)
      requires !compactStorage ==> idCounts == []
      requires compactStorage ==> forall i {:trigger counts[i]} :: 0 <= i < counts.Length ==> counts[i] == 0
      modifies this`idCounts, this`targets, counts
      ensures ok <==> CountersSuffice(Live(edges, deletedEdges))
      ensures ok ==> Stored() && Expand(Runs(), targets) == Kept(edges, deletedEdges, LAST)
    {
      hide Filling, Kept, Expand, Total, CountersSuffice, Sorted, CountRuns, AllInTile, Live, Fan, SetOf;
      var previousEdge := LAST;
      var currentSrc := edges[0].src;
      idCounts := idCounts + [Run(currentSrc, 0)];
      ghost var last: nat, row: set<LocalEdge> := if compactStorage then currentSrc else 0, {};
      EmptyRuns(last);
      for i := 0 to |edges|
        invariant FillingAt(i, previousEdge, currentSrc, last, row)
      {
        var edge := edges[i];
        if edge in deletedEdges || edge == previousEdge {
          FillingSkips(Runs(), targets, edges, deletedEdges, i, previousEdge, last, row);
          continue;
        }
        ok, currentSrc, last, row := KeepEdge(edge, currentSrc, i, previousEdge, last, row);
        if !ok {
          return;
        }
        previousEdge := edge;
      }
      FillingEnds(Runs(), targets, edges, deletedEdges, |edges|, previousEdge, last, row);
      ok := true;
    }

    /** The number of counted sources, in 16 bits, from one pass over the sorted edges. */
    method CountSources() returns (countSources: nat)
      requires edges != []
      requires Sorted(edges)
      ensures countSources == |CountedSources(edges, deletedEdges)| % U16
    {
      SourcesCounted(edges, deletedEdges);
      hide CountedSources, Sorted;
      countSources := 1;
      var currentSrc := edges[0].src;
      ghost var changes: nat := 0;
      assert edges[0..] == edges;
      for i := 0 to |edges|
        invariant countSources == (1 + changes) % U16
        invariant changes + SourceChanges(edges[i..], deletedEdges, currentSrc) == SourceChanges(edges, deletedEdges, edges[0].src)
      {
        assert edges[i..][1..] == edges[i + 1..];
        var edge := edges[i];
        if edge in deletedEdges {
          continue;
        }
        if currentSrc != edge.src {
          currentSrc := edge.src;
          countSources := (countSources + 1) % U16;
          changes := changes + 1;
        }
      }
    }

    /** Room for the rows, all empty, in the encoding that was chosen. */
    method ResetCounts(countSources: nat)
      requires Shaped()
      modifies this`compactStorage, this`counts, this`idCounts, counts
      ensures Shaped() && compactStorage == (countSources >= verticesPerTile / 2)
      ensures !compactStorage ==> idCounts == []
      ensures compactStorage ==> forall i {:trigger counts[i]} :: 0 <= i < counts.Length ==> counts[i] == 0
      ensures counts == old(counts) || fresh(counts)
    {
      compactStorage := countSources >= verticesPerTile / 2;
      if compactStorage {
        if counts == null {
          counts := new nat[verticesPerTile];
        }
        for i := 0 to verticesPerTile
          invariant forall k {:trigger counts[k]} :: 0 <= k < i ==> counts[k] == 0
          modifies counts
        {
          counts[i] := 0;
        }
      } else {
        idCounts := [];
      }
    }

    /** Copying the rows behind the overflow edges and sorting keeps the set of edges. */
    lemma SameEdges(copied: seq<LocalEdge>)
      requires Valid() && copied == edges + Expand(Runs(), targets)
      ensures SetOf(SortEdges(copied)) == SetOf(Contents()) && |SortEdges(copied)| == |edges| + |targets|
      ensures Live(SortEdges(copied), deletedEdges) == Live(Contents(), deletedEdges)
      ensures CountedSources(SortEdges(copied), deletedEdges) == CountedSources(Contents(), deletedEdges)
      ensures Sorted(SortEdges(copied)) && AllInTile(SortEdges(copied), verticesPerTile)
    {
      assert forall e :: e in Contents() <==> e in copied;
      SameSources(Contents(), SortEdges(copied), deletedEdges);
    }

    /** compactStorage.  The tile then holds exactly its live edges, strictly sorted and each once, all in rows;
        unless (65535, 65535) was its only live edge, which gets lost. */
    method CompactStorage() returns (ok: bool)
      requires Valid()
      modifies this, counts
      ensures ok <==> old(CountersSuffice(Live(Contents(), deletedEdges)))
      ensures ok ==> Valid() && edges == [] && StrictlySorted(Contents())
      ensures ok ==>
                SetOf(Contents()) == if old(Live(Contents(), deletedEdges)) == {LAST} then {} else old(Live(Contents(), deletedEdges))
      ensures ok ==> |targets| <= old(|edges| + |targets|)
      ensures ok ==> compactStorage == if old(Contents()) == [] then old(compactStorage)
                                       else old(|CountedSources(Contents(), deletedEdges)|) % U16 >= verticesPerTile / 2
      ensures deletedEdges == old(deletedEdges)
      ensures countCompactions == old(countCompactions) + 1 && nextCompaction == old(nextCompaction)
      ensures inserted == old(inserted) && dynamicCompactions == old(dynamicCompactions) && dynamicSorted == old(dynamicSorted)
      ensures counts == old(counts) || fresh(counts)
    {
      hide Expand, Total, Kept, SortEdges, CountersSuffice, Live, SetOf, Sorted, StrictlySorted, AllInTile, CountRuns, AccountedFor,
           CountedSources;
      NothingLeft();
      countCompactions := countCompactions + 1;
      var countEdges := |edges| + |targets|;
      if countEdges == 0 {
        NothingStored();
        return true;
      }
      ok := Rewrite();
      if !ok {
        return;
      }
      KeptFromStart(edges, deletedEdges);
      KeptInTile(edges, deletedEdges, LAST, verticesPerTile);
      edges := [];
      NoOverflow();
      if inserted < U31 {
        FewerAccounted(countEdges, inserted, nextCompaction, dynamicCompactions, dynamicSorted, useDynamicCompaction, |targets|);
      }
    }

    /** compactStorage from the copying of the rows to fillCSR. */
    method Rewrite() returns (ok: bool)
      requires Valid() && |edges| + |targets| > 0
      modifies this`edges, this`compactStorage, this`counts, this`idCounts, this`targets, counts
      ensures ok <==> old(CountersSuffice(Live(Contents(), deletedEdges)))
      ensures Sorted(edges) && AllInTile(edges, verticesPerTile) && Live(edges, deletedEdges) == old(Live(Contents(), deletedEdges))
      ensures |edges| == old(|edges| + |targets|)
      ensures ok ==> Stored() && Expand(Runs(), targets) == Kept(edges, deletedEdges, LAST)
      ensures compactStorage == (old(|CountedSources(Contents(), deletedEdges)|) % U16 >= verticesPerTile / 2)
      ensures counts == old(counts) || fresh(counts)
    {
      hide Expand, Total, Kept, SortEdges, CountersSuffice, Live, SetOf, Sorted, AllInTile, CountRuns, AccountedFor, CountedSources;
      SameEdges(edges + Expand(Runs(), targets));
      CopyAndSort();
      ok := WriteRows();
    }

    lemma NoOverflow()
      requires Stored() && edges == []
      ensures Contents() == Expand(Runs(), targets)
    {
    }

    /** The first half of compactStorage: all edges in the overflow list, in order.  Its check that the rows were
        complete never ends the program. */
    method CopyAndSort()
      requires Stored()
      modifies this`edges, this`targets
      ensures Shaped() && targets == [] && edges == SortEdges(old(edges) + old(Expand(Runs(), targets)))
    {
      var countTargets := |targets|;
      var countCopied := CopyCSRToEdgeList();
      if countTargets != countCopied {
        assert false;
      }
      targets := [];
      edges := SortEdges(edges);
    }

    /** The second half: choosing the encoding and writing the rows. */
    method WriteRows() returns (ok: bool)
      requires Shaped() && edges != [] && Sorted(edges) && targets == [] && AllInTile(edges, verticesPerTile)
      modifies this`compactStorage, this`counts, this`idCounts, this`targets, counts
      ensures ok <==> CountersSuffice(Live(edges, deletedEdges))
      ensures ok ==> Stored() && Expand(Runs(), targets) == Kept(edges, deletedEdges, LAST)
      ensures compactStorage == (|CountedSources(edges, deletedEdges)| % U16 >= verticesPerTile / 2)
      ensures counts == old(counts) || fresh(counts)
    {
      hide Expand, Kept, CountersSuffice, Live, Sorted, AllInTile, CountedSources;
      var countSources := CountSources();
      ResetCounts(countSources);
      ok := FillCSR();
    }

    lemma NothingLeft()
      requires Stored()
      ensures Contents() == [] <==> |edges| + |targets| == 0
    {
    }

    lemma NothingStored()
      requires Stored() && |edges| + |targets| == 0
      ensures Contents() == [] && StrictlySorted(Contents()) && SetOf(Contents()) == {} == Live(Contents(), deletedEdges)
      ensures CountersSuffice(Live(Contents(), deletedEdges))
    {
      NoFan();
    }

    /** insertEdge: appends to the overflow list, and compacts whenever as many edges are stored as the threshold says, which
        then doubles in 32 bits: from 2^31 on it is 0, and every insertion compacts. */
    method InsertEdge(edge: Edge) returns (ok: bool)
      requires Valid()
      modifies this, counts
      ensures ok <==> (useDynamicCompaction && old(|edges| + |targets| + 1 >= nextCompaction) ==>
                         CountersSuffice(Live(old(Contents()) + [ToLocal(edge, verticesPerTile)], deletedEdges)))
      ensures deletedEdges == old(deletedEdges) && inserted == old(inserted) + 1
      ensures counts == old(counts) || fresh(counts)
      ensures ok ==> Valid()
      ensures ok ==>
              var all := old(Contents()) + [ToLocal(edge, verticesPerTile)];
              if useDynamicCompaction && old(|edges| + |targets| + 1 >= nextCompaction) then
                && nextCompaction == old(nextCompaction) * 2 % U32
                && dynamicCompactions == old(dynamicCompactions) + 1
                && dynamicSorted == old(dynamicSorted + |edges| + |targets|) + 1
                && edges == [] && StrictlySorted(Contents())
                && SetOf(Contents()) == if Live(all, deletedEdges) == {LAST} then {} else Live(all, deletedEdges)
              else
                Contents() == all && nextCompaction == old(nextCompaction)
                && dynamicCompactions == old(dynamicCompactions) && dynamicSorted == old(dynamicSorted)
      ensures useDynamicCompaction && inserted < U31 ==> old(|edges| + |targets| + 1 <= nextCompaction)
    {
      hide Expand, Total, CountersSuffice, Live, SetOf, StrictlySorted, AllInTile, CountRuns, AccountedFor, InTile;
      var local := ToLocal(edge, verticesPerTile);
      OneMore(local);
      if inserted + 1 < U31 {
        OneMoreAccounted(|edges| + |targets|, inserted, nextCompaction, dynamicCompactions, dynamicSorted, useDynamicCompaction);
      }
      edges := edges + [local];
      inserted := inserted + 1;
      assert Contents() == old(Contents()) + [local];
      ok := true;
      if useDynamicCompaction {
        ok := CompactIfDue();
      }
    }

    /** The end of insertEdge: the threshold test of dynamic compaction. */
    method CompactIfDue() returns (ok: bool)
      requires Stored() && AllInTile(Contents(), verticesPerTile) && useDynamicCompaction
      requires inserted < U31 ==>
                 if |edges| + |targets| >= nextCompaction then
                   nextCompaction < U31 && AccountedFor(|edges| + |targets|, inserted, nextCompaction * 2, dynamicCompactions + 1,
                                                        dynamicSorted + |edges| + |targets|, true)
                 else Accounted()
      modifies this, counts
      ensures ok <==> old(|edges| + |targets| >= nextCompaction ==> CountersSuffice(Live(Contents(), deletedEdges)))
      ensures deletedEdges == old(deletedEdges) && inserted == old(inserted)
      ensures counts == old(counts) || fresh(counts)
      ensures ok ==> Valid()
      ensures ok ==>
              if old(|edges| + |targets| >= nextCompaction) then
                && nextCompaction == old(nextCompaction) * 2 % U32
                && dynamicCompactions == old(dynamicCompactions) + 1
                && dynamicSorted == old(dynamicSorted + |edges| + |targets|)
                && edges == [] && StrictlySorted(Contents())
                && SetOf(Contents()) == if old(Live(Contents(), deletedEdges)) == {LAST} then {} else old(Live(Contents(), deletedEdges))
              else
                Contents() == old(Contents()) && nextCompaction == old(nextCompaction)
                && dynamicCompactions == old(dynamicCompactions) && dynamicSorted == old(dynamicSorted)
    {
      hide Expand, Total, CountersSuffice, Live, SetOf, StrictlySorted, AllInTile, CountRuns, AccountedFor;
      if |edges| + |targets| >= nextCompaction {
        dynamicSorted := dynamicSorted + |edges| + |targets|;
        dynamicCompactions := dynamicCompactions + 1;
        nextCompaction := nextCompaction * 2 % U32;
        ok := CompactStorage();
      } else {
        ok := true;
      }
    }

    lemma OneMore(e: LocalEdge)
      requires Valid() && InTile(e, verticesPerTile)
      ensures AllInTile(Contents() + [e], verticesPerTile)
    {
    }

    /** deleteEdge: the edge disappears at the next compaction. */
    method DeleteEdge(edge: Edge)
      requires Valid()
      modifies this`deletedEdges
      ensures Valid() && Contents() == old(Contents()) && deletedEdges == old(deletedEdges) + {ToLocal(edge, verticesPerTile)}
    {
      deletedEdges := deletedEdges + {ToLocal(edge, verticesPerTile)};
    }

    lemma SourceInRange(edge: LocalEdge)
      requires Shaped() && compactStorage && edge in edges
      requires AllInTile(edges, verticesPerTile)
      ensures edge.src < verticesPerTile == |Runs()|
      ensures forall k {:trigger Runs()[k]} :: 0 <= k < |Runs()| ==> Runs()[k].id == k
    {
    }
  }

  lemma PowDoubles(k: nat)
    ensures Pow2(k + 1) == 2 * Pow2(k)
  {
  }

  /** What dynamic compaction costs: it runs at most 1 + log2(N / 4096) times for N inserts, and all its sorting
      together handles fewer than 2N edges. */
  lemma DynamicCompactionCost(count: nat, inserted: nat, next: nat, times: nat, sorted: nat)
    requires AccountedFor(count, inserted, next, times, sorted, true)
    ensures times > 0 ==> PAGE_SIZE * Pow2(times - 1) <= inserted && sorted < 2 * inserted
    ensures times == 0 ==> sorted == 0
    ensures count < next
  {
    if times > 0 { PowDoubles(times - 1); }
  }

  /** The local forms of `edges`. */
  function Locals(edges: seq<Edge>, n: nat): (r: seq<LocalEdge>)
    requires 1 <= n <= U16
    ensures |r| == |edges| && forall i {:trigger r[i]} :: 0 <= i < |r| ==> r[i] == ToLocal(edges[i], n)
  {
    seq(|edges|, i requires 0 <= i < |edges| => ToLocal(edges[i], n))
  }

  /** Inserting `batch` into a new tile with dynamic compaction.  The tile ends up with these edges, except that
      (65535, 65535) may get lost if it is among them, and N inserts cost at most 1 + log2(N / 4096) compactions that sort
      fewer than 2N edges in all. */
  method FillTile(x: nat, y: nat, n: nat, batch: seq<Edge>) returns (tm: TileManager, ok: bool)
    requires 1 <= n <= U16 && |batch| < U31
    ensures fresh(tm) && (CountersSuffice(SetOf(Locals(batch, n))) ==> ok)
    ensures ok ==> tm.Valid() && tm.verticesPerTile == n && tm.inserted == |batch|
    ensures ok ==> SetOf(Locals(batch, n)) - {LAST} <= SetOf(tm.Contents()) <= SetOf(Locals(batch, n))
    ensures ok ==> |tm.edges| + |tm.targets| < tm.nextCompaction
    ensures ok && tm.dynamicCompactions > 0 ==>
              PAGE_SIZE * Pow2(tm.dynamicCompactions - 1) <= |batch| && tm.dynamicSorted < 2 * |batch|
    ensures ok && tm.dynamicCompactions == 0 ==> tm.dynamicSorted == 0
  {
    hide TileManager.Contents, AllInTile, AccountedFor, Total, CountersSuffice, Locals, ToLocal;
    tm := new TileManager(x, y, n, true);
    ghost var all := SetOf(Locals(batch, n));
    for i := 0 to |batch|
      invariant fresh(tm) && (tm.counts == null || fresh(tm.counts))
      invariant tm.Valid() && tm.verticesPerTile == n && tm.useDynamicCompaction && tm.inserted == i && tm.deletedEdges == {}
      invariant SetOf(Locals(batch[..i], n)) - {LAST} <= SetOf(tm.Contents()) <= SetOf(Locals(batch[..i], n))
    {
      ghost var before, e := tm.Contents(), ToLocal(batch[i], n);
      NextLocal(batch, n, i, before);
      ok := tm.InsertEdge(batch[i]);
      if !ok {
        if CountersSuffice(all) { CountersSufficeFor(Live(before + [e], {}), all); }
        return;
      }
      AddedToSet(before, e);
    }
    assert batch[..|batch|] == batch;
    FillCost(tm);
    ok := true;
  }

  lemma FillCost(tm: TileManager)
    requires tm.Valid() && tm.useDynamicCompaction && tm.inserted < U31
    ensures |tm.edges| + |tm.targets| < tm.nextCompaction
    ensures tm.dynamicCompactions > 0 ==>
              PAGE_SIZE * Pow2(tm.dynamicCompactions - 1) <= tm.inserted && tm.dynamicSorted < 2 * tm.inserted
    ensures tm.dynamicCompactions == 0 ==> tm.dynamicSorted == 0
  {
    DynamicCompactionCost(|tm.edges| + |tm.targets|, tm.inserted, tm.nextCompaction, tm.dynamicCompactions, tm.dynamicSorted);
  }

  lemma NextLocal(batch: seq<Edge>, n: nat, i: nat, before: seq<LocalEdge>)
    requires 1 <= n <= U16 && i < |batch| && SetOf(before) <= SetOf(Locals(batch[..i], n))
    ensures SetOf(Locals(batch[..i + 1], n)) == SetOf(Locals(batch[..i], n)) + {ToLocal(batch[i], n)}
    ensures Live(before + [ToLocal(batch[i], n)], {}) <= SetOf(Locals(batch, n))
  {
    hide ToLocal;
    assert Locals(batch[..i + 1], n) == Locals(batch[..i], n) + [ToLocal(batch[i], n)];
    AddedToSet(Locals(batch[..i], n), ToLocal(batch[i], n));
    AddedToSet(before, ToLocal(batch[i], n));
    forall e | e in SetOf(Locals(batch[..i + 1], n)) ensures e in SetOf(Locals(batch, n)) {
      var k :| 0 <= k < i + 1 && Locals(batch[..i + 1], n)[k] == e;
      assert Locals(batch, n)[k] == e;
    }
  }

  lemma AddedToSet(s: seq<LocalEdge>, e: LocalEdge)
    ensures SetOf(s + [e]) == SetOf(s) + {e} == Live(s + [e], {})
  {
  }

  lemma CountersSufficeFor(edges: set<LocalEdge>, all: set<LocalEdge>)
    requires edges <= all && CountersSuffice(all)
    ensures CountersSuffice(edges)
  {
    forall s | 0 <= s < U16 ensures |Fan(edges, s)| < U16_MAX {
      assert Fan(edges, s) <= Fan(all, s);
      SubsetSize(Fan(edges, s), Fan(all, s));
    }
  }

  /** Compaction keeps exactly the live edges if and only if they are not just (65535, 65535). */
  lemma CompactionIsExactly(s: seq<LocalEdge>, deleted: set<LocalEdge>)
    ensures SetOf(Kept(SortEdges(s), deleted, LAST)) == Live(s, deleted) <==> Live(s, deleted) != {LAST}
  {
    KeptFromStart(SortEdges(s), deleted);
    assert SetOf(SortEdges(s)) == SetOf(s);
    assert LAST in {LAST};
  }

  /** An edge that is lost: the only edge of a tile with 65536 vertices, between its last vertex and itself. */
  lemma LostEdge()
    ensures Live([LAST], {}) == {LAST} && Kept(SortEdges([LAST]), {}, LAST) == []
  {
    assert SortEdges([LAST]) == [LAST] by {
      assert SortEdges([]) == [];
      assert [LAST][1..] == [];
    }
    KeptLast([LAST], {});
  }

  /** Compacted tiles with the same live edges are the same, in whichever encodings and orders they held them. */
  lemma CompactedFormIsUnique(s: seq<LocalEdge>, s': seq<LocalEdge>, deleted: set<LocalEdge>, deleted': set<LocalEdge>)
    requires Live(s, deleted) == Live(s', deleted')
    ensures Kept(SortEdges(s), deleted, LAST) == Kept(SortEdges(s'), deleted', LAST)
  {
    KeptFromStart(SortEdges(s), deleted);
    KeptFromStart(SortEdges(s'), deleted');
    assert SetOf(SortEdges(s)) == SetOf(s) && SetOf(SortEdges(s')) == SetOf(s');
    SortedIsUnique(Kept(SortEdges(s), deleted, LAST), Kept(SortEdges(s'), deleted', LAST));
  }

  /** How often the source changes along the live edges of `s`, from `src` on. */
  function SourceChanges(s: seq<LocalEdge>, deleted: set<LocalEdge>, src: local_id): nat {
    if s == [] then 0
    else if s[0] in deleted || s[0].src == src then SourceChanges(s[1..], deleted, src)
    else 1 + SourceChanges(s[1..], deleted, s[0].src)
  }

  /** The sources of live edges. */
  ghost function LiveSources(s: seq<LocalEdge>, deleted: set<LocalEdge>): set<local_id> {
    set e | e in s && e !in deleted :: e.src
  }

  ghost predicate LeastSource(src: local_id, s: seq<LocalEdge>) {
    forall f {:trigger f in s} :: f in s ==> src <= f.src
  }

  /** The sources that compaction counts: those of live edges, and the least one even if all its edges are deleted. */
  ghost function CountedSources(s: seq<LocalEdge>, deleted: set<LocalEdge>): set<local_id> {
    set e | e in s && (e !in deleted || LeastSource(e.src, s)) :: e.src
  }

  lemma SameSources(s: seq<LocalEdge>, s': seq<LocalEdge>, deleted: set<LocalEdge>)
    requires forall e :: e in s <==> e in s'
    ensures CountedSources(s, deleted) == CountedSources(s', deleted)
  {
    assert forall src {:trigger LeastSource(src, s)} :: LeastSource(src, s) <==> LeastSource(src, s');
  }

  lemma FirstIsLeast(s: seq<LocalEdge>)
    requires Sorted(s) && s != []
    ensures Sorted(s[1..]) && LeastSource(s[0].src, s) && LeastSource(s[0].src, s[1..])
    ensures s[0] in s && forall e {:trigger e in s} :: e in s <==> e == s[0] || e in s[1..]
  {
  }

  lemma LiveFirst(s: seq<LocalEdge>, deleted: set<LocalEdge>)
    requires s != []
    ensures LiveSources(s, deleted) == LiveSources(s[1..], deleted) + if s[0] in deleted then {} else {s[0].src}
  {
    assert s == [s[0]] + s[1..];
    forall src | src in LiveSources(s, deleted)
      ensures src in LiveSources(s[1..], deleted) + if s[0] in deleted then {} else {s[0].src}
    {
      var e :| e in s && e !in deleted && e.src == src;
      assert e == s[0] || e in s[1..];
    }
  }

  lemma LiveNotBelow(src: local_id, s: seq<LocalEdge>, deleted: set<LocalEdge>)
    requires LeastSource(src, s)
    ensures forall x {:trigger x in LiveSources(s, deleted)} :: x in LiveSources(s, deleted) ==> src <= x
  {
  }

  lemma SameWithout(sources: set<local_id>, src: local_id)
    ensures sources + {src} - {src} == sources - {src}
  {
  }

  lemma OneMoreSource(sources: set<local_id>, first: local_id, src: local_id)
    requires src < first && forall x {:trigger x in sources} :: x in sources ==> first <= x
    ensures |sources + {first} - {src}| == 1 + |sources - {first}|
  {
    assert sources + {first} - {src} == sources - {first} + {first};
  }

  lemma NoLive(s: seq<LocalEdge>, deleted: set<LocalEdge>)
    requires s == []
    ensures LiveSources(s, deleted) == {}
  {
  }

  lemma {:induction false} ChangesAreSources(s: seq<LocalEdge>, deleted: set<LocalEdge>, src: local_id)
    requires Sorted(s) && LeastSource(src, s)
    ensures SourceChanges(s, deleted, src) == |LiveSources(s, deleted) - {src}|
  {
    if s == [] {
      NoLive(s, deleted);
    } else {
      FirstIsLeast(s);
      LiveFirst(s, deleted);
      hide Sorted;
      var rest := LiveSources(s[1..], deleted);
      if s[0] in deleted || s[0].src == src {
        ChangesAreSources(s[1..], deleted, src);
        hide LiveSources, LeastSource;
        if s[0] !in deleted { SameWithout(rest, src); }
      } else {
        ChangesAreSources(s[1..], deleted, s[0].src);
        LiveNotBelow(s[0].src, s[1..], deleted);
        hide LiveSources;
        OneMoreSource(rest, s[0].src, src);
      }
    }
  }

  lemma CountedAreLive(s: seq<LocalEdge>, deleted: set<LocalEdge>)
    requires Sorted(s) && s != []
    ensures CountedSources(s, deleted) == LiveSources(s, deleted) + {s[0].src}
  {
    FirstIsLeast(s);
    hide Sorted;
    forall src | src in CountedSources(s, deleted) ensures src in LiveSources(s, deleted) + {s[0].src} {
      var e :| e in s && (e !in deleted || LeastSource(e.src, s)) && e.src == src;
    }
  }

  lemma SourcesCounted(s: seq<LocalEdge>, deleted: set<LocalEdge>)
    requires Sorted(s) && s != []
    ensures |CountedSources(s, deleted)| == 1 + SourceChanges(s, deleted, s[0].src)
  {
    FirstIsLeast(s);
    ChangesAreSources(s, deleted, s[0].src);
    CountedAreLive(s, deleted);
    hide LiveSources, CountedSources;
    assert LiveSources(s, deleted) + {s[0].src} == LiveSources(s, deleted) - {s[0].src} + {s[0].src};
  }

  lemma {:induction false} KeptInTile(s: seq<LocalEdge>, deleted: set<LocalEdge>, prev: LocalEdge, n: nat)
    requires AllInTile(s, n)
    ensures AllInTile(Kept(s, deleted, prev), n) && |Kept(s, deleted, prev)| <= |s|
  {
    if s != [] {
      assert s[0] in s && forall e :: e in s[1..] ==> e in s;
      KeptInTile(s[1..], deleted, prev, n);
      KeptInTile(s[1..], deleted, s[0], n);
    }
  }

  /** What fillCSR has done before position `i`: what it kept, and what is left to keep, is what it keeps of all
      edges.  The last run that is not empty is `last`, and `row` are its edges. */
  ghost predicate Filling(runs: seq<Run>, targets: seq<local_id>, edges: seq<LocalEdge>, deleted: set<LocalEdge>,
                          i: nat, prev: LocalEdge, last: nat, row: set<LocalEdge>)
  {
    && Total(runs) == |targets| && i <= |edges| && Sorted(edges) && last < |runs|
    && Expand(runs, targets) + Kept(edges[i..], deleted, prev) == Kept(edges, deleted, LAST)
    && runs[last].count == |row|
    && (forall k {:trigger runs[k]} :: last < k < |runs| ==> runs[k].count == 0)
    && Ordered(runs) && (forall k {:trigger runs[k]} :: 0 <= k < |runs| ==> runs[k].count < U16_MAX)
    && row <= Fan(Live(edges, deleted), runs[last].id)
    && (row != {} ==> forall j {:trigger edges[j]} :: i <= j < |edges| ==> AtMost(prev, edges[j]))
    && (forall e {:trigger e in row} :: e in row ==> AtMost(e, prev))
    && (forall j {:trigger edges[j]} :: i <= j < |edges| ==> runs[last].id <= edges[j].src)
  }

  lemma FillingStarts(runs: seq<Run>, edges: seq<LocalEdge>, deleted: set<LocalEdge>, last: nat)
    requires last < |runs| && edges != [] && Sorted(edges) && runs[last].id == edges[0].src
    requires Ordered(runs) && forall k {:trigger runs[k]} :: 0 <= k < |runs| ==> runs[k].count == 0
    ensures Filling(runs, [], edges, deleted, 0, LAST, last, {})
  {
    ExpandNothing(runs);
    assert edges[0..] == edges;
  }

  lemma FillingSkips(runs: seq<Run>, targets: seq<local_id>, edges: seq<LocalEdge>, deleted: set<LocalEdge>,
                     i: nat, prev: LocalEdge, last: nat, row: set<LocalEdge>)
    requires Filling(runs, targets, edges, deleted, i, prev, last, row)
    requires i < |edges| && (edges[i] in deleted || edges[i] == prev)
    ensures Filling(runs, targets, edges, deleted, i + 1, prev, last, row)
  {
    assert edges[i..][1..] == edges[i + 1..];
  }

  lemma FillingMoves(runs: seq<Run>, targets: seq<local_id>, edges: seq<LocalEdge>, deleted: set<LocalEdge>,
                     i: nat, prev: LocalEdge, last: nat, row: set<LocalEdge>, next: nat)
    requires Filling(runs, targets, edges, deleted, i, prev, last, row) && i < |edges|
    requires next < |runs| && edges[i].src == next && forall k {:trigger runs[k]} :: 0 <= k < |runs| ==> runs[k].id == k
    ensures Filling(runs, targets, edges, deleted, i, prev, next, if last == next then row else {})
  {
  }

  lemma FillingAppends(runs: seq<Run>, targets: seq<local_id>, edges: seq<LocalEdge>, deleted: set<LocalEdge>,
                       i: nat, prev: LocalEdge, last: nat, row: set<LocalEdge>)
    requires Filling(runs, targets, edges, deleted, i, prev, last, row) && i < |edges| && last == |runs| - 1
    requires runs[last].id != edges[i].src
    ensures Filling(runs + [Run(edges[i].src, 0)], targets, edges, deleted, i, prev, |runs|, {})
  {
    ExpandEmptyRun(runs, targets, edges[i].src);
  }

  lemma BumpedCount(runs: seq<Run>, i: nat)
    requires i < |runs|
    ensures |Bumped(runs, i)| == |runs| && Bumped(runs, i)[i] == Run(runs[i].id, runs[i].count + 1)
  {
  }

  lemma FillingKeeps(runs: seq<Run>, targets: seq<local_id>, edges: seq<LocalEdge>, deleted: set<LocalEdge>,
                     i: nat, prev: LocalEdge, last: nat, row: set<LocalEdge>)
    requires Filling(runs, targets, edges, deleted, i, prev, last, row)
    requires i < |edges| && edges[i] !in deleted && edges[i] != prev && last < |runs| && edges[i].src == runs[last].id
    requires runs[last].count + 1 != U16_MAX
    ensures var e := edges[i];
            Filling(Bumped(runs, last), targets + [e.tgt], edges, deleted, i + 1, e, last, row + {e})
  {
    var e := edges[i];
    assert e !in row;
    assert edges[i..][1..] == edges[i + 1..];
    ExpandBump(runs, targets, last, e.tgt);
    RowGrows(runs, edges, deleted, i, last, row);
    assert (Expand(runs, targets) + [e]) + Kept(edges[i + 1..], deleted, e) == Expand(runs, targets) + ([e] + Kept(edges[i + 1..], deleted, e));
  }

  /** A counter at its limit shows a source with too many live targets. */
  lemma RowIsFull(runs: seq<Run>, targets: seq<local_id>, edges: seq<LocalEdge>, deleted: set<LocalEdge>,
                  i: nat, prev: LocalEdge, last: nat, row: set<LocalEdge>)
    requires Filling(runs, targets, edges, deleted, i, prev, last, row)
    requires i < |edges| && edges[i] !in deleted && edges[i] != prev && last < |runs| && edges[i].src == runs[last].id
    requires runs[last].count + 1 == U16_MAX
    ensures !CountersSuffice(Live(edges, deleted))
  {
    assert edges[i] !in row;
    RowGrows(runs, edges, deleted, i, last, row);
    var fan := Fan(Live(edges, deleted), runs[last].id);
    SubsetSize(row + {edges[i]}, fan);
  }

  lemma RowGrows(runs: seq<Run>, edges: seq<LocalEdge>, deleted: set<LocalEdge>, i: nat, last: nat, row: set<LocalEdge>)
    requires last < |runs| && row <= Fan(Live(edges, deleted), runs[last].id)
    requires i < |edges| && edges[i] !in deleted && edges[i].src == runs[last].id && edges[i] !in row
    ensures row + {edges[i]} <= Fan(Live(edges, deleted), runs[last].id) && |row + {edges[i]}| == |row| + 1
  {
    assert edges[i] in edges;
  }

  /** No source has two rows. */
  predicate Ordered(runs: seq<Run>) {
    forall j, k {:trigger runs[j], runs[k]} :: 0 <= j < k < |runs| ==> runs[j].id < runs[k].id
  }

  /** Rows whose counters stay below the limit hold no source with more targets. */
  lemma {:induction false} RowsBound(runs: seq<Run>, targets: seq<local_id>, s: nat)
    requires Total(runs) == |targets| && Ordered(runs)
    requires forall k {:trigger runs[k]} :: 0 <= k < |runs| ==> runs[k].count < U16_MAX
    ensures |Fan(SetOf(Expand(runs, targets)), s)| < U16_MAX
    ensures (forall k {:trigger runs[k]} :: 0 <= k < |runs| ==> runs[k].id != s) ==> Fan(SetOf(Expand(runs, targets)), s) == {}
  {
    if runs != [] {
      var c := runs[0].count;
      var row, rest := Row(runs[0].id, targets[..c]), Expand(runs[1..], targets[c..]);
      ExpandCons(runs, targets);
      RowsBound(runs[1..], targets[c..], s);
      FanOfConcat(row, rest, s);
      FanOfRow(runs[0].id, targets[..c], s);
      if runs[0].id == s {
        forall k | 0 <= k < |runs[1..]| ensures runs[1..][k].id != s { assert runs[1..][k] == runs[k + 1]; }
      }
    }
  }

  lemma FanOfConcat(a: seq<LocalEdge>, b: seq<LocalEdge>, s: nat)
    ensures Fan(SetOf(a + b), s) == Fan(SetOf(a), s) + Fan(SetOf(b), s)
  {
    assert forall e :: e in a + b <==> e in a || e in b;
  }

  lemma {:induction false} FanOfRow(src: local_id, targets: seq<local_id>, s: nat)
    ensures if src == s then |Fan(SetOf(Row(src, targets)), s)| <= |targets| else Fan(SetOf(Row(src, targets)), s) == {}
  {
    if targets != [] {
      var last := |targets| - 1;
      FanOfRow(src, targets[..last], s);
      assert Row(src, targets) == Row(src, targets[..last]) + [LocalEdge(src, targets[last])];
      FanOfConcat(Row(src, targets[..last]), [LocalEdge(src, targets[last])], s);
      assert Fan(SetOf([LocalEdge(src, targets[last])]), s) == if src == s then {LocalEdge(src, targets[last])} else {};
    }
  }

  lemma NoFan()
    ensures CountersSuffice({})
  {
    forall s | 0 <= s < U16 ensures |Fan({}, s)| < U16_MAX { assert Fan({}, s) == {}; }
  }

  lemma {:induction false} SubsetSize<T>(a: set<T>, b: set<T>)
    requires a <= b
    ensures |a| <= |b|
  {
    assert b == a + (b - a);
  }

  lemma FillingEnds(runs: seq<Run>, targets: seq<local_id>, edges: seq<LocalEdge>, deleted: set<LocalEdge>,
                    i: nat, prev: LocalEdge, last: nat, row: set<LocalEdge>)
    requires Filling(runs, targets, edges, deleted, i, prev, last, row) && i == |edges|
    ensures Total(runs) == |targets| && Expand(runs, targets) == Kept(edges, deleted, LAST)
    ensures CountersSuffice(Live(edges, deleted))
  {
    assert edges[i..] == [];
    CountersSufficed(runs, targets, edges, deleted);
  }

  /** Rows that were written without a counter reaching its limit show that no source has too many live targets. */
  lemma CountersSufficed(runs: seq<Run>, targets: seq<local_id>, edges: seq<LocalEdge>, deleted: set<LocalEdge>)
    requires Total(runs) == |targets| && Expand(runs, targets) == Kept(edges, deleted, LAST) && Sorted(edges) && Ordered(runs)
    requires forall k {:trigger runs[k]} :: 0 <= k < |runs| ==> runs[k].count < U16_MAX
    ensures CountersSuffice(Live(edges, deleted))
  {
    hide Total, Expand, Kept, Live, SetOf, Sorted, Ordered, Fan;
    KeptFromStart(edges, deleted);
    forall s: nat | 0 <= s < U16 ensures |Fan(Live(edges, deleted), s)| < U16_MAX {
      if Live(edges, deleted) == {LAST} {
        FanIsSmall({LAST}, s);
      } else {
        RowsBound(runs, targets, s);
      }
    }
  }

  lemma FanIsSmall(edges: set<LocalEdge>, s: nat)
    ensures |Fan(edges, s)| <= |edges|
  {
    SubsetSize(Fan(edges, s), edges);
  }
}
