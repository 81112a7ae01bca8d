/** Config::normalizeConfig and TileStore::init: rounding the settings, and the index from traversal positions and
    meta tiles to the tiles of the grid. */
module TileIndex {
  import opened Modular
  import opened Powers
  import opened Traversals

  const U64: nat := 0x1_0000_0000_0000_0000

  /** util::log2Up for uint64_t: shifts until nothing is left, also when `i - 1` wraps around. */
  method Log2Up(i: nat) returns (a: nat)
    requires i < U64
    ensures i == 0 ==> a == 64
    ensures i > 0 ==> i <= Pow2(a) && (a > 0 ==> Pow2(a - 1) < i)
  {
    a := 0;
    var b := (i - 1) % U64;
    ghost var start := b;
    while b > 0
      invariant b == HalvedTimes(start, a)
      invariant a > 0 ==> HalvedTimes(start, a - 1) > 0
    {
      b := b / 2;
      a := a + 1;
    }
    HalvedToZero(start, a);
    if a > 0 { HalvedToZero(start, a - 1); }
    if i == 0 {
      assert start == U64 - 1;
      Pow2Of64();
      if a < 64 { Pow2Grows(a, 63); } else if a > 64 { Pow2Grows(64, a - 1); }
    }
  }

  ghost function HalvedTimes(b: nat, a: nat): nat {
    if a == 0 then b else HalvedTimes(b, a - 1) / 2
  }

  lemma {:induction false} HalvedFirst(b: nat, a: nat)
    requires a > 0
    ensures HalvedTimes(b, a) == HalvedTimes(b / 2, a - 1)
  {
    if a > 1 { HalvedFirst(b, a - 1); }
  }

  lemma {:induction false} HalvedToZero(b: nat, a: nat)
    ensures HalvedTimes(b, a) == 0 <==> b < Pow2(a)
  {
    if a > 0 {
      HalvedFirst(b, a);
      HalvedToZero(b / 2, a - 1);
    }
  }

  lemma Pow2Of64()
    ensures Pow2(63) == 0x8000_0000_0000_0000 && Pow2(64) == U64
  {
    assert Pow2(8) == 256;
    Pow2Sum(8, 8); Pow2Sum(16, 16); Pow2Sum(32, 32);
    assert Pow2(64) == 2 * Pow2(63);
  }

  /** The settings that normalizeConfig reads and writes. */
  class Config {
    var maxCountVertices: nat
    var countVertices: nat
    var verticesPerTile: nat
    var tilesPerDim: nat
    var countTiles: nat
    var metaTilesPerDim: nat
    var countMetaTiles: nat
    var tilesPerMetaPerDim: nat
    var tilesPerMeta: nat
    var twoLevel: bool

    /** Square roots of the counts are powers of two, and the meta tiles divide the grid evenly. */
    ghost predicate Normalized(k: nat, j: nat)
      reads this
    {
      && tilesPerDim == Pow2(k) && countTiles == Pow4(k)
      && (twoLevel ==> j <= k && metaTilesPerDim == Pow2(k - j) && countMetaTiles == Pow4(k - j)
                       && tilesPerMetaPerDim == Pow2(j) && tilesPerMeta == Pow4(j))
    }

    /** Config::normalizeConfig.  Its powers and squares are exact in double precision for powers of two.  Tiles of
        more vertices than the rounded graph has leave no tile at all. */
    method NormalizeConfig(ghost v: nat, ghost w: nat) returns (ghost k: nat, ghost j: nat)
      requires 1 <= maxCountVertices <= Pow2(63) && verticesPerTile == Pow2(v)
      requires metaTilesPerDim == 0 || metaTilesPerDim == Pow2(w)
      modifies this
      ensures old(maxCountVertices) <= maxCountVertices < 2 * old(maxCountVertices)
      ensures countVertices == maxCountVertices && verticesPerTile == old(verticesPerTile)
      ensures old(verticesPerTile >= 2 * maxCountVertices) ==> tilesPerDim == countTiles == 0 && !twoLevel
      ensures old(verticesPerTile < 2 * maxCountVertices) ==>
                && Normalized(k, j) && countVertices == Pow2(k + v)
                && (twoLevel <==> old(metaTilesPerDim) >= 1)
                && metaTilesPerDim == if old(metaTilesPerDim) <= tilesPerDim then old(metaTilesPerDim) else tilesPerDim
    {
      hide Pow2, Pow4, Div, Square;
      Pow2Of64();
      var a := Log2Up(maxCountVertices);
      Doublings(a, v);
      maxCountVertices := Pow2(a);
      countVertices := maxCountVertices;
      tilesPerDim := Div(countVertices, verticesPerTile);
      countTiles := Square(tilesPerDim);
      metaTilesPerDim := if tilesPerDim < metaTilesPerDim then tilesPerDim else metaTilesPerDim;
      twoLevel := metaTilesPerDim >= 1;
      countMetaTiles := Square(metaTilesPerDim);
      k, j := if v <= a then a - v else 0, 0;
      if v <= a { Quotient(a, v); } else { NoQuotient(a, v); }
      if twoLevel {
        Doubles(k, w);
        j := if w <= k then k - w else 0;
        Quotient(k, k - j);
        tilesPerMetaPerDim := Div(tilesPerDim, metaTilesPerDim);
        tilesPerMeta := Square(tilesPerMetaPerDim);
      }
    }
  }

  /** The quotient of two uint64_t. */
  function Div(n: nat, m: nat): nat
    requires m > 0
  {
    n / m
  }

  /** std::pow(n, 2). */
  function Square(n: nat): nat {
    n * n
  }

  lemma Doublings(a: nat, v: nat)
    ensures a > 0 ==> Pow2(a) == 2 * Pow2(a - 1)
    ensures a == 0 ==> Pow2(a) == 1
    ensures v <= a <==> Pow2(v) < 2 * Pow2(a)
    ensures v <= a <==> Pow2(v) <= Pow2(a)
    ensures v > a ==> Pow2(v) >= 2 * Pow2(a)
  {
    Doubles(a, v);
    Doubles(a + 1, v);
    Doubles(v, a + 1);
  }

  lemma Quotient(a: nat, b: nat)
    requires b <= a
    ensures Div(Pow2(a), Pow2(b)) == Pow2(a - b)
    ensures Square(Pow2(b)) == Pow4(b) && Square(Pow2(a - b)) == Pow4(a - b)
  {
    Pow2Sum(a - b, b);
    ModUnique(Pow2(a), Pow2(b), Pow2(a - b), 0);
    Pow4IsSquare(b);
    Pow4IsSquare(a - b);
  }

  lemma NoQuotient(a: nat, b: nat)
    requires a < b
    ensures Div(Pow2(a), Pow2(b)) == 0 && Square(0) == 0
  {
    Doubles(a, b);
    ModUnique(Pow2(a), Pow2(b), 0, Pow2(a));
  }

  /** A tile manager's coordinates and position on the traversal. */
  datatype Tile = Tile(x: nat, y: nat, id: nat)

  function TileAt(t: Traversal, k: nat, d: nat): Tile
    requires d < Pow4(k)
  {
    IndexOfTraversal(t, k, d);
    Tile(PointAt(t, k, d).x, PointAt(t, k, d).y, d)
  }

  /** A position on the traversal determines the tile, and the tile its position. */
  lemma TileAtIndex(t: Traversal, k: nat, x: nat, y: nat)
    requires x < Pow2(k) && y < Pow2(k)
    ensures Index(t, k, Point(x, y)) < Pow4(k)
    ensures TileAt(t, k, Index(t, k, Point(x, y))) == Tile(x, y, Index(t, k, Point(x, y)))
  {
    PointOfTraversal(t, k, Point(x, y));
  }

  class TileStore {
    const tileManagers: array2<Tile>
    const traversalToTm: array<Tile>
    const metaTileToTm: array<seq<Tile>>
    const metaTileId: array<nat>
    const traversal: Traversal
    ghost const k: nat

    ghost predicate Shaped()
    {
      && tileManagers.Length0 == tileManagers.Length1 == Pow2(k)
      && traversalToTm.Length == metaTileId.Length == Pow4(k)
    }

    constructor (t: Traversal, tilesPerDim: nat, countTiles: nat, countMetaTiles: nat, ghost k: nat)
      requires tilesPerDim == Pow2(k) && countTiles == Pow4(k)
      ensures Shaped() && this.k == k && traversal == t && metaTileToTm.Length == countMetaTiles
      ensures fresh(tileManagers) && fresh(traversalToTm) && fresh(metaTileToTm) && fresh(metaTileId)
      ensures forall m :: 0 <= m < countMetaTiles ==> metaTileToTm[m] == []
    {
      tileManagers := new Tile[tilesPerDim, tilesPerDim]((_, _) => Tile(0, 0, 0));
      traversalToTm := new Tile[countTiles](_ => Tile(0, 0, 0));
      metaTileToTm := new seq<Tile>[countMetaTiles](_ => []);
      metaTileId := new nat[countTiles](_ => 0);
      traversal := t;
      this.k := k;
    }

    /** Every tile is where its position says, and every position has its tile. */
    ghost predicate Indexed()
      reads tileManagers, traversalToTm
    {
      && Shaped()
      && (forall i, j :: 0 <= i < tileManagers.Length0 && 0 <= j < tileManagers.Length1 ==>
            tileManagers[i, j] == Tile(i, j, Index(traversal, k, Point(i, j))))
      && (forall d :: 0 <= d < traversalToTm.Length ==> traversalToTm[d] == TileAt(traversal, k, d))
    }

    /** Tile (a, b) comes before (i, j) in the nested loops. */
    predicate Before(a: int, b: int, i: int, j: int) {
      a < i || (a == i && b < j)
    }

    ghost predicate Placed(i: int, j: int)
      reads tileManagers, traversalToTm
    {
      && Shaped()
      && (forall a, b {:trigger tileManagers[a, b]} ::
            0 <= a < tileManagers.Length0 && 0 <= b < tileManagers.Length1 && Before(a, b, i, j) ==>
            tileManagers[a, b] == Tile(a, b, Index(traversal, k, Point(a, b))))
      && (forall d {:trigger traversalToTm[d]} :: 0 <= d < traversalToTm.Length ==>
            var t := TileAt(traversal, k, d);
            Before(t.x, t.y, i, j) ==> traversalToTm[d] == t)
    }

    lemma OnlyPosition(d: nat, i: nat, j: nat)
      requires d < Pow4(k) && i < Pow2(k) && j < Pow2(k)
      ensures var t := TileAt(traversal, k, d); t.x == i && t.y == j ==> d == Index(traversal, k, Point(i, j))
    {
      IndexOfTraversal(traversal, k, d);
    }

    /** The first half of TileStore::init. */
    method FillTraversal()
      requires Shaped()
      modifies tileManagers, traversalToTm
      ensures Indexed()
    {
      hide Pow2, Pow4, Index, PointAt, TileAt;
      var n := tileManagers.Length0;
      for i := 0 to n
        invariant Placed(i, 0)
      {
        for j := 0 to n
          invariant Placed(i, j)
        {
          var d := IndexOn(traversal, n, i, j, k);
          TileAtIndex(traversal, k, i, j);
          forall d' | 0 <= d' < traversalToTm.Length
            ensures var t := TileAt(traversal, k, d'); t.x == i && t.y == j ==> d' == d
          {
            OnlyPosition(d', i, j);
          }
          tileManagers[i, j] := Tile(i, j, d);
          traversalToTm[d] := tileManagers[i, j];
        }
        TilesInRows();
      }
      TilesInRows();
    }

    lemma TilesInRows()
      requires Shaped()
      ensures forall d {:trigger TileAt(traversal, k, d)} :: 0 <= d < Pow4(k) ==>
                TileAt(traversal, k, d).x < Pow2(k) && TileAt(traversal, k, d).y < Pow2(k)
    {
      forall d | 0 <= d < Pow4(k) ensures TileAt(traversal, k, d).x < Pow2(k) && TileAt(traversal, k, d).y < Pow2(k) {
        IndexOfTraversal(traversal, k, d);
      }
    }

    /** The lists of meta tiles are the runs of 4^j positions of the traversal. */
    ghost predicate MetaTilesAre(j: nat)
      reads metaTileToTm, traversalToTm
    {
      && (forall m {:trigger metaTileToTm[m]} :: 0 <= m < metaTileToTm.Length ==> |metaTileToTm[m]| == Pow4(j))
      && (forall m, i {:trigger metaTileToTm[m][i]} :: 0 <= m < metaTileToTm.Length && 0 <= i < |metaTileToTm[m]| ==>
            metaTileToTm[m][i].id < Pow4(k) && metaTileToTm[m][i].id / Pow4(j) == m
            && metaTileToTm[m][i] == TileAt(traversal, k, metaTileToTm[m][i].id))
    }

    /** The `m`-th list is the `m`-th run of `c` tiles of the traversal. */
    ghost predicate CutIntoRuns(c: nat)
      reads metaTileToTm, traversalToTm
    {
      forall m {:trigger metaTileToTm[m]} :: 0 <= m < metaTileToTm.Length ==>
        Start(m, c) + c <= traversalToTm.Length && metaTileToTm[m] == traversalToTm[Start(m, c)..Start(m, c) + c]
    }

    /** All tiles are cut into runs of `c`, and every tile knows which run it is in. */
    ghost predicate TwoLevel(c: nat)
      reads tileManagers, traversalToTm, metaTileToTm, metaTileId
    {
      && Indexed() && CutIntoRuns(c) && Start(metaTileToTm.Length, c) == traversalToTm.Length == metaTileId.Length
      && (forall d {:trigger metaTileId[d]} :: 0 <= d < metaTileId.Length ==>
            metaTileId[d] < metaTileToTm.Length && Start(metaTileId[d], c) <= d < Start(metaTileId[d], c) + c)
    }

    lemma MetaTilesCut(j: nat, c: nat)
      requires Indexed() && Shaped() && c == Pow4(j)
      requires CutIntoRuns(c)
      ensures MetaTilesAre(j)
    {
      hide Start, Pow4, Index, PointAt, TileAt;
      forall m, i | 0 <= m < metaTileToTm.Length && 0 <= i < |metaTileToTm[m]|
        ensures metaTileToTm[m][i].id < Pow4(k) && metaTileToTm[m][i].id / Pow4(j) == m
        ensures metaTileToTm[m][i] == TileAt(traversal, k, metaTileToTm[m][i].id)
      {
        var d := Start(m, c) + i;
        assert metaTileToTm[m][i] == traversalToTm[d];
        TileId(d);
        StartIsProduct(m, c);
        ModUnique(d, c, m, i);
      }
    }

    lemma TileId(d: nat)
      requires d < Pow4(k)
      ensures TileAt(traversal, k, d).id == d
    {
    }

    /** The second half of TileStore::init: consecutive runs of tiles become meta tiles. */
    method FillMetaTiles(countTiles: nat, tilesPerMeta: nat)
      requires Indexed() && Shaped() && countTiles == traversalToTm.Length && tilesPerMeta >= 1
      requires Start(metaTileToTm.Length, tilesPerMeta) == countTiles
      requires forall m :: 0 <= m < metaTileToTm.Length ==> metaTileToTm[m] == []
      modifies metaTileToTm, metaTileId
      ensures TwoLevel(tilesPerMeta)
    {
      hide Indexed, Start, Cutting;
      var current := 0;
      ghost var path := traversalToTm[..];
      NothingCut(metaTileToTm[..], path, tilesPerMeta);
      for id := 0 to countTiles
        invariant Indexed() && Shaped() && traversalToTm[..] == path
        invariant Cutting(metaTileToTm[..], metaTileId[..id], path, tilesPerMeta, current, id)
      {
        var tm := traversalToTm[id];
        CutOne(metaTileToTm[..], metaTileId[..id], path, tilesPerMeta, current, id);
        metaTileToTm[current] := metaTileToTm[current] + [tm];
        metaTileId[id] := current;
        assert metaTileId[..id + 1] == metaTileId[..id] + [current];
        if |metaTileToTm[current]| >= tilesPerMeta {
          current := current + 1;
        }
      }
      AllCut(metaTileToTm[..], metaTileId[..countTiles], path, tilesPerMeta, current, countTiles);
      forall m | 0 <= m < metaTileToTm.Length
        ensures Start(m, tilesPerMeta) + tilesPerMeta <= traversalToTm.Length
        ensures metaTileToTm[m] == traversalToTm[Start(m, tilesPerMeta)..Start(m, tilesPerMeta) + tilesPerMeta]
      {
        assert metaTileToTm[..][m] == metaTileToTm[m];
      }
      forall d | 0 <= d < countTiles
        ensures metaTileId[d] < metaTileToTm.Length
        ensures Start(metaTileId[d], tilesPerMeta) <= d < Start(metaTileId[d], tilesPerMeta) + tilesPerMeta
      {
        assert metaTileId[..countTiles][d] == metaTileId[d];
        if metaTileId[d] >= metaTileToTm.Length { StartMonotone(metaTileToTm.Length, metaTileId[d], tilesPerMeta); }
      }
    }

    /** The size check at the end of TileStore::init. */
    method SizesRight(tilesPerMeta: nat) returns (ok: bool)
      ensures ok <==> forall m {:trigger metaTileToTm[m]} :: 0 <= m < metaTileToTm.Length ==> |metaTileToTm[m]| == tilesPerMeta
    {
      ok := true;
      for m := 0 to metaTileToTm.Length
        invariant ok <==> forall i {:trigger metaTileToTm[i]} :: 0 <= i < m ==> |metaTileToTm[i]| == tilesPerMeta
      {
        if |metaTileToTm[m]| != tilesPerMeta {
          ok := false;
        }
      }
    }
  }

  /** TileStore::init after `id` tiles: the lists before `current` are whole runs, that one has begun, the others are
      empty; and every tile has been told its meta tile. */
  ghost predicate Cutting(lists: seq<seq<Tile>>, ids: seq<nat>, path: seq<Tile>, c: nat, current: nat, id: nat) {
    && id <= |path| == Start(|lists|, c) && |ids| == id && current <= |lists|
    && Start(current, c) <= id < Start(current, c) + c
    && (forall m {:trigger lists[m]} :: 0 <= m < |lists| ==>
          if m < current then Start(m, c) + c <= id && lists[m] == path[Start(m, c)..Start(m, c) + c]
          else if m == current then lists[m] == path[Start(current, c)..id]
          else lists[m] == [])
    && (forall d {:trigger ids[d]} :: 0 <= d < id ==> Start(ids[d], c) <= d < Start(ids[d], c) + c)
  }

  lemma NothingCut(lists: seq<seq<Tile>>, path: seq<Tile>, c: nat)
    requires c >= 1 && |path| == Start(|lists|, c) && forall m {:trigger lists[m]} :: 0 <= m < |lists| ==> lists[m] == []
    ensures Cutting(lists, [], path, c, 0, 0)
  {
    StartMonotone(0, |lists|, c);
  }

  lemma CutOne(lists: seq<seq<Tile>>, ids: seq<nat>, path: seq<Tile>, c: nat, current: nat, id: nat)
    requires Cutting(lists, ids, path, c, current, id) && id < |path|
    ensures current < |lists|
    ensures var lists' := lists[current := lists[current] + [path[id]]];
            var full := |lists'[current]| >= c;
            Cutting(lists', ids + [current], path, c, if full then current + 1 else current, id + 1)
  {
    hide Start;
    StartMonotone(current, |lists|, c);
    StartMonotone(current, current + 1, c);
    var s := Start(current, c);
    assert path[s..id] + [path[id]] == path[s..id + 1];
    var lists' := lists[current := lists[current] + [path[id]]];
    var current' := if |lists'[current]| >= c then current + 1 else current;
    forall m | 0 <= m < |lists|
      ensures if m < current' then Start(m, c) + c <= id + 1 && lists'[m] == path[Start(m, c)..Start(m, c) + c]
              else if m == current' then lists'[m] == path[Start(current', c)..id + 1]
              else lists'[m] == []
    {
      if m < current { assert |lists[m]| == c; }
    }
  }

  lemma AllCut(lists: seq<seq<Tile>>, ids: seq<nat>, path: seq<Tile>, c: nat, current: nat, id: nat)
    requires Cutting(lists, ids, path, c, current, id) && id == |path|
    ensures forall m {:trigger lists[m]} :: 0 <= m < |lists| ==>
              Start(m, c) + c <= |path| && lists[m] == path[Start(m, c)..Start(m, c) + c]
    ensures forall d {:trigger ids[d]} :: 0 <= d < id ==> Start(ids[d], c) <= d < Start(ids[d], c) + c
  {
    hide Start;
    StartMonotone(current, |lists|, c);
    forall m | 0 <= m < |lists|
      ensures Start(m, c) + c <= |path| && lists[m] == path[Start(m, c)..Start(m, c) + c]
    {
      assert |lists[m]| == c;
    }
  }

  /** Where the `m`-th run of `c` positions starts. */
  function Start(m: nat, c: nat): nat {
    if m == 0 then 0 else Start(m - 1, c) + c
  }

  lemma {:induction false} StartIsProduct(m: nat, c: nat)
    ensures Start(m, c) == m * c
  {
    if m > 0 {
      StartIsProduct(m - 1, c);
      assert (m - 1) * c + c == m * c;
    }
  }

  lemma {:induction false} StartMonotone(i: nat, j: nat, c: nat)
    requires i <= j
    ensures Start(i, c) <= Start(j, c) && Start(0, c) == 0
    ensures i < j ==> Start(i, c) + c <= Start(j, c)
    ensures Start(i + 1, c) == Start(i, c) + c
    decreases j
  {
    if i < j { StartMonotone(i, j - 1, c); }
  }

  // ---- From the settings to the index.

  /** With normalized settings the runs cover the grid exactly. */
  lemma RunsCoverGrid(k: nat, j: nat)
    requires j <= k
    ensures Start(Pow4(k - j), Pow4(j)) == Pow4(k) && Pow4(j) >= 1
  {
    StartIsProduct(Pow4(k - j), Pow4(j));
    ShiftIsProduct(Pow4(k - j), j);
    ShiftShift(1, k - j, j);
  }

  lemma {:induction false} ShiftShift(q: nat, i: nat, j: nat)
    ensures Shift(Shift(q, i), j) == Shift(q, i + j)
  {
    if j > 0 { ShiftShift(q, i, j - 1); }
  }

  /** Config and init together: normalized settings give a complete index and meta tiles of exactly the configured
      number and size, so that the size check never ends the program. */
  method Init(config: Config, t: Traversal, ghost k: nat, ghost j: nat) returns (store: TileStore, ok: bool)
    requires config.Normalized(k, j)
    ensures fresh(store) && store.Indexed() && store.k == k && store.traversal == t && ok
    ensures config.twoLevel ==> store.MetaTilesAre(j) && store.metaTileToTm.Length == config.countMetaTiles
    ensures config.twoLevel ==> store.TwoLevel(config.tilesPerMeta)
  {
    store := new TileStore(t, config.tilesPerDim, config.countTiles, config.countMetaTiles, k);
    store.FillTraversal();
    ok := true;
    if config.twoLevel {
      RunsCoverGrid(k, j);
      var size := config.tilesPerMeta;
      store.FillMetaTiles(config.countTiles, size);
      store.MetaTilesCut(j, size);
      ok := store.SizesRight(size);
    }
  }

  /** Under Hilbert, the tiles of a meta tile are exactly the tiles of one aligned square of the grid. */
  lemma MetaTileIsSquare(k: nat, j: nat, d: nat, m: nat)
    requires j <= k && d < Pow4(k) && m < Pow4(k - j)
    ensures d / Pow4(j) == m <==> Shrunk(HilbertPoint(k, d), Pow2(j)) == HilbertPoint(k - j, m)
  {
    CurveOfBlocks(k, j, d);
    DropIsDiv(d, j);
    DropBelow(d, k);
    DropDrop(d, j, k - j);
    DropBelow(Drop(d, j), k - j);
    IndexOfPoint(k - j, m);
    IndexOfPoint(k - j, Drop(d, j));
  }
}
