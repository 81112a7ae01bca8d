/** The traversals of the tile grid.  The Hilbert curve is specified by recursion on the order of the curve; the
    loops of the code compute it. */
module Traversals {
  import opened Modular
  import opened Powers

  datatype Point = Point(x: int, y: int)

  /** The part of rot that is used when a point enters or leaves a quadrant of side `s`. */
  function Rotated(s: int, p: Point, rx: int, ry: int): Point {
    if ry != 0 then p else if rx == 1 then Point(s - 1 - p.y, s - 1 - p.x) else Point(p.y, p.x)
  }

  /** Hilbert::rot, with its swap by sums and differences. */
  method Rot(n: int, x0: int, y0: int, rx: int, ry: int) returns (x: int, y: int)
    ensures Point(x, y) == Rotated(n, Point(x0, y0), rx, ry)
  {
    x, y := x0, y0;
    if ry == 0 {
      if rx == 1 {
        x := n - 1 - x;
        y := n - 1 - y;
      }
      x := x + y;
      y := x - y;
      x := x - y;
    }
  }

  // ---- The curve.

  /** Quadrant `q` of the curve lies in column `QuadX(q)` and row `QuadY(q)`. */
  function QuadX(q: nat): nat {
    if q >= 2 then 1 else 0
  }

  function QuadY(q: nat): nat {
    if q == 1 || q == 2 then 1 else 0
  }

  /** The point `p` of the smaller curve, of side `s`, put into quadrant `q`. */
  function Place(q: nat, s: int, p: Point): Point {
    var r := Rotated(s, p, QuadX(q), QuadY(q));
    Point(if QuadX(q) == 1 then r.x + s else r.x, if QuadY(q) == 1 then r.y + s else r.y)
  }

  /** The `d`-th point of the Hilbert curve of order `k`, on a grid of side 2^k. */
  function HilbertPoint(k: nat, d: nat): (p: Point)
    ensures 0 <= p.x < Pow2(k) && 0 <= p.y < Pow2(k)
  {
    if k == 0 then Point(0, 0) else Place(Drop(d, k - 1) % 4, Pow2(k - 1), HilbertPoint(k - 1, d))
  }

  function QuadOf(rx: nat, ry: nat): (q: nat)
    ensures q < 4
  {
    if rx == 1 then (if ry == 1 then 2 else 3) else if ry == 1 then 1 else 0
  }

  /** The quadrant of a point, and the point seen from there: the inverse of Place. */
  function Quadrant(s: int, p: Point): (q: nat)
    ensures q < 4
  {
    QuadOf(if p.x >= s then 1 else 0, if p.y >= s then 1 else 0)
  }

  function Inside(s: int, p: Point): Point {
    var rx, ry := if p.x >= s then 1 else 0, if p.y >= s then 1 else 0;
    Rotated(s, Point(if rx == 1 then p.x - s else p.x, if ry == 1 then p.y - s else p.y), rx, ry)
  }

  predicate OnGrid(n: int, p: Point) {
    0 <= p.x < n && 0 <= p.y < n
  }

  /** The position of a point on the Hilbert curve of order `k`. */
  function HilbertIndex(k: nat, p: Point): nat
    requires OnGrid(Pow2(k), p)
  {
    if k == 0 then 0
    else
      Shift(Quadrant(Pow2(k - 1), p), k - 1) + HilbertIndex(k - 1, Inside(Pow2(k - 1), p))
  }

  lemma {:induction false} IndexInRange(k: nat, p: Point)
    requires OnGrid(Pow2(k), p)
    ensures HilbertIndex(k, p) < Pow4(k)
  {
    if k > 0 {
      IndexInRange(k - 1, Inside(Pow2(k - 1), p));
      SmallShifts(k - 1);
    }
  }

  lemma PlaceInside(s: int, p: Point, q: nat, r: Point)
    ensures OnGrid(2 * s, p) ==> Place(Quadrant(s, p), s, Inside(s, p)) == p
    ensures OnGrid(s, r) && q < 4 ==> Quadrant(s, Place(q, s, r)) == q && Inside(s, Place(q, s, r)) == r
  {
  }

  /** One level of the curve. */
  lemma {:induction false} PointStep(k: nat, q: nat, r: nat)
    requires q < 4 && r < Pow4(k)
    ensures HilbertPoint(k + 1, Shift(q, k) + r) == Place(q, Pow2(k), HilbertPoint(k, r))
  {
    hide HilbertPoint, Drop, Place, Pow2;
    DropLow(q, k, r, k);
    DropBelow(r, k);
    PointLow(k, k, q, r);
    PointUnfold(k, Shift(q, k) + r);
  }

  lemma {:induction false} PointLow(i: nat, k: nat, q: nat, r: nat)
    requires i <= k
    ensures HilbertPoint(i, Shift(q, k) + r) == HilbertPoint(i, r)
  {
    if i > 0 {
      PointLow(i - 1, k, q, r);
      LowDigit(q, k, r, i - 1);
    }
  }

  lemma LowDigit(q: nat, k: nat, r: nat, i: nat)
    requires i < k
    ensures Drop(Shift(q, k) + r, i) % 4 == Drop(r, i) % 4
  {
    DropLow(q, k, r, i);
    assert Shift(q, k - i) == 4 * Shift(q, k - i - 1);
  }

  lemma QuadRem(k: nat, d: nat) returns (q: nat, r: nat)
    requires k > 0 && d < Pow4(k)
    ensures q < 4 && r < Pow4(k - 1) && d == Shift(q, k - 1) + r
  {
    q := Drop(d, k - 1);
    r := Cut(d, k - 1);
    DropBelow(d, k);
  }

  /** xy2d after d2xy. */
  lemma {:induction false} IndexOfPoint(k: nat, d: nat)
    requires d < Pow4(k)
    ensures HilbertIndex(k, HilbertPoint(k, d)) == d
  {
    if k > 0 {
      var q, r := QuadRem(k, d);
      PointStep(k - 1, q, r);
      IndexOfPoint(k - 1, r);
      PlaceInside(Pow2(k - 1), Point(0, 0), q, HilbertPoint(k - 1, r));
    }
  }

  /** d2xy after xy2d. */
  lemma {:induction false} PointOfIndex(k: nat, p: Point)
    requires OnGrid(Pow2(k), p)
    ensures HilbertPoint(k, HilbertIndex(k, p)) == p
  {
    if k > 0 {
      var p' := Inside(Pow2(k - 1), p);
      PointOfIndex(k - 1, p');
      IndexInRange(k - 1, p');
      PointStep(k - 1, Quadrant(Pow2(k - 1), p), HilbertIndex(k - 1, p'));
      PlaceInside(Pow2(k - 1), p, 0, p');
    }
  }

  // ---- Adjacency.

  function Abs(x: int): nat {
    if x < 0 then -x else x
  }

  function Distance(p: Point, q: Point): nat {
    Abs(p.x - q.x) + Abs(p.y - q.y)
  }

  /** The curve starts in the lower left corner and ends in the lower right one. */
  lemma {:induction false} CurveEnds(k: nat)
    ensures HilbertPoint(k, 0) == Point(0, 0)
    ensures HilbertPoint(k, Pow4(k) - 1) == Point(Pow2(k) - 1, 0)
  {
    hide HilbertPoint, Drop, Shift, Pow4, Pow2;
    SmallShifts(0);
    if k == 0 {
      SinglePoint(0);
    } else {
      CurveEnds(k - 1);
      SmallShifts(k - 1);
      PointStep(k - 1, 0, 0);
      PointStep(k - 1, 3, Pow4(k - 1) - 1);
    }
  }

  lemma SinglePoint(d: nat)
    ensures HilbertPoint(0, d) == Point(0, 0)
  {
  }

  lemma PlaceIsometry(q: nat, s: int, p: Point, p': Point)
    requires q < 4
    ensures Distance(Place(q, s, p), Place(q, s, p')) == Distance(p, p')
  {
  }

  lemma QuadrantsMeet(q: nat, s: int)
    requires q < 3
    ensures Distance(Place(q, s, Point(s - 1, 0)), Place(q + 1, s, Point(0, 0))) == 1
  {
  }

  /** Consecutive points of the curve are neighbours in the grid. */
  lemma {:induction false} CurveIsConnected(k: nat, d: nat)
    requires d + 1 < Pow4(k)
    ensures Distance(HilbertPoint(k, d), HilbertPoint(k, d + 1)) == 1
  {
    hide HilbertPoint, Drop, Place, Distance;
    var q, r := QuadRem(k, d);
    PointStep(k - 1, q, r);
    if r + 1 < Pow4(k - 1) {
      PlaceIsometry(q, Pow2(k - 1), HilbertPoint(k - 1, r), HilbertPoint(k - 1, r + 1));
      CurveIsConnected(k - 1, r);
      PointStep(k - 1, q, r + 1);
    } else {
      CurveEnds(k - 1);
      SmallShifts(k - 1);
      ShiftSum(q, 1, k - 1);
      PointStep(k - 1, q + 1, 0);
      QuadrantsMeet(q, Pow2(k - 1));
    }
  }

  // ---- Blocks.

  function Quot(x: int, m: int): int
    requires m > 0
  {
    x / m
  }

  lemma QuotShift(a: int, m: nat, p: int)
    requires m > 0
    ensures Quot(a * m - 1 - p, m) == a - 1 - Quot(p, m)
    ensures Quot(a * m + p, m) == a + Quot(p, m)
  {
    var q, r := p / m, p % m;
    assert p == q * m + r;
    assert a * m - 1 - p == (a - 1 - q) * m + (m - 1 - r);
    ModUnique(a * m - 1 - p, m, a - 1 - q, m - 1 - r);
    assert a * m + p == (a + q) * m + r;
    ModUnique(a * m + p, m, a + q, r);
  }

  function Shrunk(p: Point, m: int): Point
    requires m > 0
  {
    Point(Quot(p.x, m), Quot(p.y, m))
  }

  lemma ShrunkPlace(q: nat, a: int, m: nat, s: int, p: Point)
    requires m > 0 && s == a * m
    ensures Shrunk(Place(q, s, p), m) == Place(q, a, Shrunk(p, m))
  {
    hide Quot;
    QuotShift(a, m, p.x); QuotShift(a, m, p.y);
    QuotShift(a, m, s - 1 - p.x); QuotShift(a, m, s - 1 - p.y);
  }

  /** Seen in squares of side 2^j, the curve is the curve of order k - j. */
  lemma {:induction false} CurveOfBlocks(k: nat, j: nat, d: nat)
    requires j <= k
    ensures Shrunk(HilbertPoint(k, d), Pow2(j)) == HilbertPoint(k - j, Drop(d, j))
  {
    hide Quot, Shrunk, Place, Pow2, HilbertPoint, Drop;
    if k > j {
      CurveOfBlocks(k - 1, j, d);
      Pow2Sum(k - 1 - j, j);
      ShrunkPlace(Drop(d, k - 1) % 4, Pow2(k - 1 - j), Pow2(j), Pow2(k - 1), HilbertPoint(k - 1, d));
      DropDrop(d, j, k - 1 - j);
      PointUnfold(k - 1, d);
      PointUnfold(k - 1 - j, Drop(d, j));
    } else {
      PointOnGrid(k, d);
      QuotSmall(HilbertPoint(k, d), Pow2(k));
      PointUnfold(0, Drop(d, j));
    }
  }

  lemma QuotSmall(p: Point, m: int)
    requires m > 0 && OnGrid(m, p)
    ensures Shrunk(p, m) == Point(0, 0)
  {
    ModUnique(p.x, m, 0, p.x);
    ModUnique(p.y, m, 0, p.y);
  }

  // ---- The loops of the code.

  lemma Doubles(i: nat, k: nat)
    ensures Pow2(i) < Pow2(k) <==> i < k
  {
    if i < k { Pow2Grows(i + 1, k); } else { Pow2Grows(k, i); }
  }

  lemma TimesBit(s: int, b: nat)
    requires b <= 1
    ensures s * b == if b == 1 then s else 0
  {
  }

  lemma DigitBits(t: nat)
    ensures t / 2 % 2 == QuadX(t % 4) && (t + t / 2 % 2) % 2 == QuadY(t % 4)
  {
    var q := t / 4;
    assert t == 4 * q + t % 4;
    match t % 4
    case 0 => assert t / 2 == 2 * q;
    case 1 => assert t / 2 == 2 * q;
    case 2 => assert t / 2 == 2 * q + 1;
    case _ => assert t / 2 == 2 * q + 1;
  }

  lemma PlaceBits(s: int, t: nat, p: Point, rx: nat, ry: nat)
    requires rx == t / 2 % 2 && ry == (t + rx) % 2
    ensures var r := Rotated(s, p, rx, ry); Point(r.x + s * rx, r.y + s * ry) == Place(t % 4, s, p)
  {
    hide Rotated, QuadX, QuadY;
    DigitBits(t);
    TimesBit(s, rx);
    TimesBit(s, ry);
  }

  lemma PointUnfold(i: nat, d: nat)
    ensures HilbertPoint(i + 1, d) == Place(Drop(d, i) % 4, Pow2(i), HilbertPoint(i, d))
    ensures Drop(d, i + 1) == Drop(d, i) / 4 && Pow2(i + 1) == 2 * Pow2(i)
    ensures HilbertPoint(0, d) == Point(0, 0) && Drop(d, 0) == d && Pow2(0) == 1
  {
  }

  /** Hilbert::d2xy. */
  method D2xy(n: nat, d: nat, ghost k: nat) returns (x: int, y: int)
    requires n == Pow2(k)
    ensures Point(x, y) == HilbertPoint(k, d)
  {
    hide HilbertPoint, Place, Rotated, Drop, Pow2;
    var t := d;
    x, y := 0, 0;
    var s := 1;
    ghost var i: nat := 0;
    Doubles(0, k);
    PointUnfold(0, d);
    while s < n
      invariant i <= k && s == Pow2(i) && t == Drop(d, i) && (s < n <==> i < k)
      invariant Point(x, y) == HilbertPoint(i, d)
      decreases k - i
    {
      ghost var p := Point(x, y);
      var rx := t / 2 % 2;
      var ry := (t + rx) % 2;
      PlaceBits(s, t, p, rx, ry);
      PointUnfold(i, d);
      x, y := Rot(s, x, y, rx, ry);
      x := x + s * rx;
      y := y + s * ry;
      t := t / 4;
      s := s * 2;
      i := i + 1;
      Doubles(i, k);
    }
  }

  /** The bit of weight `s` of a two's complement number, for a power of two `s`. */
  function Bit(x: int, s: nat): (b: nat)
    requires s > 0
    ensures b <= 1
  {
    (x / s) % 2
  }

  lemma ModDouble(x: int, s: nat)
    requires s > 0
    ensures Bit(x, s) == (if x % (2 * s) >= s then 1 else 0)
    ensures x % s == x % (2 * s) - (if x % (2 * s) >= s then s else 0)
  {
    var m := 2 * s;
    var q, r := x / m, x % m;
    assert q * m == (2 * q) * s;
    if r >= s {
      assert (2 * q + 1) * s == (2 * q) * s + s;
      ModUnique(x, s, 2 * q + 1, r - s);
    } else {
      ModUnique(x, s, 2 * q, r);
    }
  }

  lemma ModFlip(x: int, s: nat)
    requires s > 0
    ensures (s - 1 - x) % s == s - 1 - x % s
  {
    assert s - 1 - x == (-(x / s)) * s + (s - 1 - x % s);
    ModUnique(s - 1 - x, s, -(x / s), s - 1 - x % s);
  }

  function Residues(p: Point, m: int): Point
    requires m > 0
  {
    Point(p.x % m, p.y % m)
  }

  /** Although rot leaves (-s, s) it always leaves the residues that the smaller curve is about. */
  lemma RotatedResidues(p: Point, s: nat, rx: int, ry: int)
    requires s > 0 && rx == Bit(p.x, s) && ry == Bit(p.y, s)
    ensures Residues(Rotated(s, p, rx, ry), s) == Inside(s, Residues(p, 2 * s))
    ensures QuadOf(rx, ry) == Quadrant(s, Residues(p, 2 * s))
  {
    ModDouble(p.x, s);
    ModDouble(p.y, s);
    ModFlip(p.x, s);
    ModFlip(p.y, s);
  }

  lemma QuadAdds(s: nat, j: nat, q: nat)
    requires s == Pow2(j)
    ensures s * s * q == Shift(q, j)
  {
    Pow4IsSquare(j);
    ShiftIsProduct(q, j);
  }

  /** (3 * rx) ^ ry. */
  function QuadXor(rx: nat, ry: nat): (q: nat)
    requires rx <= 1 && ry <= 1
    ensures q == QuadOf(rx, ry)
  {
    assert (0 as bv4 ^ 0 as bv4) as nat == 0;
    assert (0 as bv4 ^ 1 as bv4) as nat == 1;
    assert (3 as bv4 ^ 0 as bv4) as nat == 3;
    assert (3 as bv4 ^ 1 as bv4) as nat == 2;
    ((3 * rx) as bv4 ^ ry as bv4) as nat
  }

  lemma WholeResidues(p: Point, m: nat)
    requires m > 0 && OnGrid(m, p)
    ensures Residues(p, m) == p
  {
    ModUnique(p.x, m, 0, p.x);
    ModUnique(p.y, m, 0, p.y);
  }

  lemma IndexUnfold(j: nat, p: Point)
    requires OnGrid(Pow2(j + 1), p)
    ensures Pow2(j + 1) == 2 * Pow2(j) && OnGrid(Pow2(j), Inside(Pow2(j), p))
    ensures HilbertIndex(j + 1, p) == Shift(Quadrant(Pow2(j), p), j) + HilbertIndex(j, Inside(Pow2(j), p))
  {
  }

  lemma IndexEnd(p: Point)
    requires OnGrid(Pow2(0), p)
    ensures HilbertIndex(0, p) == 0
  {
  }

  lemma ResiduesOnGrid(p: Point, m: nat)
    requires m > 0
    ensures OnGrid(m, Residues(p, m))
  {
  }

  /** One round of xy2d, on the residues of x and y. */
  lemma IndexRound(p: Point, s: nat, j: nat, rx: nat, ry: nat)
    requires s == Pow2(j) && rx == Bit(p.x, s) && ry == Bit(p.y, s)
    ensures OnGrid(Pow2(j + 1), Residues(p, Pow2(j + 1))) && OnGrid(s, Residues(Rotated(s, p, rx, ry), s))
    ensures HilbertIndex(j + 1, Residues(p, Pow2(j + 1)))
         == s * s * QuadXor(rx, ry) + HilbertIndex(j, Residues(Rotated(s, p, rx, ry), s))
  {
    hide Rotated, QuadOf, Inside, Quadrant, Residues, Bit, Shift, HilbertIndex, QuadXor;
    assert Pow2(j + 1) == 2 * s;
    ResiduesOnGrid(p, 2 * s);
    IndexUnfold(j, Residues(p, 2 * s));
    RotatedResidues(p, s, rx, ry);
    QuadAdds(s, j, QuadXor(rx, ry));
  }

  /** Hilbert::xy2d.  The intermediate x and y grow negative; they stay below 2n in size. */
  method Xy2d(n: nat, x0: int, y0: int, ghost k: nat) returns (d: nat)
    requires n == Pow2(k) && OnGrid(n, Point(x0, y0))
    ensures d == HilbertIndex(k, Point(x0, y0))
  {
    hide Rotated, QuadOf, Inside, Quadrant, Residues, Bit, Shift, HilbertIndex, QuadXor;
    var x, y := x0, y0;
    d := 0;
    var s := n / 2;
    ghost var j := k;
    WholeResidues(Point(x, y), n);
    while s > 0
      invariant s == if j == 0 then 0 else Pow2(j - 1)
      invariant Abs(x) <= 2 * n - 2 * s && Abs(y) <= 2 * n - 2 * s
      invariant OnGrid(Pow2(j), Residues(Point(x, y), Pow2(j)))
      invariant d + HilbertIndex(j, Residues(Point(x, y), Pow2(j))) == HilbertIndex(k, Point(x0, y0))
      decreases s
    {
      var rx := Bit(x, s);
      var ry := Bit(y, s);
      IndexRound(Point(x, y), s, j - 1, rx, ry);
      RotatedSmall(s, Point(x, y), rx, ry, 2 * n - 2 * s);
      d := d + s * s * QuadXor(rx, ry);
      x, y := Rot(s, x, y, rx, ry);
      s := s / 2;
      j := j - 1;
    }
    IndexEnd(Residues(Point(x, y), 1));
  }

  lemma RotatedSmall(s: nat, p: Point, rx: int, ry: int, b: int)
    requires Abs(p.x) <= b && Abs(p.y) <= b && s > 0
    ensures Abs(Rotated(s, p, rx, ry).x) <= b + s - 1 && Abs(Rotated(s, p, rx, ry).y) <= b + s - 1
  {
  }

  // ---- All traversals.

  /** The traversals a configuration can choose, on a grid of side `n`. */
  datatype Traversal = Hilbert | RowFirst | ColumnFirst

  method IndexOn(t: Traversal, n: nat, x: int, y: int, ghost k: nat) returns (d: nat)
    requires n == Pow2(k) && OnGrid(n, Point(x, y))
    ensures d == Index(t, k, Point(x, y))
  {
    match t
    case Hilbert => d := Xy2d(n, x, y, k);
    case RowFirst => d := y * n + x;
    case ColumnFirst => d := x * n + y;
  }

  method PointOn(t: Traversal, n: nat, d: nat, ghost k: nat) returns (x: int, y: int)
    requires n == Pow2(k)
    ensures Point(x, y) == PointAt(t, k, d)
  {
    match t
    case Hilbert => x, y := D2xy(n, d, k);
    case RowFirst =>
      y := d / n;
      x := d - y * n;
    case ColumnFirst =>
      x := d / n;
      y := d - x * n;
  }

  function Index(t: Traversal, k: nat, p: Point): nat
    requires OnGrid(Pow2(k), p)
  {
    match t
    case Hilbert => HilbertIndex(k, p)
    case RowFirst => p.y * Pow2(k) + p.x
    case ColumnFirst => p.x * Pow2(k) + p.y
  }

  function PointAt(t: Traversal, k: nat, d: nat): Point {
    match t
    case Hilbert => HilbertPoint(k, d)
    case RowFirst => Point(d - d / Pow2(k) * Pow2(k), d / Pow2(k))
    case ColumnFirst => Point(d / Pow2(k), d - d / Pow2(k) * Pow2(k))
  }

  lemma RowBound(a: nat, b: nat, m: nat)
    requires b < m && a < m
    ensures a * m + b < m * m
  {
    MulGrows(a, m - 1, m);
    assert (m - 1) * m == m * m - m;
  }

  lemma RowOf(d: nat, m: nat)
    requires m > 0 && d < m * m
    ensures d / m < m && 0 <= d - d / m * m < m
  {
    assert d == d / m * m + d % m;
    if d / m >= m { MulGrows(m, d / m, m); }
  }

  lemma MulGrows(a: nat, b: nat, m: nat)
    requires a <= b
    ensures a * m <= b * m
  {
  }

  lemma RowIndex(k: nat, a: nat, b: nat)
    requires a < Pow2(k) && b < Pow2(k)
    ensures a * Pow2(k) + b < Pow4(k) && (a * Pow2(k) + b) / Pow2(k) == a
  {
    hide Pow2, Shift;
    Pow4IsSquare(k);
    RowBound(a, b, Pow2(k));
    ModUnique(a * Pow2(k) + b, Pow2(k), a, b);
  }

  lemma RowPoint(k: nat, d: nat)
    requires d < Pow4(k)
    ensures d / Pow2(k) < Pow2(k) && 0 <= d - d / Pow2(k) * Pow2(k) < Pow2(k)
  {
    hide Pow2, Shift;
    Pow4IsSquare(k);
    RowOf(d, Pow2(k));
  }

  /** Every traversal numbers the tiles of the grid one to one, and d2xy undoes xy2d ... */
  lemma PointOfTraversal(t: Traversal, k: nat, p: Point)
    requires OnGrid(Pow2(k), p)
    ensures Index(t, k, p) < Pow4(k) && PointAt(t, k, Index(t, k, p)) == p
  {
    hide Pow2, Shift, HilbertPoint, HilbertIndex;
    match t
    case Hilbert => IndexInRange(k, p); PointOfIndex(k, p);
    case RowFirst => RowIndex(k, p.y, p.x);
    case ColumnFirst => RowIndex(k, p.x, p.y);
  }

  /** ... and xy2d undoes d2xy. */
  lemma IndexOfTraversal(t: Traversal, k: nat, d: nat)
    requires d < Pow4(k)
    ensures OnGrid(Pow2(k), PointAt(t, k, d)) && Index(t, k, PointAt(t, k, d)) == d
  {
    hide Pow2, Shift, HilbertPoint, HilbertIndex;
    match t
    case Hilbert => PointOnGrid(k, d); IndexOfPoint(k, d);
    case RowFirst => RowPoint(k, d);
    case ColumnFirst => RowPoint(k, d);
  }

  lemma PointOnGrid(k: nat, d: nat)
    ensures OnGrid(Pow2(k), HilbertPoint(k, d))
  {
  }

  /** Row by row: along a row x rises by one, and after the last tile of a row comes the first one of the next; the first
      tile is (0, 0). */
  lemma RowFirstOrder(k: nat, d: nat)
    requires d < Pow4(k)
    ensures PointAt(RowFirst, k, 0) == Point(0, 0)
    ensures var p, q := PointAt(RowFirst, k, d), PointAt(RowFirst, k, d + 1);
            q == if p.x < Pow2(k) - 1 then Point(p.x + 1, p.y) else Point(0, p.y + 1)
  {
    hide Pow2, Shift, Pow4, HilbertPoint;
    NextInRows(d, Pow2(k));
  }

  /** Column by column: along a column y rises by one, and after the last tile of a column comes the first one of the
      next; the first tile is (0, 0). */
  lemma ColumnFirstOrder(k: nat, d: nat)
    requires d < Pow4(k)
    ensures PointAt(ColumnFirst, k, 0) == Point(0, 0)
    ensures var p, q := PointAt(ColumnFirst, k, d), PointAt(ColumnFirst, k, d + 1);
            q == if p.y < Pow2(k) - 1 then Point(p.x, p.y + 1) else Point(p.x + 1, 0)
  {
    hide Pow2, Shift, Pow4, HilbertPoint;
    NextInRows(d, Pow2(k));
  }

  lemma NextInRows(d: nat, m: nat)
    requires m > 0
    ensures 0 <= d - d / m * m < m && 0 / m == 0
    ensures (d + 1) / m == if d - d / m * m < m - 1 then d / m else d / m + 1
    ensures d + 1 - (d + 1) / m * m == if d - d / m * m < m - 1 then d - d / m * m + 1 else 0
  {
    var q, r := d / m, d % m;
    assert d == q * m + r;
    ModUnique(0, m, 0, 0);
    if r < m - 1 {
      ModUnique(d + 1, m, q, r + 1);
    } else {
      assert (q + 1) * m == q * m + m;
      ModUnique(d + 1, m, q + 1, 0);
    }
  }
}
