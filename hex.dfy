/**
  Axial hexagon coordinates: the cube-derived third coordinate, the hex
  distance, the six neighbours, range sets and the two map shapes
  (Models/HexCoordinate.swift).
*/
module Hex {

  /** A cell of the grid in axial coordinates (q, r). */
  datatype Coord = Coord(q: int, r: int) {

    /** The third cube coordinate; the three always sum to zero. */
    function S(): (s: int)
      ensures q + r + s == 0
    {
      -q - r
    }

    /** Cube coordinates (x, y, z) = (q, s, r). */
    function Cube(): (int, int, int)
    {
      (q, -q - r, r)
    }
  }

  /** The cube coordinates of every cell lie on the plane x + y + z = 0. */
  lemma CubeOnPlane(c: Coord)
    ensures c.Cube().0 + c.Cube().1 + c.Cube().2 == 0
    ensures c.Cube().1 == c.S()
  {
  }

  const Origin := Coord(0, 0)

  function Abs(x: int): nat
  {
    if x < 0 then -x else x
  }

  function Max(a: int, b: int): int
  {
    if a < b then b else a
  }

  function Min(a: int, b: int): int
  {
    if a < b then a else b
  }

  /** Sum of the absolute differences of the three cube coordinates (x, y, z) = (q, -q - r, r). */
  function CubeDelta(a: Coord, b: Coord): nat
  {
    Abs(a.q - b.q) + Abs((-a.q - a.r) - (-b.q - b.r)) + Abs(a.r - b.r)
  }

  /** CubeDelta is the difference of the Cube() triples. */
  lemma CubeDeltaOfCubes(a: Coord, b: Coord)
    ensures CubeDelta(a, b) ==
      Abs(a.Cube().0 - b.Cube().0) + Abs(a.Cube().1 - b.Cube().1) + Abs(a.Cube().2 - b.Cube().2)
  {
  }

  /** The cube differences sum to zero, so the sum of their absolute values is even. */
  lemma CubeDeltaEven(a: Coord, b: Coord)
    ensures CubeDelta(a, b) % 2 == 0
  {
    var x, y, z := a.q - b.q, (-a.q - a.r) - (-b.q - b.r), a.r - b.r;
    assert x + y + z == 0;
    var n := (if x < 0 then -x else 0) + (if y < 0 then -y else 0) + (if z < 0 then -z else 0);
    assert CubeDelta(a, b) == x + y + z + 2 * n;
  }

  /**
    Hex distance: half the sum of the absolute cube differences; the sum is
    even, so the (truncating) division is exact.
  */
  function Distance(a: Coord, b: Coord): (d: int)
    ensures d >= 0
    ensures 2 * d == CubeDelta(a, b)
  {
    CubeDeltaEven(a, b);
    CubeDelta(a, b) / 2
  }

  lemma DistanceSymmetric(a: Coord, b: Coord)
    ensures Distance(a, b) == Distance(b, a)
  {
  }

  lemma DistanceZeroIffEqual(a: Coord, b: Coord)
    ensures Distance(a, b) == 0 <==> a == b
  {
  }

  lemma DistanceTriangle(a: Coord, b: Coord, c: Coord)
    ensures Distance(a, c) <= Distance(a, b) + Distance(b, c)
  {
  }

  /** Distance only depends on the difference of the two cells. */
  lemma DistanceTranslate(a: Coord, b: Coord)
    ensures Distance(a, b) == Distance(Origin, Sub(b, a))
  {
  }

  function Add(a: Coord, b: Coord): Coord
  {
    Coord(a.q + b.q, a.r + b.r)
  }

  function Sub(a: Coord, b: Coord): Coord
  {
    Coord(a.q - b.q, a.r - b.r)
  }

  function Scale(a: Coord, k: int): Coord
  {
    Coord(a.q * k, a.r * k)
  }

  /** Subtraction undoes addition; scaling by k multiplies the distance to the origin by |k|. */
  lemma AddSubInverse(a: Coord, b: Coord)
    ensures Sub(Add(a, b), b) == a
    ensures Add(Sub(a, b), b) == a
  {
  }

  lemma AbsMul(x: int, k: int)
    ensures Abs(x * k) == Abs(k) * Abs(x)
  {
    if x < 0 && k < 0 {
      assert x * k == (-x) * (-k);
    } else if x < 0 {
      assert -(x * k) == (-x) * k;
    } else if k < 0 {
      assert -(x * k) == x * (-k);
    }
  }

  lemma CubeDeltaScale(a: Coord, k: int)
    ensures CubeDelta(Origin, Scale(a, k)) == Abs(k) * CubeDelta(Origin, a)
  {
    var x, y := a.q, a.r;
    var xk, yk := x * k, y * k;
    AbsMul(x, k);
    AbsMul(y, k);
    AbsMul(x + y, k);
    Distribute(x, y, k);
    assert CubeDelta(Origin, Scale(a, k)) == Abs(xk) + Abs(xk + yk) + Abs(yk);
    assert CubeDelta(Origin, a) == Abs(x) + Abs(x + y) + Abs(y);
    Distribute3(Abs(k), Abs(x), Abs(x + y), Abs(y));
  }

  lemma Distribute(x: int, y: int, k: int)
    ensures (x + y) * k == x * k + y * k
  {
  }

  lemma Distribute3(k: int, a: int, b: int, c: int)
    ensures k * a + k * b + k * c == k * (a + b + c)
  {
  }

  lemma MulTwo(c: int, d: int)
    ensures c * (2 * d) == 2 * (c * d)
  {
  }

  lemma ScaleDistance(a: Coord, k: int)
    ensures Distance(Origin, Scale(a, k)) == Abs(k) * Distance(Origin, a)
  {
    CubeDeltaScale(a, k);
    var c, d, e := Abs(k), Distance(Origin, a), Distance(Origin, Scale(a, k));
    assert 2 * e == c * (2 * d);
    MulTwo(c, d);
  }

  /** The six unit direction vectors, in the order E, NE, NW, W, SW, SE. */
  function Directions(): seq<Coord>
  {
    [Coord(1, 0), Coord(1, -1), Coord(0, -1), Coord(-1, 0), Coord(-1, 1), Coord(0, 1)]
  }

  /** The six neighbours of c: c plus each direction, in the fixed order. */
  function Neighbors(c: Coord): (ns: seq<Coord>)
    ensures |ns| == 6
  {
    var ds := Directions();
    [Add(c, ds[0]), Add(c, ds[1]), Add(c, ds[2]), Add(c, ds[3]), Add(c, ds[4]), Add(c, ds[5])]
  }

  /** Neighbour i is the cell plus direction i. */
  lemma NeighborsFollowDirections(c: Coord)
    ensures forall i :: 0 <= i < 6 ==> Sub(Neighbors(c)[i], c) == Directions()[i]
  {
  }

  /** Neighbour i lies at distance 1. */
  lemma NeighborAtDistanceOne(c: Coord, i: int)
    requires 0 <= i < 6
    ensures Distance(c, Neighbors(c)[i]) == 1
  {
    var n := Neighbors(c)[i];
    NeighborsFollowDirections(c);
    DistanceTranslate(c, n);
    UnitDirection(i);
  }

  /** Every neighbour lies at distance 1. */
  lemma NeighborDistance(c: Coord, n: Coord)
    requires n in Neighbors(c)
    ensures Distance(c, n) == 1
  {
    var i :| 0 <= i < 6 && Neighbors(c)[i] == n;
    NeighborAtDistanceOne(c, i);
  }

  /** Every cell at distance 1 is a neighbour. */
  lemma UnitRingComplete(c: Coord, n: Coord)
    requires Distance(c, n) == 1
    ensures n in Neighbors(c)
  {
    DistanceTranslate(c, n);
    NeighborOffsets(n.q - c.q, n.r - c.r);
    var i :| 0 <= i < 6 && Directions()[i] == Coord(n.q - c.q, n.r - c.r);
    NeighborsFollowDirections(c);
    assert Neighbors(c)[i] == n;
  }

  /**
    The neighbours are pairwise distinct, all at distance 1, and every cell at
    distance 1 is one of them.
  */
  lemma NeighborsAreTheUnitRing(c: Coord)
    ensures forall i :: 0 <= i < 6 ==> Distance(c, Neighbors(c)[i]) == 1
    ensures forall i, j :: 0 <= i < j < 6 ==> Neighbors(c)[i] != Neighbors(c)[j]
    ensures forall n :: Distance(c, n) == 1 <==> n in Neighbors(c)
  {
    forall i | 0 <= i < 6
      ensures Distance(c, Neighbors(c)[i]) == 1
    {
      NeighborAtDistanceOne(c, i);
    }
    forall n
      ensures Distance(c, n) == 1 <==> n in Neighbors(c)
    {
      if Distance(c, n) == 1 {
        UnitRingComplete(c, n);
      }
      if n in Neighbors(c) {
        NeighborDistance(c, n);
      }
    }
  }

  lemma UnitDirection(i: int)
    requires 0 <= i < 6
    ensures Distance(Origin, Directions()[i]) == 1
  {
  }

  /** The only offsets at distance 1 are the six directions. */
  lemma NeighborOffsets(dq: int, dr: int)
    requires Distance(Origin, Coord(dq, dr)) == 1
    ensures Coord(dq, dr) in Directions()
  {
    assert Abs(dq) + Abs(dr) + Abs(dq + dr) == 2;
    if dq == 0 {
    } else if dq > 0 {
      assert dq == 1;
    } else {
      assert dq == -1;
    }
  }

  predicate IsWithinRange(c: Coord, range: int, other: Coord)
  {
    Distance(c, other) <= range
  }

  /** A cell is a neighbour exactly when it is another cell within range 1. */
  lemma NeighborsAreWithinRangeOne(c: Coord, n: Coord)
    ensures n in Neighbors(c) <==> n != c && IsWithinRange(n, 1, c)
  {
    NeighborsAreTheUnitRing(c);
    DistanceSymmetric(n, c);
    DistanceZeroIffEqual(c, n);
  }

  /**
    The rows the loops of `neighbors(within:)` and `generateHexMap` visit:
    offset dq in [-range, range] and dr in [max(-range, -dq-range), min(range, -dq+range)].
  */
  predicate InBand(dq: int, dr: int, range: int)
  {
    -range <= dq <= range && Max(-range, -dq - range) <= dr <= Min(range, -dq + range)
  }

  /** The band of offsets visited by the loops is exactly the disk of that radius. */
  lemma BandIsDisk(dq: int, dr: int, range: int)
    ensures InBand(dq, dr, range) <==> Distance(Origin, Coord(dq, dr)) <= range
  {
    var d := Distance(Origin, Coord(dq, dr));
    assert 2 * d == Abs(dq) + Abs(-dq - dr) + Abs(dr);
    assert InBand(dq, dr, range) <==> Abs(dq) <= range && Abs(dr) <= range && Abs(dq + dr) <= range;
    if dq >= 0 && dr >= 0 {
    } else if dq < 0 && dr < 0 {
    } else if dq + dr >= 0 {
    } else {
    }
  }

  /**
    All cells at distance 1..range from center (`neighbors(within:)`); the
    closed range -range...range traps on a negative range.
  */
  method NeighborsWithin(center: Coord, range: int) returns (result: set<Coord>)
    requires range >= 0
    ensures forall c :: c in result <==> 1 <= Distance(center, c) <= range
  {
    result := {};
    var dq := -range;
    while dq <= range
      invariant -range <= dq <= range + 1
      invariant forall c :: c in result <==>
        c != center && c.q - center.q < dq && InBand(c.q - center.q, c.r - center.r, range)
    {
      var r1 := Max(-range, -dq - range);
      var r2 := Min(range, -dq + range);
      var dr := r1;
      while dr <= r2
        invariant r1 <= dr <= r2 + 1
        invariant forall c :: c in result <==>
          c != center &&
          ((c.q - center.q < dq && InBand(c.q - center.q, c.r - center.r, range)) ||
           (c.q - center.q == dq && r1 <= c.r - center.r < dr))
      {
        var coord := Coord(center.q + dq, center.r + dr);
        if coord != center {
          result := result + {coord};
        }
        dr := dr + 1;
      }
      dq := dq + 1;
    }
    forall c
      ensures c in result <==> 1 <= Distance(center, c) <= range
    {
      BandIsDisk(c.q - center.q, c.r - center.r, range);
      DistanceTranslate(center, c);
      DistanceZeroIffEqual(center, c);
    }
  }

  /** Number of cells in a radius-`radius` hexagon strictly left of column q. */
  ghost function CellsBefore(radius: int, q: int): int
    requires 0 <= radius && -radius <= q <= radius + 1
    decreases q + radius
  {
    if q == -radius then 0 else CellsBefore(radius, q - 1) + (2 * radius + 1 - Abs(q - 1))
  }

  /** Left half of the hexagon: with m = q + radius columns counted, 2 * cells == m * (m + 2 * radius + 1). */
  lemma {:induction false} CellsBeforeLeft(radius: int, q: int)
    requires 0 <= radius && -radius <= q <= 0
    ensures 2 * CellsBefore(radius, q) == (q + radius) * (q + 3 * radius + 1)
    decreases q + radius
  {
    if q > -radius {
      CellsBeforeLeft(radius, q - 1);
      LeftStep(q + radius, radius);
    }
  }

  lemma LeftStep(m: int, radius: int)
    ensures (m - 1) * (m + 2 * radius) + 2 * (radius + m) == m * (m + 2 * radius + 1)
  {
  }

  /** Right half: 2 * cells == 3r^2 + r + 2q(2r + 1) - q(q - 1). */
  lemma {:induction false} CellsBeforeRight(radius: int, q: int)
    requires 0 <= radius && 0 <= q <= radius + 1
    ensures 2 * CellsBefore(radius, q) == 3 * radius * radius + radius + 2 * q * (2 * radius + 1) - q * (q - 1)
    decreases q
  {
    if q == 0 {
      CellsBeforeLeft(radius, 0);
      assert radius * (3 * radius + 1) == 3 * radius * radius + radius;
    } else {
      CellsBeforeRight(radius, q - 1);
      RightStep(q, radius);
    }
  }

  lemma RightStep(q: int, radius: int)
    ensures 2 * (q - 1) * (2 * radius + 1) - (q - 1) * (q - 2) + 2 * (2 * radius + 2 - q)
         == 2 * q * (2 * radius + 1) - q * (q - 1)
  {
  }

  lemma HexCellCount(radius: int)
    requires radius >= 0
    ensures CellsBefore(radius, radius + 1) == 3 * radius * radius + 3 * radius + 1
  {
    CellsBeforeRight(radius, radius + 1);
    var r := radius;
    assert 2 * (r + 1) * (2 * r + 1) - (r + 1) * r == 3 * r * r + 5 * r + 2;
  }

  /**
    The hexagon of the given radius around the origin (`generateHexMap`): the
    cells within that distance, 3r^2 + 3r + 1 of them.
  */
  method GenerateHexMap(radius: int) returns (coordinates: set<Coord>)
    requires radius >= 0
    ensures forall c :: c in coordinates <==> Distance(Origin, c) <= radius
    ensures |coordinates| == 3 * radius * radius + 3 * radius + 1
  {
    coordinates := {};
    var q := -radius;
    while q <= radius
      invariant -radius <= q <= radius + 1
      invariant forall c :: c in coordinates <==> c.q < q && InBand(c.q, c.r, radius)
      invariant |coordinates| == CellsBefore(radius, q)
    {
      var r1 := Max(-radius, -q - radius);
      var r2 := Min(radius, -q + radius);
      assert r2 - r1 + 1 == 2 * radius + 1 - Abs(q);
      var r := r1;
      while r <= r2
        invariant r1 <= r <= r2 + 1
        invariant forall c :: c in coordinates <==>
          (c.q < q && InBand(c.q, c.r, radius)) || (c.q == q && r1 <= c.r < r)
        invariant |coordinates| == CellsBefore(radius, q) + (r - r1)
      {
        assert Coord(q, r) !in coordinates;
        coordinates := coordinates + {Coord(q, r)};
        r := r + 1;
      }
      q := q + 1;
    }
    forall c
      ensures c in coordinates <==> Distance(Origin, c) <= radius
    {
      BandIsDisk(c.q, c.r, radius);
      assert c == Coord(c.q, c.r);
    }
    HexCellCount(radius);
  }

  /**
    A width x height parallelogram-offset rectangle (`generateRectangleMap`):
    row r holds q in [-(r/2), width - r/2). The half-open ranges trap when
    height < 0, or when width < 0 and some row exists.
  */
  method GenerateRectangleMap(width: int, height: int) returns (coordinates: set<Coord>)
    requires height >= 0 && (height > 0 ==> width >= 0)
    ensures forall c :: c in coordinates <==> 0 <= c.r < height && -(c.r / 2) <= c.q < width - c.r / 2
    ensures |coordinates| == width * height
  {
    coordinates := {};
    var r := 0;
    while r < height
      invariant 0 <= r <= height
      invariant forall c :: c in coordinates <==> 0 <= c.r < r && -(c.r / 2) <= c.q < width - c.r / 2
      invariant |coordinates| == r * width
    {
      var rOffset := r / 2;
      var q := -rOffset;
      while q < width - rOffset
        invariant -rOffset <= q <= width - rOffset
        invariant forall c :: c in coordinates <==>
          (0 <= c.r < r && -(c.r / 2) <= c.q < width - c.r / 2) || (c.r == r && -rOffset <= c.q < q)
        invariant |coordinates| == r * width + (q + rOffset)
      {
        assert Coord(q, r) !in coordinates;
        coordinates := coordinates + {Coord(q, r)};
        q := q + 1;
      }
      assert (r + 1) * width == r * width + width;
      r := r + 1;
    }
  }
}
