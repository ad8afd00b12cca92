/** Integer grid positions and the two distances the path jobs use
    (BlockPosUtil.distManhattan and BlockPosUtil.distSqr). */
module Geometry {

  /** A block position in the voxel grid. */
  datatype BlockPos = BlockPos(x: int, y: int, z: int) {

    /** The cell directly beneath this one. */
    function Below(): (p: BlockPos)
      ensures p.x == x && p.y == y - 1 && p.z == z
    {
      BlockPos(x, y - 1, z)
    }
  }

  function Abs(a: int): (r: nat)
    ensures r == a || r == -a
  {
    if a < 0 then -a else a
  }

  /** Sum of the absolute coordinate differences. */
  function DistManhattan(a: BlockPos, b: BlockPos): (d: nat)
    ensures d == 0 <==> a == b
    ensures Abs(a.x - b.x) <= d && Abs(a.y - b.y) <= d && Abs(a.z - b.z) <= d
  {
    Abs(a.x - b.x) + Abs(a.y - b.y) + Abs(a.z - b.z)
  }

  /** Sum of the squared coordinate differences. */
  function DistSqr(a: BlockPos, b: BlockPos): (d: nat)
    ensures d == 0 <==> a == b
  {
    var dx, dy, dz := a.x - b.x, a.y - b.y, a.z - b.z;
    SquareNonNegative(dx);
    SquareNonNegative(dy);
    SquareNonNegative(dz);
    SquareZero(dx);
    SquareZero(dy);
    SquareZero(dz);
    dx * dx + dy * dy + dz * dz
  }

  lemma SquareNonNegative(a: int)
    ensures a * a >= 0
  {
    if a < 0 {
      assert a * a == (-a) * (-a);
    }
  }

  lemma SquareZero(a: int)
    ensures a * a == 0 <==> a == 0
  {
    if a != 0 {
      assert Abs(a) * Abs(a) == a * a;
      assert Abs(a) * Abs(a) >= Abs(a);
    }
  }

  lemma ManhattanSymmetric(a: BlockPos, b: BlockPos)
    ensures DistManhattan(a, b) == DistManhattan(b, a)
  {
  }

  /** The Manhattan distance obeys the triangle inequality. */
  lemma ManhattanTriangle(a: BlockPos, b: BlockPos, c: BlockPos)
    ensures DistManhattan(a, c) <= DistManhattan(a, b) + DistManhattan(b, c)
  {
  }

  /** A distance-to-anchor estimate is consistent: one grid step changes it by at
      most the Manhattan length of that step. */
  lemma ManhattanLipschitz(anchor: BlockPos, p: BlockPos, q: BlockPos)
    ensures DistManhattan(anchor, p) <= DistManhattan(anchor, q) + DistManhattan(q, p)
    ensures DistManhattan(anchor, q) <= DistManhattan(anchor, p) + DistManhattan(q, p)
  {
    ManhattanTriangle(anchor, q, p);
    ManhattanTriangle(anchor, p, q);
    ManhattanSymmetric(p, q);
  }

  lemma SquareMonotone(s: int, r: int)
    requires 0 <= s <= r
    ensures s * s <= r * r
  {
    assert s * s <= s * r;
    assert s * r <= r * r;
  }

  lemma StrictSquare(r: int, s: int)
    requires 0 <= r < s
    ensures r * r < s * s
  {
    assert r * r <= r * s;
    assert r * s < s * s;
  }

  /** For non-negative values a square bound gives a linear bound. */
  lemma SquareBoundIsLinearBound(s: int, r: int)
    requires 0 <= s && 0 <= r
    requires s * s <= r * r
    ensures s <= r
  {
    if s > r {
      StrictSquare(r, s);
    }
  }

  /** The square of a sum of non-negative values is at least the sum of their squares. */
  lemma SquareOfSum(a: int, b: int)
    requires 0 <= a && 0 <= b
    ensures a * a + b * b <= (a + b) * (a + b)
  {
    assert (a + b) * (a + b) == a * a + 2 * (a * b) + b * b;
    assert a * b >= 0;
  }

  /** A point within Manhattan distance r of a lies within squared distance r*r of it:
      the Manhattan ball is inside the Euclidean one. */
  lemma {:induction false} ManhattanBoundsSqr(a: BlockPos, b: BlockPos, r: int)
    ensures DistManhattan(a, b) <= r ==> DistSqr(a, b) <= r * r
  {
    if DistManhattan(a, b) <= r {
      var dx, dy, dz := Abs(a.x - b.x), Abs(a.y - b.y), Abs(a.z - b.z);
      assert dx * dx == (a.x - b.x) * (a.x - b.x);
      assert dy * dy == (a.y - b.y) * (a.y - b.y);
      assert dz * dz == (a.z - b.z) * (a.z - b.z);
      SquareOfSum(dy, dz);
      SquareOfSum(dx, dy + dz);
      SquareMonotone(dx + dy + dz, r);
    }
  }

  /** A point within squared distance r*r of a differs from a by at most r on each
      axis, so it lies within Manhattan distance 3*r. */
  lemma {:induction false} SqrBoundsManhattan(a: BlockPos, b: BlockPos, r: int)
    requires 0 <= r
    ensures DistSqr(a, b) <= r * r ==> DistManhattan(a, b) <= 3 * r
  {
    if DistSqr(a, b) <= r * r {
      var dx, dy, dz := Abs(a.x - b.x), Abs(a.y - b.y), Abs(a.z - b.z);
      assert dx * dx == (a.x - b.x) * (a.x - b.x);
      assert dy * dy == (a.y - b.y) * (a.y - b.y);
      assert dz * dz == (a.z - b.z) * (a.z - b.z);
      SquareNonNegative(a.x - b.x);
      SquareNonNegative(a.y - b.y);
      SquareNonNegative(a.z - b.z);
      SquareBoundIsLinearBound(dx, r);
      SquareBoundIsLinearBound(dy, r);
      SquareBoundIsLinearBound(dz, r);
    }
  }
}
