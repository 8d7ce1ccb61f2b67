/** Placement arithmetic of the line and grid commands: offsets along an axis,
    the side of the square grid and the row/column of each bot in it. */
module Geometry {

  import opened Directions

  /** A horizontal placement relative to the invoking position. */
  datatype Offset = Offset(x: int, z: int)

  /** The floor square root of `n`, computed exactly on integers. */
  function IntSqrt(n: nat): (r: nat)
    ensures r * r <= n < (r + 1) * (r + 1)
    decreases n
  {
    if n < 4 then (if n == 0 then 0 else 1)
    else
      var h := IntSqrt(n / 4);
      SqrtStep(n, h);
      if (2 * h + 1) * (2 * h + 1) <= n then 2 * h + 1 else 2 * h
  }

  /** The root of `n` lies between twice the root of `n / 4` and one more than that. */
  lemma SqrtStep(n: nat, h: nat)
    requires h * h <= n / 4 < (h + 1) * (h + 1)
    ensures (2 * h) * (2 * h) <= n < (2 * h + 2) * (2 * h + 2)
  {
    var q := n / 4;
    assert (2 * h) * (2 * h) == 4 * (h * h);
    assert (2 * h + 2) * (2 * h + 2) == 4 * ((h + 1) * (h + 1));
    assert 4 * q <= n < 4 * q + 4;
  }

  function Square(k: int): int { k * k }

  ghost predicate IsPerfectSquare(n: nat) { exists k: nat :: Square(k) == n }

  lemma SquareMonotone(a: nat, b: nat)
    requires a <= b
    ensures a * a <= b * b
  {
    assert a * a <= a * b <= b * b;
  }

  /** For a positive factor, products compare as the other factors do. */
  lemma MulOrder(a: nat, b: nat, c: nat)
    requires c >= 1
    ensures a * c < b * c <==> a < b
  {
    if a < b {
      assert b * c == a * c + (b - a) * c;
    } else {
      assert a * c == b * c + (a - b) * c;
    }
  }

  /** Squares of naturals compare as the naturals do. */
  lemma SquareOrder(a: nat, b: nat)
    ensures a * a < b * b <==> a < b
  {
    if a < b {
      SquareMonotone(a + 1, b);
      assert (a + 1) * (a + 1) == a * a + 2 * a + 1;
    } else {
      SquareMonotone(b, a);
    }
  }

  /** The floor root squares back to `n` exactly when `n` is a perfect square. */
  lemma PerfectSquareIff(n: nat)
    ensures IntSqrt(n) * IntSqrt(n) == n <==> IsPerfectSquare(n)
  {
    var r := IntSqrt(n);
    if r * r == n {
      assert Square(r) == n;
    }
    if k: nat :| Square(k) == n {
      SquareOrder(k, r + 1);
      SquareOrder(k, r);
      assert k == r;
    }
  }

  /** The side of the square grid: the floor root, one more when `total` is not a perfect square. */
  function SideLength(total: nat): (s: nat)
    requires total >= 1
    ensures s >= 1
    ensures total <= s * s && (s - 1) * (s - 1) < total
  {
    var r := IntSqrt(total);
    if r * r != total then r + 1 else r
  }

  /** No smaller square grid holds `total` bots. */
  lemma SideLengthLeast(total: nat, s: nat)
    requires total >= 1 && total <= s * s
    ensures SideLength(total) <= s
  {
    var side := SideLength(total);
    if s < side {
      SquareMonotone(s, side - 1);
    }
  }

  /** The warning is due exactly when the grid side had to be rounded up. */
  lemma SideLengthExact(total: nat)
    requires total >= 1
    ensures SideLength(total) * SideLength(total) == total <==> IsPerfectSquare(total)
  {
    PerfectSquareIff(total);
    var r := IntSqrt(total);
    if r * r != total {
      assert (r + 1) * (r + 1) > total;
    }
  }

  /** Row-major position of the `idx`-th bot in a grid of the given side:
      `row == idx // side`, `col == idx % side`. */
  function Row(idx: nat, side: nat): nat requires side >= 1 { idx / side }
  function Col(idx: nat, side: nat): nat requires side >= 1 { idx % side }

  /** Every bot of the batch lands on a cell of the square, and the cell gives its index back. */
  lemma GridCellInSquare(total: nat, idx: nat)
    requires total >= 1 && idx < total
    ensures var side := SideLength(total);
      Row(idx, side) * side + Col(idx, side) == idx &&
      Col(idx, side) < side && Row(idx, side) < side
  {
    var side := SideLength(total);
    CellBelowSquare(idx, side);
  }

  /** An index below `side * side` has its row and column below `side`. */
  lemma CellBelowSquare(idx: nat, side: nat)
    requires side >= 1 && idx < side * side
    ensures Row(idx, side) * side + Col(idx, side) == idx
    ensures Col(idx, side) < side && Row(idx, side) < side
  {
    var row, col := idx / side, idx % side;
    assert row * side + col == idx && 0 <= col < side;
    assert row * side < side * side;
    MulOrder(row, side, side);
  }

  /** Offset of the bot `steps` positions along a line: `steps * interval * sign` on the line's axis. */
  function LineOffset(dir: Direction, steps: int, interval: int): (o: Offset)
    ensures dir.axis == X ==> o.z == 0
    ensures dir.axis == Z ==> o.x == 0
  {
    var d := steps * interval * dir.sign;
    if dir.axis == X then Offset(d, 0) else Offset(0, d)
  }

  /** What one direction contributes to one axis when moved `steps` times. */
  function Contribution(dir: Direction, axis: Axis, steps: int, interval: int): int
  {
    if dir.axis == axis then steps * interval * dir.sign else 0
  }

  /** Grid offset: rows advance along `dir1`, columns along `dir2`, contributions add up. */
  function GridOffset(dir1: Direction, dir2: Direction, row: int, col: int, interval: int): Offset
  {
    Offset(Contribution(dir1, X, row, interval) + Contribution(dir2, X, col, interval),
           Contribution(dir1, Z, row, interval) + Contribution(dir2, Z, col, interval))
  }

  /** The first bot of a line sits at the invoking position, and each next one is
      `interval` further along the line's direction. */
  lemma LineSpacing(dir: Direction, steps: int, interval: int)
    requires IsUnit(dir)
    ensures LineOffset(dir, 0, interval) == Offset(0, 0)
    ensures var a, b := LineOffset(dir, steps, interval), LineOffset(dir, steps + 1, interval);
      if dir.axis == X then b.x - a.x == interval * dir.sign && b.z == a.z
      else b.z - a.z == interval * dir.sign && b.x == a.x
  {
    assert (steps + 1) * interval * dir.sign == steps * interval * dir.sign + interval * dir.sign;
  }

  /** With a non-zero interval, distinct positions on a line get distinct offsets. */
  lemma LineOffsetInjective(dir: Direction, s1: int, s2: int, interval: int)
    requires IsUnit(dir) && interval != 0
    requires LineOffset(dir, s1, interval) == LineOffset(dir, s2, interval)
    ensures s1 == s2
  {
    var k := interval * dir.sign;
    assert k != 0;
    assert s1 * interval * dir.sign == s1 * k && s2 * interval * dir.sign == s2 * k;
    if dir.axis == X {
      assert s1 * k == s2 * k;
    } else {
      assert s1 * k == s2 * k;
    }
    assert (s1 - s2) * k == 0;
  }

  /** The first cell is at the invoking position; rows move along `dir1` and columns along
      `dir2`; when both name the same axis that axis receives the sum and the other stays 0. */
  lemma GridOffsetAdditive(dir1: Direction, dir2: Direction, row: int, col: int, interval: int)
    ensures GridOffset(dir1, dir2, 0, 0, interval) == Offset(0, 0)
    ensures dir1.axis == X && dir2.axis == Z ==>
      GridOffset(dir1, dir2, row, col, interval) == Offset(row * interval * dir1.sign, col * interval * dir2.sign)
    ensures dir1.axis == Z && dir2.axis == X ==>
      GridOffset(dir1, dir2, row, col, interval) == Offset(col * interval * dir2.sign, row * interval * dir1.sign)
    ensures dir1.axis == dir2.axis == X ==>
      GridOffset(dir1, dir2, row, col, interval) == Offset(row * interval * dir1.sign + col * interval * dir2.sign, 0)
    ensures dir1.axis == dir2.axis == Z ==>
      GridOffset(dir1, dir2, row, col, interval) == Offset(0, row * interval * dir1.sign + col * interval * dir2.sign)
  {
  }

  /** With perpendicular directions and a non-zero interval, distinct bots of a grid
      get distinct offsets. */
  lemma GridOffsetInjective(dir1: Direction, dir2: Direction, side: nat, i1: nat, i2: nat, interval: int)
    requires IsUnit(dir1) && IsUnit(dir2) && dir1.axis != dir2.axis && interval != 0 && side >= 1
    requires GridOffset(dir1, dir2, Row(i1, side), Col(i1, side), interval)
          == GridOffset(dir1, dir2, Row(i2, side), Col(i2, side), interval)
    ensures i1 == i2
  {
    var r1, c1, r2, c2 := Row(i1, side), Col(i1, side), Row(i2, side), Col(i2, side);
    assert LineOffset(dir1, r1, interval) == LineOffset(dir1, r2, interval);
    LineOffsetInjective(dir1, r1, r2, interval);
    assert LineOffset(dir2, c1, interval) == LineOffset(dir2, c2, interval);
    LineOffsetInjective(dir2, c1, c2, interval);
    assert i1 == r1 * side + c1 && i2 == r2 * side + c2;
  }
}
