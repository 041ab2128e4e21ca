/**
 * The grid-line correction step of the odometry corrections: when the
 * light sensor crosses a line while the robot drives along an axis, the
 * coordinate along that axis is snapped to the line it must have crossed.
 * Lines lie every 30 cm; the sensor sits `offset` cm behind the centre of
 * the robot, and a reading within `tolerance` cm of a line counts.
 */
module LineCorrection {
  import opened JavaSemantics

  const SQUARE_SIDE: int := 30
  const ANGLE_TOLERANCE: real := 1.0
  /** Positions below this bound keep every cast in `Closest` clear of the `int` range. */
  const POSITION_BOUND: real := 1000000.0

  /** The odometer write a detection leads to, if any. */
  datatype Correction = NoWrite | WriteX(x: real) | WriteY(y: real)

  /** The position after the write. */
  function Apply(c: Correction, x: real, y: real): (r: (real, real))
    ensures !c.WriteX? ==> r.0 == x
    ensures !c.WriteY? ==> r.1 == y
  {
    match c
    case NoWrite => (x, y)
    case WriteX(nx) => (nx, y)
    case WriteY(ny) => (x, ny)
  }

  /** A heading in degrees within a degree of `direction` (0, 90, 180 or 270); 0 also takes headings above 359. */
  predicate Facing(theta: real, direction: int)
  {
    if direction == 0 then theta <= ANGLE_TOLERANCE || theta > 360.0 - ANGLE_TOLERANCE
    else direction as real - ANGLE_TOLERANCE <= theta <= direction as real + ANGLE_TOLERANCE
  }

  /** closestMultipleOfSquareSide: the tolerance-shifted value cast to int, then truncated to a multiple of 30. */
  function Closest(v: real, tolerance: int): (m: int)
    ensures m % SQUARE_SIDE == 0
    ensures v + tolerance as real >= 0.0 ==> m >= 0
  {
    JDiv(JavaInt(v + tolerance as real), SQUARE_SIDE) * SQUARE_SIDE
  }

  /** The band test of the source: the value, or the value plus the tolerance, lies within tolerance of a multiple of 30. */
  predicate NearLine(v: real, tolerance: int)
  {
    AbsReal(RealRem(v, SQUARE_SIDE as real)) <= tolerance as real
    || AbsReal(RealRem(v + tolerance as real, SQUARE_SIDE as real)) <= tolerance as real
  }

  /** A whole multiple of 30. */
  predicate IsLine(v: real)
  {
    v.Floor as real == v && v.Floor % SQUARE_SIDE == 0
  }

  /** Write `value` on the chosen axis unless `code` repeats the last correction. */
  function Attempt(onY: bool, value: real, code: int, last: int): (r: (Correction, int))
    ensures r.0 == NoWrite <==> code == last
    ensures r.0 != NoWrite ==> r.1 == code && (if onY then r.0 == WriteY(value) else r.0 == WriteX(value))
    ensures r.0 == NoWrite ==> r.1 == last
  {
    if code != last then (if onY then WriteY(value) else WriteX(value), code) else (NoWrite, last)
  }

  /**
   * Which of the four branches a detection takes, in the source's order
   * +Y, -Y, +X, -X, with the value its band test and its
   * closestMultipleOfSquareSide look at.
   */
  function Branch(offset: int, tolerance: int, theta: real, x: real, y: real): (r: Option<(int, real)>)
    ensures r.Some? ==> 1 <= r.value.0 <= 4 && NearLine(r.value.1, tolerance)
    ensures r.Some? && r.value.0 == 1 ==> Facing(theta, 0) && r.value.1 == y - offset as real
    ensures r.Some? && r.value.0 == 2 ==> Facing(theta, 180) && !Facing(theta, 0) && r.value.1 == y + offset as real
    ensures r.Some? && r.value.0 == 3 ==> Facing(theta, 90) && !Facing(theta, 0) && !Facing(theta, 180)
                                          && r.value.1 == x - offset as real
    ensures r.Some? && r.value.0 == 4 ==> Facing(theta, 270) && !Facing(theta, 0) && !Facing(theta, 180)
                                          && !Facing(theta, 90) && r.value.1 == x + offset as real
    ensures !(Facing(theta, 0) || Facing(theta, 90) || Facing(theta, 180) || Facing(theta, 270)) ==> r.None?
  {
    var off := offset as real;
    if Facing(theta, 0) && NearLine(y - off, tolerance) then Some((1, y - off))
    else if Facing(theta, 180) && NearLine(y + off, tolerance) then Some((2, y + off))
    else if Facing(theta, 90) && NearLine(x - off, tolerance) then Some((3, x - off))
    else if Facing(theta, 270) && NearLine(x + off, tolerance) then Some((4, x + off))
    else None
  }

  /**
   * One correction step on a detected line: the branch that matches snaps
   * its axis so that the sensor sits on the line closest to it (ahead of
   * the centre for +Y and +X, behind it for -Y and -X), and records the
   * code `line + branch`, unless that code is the last one recorded.
   */
  function Correct(offset: int, tolerance: int, theta: real, x: real, y: real, last: int): (r: (Correction, int))
    ensures r.0 == NoWrite <==> r.1 == last
    ensures r.0.WriteY? ==> Facing(theta, 0) || Facing(theta, 180)
    ensures r.0.WriteX? ==> (Facing(theta, 90) || Facing(theta, 270)) && !Facing(theta, 0) && !Facing(theta, 180)
    ensures Branch(offset, tolerance, theta, x, y).None? ==> r == (NoWrite, last)
  {
    match Branch(offset, tolerance, theta, x, y)
    case None => (NoWrite, last)
    case Some((b, v)) =>
      var m := Closest(v, tolerance);
      Attempt(b <= 2, m as real + (if b == 1 || b == 3 then offset as real else -offset as real), m + b, last)
  }

  /** Inside the band of line `30 k`, closestMultipleOfSquareSide gives that line. */
  lemma ClosestInBand(v: real, tolerance: int, k: int)
    requires 0 <= tolerance && 0 <= k
    requires (SQUARE_SIDE * k) as real <= v + tolerance as real < (SQUARE_SIDE * k + SQUARE_SIDE) as real
    requires v + tolerance as real <= INT_MAX as real
    ensures Closest(v, tolerance) == SQUARE_SIDE * k
  {
    var t := JavaInt(v + tolerance as real);
    assert SQUARE_SIDE * k <= t < SQUARE_SIDE * k + SQUARE_SIDE;
    assert t / SQUARE_SIDE == k;
  }

  /** The remainder of a non-negative value: the value minus a whole number of squares. */
  lemma RemainderOfPositive(v: real) returns (k: int)
    requires v >= 0.0
    ensures k >= 0 && RealRem(v, SQUARE_SIDE as real) == v - (SQUARE_SIDE * k) as real
  {
    k := Trunc(v / SQUARE_SIDE as real);
  }

  /**
   * A value at or above `-tolerance` that passes the band test is within
   * the tolerance of the line closestMultipleOfSquareSide picks.
   */
  lemma NearLineIsWithinTolerance(v: real, tolerance: int)
    requires 0 <= tolerance < SQUARE_SIDE / 2
    requires -tolerance as real <= v <= 2.0 * POSITION_BOUND
    requires NearLine(v, tolerance)
    ensures AbsReal(v - Closest(v, tolerance) as real) <= tolerance as real
  {
    var tol := tolerance as real;
    if v < 0.0 {
      ClosestInBand(v, tolerance, 0);
    } else if AbsReal(RealRem(v, SQUARE_SIDE as real)) <= tol {
      var k := RemainderOfPositive(v);
      ClosestInBand(v, tolerance, k);
    } else {
      var k := RemainderOfPositive(v + tol);
      ClosestInBand(v, tolerance, k);
    }
  }

  /**
   * With both coordinates at least `offset - tolerance`, a correction moves
   * the coordinate it writes by at most the tolerance.
   */
  lemma CorrectionIsSmall(offset: int, tolerance: int, theta: real, x: real, y: real, last: int)
    requires 0 <= offset <= SQUARE_SIDE && 0 <= tolerance < SQUARE_SIDE / 2
    requires (offset - tolerance) as real <= x <= POSITION_BOUND
    requires (offset - tolerance) as real <= y <= POSITION_BOUND
    ensures var c := Correct(offset, tolerance, theta, x, y, last).0;
            && (c.WriteX? ==> AbsReal(c.x - x) <= tolerance as real)
            && (c.WriteY? ==> AbsReal(c.y - y) <= tolerance as real)
  {
    var br := Branch(offset, tolerance, theta, x, y);
    if br.Some? {
      NearLineIsWithinTolerance(br.value.1, tolerance);
    }
  }

  /** A line itself passes the band test and is its own closest line. */
  lemma LineIsItsOwnClosest(k: int, tolerance: int)
    requires 0 <= k && 0 <= tolerance < SQUARE_SIDE && (SQUARE_SIDE * k) as real <= 2.0 * POSITION_BOUND
    ensures NearLine((SQUARE_SIDE * k) as real, tolerance)
    ensures Closest((SQUARE_SIDE * k) as real, tolerance) == SQUARE_SIDE * k
  {
    var v := (SQUARE_SIDE * k) as real;
    assert v / SQUARE_SIDE as real == k as real;
    assert RealRem(v, SQUARE_SIDE as real) == 0.0;
    ClosestInBand(v, tolerance, k);
  }

  /** Every write puts the sensor on a line: the written value is a line plus or minus the offset. */
  lemma CorrectWritesOnLine(offset: int, tolerance: int, theta: real, x: real, y: real, last: int)
    ensures var c := Correct(offset, tolerance, theta, x, y, last).0;
            && (c.WriteY? ==> IsLine(c.y - offset as real) || IsLine(c.y + offset as real))
            && (c.WriteX? ==> IsLine(c.x - offset as real) || IsLine(c.x + offset as real))
  {
    var br := Branch(offset, tolerance, theta, x, y);
    if br.Some? {
      var m := Closest(br.value.1, tolerance);
      assert (m as real).Floor == m;
    }
  }

  /**
   * lastCorrection does its job: once a correction is written, the same
   * detection at the corrected position, with the recorded code, writes
   * nothing more.
   */
  lemma CorrectedPositionIsStable(offset: int, tolerance: int, theta: real, x: real, y: real, last: int)
    requires 0 <= offset <= SQUARE_SIDE && 0 <= tolerance < SQUARE_SIDE / 2
    requires (offset - tolerance) as real <= x <= POSITION_BOUND
    requires (offset - tolerance) as real <= y <= POSITION_BOUND
    ensures var r := Correct(offset, tolerance, theta, x, y, last);
            var p := Apply(r.0, x, y);
            Correct(offset, tolerance, theta, p.0, p.1, r.1).0 == NoWrite
  {
    var br := Branch(offset, tolerance, theta, x, y);
    if br.Some? {
      var v := br.value.1;
      NearLineIsWithinTolerance(v, tolerance);
      var m := Closest(v, tolerance);
      LineIsItsOwnClosest(m / SQUARE_SIDE, tolerance);
      assert (SQUARE_SIDE * (m / SQUARE_SIDE)) as real == m as real;
      StableAtLine(offset, tolerance, theta, x, y, last, br.value.0, v, m);
    }
  }

  /** The stability step once the line the branch snaps to is known to be its own closest line. */
  lemma StableAtLine(offset: int, tolerance: int, theta: real, x: real, y: real, last: int, b: int, v: real, m: int)
    requires Branch(offset, tolerance, theta, x, y) == Some((b, v))
    requires m == Closest(v, tolerance) && NearLine(m as real, tolerance) && Closest(m as real, tolerance) == m
    ensures var r := Correct(offset, tolerance, theta, x, y, last);
            var p := Apply(r.0, x, y);
            Correct(offset, tolerance, theta, p.0, p.1, r.1).0 == NoWrite
  {
    if b == 1 {
      StableAfterSnap(offset, tolerance, theta, x, y, last, b, v, m, x, m as real + offset as real);
    } else if b == 2 {
      StableAfterSnap(offset, tolerance, theta, x, y, last, b, v, m, x, m as real - offset as real);
    } else if b == 3 {
      StableAfterSnap(offset, tolerance, theta, x, y, last, b, v, m, m as real + offset as real, y);
    } else {
      StableAfterSnap(offset, tolerance, theta, x, y, last, b, v, m, m as real - offset as real, y);
    }
  }

  /** The stability step for one branch, given the position its write leads to. */
  lemma StableAfterSnap(offset: int, tolerance: int, theta: real, x: real, y: real, last: int, b: int, v: real, m: int,
                        nx: real, ny: real)
    requires Branch(offset, tolerance, theta, x, y) == Some((b, v))
    requires m == Closest(v, tolerance) && NearLine(m as real, tolerance) && Closest(m as real, tolerance) == m
    requires b <= 2 ==> nx == x && ny == m as real + (if b == 1 then offset as real else -offset as real)
    requires b > 2 ==> ny == y && nx == m as real + (if b == 3 then offset as real else -offset as real)
    ensures var r := Correct(offset, tolerance, theta, x, y, last);
            var p := Apply(r.0, x, y);
            Correct(offset, tolerance, theta, p.0, p.1, r.1).0 == NoWrite
  {
    var r := Correct(offset, tolerance, theta, x, y, last);
    CorrectOnBranch(offset, tolerance, theta, x, y, last, b, v);
    if r.0 != NoWrite {
      assert r.1 == m + b;
      assert r.0 == if b <= 2 then WriteY(ny) else WriteX(nx);
      assert Apply(r.0, x, y) == (nx, ny);
      if b <= 2 {
        BranchAtLineY(offset, tolerance, theta, x, y, b, v, m, ny);
      } else {
        BranchAtLineX(offset, tolerance, theta, x, y, b, v, m, nx);
      }
      RepeatIsIgnored(offset, tolerance, theta, nx, ny, b, m);
    }
  }

  /** On a matching branch, the correction is the attempt to snap to the closest line. */
  lemma CorrectOnBranch(offset: int, tolerance: int, theta: real, x: real, y: real, last: int, b: int, v: real)
    requires Branch(offset, tolerance, theta, x, y) == Some((b, v))
    ensures var m := Closest(v, tolerance);
            Correct(offset, tolerance, theta, x, y, last)
              == Attempt(b <= 2, m as real + (if b == 1 || b == 3 then offset as real else -offset as real), m + b, last)
  {
  }

  /** A detection exactly on the line with its own code recorded writes nothing. */
  lemma RepeatIsIgnored(offset: int, tolerance: int, theta: real, x: real, y: real, b: int, m: int)
    requires Branch(offset, tolerance, theta, x, y) == Some((b, m as real)) && Closest(m as real, tolerance) == m
    ensures Correct(offset, tolerance, theta, x, y, m + b).0 == NoWrite
  {
  }

  /** At a corrected y the same branch matches again, now exactly on the line. */
  lemma BranchAtLineY(offset: int, tolerance: int, theta: real, x: real, y: real, b: int, v: real, m: int, ny: real)
    requires (b == 1 || b == 2) && Branch(offset, tolerance, theta, x, y) == Some((b, v))
    requires m == Closest(v, tolerance) && NearLine(m as real, tolerance) && Closest(m as real, tolerance) == m
    requires ny == m as real + (if b == 1 then offset as real else -offset as real)
    ensures Branch(offset, tolerance, theta, x, ny) == Some((b, m as real))
  {
    var off := offset as real;
    if b == 1 {
      assert ny - off == m as real;
      assert Facing(theta, 0);
    } else {
      assert ny + off == m as real;
      assert Facing(theta, 180) && !(Facing(theta, 0) && NearLine(ny - off, tolerance));
    }
  }

  /** At a corrected x the same branch matches again, now exactly on the line. */
  lemma BranchAtLineX(offset: int, tolerance: int, theta: real, x: real, y: real, b: int, v: real, m: int, nx: real)
    requires (b == 3 || b == 4) && Branch(offset, tolerance, theta, x, y) == Some((b, v))
    requires m == Closest(v, tolerance) && NearLine(m as real, tolerance) && Closest(m as real, tolerance) == m
    requires nx == m as real + (if b == 3 then offset as real else -offset as real)
    ensures Branch(offset, tolerance, theta, nx, y) == Some((b, m as real))
  {
    var off := offset as real;
    assert !(Facing(theta, 0) && NearLine(y - off, tolerance));
    assert !(Facing(theta, 180) && NearLine(y + off, tolerance));
    if b == 3 {
      assert nx - off == m as real;
      assert Facing(theta, 90);
    } else {
      assert nx + off == m as real;
      assert Facing(theta, 270) && !(Facing(theta, 90) && NearLine(nx - off, tolerance));
    }
  }
}
