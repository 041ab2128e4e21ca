/**
 * The ZipLine robot's localisation. The ultrasonic routine records two
 * wall-edge headings and derives the orientation from the starting corner.
 * The light routine snaps the odometer position to the nearest grid
 * intersection, turns to the nearest diagonal and records four line
 * headings, then corrects X and Y from them.
 *
 * The waits on the pollers are not modelled: the headings the odometer
 * reports when each edge or line is seen are parameters. The odometer
 * writes are results. The tile length and the starting corner are
 * parameters, because the constants that hold them are not part of this
 * model. The spins go to the routine's own log, in order; the turn to the
 * diagonal goes through the zip-line driver and is on its log.
 */
module ZiplineLocalisation {
  import opened JavaSemantics
  import opened Motors
  import opened Driving
  import opened LocalisationGeometry
  import opened LocalisationSweeps
  import ZiplineNavigation

  /** The corner labels the competition assigns. */
  predicate IsCorner(corner: string)
  {
    corner == "0" || corner == "1" || corner == "2" || corner == "3"
  }

  /**
   * getClosestReference: the diagonal at the centre of the quadrant the
   * heading lies in.
   */
  function ClosestReference(current: int): (r: int)
    ensures r == 45 || r == 135 || r == 225 || r == 315
    ensures 0 <= current < 360 ==> current / 90 == r / 90 && -45 <= current - r < 45
    ensures current < 0 ==> r == 45
    ensures current >= 360 ==> r == 315
  {
    if current < 90 then 45
    else if current < 180 then 135
    else if current < 270 then 225
    else 315
  }

  /**
   * getClosestMultiple: the Java remainder decides between the truncated
   * quotient and the next multiple, so the result is a whole multiple of
   * the tile. The `+ 1` on the int quotient wraps at Integer.MAX_VALUE.
   */
  function ClosestMultiple(tile: real, v: real): (r: real)
    requires tile > 0.0
    ensures r / tile == (r / tile).Floor as real
  {
    var m := RealRem(v, tile);
    var q := JavaInt(v / tile);
    var next := if q == INT_MAX then INT_MIN else q + 1;
    var n := if m < tile / 2.0 then q else next;
    WholeMultiple(n, tile);
    n as real * tile
  }

  lemma WholeMultiple(n: int, tile: real)
    requires tile > 0.0
    ensures (n as real * tile) / tile == n as real && (n as real).Floor == n
  {
  }

  /**
   * For a non-negative value the result is a multiple of the tile within
   * half a tile of the value. An exact half rounds up.
   */
  lemma ClosestMultipleRounds(tile: real, v: real) returns (k: int)
    requires tile > 0.0 && 0.0 <= v && v / tile < INT_MAX as real
    ensures ClosestMultiple(tile, v) == k as real * tile
    ensures -tile / 2.0 < k as real * tile - v <= tile / 2.0
  {
    var q := v / tile;
    QuotientSign(v, tile);
    var t := Trunc(q);
    assert JavaInt(q) == t;
    assert RealRem(v, tile) == v - t as real * tile;
    if RealRem(v, tile) < tile / 2.0 {
      k := t;
    } else {
      k := t + 1;
      assert (t + 1) as real * tile == t as real * tile + tile;
    }
  }

  /** At most one multiple of the tile lies in that half-open band around a value. */
  lemma NearestMultipleIsUnique(tile: real, v: real, j: int, k: int)
    requires tile > 0.0
    requires -tile / 2.0 < j as real * tile - v <= tile / 2.0
    requires -tile / 2.0 < k as real * tile - v <= tile / 2.0
    ensures j == k
  {
    if j > k {
      NextMultipleLeavesBand(tile, v, j, k);
    } else if k > j {
      NextMultipleLeavesBand(tile, v, k, j);
    }
  }

  /** A higher multiple than one inside the band lies above the band. */
  lemma NextMultipleLeavesBand(tile: real, v: real, hi: int, lo: int)
    requires tile > 0.0 && hi > lo
    requires -tile / 2.0 < lo as real * tile - v
    ensures hi as real * tile - v > tile / 2.0
  {
    ScaleLeq(1.0, (hi - lo) as real, tile);
    assert (hi - lo) as real * tile == hi as real * tile - lo as real * tile;
  }

  /**
   * For a negative value the remainder is never positive, so the result is
   * the truncated quotient's multiple: it lies between the value and zero,
   * which is not always the nearest multiple.
   */
  lemma NegativeRoundsTowardZero(tile: real, v: real)
    requires tile > 0.0 && v < 0.0 && v / tile > INT_MIN as real
    ensures ClosestMultiple(tile, v) <= 0.0
    ensures 0.0 <= ClosestMultiple(tile, v) - v < tile
  {
    var q := v / tile;
    QuotientSign(v, tile);
    assert JavaInt(q) == Trunc(q);
    assert RealRem(v, tile) == v - Trunc(q) as real * tile;
    assert ClosestMultiple(tile, v) == Trunc(q) as real * tile;
    ScaleLeq(Trunc(q) as real, 0.0, tile);
  }

  /**
   * The slot code the switch on the reference heading picks, advanced by
   * one: the slot the first line heading goes to.
   */
  function FirstSlot(reference: int): (s: int)
    ensures 0 <= s < 4
  {
    var code :=
      if reference == 45 then 3
      else if reference == 135 then 2
      else if reference == 225 then 0
      else if reference == 315 then 1
      else 0;
    (code + 1) % 4
  }

  /** The slot the line heading numbered `k` (from 0) goes to. */
  function SlotOf(reference: int, k: int): (s: int)
    requires 0 <= k < 4
    ensures 0 <= s < 4
  {
    (FirstSlot(reference) + k) % 4
  }

  /** Stepping the slot code three times from `f` visits the four slots once each. */
  lemma ConsecutiveSlots(f: int)
    requires 0 <= f < 4
    ensures f % 4 == f
    ensures ((f + 1) % 4 + 1) % 4 == (f + 2) % 4
    ensures (((f + 1) % 4 + 1) % 4 + 1) % 4 == (f + 3) % 4
    ensures f != (f + 1) % 4 && f != (f + 2) % 4 && f != (f + 3) % 4
    ensures (f + 1) % 4 != (f + 2) % 4 && (f + 1) % 4 != (f + 3) % 4 && (f + 2) % 4 != (f + 3) % 4
  {
    if f == 0 {
    } else if f == 1 {
    } else if f == 2 {
    } else {
    }
  }

  /** The line heading numbered `k` that ends up in `slot`: the inverse of SlotOf. */
  function LineInSlot(reference: int, slot: int): (k: int)
    requires 0 <= slot < 4
    ensures 0 <= k < 4
  {
    (slot - FirstSlot(reference) + 4) % 4
  }

  /**
   * Diagonals 45, 135, 225 and 315 send the first line heading to slots
   * 0, 3, 1 and 2.
   */
  lemma FirstSlotTable()
    ensures FirstSlot(45) == 0 && FirstSlot(135) == 3 && FirstSlot(225) == 1 && FirstSlot(315) == 2
  {
  }

  /**
   * The four line headings go to four different slots, and every slot
   * receives exactly one of them.
   */
  lemma EachSlotOnce(reference: int)
    ensures forall k :: 0 <= k < 4 ==> LineInSlot(reference, SlotOf(reference, k)) == k
    ensures forall s :: 0 <= s < 4 ==> SlotOf(reference, LineInSlot(reference, s)) == s
  {
    forall k | 0 <= k < 4
      ensures LineInSlot(reference, SlotOf(reference, k)) == k
    {
      SlotThenLine(reference, k);
    }
    forall s | 0 <= s < 4
      ensures SlotOf(reference, LineInSlot(reference, s)) == s
    {
      LineThenSlot(reference, s);
    }
  }

  lemma SlotThenLine(reference: int, k: int)
    requires 0 <= k < 4
    ensures LineInSlot(reference, SlotOf(reference, k)) == k
  {
    var f := FirstSlot(reference);
    var s := SlotOf(reference, k);
    assert s == (f + k) % 4;
    RotationRoundTrip(f, k);
    assert LineInSlot(reference, s) == (s - f + 4) % 4;
  }

  lemma LineThenSlot(reference: int, s: int)
    requires 0 <= s < 4
    ensures SlotOf(reference, LineInSlot(reference, s)) == s
  {
    var f := FirstSlot(reference);
    var k := LineInSlot(reference, s);
    assert k == (s - f + 4) % 4;
    RotationRoundTrip(f, s);
    assert SlotOf(reference, k) == (f + k) % 4;
  }

  /** Turning by `f` slots out of four and back, in either order, is the identity. */
  lemma RotationRoundTrip(f: int, k: int)
    requires 0 <= f < 4 && 0 <= k < 4
    ensures ((f + k) % 4 - f + 4) % 4 == k
    ensures ((k - f + 4) % 4 + f) % 4 == k
  {
    if f == 0 {
    } else if f == 1 {
    } else if f == 2 {
    } else {
    }
  }

  /**
   * The starting corner and edge mode give the base orientation. For any
   * other corner label the base stays 0.
   */
  function EdgeBase(corner: string, fallingEdge: bool): (b: real)
    ensures IsHeading(b)
    ensures !IsCorner(corner) ==> b == 0.0
  {
    if corner == "0" then (if !fallingEdge then 225.0 else 45.0)
    else if corner == "1" then (if !fallingEdge then 135.0 else 315.0)
    else if corner == "2" then (if !fallingEdge then 45.0 else 225.0)
    else if corner == "3" then (if !fallingEdge then 315.0 else 135.0)
    else 0.0
  }

  /** computeAngle's result for the two recorded edge headings. */
  function Orientation(corner: string, fallingEdge: bool, first: real, second: real): (h: real)
    ensures IsHeading(first) && IsHeading(second) ==>
              EdgeBase(corner, fallingEdge) <= h < EdgeBase(corner, fallingEdge) + 180.0
  {
    Bisector(EdgeBase(corner, fallingEdge), first, second)
  }

  /**
   * At every named corner the falling-edge base is the rising-edge base
   * turned half a circle, so the two modes' orientations differ by 180
   * degrees.
   */
  lemma FallingIsOppositeRising(corner: string, first: real, second: real)
    requires IsCorner(corner)
    ensures EdgeBase(corner, true) == Turned(EdgeBase(corner, false), 180.0)
    ensures Orientation(corner, true, first, second) - Orientation(corner, false, first, second) == 180.0
            || Orientation(corner, false, first, second) - Orientation(corner, true, first, second) == 180.0
  {
  }

  /**
   * computeX/computeY's reading of two line headings: the sign of the
   * correction, and half the angle between the lines. A difference past
   * 180 is measured the other way round and flips the sign to +1.
   */
  function LineSplit(a: real, b: real): (r: (int, real))
    ensures r.0 == 1 || r.0 == -1
    ensures IsHeading(a) && IsHeading(b) ==> (r.0 == 1 <==> Sweep(b, a) > 180.0)
    ensures IsHeading(a) && IsHeading(b) ==> 0.0 <= r.1 <= 90.0
  {
    var thetaD := a - b;
    var thetaD := if thetaD < 0.0 then thetaD + 360.0 else thetaD;
    if thetaD > 180.0 then (1, (360.0 - thetaD) / 2.0) else (-1, thetaD / 2.0)
  }

  /** The half-angle is half the smaller of the two sweeps between the lines. */
  lemma LineSplitHalvesSmallerSweep(a: real, b: real)
    requires IsHeading(a) && IsHeading(b)
    ensures Sweep(b, a) <= Sweep(a, b) ==> LineSplit(a, b).1 * 2.0 == Sweep(b, a)
    ensures Sweep(a, b) < Sweep(b, a) ==> LineSplit(a, b).1 * 2.0 == Sweep(a, b)
  {
    SweepsAddUp(a, b);
  }

  /**
   * computeX/computeY: the target moved by the magnitude of 15·cos of the
   * half-angle, in the direction of the sign.
   */
  function Coordinate(cos: real -> real, target: real, a: real, b: real): (r: real)
    ensures LineSplit(a, b).0 == 1 ==> r >= target
    ensures LineSplit(a, b).0 == -1 ==> r <= target
    ensures (forall t :: -1.0 <= cos(t) <= 1.0) ==> AbsReal(r - target) <= COLOR_SENSOR_OFFSET
  {
    var split := LineSplit(a, b);
    var offset := AbsReal(COLOR_SENSOR_OFFSET * cos(ToRadians(split.1)));
    var moved := split.0 as real * offset;
    assert AbsReal(moved) == offset;
    assert (forall t :: -1.0 <= cos(t) <= 1.0) ==> offset <= COLOR_SENSOR_OFFSET by {
      if forall t :: -1.0 <= cos(t) <= 1.0 {
        var c := cos(ToRadians(split.1));
        assert -1.0 <= c <= 1.0;
      }
    }
    target + moved
  }

  class Localisation {
    const fallingEdge: bool
    /** The normalised sweep between the two edges the last computeAngle saw. */
    var edgeDifference: real
    var waiting: bool
    /** The wheel commands the routine issues itself, in order. */
    var issued: seq<Command>
    /** The driver fixXY turns with. */
    const nav: ZiplineNavigation.Navigation
    const edges: array<real>
    const lines: array<real>

    predicate Valid()
      reads this
    {
      edges.Length == 2 && lines.Length == 4 && edges != lines
    }

    constructor (nav: ZiplineNavigation.Navigation, fallingEdge: bool)
      ensures Valid() && this.fallingEdge == fallingEdge && this.nav == nav
      ensures edges[..] == [-1.0, -1.0] && lines[..] == [-1.0, -1.0, -1.0, -1.0]
      ensures edgeDifference == -1.0 && !waiting && issued == []
    {
      this.fallingEdge := fallingEdge;
      this.nav := nav;
      edgeDifference := -1.0;
      waiting := false;
      issued := [];
      edges := new real[2](_ => -1.0);
      lines := new real[4](_ => -1.0);
    }

    method Issue(c: Command)
      modifies this`issued
      ensures issued == old(issued) + [c]
    {
      issued := issued + [c];
    }

    /**
     * computeAngle: stores the normalised sweep between the edges and
     * returns the base plus its half.
     */
    method ComputeAngle(corner: string) returns (heading: real)
      requires Valid()
      modifies this`edgeDifference
      ensures edgeDifference == Sweep(edges[0], edges[1])
      ensures heading == Orientation(corner, fallingEdge, edges[0], edges[1])
    {
      heading := edges[1] - edges[0];
      if heading < 0.0 {
        heading := heading + 360.0;
      }
      edgeDifference := heading;
      heading := heading / 2.0;
      var base := 0.0;
      if corner == "0" {
        base := if !fallingEdge then 225.0 else 45.0;
      } else if corner == "1" {
        base := if !fallingEdge then 135.0 else 315.0;
      } else if corner == "2" {
        base := if !fallingEdge then 45.0 else 225.0;
      } else if corner == "3" {
        base := if !fallingEdge then 315.0 else 135.0;
      }
      heading := base + heading;
    }

    /**
     * alignAngle: the robot spins counter-clockwise until the first edge,
     * clockwise until the second, and stops. The headings at the two edges
     * are recorded in that order, and the derived orientation, in radians,
     * is what goes to setTheta.
     */
    method AlignAngle(corner: string, first: real, second: real) returns (theta: real)
      requires Valid()
      modifies edges, this`edgeDifference, this`issued
      ensures edges[..] == [first, second]
      ensures edgeDifference == Sweep(first, second)
      ensures theta == ToRadians(Orientation(corner, fallingEdge, first, second))
      ensures issued == old(issued) + EdgeSweepCommands(ROTATION_SPEED)
    {
      ghost var start := issued;
      Issue(SetSpeed(LeftWheel, ROTATION_SPEED));
      Issue(SetSpeed(RightWheel, ROTATION_SPEED));
      Issue(Backward(LeftWheel));
      Issue(Forward(RightWheel));
      edges[0] := first;
      Issue(Forward(LeftWheel));
      Issue(Backward(RightWheel));
      assert issued == start + SpinCommands(ROTATION_SPEED) + ReverseCommands();
      edges[1] := second;
      var heading := ComputeAngle(corner);
      theta := ToRadians(heading);
      Issue(Stop(LeftWheel, true));
      Issue(Stop(RightWheel, false));
    }

    /** The four line headings go to consecutive slots, stepping the slot code from `first`. */
    method RecordLines(first: int, found: seq<real>)
      requires Valid() && 0 <= first < 4 && |found| == 4
      modifies lines
      ensures forall k :: 0 <= k < 4 ==> lines[(first + k) % 4] == found[k]
    {
      var code := first;
      lines[code] := found[0];
      code := (code + 1) % 4;
      lines[code] := found[1];
      code := (code + 1) % 4;
      lines[code] := found[2];
      code := (code + 1) % 4;
      lines[code] := found[3];
      ConsecutiveSlots(first);
      assert lines[first] == found[0] && lines[(first + 1) % 4] == found[1]
             && lines[(first + 2) % 4] == found[2] && lines[(first + 3) % 4] == found[3];
    }

    /**
     * fixXY: the odometer position snaps to the nearest tile multiples,
     * and the robot turns to the diagonal nearest its truncated heading.
     * Then it spins counter-clockwise through four lines and stops. The
     * four line headings fill consecutive slots from that diagonal's first
     * slot. X is corrected from slots 0 and 2, and Y from slots 1 and 3.
     * The heading is not written.
     */
    method FixXY(tile: real, cos: real -> real, x: real, y: real, thetaDegrees: real, found: seq<real>)
      returns (turnTarget: int, newX: real, newY: real)
      requires Valid() && tile > 0.0 && |found| == 4
      requires nav.leftRadius > 0.0 && nav.rightRadius > 0.0
      modifies lines, this`issued, nav`issued
      ensures turnTarget == ClosestReference(JavaInt(thetaDegrees))
      ensures nav.issued == old(nav.issued)
                            + TurnCommands(ZiplineNavigation.ROTATE_SPEED, ZiplineNavigation.SLOW_ACCEL,
                                           ZiplineNavigation.FAST_ACCEL,
                                           TurnWheels(nav.leftRadius, nav.rightRadius, nav.width,
                                                      turnTarget as real, thetaDegrees))
      ensures issued == old(issued) + LineSweepCommands(ROTATION_SPEED)
      ensures forall k :: 0 <= k < 4 ==> lines[SlotOf(turnTarget, k)] == found[k]
      ensures newX == Coordinate(cos, ClosestMultiple(tile, x), lines[0], lines[2])
      ensures newY == Coordinate(cos, ClosestMultiple(tile, y), lines[1], lines[3])
    {
      var currentX := ClosestMultiple(tile, x);
      var currentY := ClosestMultiple(tile, y);
      turnTarget := ClosestReference(JavaInt(thetaDegrees));
      nav.TurnTo(turnTarget as real, thetaDegrees);
      var code := FirstSlot(turnTarget);
      ghost var start := issued;
      Issue(SetSpeed(LeftWheel, ROTATION_SPEED));
      Issue(SetSpeed(RightWheel, ROTATION_SPEED));
      Issue(Backward(LeftWheel));
      Issue(Forward(RightWheel));
      assert issued == start + SpinCommands(ROTATION_SPEED);
      RecordLines(code, found);
      assert forall k :: 0 <= k < 4 ==> SlotOf(turnTarget, k) == (code + k) % 4;
      Issue(Stop(LeftWheel, true));
      Issue(Stop(RightWheel, false));
      assert issued == start + LineSweepCommands(ROTATION_SPEED);
      newX := Coordinate(cos, currentX, lines[0], lines[2]);
      newY := Coordinate(cos, currentY, lines[1], lines[3]);
    }

    method GetWaiting() returns (b: bool)
      ensures b == waiting
    {
      b := waiting;
    }

    method SetWaiting(b: bool)
      modifies this`waiting
      ensures waiting == b
    {
      waiting := b;
    }
  }
}
