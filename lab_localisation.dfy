/**
 * The localisation lab's routine. The robot spins in place. The
 * ultrasonic pass records two wall-edge headings and derives the
 * orientation. The light pass records four grid-line headings and derives
 * X and Y, measured from the grid intersection.
 *
 * The busy waits on the pollers are not modelled: the headings the
 * odometer reports when each edge or line is seen are parameters. The
 * odometer writes are results, because that odometer is not part of this
 * model. The wheel commands go to the routine's own log, in order.
 */
module LabLocalisation {
  import opened JavaSemantics
  import opened Motors
  import opened LocalisationGeometry
  import opened LocalisationSweeps

  /** The base orientation: 225 for the rising-edge routine, 45 for the falling-edge one. */
  function EdgeBase(fallingEdge: bool): (b: real)
    ensures IsHeading(b)
  {
    if !fallingEdge then 225.0 else 45.0
  }

  /** computeAngle's result for the two recorded edge headings. */
  function Orientation(fallingEdge: bool, first: real, second: real): (h: real)
    ensures IsHeading(first) && IsHeading(second) ==> EdgeBase(fallingEdge) <= h < EdgeBase(fallingEdge) + 180.0
  {
    Bisector(EdgeBase(fallingEdge), first, second)
  }

  /** The two modes' orientations differ by exactly half a circle. */
  lemma RisingIsFallingTurnedHalfCircle(first: real, second: real)
    ensures Orientation(false, first, second) == Orientation(true, first, second) + 180.0
  {
  }

  class Localisation {
    const fallingEdge: bool
    /** The normalised sweep between the two edges the last computeAngle saw. */
    var edgeDifference: real
    var waiting: bool
    /** The wheel commands issued so far, in order. */
    var issued: seq<Command>
    const edges: array<real>
    const lines: array<real>

    predicate Valid()
      reads this
    {
      edges.Length == 2 && lines.Length == 4 && edges != lines
    }

    constructor (fallingEdge: bool)
      ensures Valid() && this.fallingEdge == fallingEdge
      ensures edges[..] == [-1.0, -1.0] && lines[..] == [-1.0, -1.0, -1.0, -1.0]
      ensures edgeDifference == -1.0 && !waiting && issued == []
    {
      this.fallingEdge := fallingEdge;
      edgeDifference := -1.0;
      waiting := false;
      issued := [];
      edges := new real[2](_ => -1.0);
      lines := new real[4](_ => -1.0);
    }

    method Issue(c: Command)
      modifies this`issued
      ensures issued == old(issued) + [c]
    {
      issued := issued + [c];
    }

    /**
     * computeAngle: stores the normalised sweep between the edges and
     * returns the base plus its half.
     */
    method ComputeAngle() returns (heading: real)
      requires Valid()
      modifies this`edgeDifference
      ensures edgeDifference == Sweep(edges[0], edges[1])
      ensures heading == Orientation(fallingEdge, edges[0], edges[1])
    {
      heading := edges[1] - edges[0];
      if heading < 0.0 {
        heading := heading + 360.0;
      }
      edgeDifference := heading;
      heading := heading / 2.0;
      if !fallingEdge {
        heading := 225.0 + heading;
      } else {
        heading := 45.0 + heading;
      }
    }

    /** computeX: the offset from the line angle between slots 0 and 1. */
    method ComputeX(cos: real -> real) returns (x: real)
      requires Valid()
      ensures x == LineOffset(cos, HalvedDifference(lines[0], lines[1]))
    {
      var thetaD := (lines[0] - lines[1]) / 2.0;
      if thetaD < 0.0 {
        thetaD := thetaD + 360.0;
      }
      x := -COLOR_SENSOR_OFFSET * cos(ToRadians(thetaD));
    }

    /** computeY: the offset from the line angle between slots 2 and 3. */
    method ComputeY(cos: real -> real) returns (y: real)
      requires Valid()
      ensures y == LineOffset(cos, HalvedDifference(lines[2], lines[3]))
    {
      var thetaD := (lines[2] - lines[3]) / 2.0;
      if thetaD < 0.0 {
        thetaD := thetaD + 360.0;
      }
      y := -COLOR_SENSOR_OFFSET * cos(ToRadians(thetaD));
    }

    /**
     * alignAngle: the robot spins counter-clockwise until the first edge,
     * clockwise until the second, and stops. The headings at the two edges
     * are recorded in that order, and the derived orientation, in radians,
     * is what goes to setTheta.
     */
    method AlignAngle(first: real, second: real) returns (theta: real)
      requires Valid()
      modifies edges, this`edgeDifference, this`issued
      ensures edges[..] == [first, second]
      ensures edgeDifference == Sweep(first, second)
      ensures theta == ToRadians(Orientation(fallingEdge, first, second))
      ensures issued == old(issued) + EdgeSweepCommands(ROTATION_SPEED)
    {
      ghost var start := issued;
      Issue(SetSpeed(LeftWheel, ROTATION_SPEED));
      Issue(SetSpeed(RightWheel, ROTATION_SPEED));
      Issue(Backward(LeftWheel));
      Issue(Forward(RightWheel));
      edges[0] := first;
      Issue(Forward(LeftWheel));
      Issue(Backward(RightWheel));
      assert issued == start + SpinCommands(ROTATION_SPEED) + ReverseCommands();
      edges[1] := second;
      var heading := ComputeAngle();
      theta := ToRadians(heading);
      Issue(Stop(LeftWheel, true));
      Issue(Stop(RightWheel, false));
    }

    /**
     * fixXY: the robot spins counter-clockwise through four lines and
     * stops. The four line headings go to slots 0, 2, 1 and 3, in the
     * order they are seen. X comes from the first and third line, and Y
     * from the second and fourth. Both lie within 15 of the intersection.
     */
    method FixXY(cos: real -> real, found: seq<real>) returns (newX: real, newY: real)
      requires Valid() && |found| == 4
      modifies lines, this`issued
      ensures lines[..] == [found[0], found[2], found[1], found[3]]
      ensures newX == LineOffset(cos, HalvedDifference(found[0], found[2]))
      ensures newY == LineOffset(cos, HalvedDifference(found[1], found[3]))
      ensures (forall a :: -1.0 <= cos(a) <= 1.0) ==>
                -COLOR_SENSOR_OFFSET <= newX <= COLOR_SENSOR_OFFSET && -COLOR_SENSOR_OFFSET <= newY <= COLOR_SENSOR_OFFSET
      ensures issued == old(issued) + LineSweepCommands(ROTATION_SPEED)
    {
      ghost var start := issued;
      Issue(SetSpeed(LeftWheel, ROTATION_SPEED));
      Issue(SetSpeed(RightWheel, ROTATION_SPEED));
      Issue(Backward(LeftWheel));
      Issue(Forward(RightWheel));
      assert issued == start + SpinCommands(ROTATION_SPEED);
      lines[0] := found[0];
      lines[2] := found[1];
      lines[1] := found[2];
      lines[3] := found[3];
      Issue(Stop(LeftWheel, true));
      Issue(Stop(RightWheel, false));
      assert issued == start + LineSweepCommands(ROTATION_SPEED);
      newX := ComputeX(cos);
      newY := ComputeY(cos);
    }

    method GetWaiting() returns (b: bool)
      ensures b == waiting
    {
      b := waiting;
    }

    method SetWaiting(b: bool)
      modifies this`waiting
      ensures waiting == b
    {
      waiting := b;
    }
  }
}
