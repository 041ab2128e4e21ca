/**
 * The Capture-the-Flag robot's localisation, on the rising-edge routine
 * only. The ultrasonic pass sets the odometer heading from two wall
 * edges. The light pass sets X, Y and the heading from four grid lines.
 * The routine pauses its thread until a poller resumes it.
 *
 * The pauses are not modelled as waits: the headings the odometer reports
 * when each edge or line is seen are parameters. The odometer is the
 * CaptureOdometry one, and the routine writes to it through its setters.
 * The wheel commands go to the routine's own log, in order.
 */
module CaptureLocalisation {
  import opened JavaSemantics
  import opened Motors
  import opened Angles
  import opened LocalisationGeometry
  import opened LocalisationSweeps
  import CaptureOdometry

  /** The base orientation of the rising-edge routine. */
  const RISING_BASE: real := 225.0
  const FALLING_BASE: real := 45.0

  /** computeAngle's result for the two recorded edge headings, in degrees. */
  function Orientation(first: real, second: real): (h: real)
    ensures IsHeading(first) && IsHeading(second) ==> RISING_BASE <= h < RISING_BASE + 180.0
  {
    Bisector(RISING_BASE, first, second)
  }

  /**
   * computeThetaColor: 275 plus the whole difference of the two lines, in
   * radians. The difference is not halved, so the angle handed to the
   * odometer need not be a heading. The odometer brings it into range.
   */
  function ThetaColor(a: real, b: real): (r: real)
    ensures IsHeading(a) && IsHeading(b) ==> -85.0 < ToDegrees(r) < 635.0
  {
    RadiansDegreesRoundTrip(275.0 + (a - b));
    ToRadians(275.0 + (a - b))
  }

  class Localisation {
    /** Fixed false: the routine always runs on rising edges. */
    const fallingEdge: bool
    /** The normalised sweep between the two edges the last computeAngle saw. */
    var edgeDifference: real
    var paused: bool
    /** The wheel commands issued so far, in order. */
    var issued: seq<Command>
    const edges: array<real>
    const lines: array<real>

    predicate Valid()
      reads this
    {
      !fallingEdge && edges.Length == 2 && lines.Length == 4 && edges != lines
    }

    constructor ()
      ensures Valid()
      ensures edges[..] == [-1.0, -1.0] && lines[..] == [-1.0, -1.0, -1.0, -1.0]
      ensures edgeDifference == -1.0 && !paused && issued == []
    {
      fallingEdge := false;
      edgeDifference := -1.0;
      paused := false;
      issued := [];
      edges := new real[2](_ => -1.0);
      lines := new real[4](_ => -1.0);
    }

    method Issue(c: Command)
      modifies this`issued
      ensures issued == old(issued) + [c]
    {
      issued := issued + [c];
    }

    /**
     * computeAngle: stores the normalised sweep between the edges and
     * returns the rising-edge base plus its half.
     */
    method ComputeAngle() returns (heading: real)
      requires Valid()
      modifies this`edgeDifference
      ensures edgeDifference == Sweep(edges[0], edges[1])
      ensures heading == Orientation(edges[0], edges[1])
    {
      heading := edges[1] - edges[0];
      if heading < 0.0 {
        heading := heading + 360.0;
      }
      edgeDifference := heading;
      heading := heading / 2.0;
      if !fallingEdge {
        heading := RISING_BASE + heading;
      } else {
        heading := FALLING_BASE + heading;
      }
    }

    /** computeX: the offset from the line angle between slots 0 and 1. */
    method ComputeX(cos: real -> real) returns (x: real)
      requires Valid()
      ensures x == LineOffset(cos, HalvedDifference(lines[0], lines[1]))
    {
      var thetaD := (lines[0] - lines[1]) / 2.0;
      if thetaD < 0.0 {
        thetaD := thetaD + 360.0;
      }
      x := -COLOR_SENSOR_OFFSET * cos(ToRadians(thetaD));
    }

    /** computeY: the offset from the line angle between slots 2 and 3. */
    method ComputeY(cos: real -> real) returns (y: real)
      requires Valid()
      ensures y == LineOffset(cos, HalvedDifference(lines[2], lines[3]))
    {
      var thetaD := (lines[2] - lines[3]) / 2.0;
      if thetaD < 0.0 {
        thetaD := thetaD + 360.0;
      }
      y := -COLOR_SENSOR_OFFSET * cos(ToRadians(thetaD));
    }

    /**
     * usLocalisation: the robot spins counter-clockwise until the first
     * edge, clockwise until the second, and stops. The headings at the two
     * edges are recorded in that order, then the odometer heading is set to
     * the derived orientation before the stop. Position is left alone.
     */
    method UsLocalisation(odometer: CaptureOdometry.Odometer, first: real, second: real)
      requires Valid()
      modifies edges, this`edgeDifference, this`issued, odometer`theta, odometer`thetaDegree
      ensures edges[..] == [first, second]
      ensures edgeDifference == Sweep(first, second)
      ensures odometer.theta == Normalise(ToRadians(Orientation(first, second)))
      ensures odometer.thetaDegree == ToDegrees(odometer.theta)
      ensures issued == old(issued) + EdgeSweepCommands(ROTATION_SPEED)
    {
      ghost var start := issued;
      Issue(SetSpeed(LeftWheel, ROTATION_SPEED));
      Issue(SetSpeed(RightWheel, ROTATION_SPEED));
      Issue(Backward(LeftWheel));
      Issue(Forward(RightWheel));
      edges[0] := first;
      Issue(Forward(LeftWheel));
      Issue(Backward(RightWheel));
      assert issued == start + SpinCommands(ROTATION_SPEED) + ReverseCommands();
      edges[1] := second;
      var heading := ComputeAngle();
      odometer.SetTheta(ToRadians(heading));
      Issue(Stop(LeftWheel, true));
      Issue(Stop(RightWheel, false));
    }

    /**
     * colorLocalisation: the robot spins counter-clockwise through four
     * lines and stops. The four line headings go to slots 0, 2, 1 and 3, in
     * the order they are seen. Then X, Y and the heading are set, in that
     * order.
     */
    method ColorLocalisation(odometer: CaptureOdometry.Odometer, cos: real -> real, found: seq<real>)
      requires Valid() && |found| == 4
      modifies lines, this`issued, odometer`x, odometer`y, odometer`theta, odometer`thetaDegree
      ensures lines[..] == [found[0], found[2], found[1], found[3]]
      ensures odometer.x == LineOffset(cos, HalvedDifference(found[0], found[2]))
      ensures odometer.y == LineOffset(cos, HalvedDifference(found[1], found[3]))
      ensures odometer.theta == Normalise(ThetaColor(found[1], found[3]))
      ensures odometer.thetaDegree == ToDegrees(odometer.theta)
      ensures issued == old(issued) + LineSweepCommands(ROTATION_SPEED)
    {
      ghost var start := issued;
      Issue(SetSpeed(LeftWheel, ROTATION_SPEED));
      Issue(SetSpeed(RightWheel, ROTATION_SPEED));
      Issue(Backward(LeftWheel));
      Issue(Forward(RightWheel));
      assert issued == start + SpinCommands(ROTATION_SPEED);
      lines[0] := found[0];
      lines[2] := found[1];
      lines[1] := found[2];
      lines[3] := found[3];
      Issue(Stop(LeftWheel, true));
      Issue(Stop(RightWheel, false));
      assert issued == start + LineSweepCommands(ROTATION_SPEED);
      var x := ComputeX(cos);
      odometer.SetX(x);
      var y := ComputeY(cos);
      odometer.SetY(y);
      odometer.SetTheta(ToRadians(275.0 + (lines[2] - lines[3])));
    }

    /** pauseThread: raises the flag the poller waits to clear. The wait itself is not modelled. */
    method PauseThread()
      modifies this`paused
      ensures paused
    {
      paused := true;
    }

    /**
     * resumeThread: clears the flag, and wakes the paused thread only when
     * the flag was raised.
     */
    method ResumeThread() returns (woken: bool)
      modifies this`paused
      ensures !paused
      ensures woken == old(paused)
    {
      woken := false;
      if paused {
        paused := false;
        woken := true;
      }
    }
  }
}
