/**
 * The Localisation lab's point-to-point driver. Its wheels may differ in
 * radius; travelTo never waits for the drive to finish, and interruptNav
 * always turns clockwise.
 */
module LabNavigation {
  import opened JavaSemantics
  import opened Motors
  import opened Driving
  import LabOdometry

  const FORWARD_SPEED: int := 250
  const ROTATE_SPEED: int := 150
  const SLOW_ACCEL: int := 250
  const FAST_ACCEL: int := 1000

  /** interruptNav: stop both wheels, waiting for each, then a quarter turn clockwise. */
  function InterruptCommands(leftRadius: real, rightRadius: real, width: real): (cmds: seq<Command>)
    requires leftRadius > 0.0 && rightRadius > 0.0
  {
    [Stop(RightWheel, false), Stop(LeftWheel, false),
     Rotate(LeftWheel, ConvertAngle(leftRadius, width, 90.0), true),
     Rotate(RightWheel, -ConvertAngle(rightRadius, width, 90.0), false)]
  }

  /**
   * travelTo's commands from the pose (currentX, currentY, thetaDegree):
   * the turn toward (x, y), then both wheels forward by the distance.
   */
  function TravelCommands(leftRadius: real, rightRadius: real, width: real, x: real, y: real,
                          currentX: real, currentY: real, thetaDegree: real,
                          atan2: (real, real) -> real, sqrt: real -> real): (cmds: seq<Command>)
    requires leftRadius > 0.0 && rightRadius > 0.0
  {
    TurnCommands(ROTATE_SPEED, SLOW_ACCEL, FAST_ACCEL,
                 TurnWheels(leftRadius, rightRadius, width, Bearing(x, y, currentX, currentY, atan2), thetaDegree))
    + ForwardCommands(FORWARD_SPEED,
                      ConvertDistance(leftRadius, TravelDistance(x, y, currentX, currentY, sqrt)),
                      ConvertDistance(rightRadius, TravelDistance(x, y, currentX, currentY, sqrt)),
                      true)
  }

  class Navigation {
    var issued: seq<Command>
    /** The heading, in whole degrees, at which driving was last interrupted; -1 before that. */
    var interruptedTheta: int
    const odometer: LabOdometry.Odometer
    const leftRadius: real
    const rightRadius: real
    const width: real

    /** The constructor sets both wheels to the fast acceleration. */
    constructor (odometer: LabOdometry.Odometer, leftRadius: real, rightRadius: real, width: real)
      ensures this.odometer == odometer && this.leftRadius == leftRadius
      ensures this.rightRadius == rightRadius && this.width == width
      ensures issued == [SetAcceleration(LeftWheel, FAST_ACCEL), SetAcceleration(RightWheel, FAST_ACCEL)]
      ensures interruptedTheta == -1
    {
      this.odometer := odometer;
      this.leftRadius := leftRadius;
      this.rightRadius := rightRadius;
      this.width := width;
      interruptedTheta := -1;
      issued := [SetAcceleration(LeftWheel, FAST_ACCEL), SetAcceleration(RightWheel, FAST_ACCEL)];
    }

    method Issue(c: Command)
      modifies this`issued
      ensures issued == old(issued) + [c]
    {
      issued := issued + [c];
    }

    /** travelTo: turn toward (x, y), then start both wheels without waiting for either. */
    method TravelTo(x: real, y: real, atan2: (real, real) -> real, sqrt: real -> real)
      requires leftRadius > 0.0 && rightRadius > 0.0
      modifies this`issued
      ensures issued == old(issued)
                        + TravelCommands(leftRadius, rightRadius, width, x, y,
                                         odometer.x, odometer.y, odometer.thetaDegree, atan2, sqrt)
    {
      ghost var start := issued;
      var currentX := odometer.x;
      var currentY := odometer.y;
      var nextHeading := Bearing(x, y, currentX, currentY, atan2);
      TurnTo(nextHeading);
      ghost var turned := issued;
      Issue(SetSpeed(LeftWheel, FORWARD_SPEED));
      Issue(SetSpeed(RightWheel, FORWARD_SPEED));
      var distance := TravelDistance(x, y, currentX, currentY, sqrt);
      Issue(Rotate(LeftWheel, ConvertDistance(leftRadius, distance), true));
      Issue(Rotate(RightWheel, ConvertDistance(rightRadius, distance), true));
      assert issued == turned + ForwardCommands(FORWARD_SPEED, ConvertDistance(leftRadius, distance),
                                                ConvertDistance(rightRadius, distance), true);
    }

    /** turnTo: the same choice of the shorter rotation as the other drivers. */
    method TurnTo(theta: real)
      requires leftRadius > 0.0 && rightRadius > 0.0
      modifies this`issued
      ensures issued == old(issued)
                        + TurnCommands(ROTATE_SPEED, SLOW_ACCEL, FAST_ACCEL,
                                       TurnWheels(leftRadius, rightRadius, width, theta, odometer.thetaDegree))
    {
      ghost var start := issued;
      ghost var w := TurnWheels(leftRadius, rightRadius, width, theta, odometer.thetaDegree);
      Issue(SetSpeed(LeftWheel, ROTATE_SPEED));
      Issue(SetSpeed(RightWheel, ROTATE_SPEED));
      var currentTheta := odometer.thetaDegree;
      var rightRotation := theta - currentTheta;
      if rightRotation < 0.0 {
        rightRotation := rightRotation + 360.0;
      }
      var leftRotation := currentTheta - theta;
      if leftRotation < 0.0 {
        leftRotation := leftRotation + 360.0;
      }
      assert rightRotation == RightRotation(theta, currentTheta) && leftRotation == LeftRotation(theta, currentTheta);
      Issue(SetAcceleration(RightWheel, SLOW_ACCEL));
      Issue(SetAcceleration(LeftWheel, SLOW_ACCEL));
      assert issued == start + TurnCommands(ROTATE_SPEED, SLOW_ACCEL, FAST_ACCEL, w)[..4];
      if rightRotation < leftRotation {
        assert w == Wheels(ConvertAngle(leftRadius, width, rightRotation), -ConvertAngle(rightRadius, width, rightRotation));
        Issue(Rotate(LeftWheel, ConvertAngle(leftRadius, width, rightRotation), true));
        Issue(Rotate(RightWheel, -ConvertAngle(rightRadius, width, rightRotation), false));
      } else {
        assert w == Wheels(-ConvertAngle(leftRadius, width, leftRotation), ConvertAngle(rightRadius, width, leftRotation));
        Issue(Rotate(LeftWheel, -ConvertAngle(leftRadius, width, leftRotation), true));
        Issue(Rotate(RightWheel, ConvertAngle(rightRadius, width, leftRotation), false));
      }
      assert issued == start + TurnCommands(ROTATE_SPEED, SLOW_ACCEL, FAST_ACCEL, w)[..6];
      Issue(SetAcceleration(RightWheel, FAST_ACCEL));
      Issue(SetAcceleration(LeftWheel, FAST_ACCEL));
      assert issued == start + TurnCommands(ROTATE_SPEED, SLOW_ACCEL, FAST_ACCEL, w);
    }

    /** interruptNav: stop, a quarter turn clockwise, and keep the truncated heading. */
    method InterruptNav()
      requires leftRadius > 0.0 && rightRadius > 0.0
      modifies this`issued, this`interruptedTheta
      ensures issued == old(issued) + InterruptCommands(leftRadius, rightRadius, width)
      ensures interruptedTheta == JavaInt(odometer.thetaDegree)
    {
      Issue(Stop(RightWheel, false));
      Issue(Stop(LeftWheel, false));
      Issue(Rotate(LeftWheel, ConvertAngle(leftRadius, width, 90.0), true));
      Issue(Rotate(RightWheel, -ConvertAngle(rightRadius, width, 90.0), false));
      SetInterruptedTheta(JavaInt(odometer.thetaDegree));
    }

    method SetInterruptedTheta(theta: int)
      modifies this`interruptedTheta
      ensures interruptedTheta == theta
    {
      interruptedTheta := theta;
    }
  }

  /**
   * travelTo waits for neither wheel: every rotation of its forward drive
   * returns at once, so the controller keeps running while the robot moves.
   */
  lemma TravelNeverWaits(leftDegrees: int, rightDegrees: int)
    ensures forall k :: 0 <= k < 4 && ForwardCommands(FORWARD_SPEED, leftDegrees, rightDegrees, true)[k].Rotate?
                        ==> ForwardCommands(FORWARD_SPEED, leftDegrees, rightDegrees, true)[k].immediateReturn
    ensures forall k :: 0 <= k < 2 ==> ForwardCommands(FORWARD_SPEED, leftDegrees, rightDegrees, true)[k].speed == FORWARD_SPEED
  {
  }

  /**
   * interruptNav always turns clockwise: the left wheel forward and the
   * right wheel back, each by its own quarter turn's degrees.
   */
  lemma InterruptTurnsClockwise(leftRadius: real, rightRadius: real, width: real)
    requires leftRadius > 0.0 && rightRadius > 0.0 && width >= 0.0
    ensures NetRotation(InterruptCommands(leftRadius, rightRadius, width), LeftWheel) == ConvertAngle(leftRadius, width, 90.0) >= 0
    ensures NetRotation(InterruptCommands(leftRadius, rightRadius, width), RightWheel) == -ConvertAngle(rightRadius, width, 90.0) <= 0
  {
    var cs := InterruptCommands(leftRadius, rightRadius, width);
    ConvertAngleRange(leftRadius, width, 90.0);
    ConvertAngleRange(rightRadius, width, 90.0);
    var l := Rotate(LeftWheel, ConvertAngle(leftRadius, width, 90.0), true);
    var r := Rotate(RightWheel, -ConvertAngle(rightRadius, width, 90.0), false);
    assert cs == cs[..2] + [l] + [r];
    NetRotationAppend(cs[..2] + [l], [r], LeftWheel);
    NetRotationAppend(cs[..2] + [l], [r], RightWheel);
    NetRotationAppend(cs[..2], [l], LeftWheel);
    NetRotationAppend(cs[..2], [l], RightWheel);
    NoRotation(cs[..2], LeftWheel);
    NoRotation(cs[..2], RightWheel);
  }
}
