/**
 * The Capture-the-Flag point-to-point driver. It reads the pose from the
 * odometer and drives both wheels; every motor call it makes is appended
 * to `issued`, in order.
 */
module CaptureNavigation {
  import opened JavaSemantics
  import opened Coordinates
  import opened GameParams
  import opened Motors
  import opened Driving
  import CaptureOdometry

  const FORWARD_SPEED: int := 200
  const ROTATE_SPEED: int := 150
  const SLOW_ACCEL: int := 200
  const FAST_ACCEL: int := 300

  /** forward: steady speed, fast acceleration, then both wheels by the same degrees. */
  function StraightCommands(wheelRadius: real, distance: real, returnThread: bool): (cmds: seq<Command>)
    requires wheelRadius > 0.0
  {
    [SetSpeed(LeftWheel, FORWARD_SPEED), SetSpeed(RightWheel, FORWARD_SPEED),
     SetAcceleration(RightWheel, FAST_ACCEL), SetAcceleration(LeftWheel, FAST_ACCEL),
     Rotate(LeftWheel, ConvertDistance(wheelRadius, distance), true),
     Rotate(RightWheel, ConvertDistance(wheelRadius, distance), returnThread)]
  }

  /** The polarity of interruptNav: +1 turns right, -1 turns left. */
  function Polarity(turnRight: bool): (sign: int)
  {
    if turnRight then 1 else -1
  }

  /**
   * interruptNav: stop the right wheel without waiting and the left one
   * waiting, then turn a quarter turn toward the chosen side.
   */
  function InterruptCommands(wheelRadius: real, track: real, turnRight: bool): (cmds: seq<Command>)
    requires wheelRadius > 0.0
  {
    [Stop(RightWheel, true), Stop(LeftWheel, false),
     Rotate(LeftWheel, Polarity(turnRight) * ConvertAngle(wheelRadius, track, 90.0), true),
     Rotate(RightWheel, -Polarity(turnRight) * ConvertAngle(wheelRadius, track, 90.0), false)]
  }

  class Navigation {
    /** The motor calls made so far, oldest first. */
    var issued: seq<Command>
    /** The heading at which driving was last interrupted; -1 before any interruption. */
    var interruptedTheta: real
    const odometer: CaptureOdometry.Odometer
    const wheelRadius: real
    const track: real
    const gameParameters: GameParameters

    constructor (odometer: CaptureOdometry.Odometer, wheelRadius: real, track: real, gameParameters: GameParameters)
      ensures this.odometer == odometer && this.wheelRadius == wheelRadius && this.track == track
      ensures this.gameParameters == gameParameters
      ensures issued == [] && interruptedTheta == -1.0
    {
      this.odometer := odometer;
      this.wheelRadius := wheelRadius;
      this.track := track;
      this.gameParameters := gameParameters;
      issued := [];
      interruptedTheta := -1.0;
    }

    method Issue(c: Command)
      modifies this`issued
      ensures issued == old(issued) + [c]
    {
      issued := issued + [c];
    }

    /**
     * turnTo: the two rotations from the odometer's heading in degrees,
     * and the wheel commands of the shorter one at slow acceleration.
     */
    method TurnTo(theta: real)
      requires wheelRadius > 0.0
      modifies this`issued
      ensures issued == old(issued)
                        + TurnCommands(ROTATE_SPEED, SLOW_ACCEL, FAST_ACCEL,
                                       TurnWheels(wheelRadius, wheelRadius, track, theta, odometer.thetaDegree))
    {
      ghost var start := issued;
      ghost var w := TurnWheels(wheelRadius, wheelRadius, track, theta, odometer.thetaDegree);
      Issue(SetSpeed(LeftWheel, ROTATE_SPEED));
      Issue(SetSpeed(RightWheel, ROTATE_SPEED));
      var currentTheta := odometer.thetaDegree;
      var rightRotation := theta - currentTheta;
      if rightRotation < 0.0 {
        rightRotation := rightRotation + 360.0;
      }
      var leftRotation := currentTheta - theta;
      if leftRotation < 0.0 {
        leftRotation := leftRotation + 360.0;
      }
      assert rightRotation == RightRotation(theta, currentTheta) && leftRotation == LeftRotation(theta, currentTheta);
      Issue(SetAcceleration(RightWheel, SLOW_ACCEL));
      Issue(SetAcceleration(LeftWheel, SLOW_ACCEL));
      assert issued == start + TurnCommands(ROTATE_SPEED, SLOW_ACCEL, FAST_ACCEL, w)[..4];
      if rightRotation < leftRotation {
        assert w == Wheels(ConvertAngle(wheelRadius, track, rightRotation), -ConvertAngle(wheelRadius, track, rightRotation));
        Issue(Rotate(LeftWheel, ConvertAngle(wheelRadius, track, rightRotation), true));
        Issue(Rotate(RightWheel, -ConvertAngle(wheelRadius, track, rightRotation), false));
      } else {
        assert w == Wheels(-ConvertAngle(wheelRadius, track, leftRotation), ConvertAngle(wheelRadius, track, leftRotation));
        Issue(Rotate(LeftWheel, -ConvertAngle(wheelRadius, track, leftRotation), true));
        Issue(Rotate(RightWheel, ConvertAngle(wheelRadius, track, leftRotation), false));
      }
      assert issued == start + TurnCommands(ROTATE_SPEED, SLOW_ACCEL, FAST_ACCEL, w)[..6];
      Issue(SetAcceleration(RightWheel, FAST_ACCEL));
      Issue(SetAcceleration(LeftWheel, FAST_ACCEL));
      assert issued == start + TurnCommands(ROTATE_SPEED, SLOW_ACCEL, FAST_ACCEL, w);
    }

    /** forward: both wheels by the wheel degrees of `distance`. */
    method Forward(distance: real, returnThread: bool)
      requires wheelRadius > 0.0
      modifies this`issued
      ensures issued == old(issued) + StraightCommands(wheelRadius, distance, returnThread)
    {
      Issue(SetSpeed(LeftWheel, FORWARD_SPEED));
      Issue(SetSpeed(RightWheel, FORWARD_SPEED));
      Issue(SetAcceleration(RightWheel, FAST_ACCEL));
      Issue(SetAcceleration(LeftWheel, FAST_ACCEL));
      Issue(Rotate(LeftWheel, ConvertDistance(wheelRadius, distance), true));
      Issue(Rotate(RightWheel, ConvertDistance(wheelRadius, distance), returnThread));
    }

    /**
     * travelTo: turn toward (x, y) from the odometer's position, then drive
     * the straight-line distance to it.
     */
    method TravelTo(x: real, y: real, returnThread: bool, atan2: (real, real) -> real, sqrt: real -> real)
      requires wheelRadius > 0.0
      modifies this`issued
      ensures issued == old(issued)
                        + TurnCommands(ROTATE_SPEED, SLOW_ACCEL, FAST_ACCEL,
                                       TurnWheels(wheelRadius, wheelRadius, track,
                                                  Bearing(x, y, odometer.x, odometer.y, atan2), odometer.thetaDegree))
                        + StraightCommands(wheelRadius, TravelDistance(x, y, odometer.x, odometer.y, sqrt), returnThread)
    {
      var currentX := odometer.x;
      var currentY := odometer.y;
      var nextHeading := Bearing(x, y, currentX, currentY, atan2);
      TurnTo(nextHeading);
      var distance := TravelDistance(x, y, currentX, currentY, sqrt);
      Forward(distance, returnThread);
    }

    /** faceZipline: turn toward the green zip line's end from its start. */
    method FaceZipline(atan2: (real, real) -> real)
      requires wheelRadius > 0.0
      modifies this`issued
      ensures issued == old(issued)
                        + TurnCommands(ROTATE_SPEED, SLOW_ACCEL, FAST_ACCEL,
                                       TurnWheels(wheelRadius, wheelRadius, track,
                                                  Bearing(gameParameters.ZC_G.x, gameParameters.ZC_G.y,
                                                          gameParameters.ZO_G.x, gameParameters.ZO_G.y, atan2),
                                                  odometer.thetaDegree))
    {
      TurnTo(ToDegrees(atan2(gameParameters.ZC_G.x - gameParameters.ZO_G.x, gameParameters.ZC_G.y - gameParameters.ZO_G.y)));
    }

    /**
     * interruptNav: stop, turn a quarter turn to the chosen side, and keep
     * the odometer's heading in degrees, truncated to an int.
     */
    method InterruptNav(turnRight: bool)
      requires wheelRadius > 0.0
      modifies this`issued, this`interruptedTheta
      ensures issued == old(issued) + InterruptCommands(wheelRadius, track, turnRight)
      ensures interruptedTheta == JavaInt(odometer.thetaDegree) as real
    {
      Issue(Stop(RightWheel, true));
      Issue(Stop(LeftWheel, false));
      var polarity := 1;
      if !turnRight {
        polarity := -1;
      }
      Issue(Rotate(LeftWheel, polarity * ConvertAngle(wheelRadius, track, 90.0), true));
      Issue(Rotate(RightWheel, -polarity * ConvertAngle(wheelRadius, track, 90.0), false));
      SetInterruptedTheta(JavaInt(odometer.thetaDegree) as real);
    }

    method SetInterruptedTheta(theta: real)
      modifies this`interruptedTheta
      ensures interruptedTheta == theta
    {
      interruptedTheta := theta;
    }
  }

  /**
   * forward turns both wheels by the same degrees, the left without
   * waiting, and leaves both at the fast acceleration.
   */
  lemma ForwardIsStraight(wheelRadius: real, distance: real, returnThread: bool)
    requires wheelRadius > 0.0
    ensures NetRotation(StraightCommands(wheelRadius, distance, returnThread), LeftWheel)
            == NetRotation(StraightCommands(wheelRadius, distance, returnThread), RightWheel)
            == ConvertDistance(wheelRadius, distance)
    ensures LastAcceleration(StraightCommands(wheelRadius, distance, returnThread), LeftWheel) == Some(FAST_ACCEL)
    ensures LastAcceleration(StraightCommands(wheelRadius, distance, returnThread), RightWheel) == Some(FAST_ACCEL)
    ensures StraightCommands(wheelRadius, distance, returnThread)[4].immediateReturn
    ensures StraightCommands(wheelRadius, distance, returnThread)[5].immediateReturn == returnThread
  {
    var cs := StraightCommands(wheelRadius, distance, returnThread);
    var d := ConvertDistance(wheelRadius, distance);
    assert cs == cs[..4] + [Rotate(LeftWheel, d, true)] + [Rotate(RightWheel, d, returnThread)];
    NetRotationAppend(cs[..4] + [Rotate(LeftWheel, d, true)], [Rotate(RightWheel, d, returnThread)], LeftWheel);
    NetRotationAppend(cs[..4] + [Rotate(LeftWheel, d, true)], [Rotate(RightWheel, d, returnThread)], RightWheel);
    NetRotationAppend(cs[..4], [Rotate(LeftWheel, d, true)], LeftWheel);
    NetRotationAppend(cs[..4], [Rotate(LeftWheel, d, true)], RightWheel);
    NoRotation(cs[..4], LeftWheel);
    NoRotation(cs[..4], RightWheel);
    LastAccelerationAppend(cs[..4], cs[4..], LeftWheel);
    LastAccelerationAppend(cs[..4], cs[4..], RightWheel);
    NoAcceleration(cs[4..], LeftWheel);
    NoAcceleration(cs[4..], RightWheel);
    assert cs[..4] == cs[..3] + [SetAcceleration(LeftWheel, FAST_ACCEL)];
    assert cs[..3] == cs[..2] + [SetAcceleration(RightWheel, FAST_ACCEL)];
    assert cs == cs[..4] + cs[4..];
  }

  /**
   * interruptNav turns on the spot: the wheels turn opposite ways by a
   * quarter turn's degrees, the left one forward exactly when turning
   * right, and both wheels are stopped first.
   */
  lemma InterruptTurnsOnTheSpot(wheelRadius: real, track: real, turnRight: bool)
    requires wheelRadius > 0.0 && track >= 0.0
    ensures NetRotation(InterruptCommands(wheelRadius, track, turnRight), LeftWheel)
            == -NetRotation(InterruptCommands(wheelRadius, track, turnRight), RightWheel)
    ensures turnRight ==> NetRotation(InterruptCommands(wheelRadius, track, turnRight), LeftWheel) >= 0
    ensures !turnRight ==> NetRotation(InterruptCommands(wheelRadius, track, turnRight), LeftWheel) <= 0
    ensures Abs(NetRotation(InterruptCommands(wheelRadius, track, turnRight), LeftWheel)) == ConvertAngle(wheelRadius, track, 90.0)
    ensures InterruptCommands(wheelRadius, track, turnRight)[..2] == [Stop(RightWheel, true), Stop(LeftWheel, false)]
  {
    var cs := InterruptCommands(wheelRadius, track, turnRight);
    var a := ConvertAngle(wheelRadius, track, 90.0);
    ConvertAngleRange(wheelRadius, track, 90.0);
    var l := Rotate(LeftWheel, Polarity(turnRight) * a, true);
    var r := Rotate(RightWheel, -Polarity(turnRight) * a, false);
    assert cs == cs[..2] + [l] + [r];
    NetRotationAppend(cs[..2] + [l], [r], LeftWheel);
    NetRotationAppend(cs[..2] + [l], [r], RightWheel);
    NetRotationAppend(cs[..2], [l], LeftWheel);
    NetRotationAppend(cs[..2], [l], RightWheel);
    NoRotation(cs[..2], LeftWheel);
    NoRotation(cs[..2], RightWheel);
  }

  /**
   * The stored interruption heading is a whole number of degrees, so the
   * second truncation the path planner applies to it changes nothing.
   */
  lemma InterruptedHeadingIsWhole(thetaDegree: real)
    ensures JavaInt(JavaInt(thetaDegree) as real) == JavaInt(thetaDegree)
  {
  }
}
