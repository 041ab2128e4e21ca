/**
 * The zip-line lab's point-to-point driver. The zip-line odometer is not
 * part of this model, so the pose each call reads from it is passed in.
 */
module ZiplineNavigation {
  import opened JavaSemantics
  import opened Motors
  import opened Driving

  const FORWARD_SPEED: int := 150
  const ROTATE_SPEED: int := 140
  const SLOW_ACCEL: int := 250
  const FAST_ACCEL: int := 500

  class Navigation {
    var issued: seq<Command>
    const leftRadius: real
    const rightRadius: real
    const width: real

    /** The constructor sets both wheels to the fast acceleration. */
    constructor (leftRadius: real, rightRadius: real, width: real)
      ensures this.leftRadius == leftRadius && this.rightRadius == rightRadius && this.width == width
      ensures issued == [SetAcceleration(LeftWheel, FAST_ACCEL), SetAcceleration(RightWheel, FAST_ACCEL)]
    {
      this.leftRadius := leftRadius;
      this.rightRadius := rightRadius;
      this.width := width;
      issued := [SetAcceleration(LeftWheel, FAST_ACCEL), SetAcceleration(RightWheel, FAST_ACCEL)];
    }

    method Issue(c: Command)
      modifies this`issued
      ensures issued == old(issued) + [c]
    {
      issued := issued + [c];
    }

    /**
     * travelTo: turn toward (x, y), then drive the distance at the forward
     * speed, waiting for the right wheel unless `returnThread`.
     */
    method TravelTo(x: real, y: real, returnThread: bool, currentX: real, currentY: real, currentTheta: real,
                    atan2: (real, real) -> real, sqrt: real -> real)
      requires leftRadius > 0.0 && rightRadius > 0.0
      modifies this`issued
      ensures issued == old(issued)
                        + TurnCommands(ROTATE_SPEED, SLOW_ACCEL, FAST_ACCEL,
                                       TurnWheels(leftRadius, rightRadius, width,
                                                  Bearing(x, y, currentX, currentY, atan2), currentTheta))
                        + ForwardCommands(FORWARD_SPEED,
                                          ConvertDistance(leftRadius, TravelDistance(x, y, currentX, currentY, sqrt)),
                                          ConvertDistance(rightRadius, TravelDistance(x, y, currentX, currentY, sqrt)),
                                          returnThread)
    {
      var nextHeading := Bearing(x, y, currentX, currentY, atan2);
      TurnTo(nextHeading, currentTheta);
      Issue(SetSpeed(LeftWheel, FORWARD_SPEED));
      Issue(SetSpeed(RightWheel, FORWARD_SPEED));
      var distance := TravelDistance(x, y, currentX, currentY, sqrt);
      Issue(Rotate(LeftWheel, ConvertDistance(leftRadius, distance), true));
      Issue(Rotate(RightWheel, ConvertDistance(rightRadius, distance), returnThread));
    }

    /** turnTo(theta): the shorter rotation from the current heading. */
    method TurnTo(theta: real, currentTheta: real)
      requires leftRadius > 0.0 && rightRadius > 0.0
      modifies this`issued
      ensures issued == old(issued)
                        + TurnCommands(ROTATE_SPEED, SLOW_ACCEL, FAST_ACCEL,
                                       TurnWheels(leftRadius, rightRadius, width, theta, currentTheta))
    {
      ghost var start := issued;
      ghost var w := TurnWheels(leftRadius, rightRadius, width, theta, currentTheta);
      Issue(SetSpeed(LeftWheel, ROTATE_SPEED));
      Issue(SetSpeed(RightWheel, ROTATE_SPEED));
      var rightRotation := theta - currentTheta;
      if rightRotation < 0.0 {
        rightRotation := rightRotation + 360.0;
      }
      var leftRotation := currentTheta - theta;
      if leftRotation < 0.0 {
        leftRotation := leftRotation + 360.0;
      }
      assert rightRotation == RightRotation(theta, currentTheta) && leftRotation == LeftRotation(theta, currentTheta);
      Issue(SetAcceleration(RightWheel, SLOW_ACCEL));
      Issue(SetAcceleration(LeftWheel, SLOW_ACCEL));
      assert issued == start + TurnCommands(ROTATE_SPEED, SLOW_ACCEL, FAST_ACCEL, w)[..4];
      if rightRotation < leftRotation {
        assert w == Wheels(ConvertAngle(leftRadius, width, rightRotation), -ConvertAngle(rightRadius, width, rightRotation));
        Issue(Rotate(LeftWheel, ConvertAngle(leftRadius, width, rightRotation), true));
        Issue(Rotate(RightWheel, -ConvertAngle(rightRadius, width, rightRotation), false));
      } else {
        assert w == Wheels(-ConvertAngle(leftRadius, width, leftRotation), ConvertAngle(rightRadius, width, leftRotation));
        Issue(Rotate(LeftWheel, -ConvertAngle(leftRadius, width, leftRotation), true));
        Issue(Rotate(RightWheel, ConvertAngle(rightRadius, width, leftRotation), false));
      }
      assert issued == start + TurnCommands(ROTATE_SPEED, SLOW_ACCEL, FAST_ACCEL, w)[..6];
      Issue(SetAcceleration(RightWheel, FAST_ACCEL));
      Issue(SetAcceleration(LeftWheel, FAST_ACCEL));
      assert issued == start + TurnCommands(ROTATE_SPEED, SLOW_ACCEL, FAST_ACCEL, w);
    }

    /** turnTo(x, y): turnTo of the bearing from the current position to (x, y). */
    method TurnToPoint(x: real, y: real, currentX: real, currentY: real, currentTheta: real,
                       atan2: (real, real) -> real)
      requires leftRadius > 0.0 && rightRadius > 0.0
      modifies this`issued
      ensures issued == old(issued)
                        + TurnCommands(ROTATE_SPEED, SLOW_ACCEL, FAST_ACCEL,
                                       TurnWheels(leftRadius, rightRadius, width,
                                                  Bearing(x, y, currentX, currentY, atan2), currentTheta))
    {
      var nextHeading := Bearing(x, y, currentX, currentY, atan2);
      TurnTo(nextHeading, currentTheta);
    }

    /** forward: both wheels by the distance, at the rotation speed rather than the forward one. */
    method Forward(distance: real, returnThread: bool)
      requires leftRadius > 0.0 && rightRadius > 0.0
      modifies this`issued
      ensures issued == old(issued)
                        + ForwardCommands(ROTATE_SPEED, ConvertDistance(leftRadius, distance),
                                          ConvertDistance(rightRadius, distance), returnThread)
    {
      Issue(SetSpeed(LeftWheel, ROTATE_SPEED));
      Issue(SetSpeed(RightWheel, ROTATE_SPEED));
      Issue(Rotate(LeftWheel, ConvertDistance(leftRadius, distance), true));
      Issue(Rotate(RightWheel, ConvertDistance(rightRadius, distance), returnThread));
    }
  }

  /**
   * Turning toward a point with an `atan2` valued in [-π, π] reaches the
   * bearing modulo a full turn, by at most half a turn, and ends at the
   * fast acceleration.
   */
  lemma TurnToPointReachesBearing(x: real, y: real, currentX: real, currentY: real, currentTheta: real,
                                  atan2: (real, real) -> real, leftRadius: real, rightRadius: real, width: real)
    requires forall a, b :: -PI <= atan2(a, b) <= PI
    requires 0.0 <= currentTheta < 360.0
    requires leftRadius > 0.0 && rightRadius > 0.0
    ensures var b := Bearing(x, y, currentX, currentY, atan2);
            var reached := currentTheta + SignedTurn(b, currentTheta);
            -180.0 <= SignedTurn(b, currentTheta) <= 180.0
            && (reached == b || reached == b + 360.0 || reached == b - 360.0)
    ensures var cs := TurnCommands(ROTATE_SPEED, SLOW_ACCEL, FAST_ACCEL,
                                   TurnWheels(leftRadius, rightRadius, width,
                                              Bearing(x, y, currentX, currentY, atan2), currentTheta));
            LastAcceleration(cs, LeftWheel) == Some(FAST_ACCEL) && LastAcceleration(cs, RightWheel) == Some(FAST_ACCEL)
  {
    var b := Bearing(x, y, currentX, currentY, atan2);
    BearingInRange(x, y, currentX, currentY, atan2);
    TurnReachesHeading(b, currentTheta);
    TurnEndsFast(ROTATE_SPEED, SLOW_ACCEL, FAST_ACCEL, TurnWheels(leftRadius, rightRadius, width, b, currentTheta));
  }
}
