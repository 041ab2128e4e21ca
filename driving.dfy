/**
 * Point-to-point driving shared by every Navigation class and the square
 * driver: converting a distance or a turn into wheel degrees, and picking
 * the direction of a turn.
 */
module Driving {
  import opened JavaSemantics
  import opened Motors

  /**
   * convertDistance: the wheel degrees that roll `distance`, truncated to
   * an int; they have the sign of the distance.
   */
  function ConvertDistance(radius: real, distance: real): (degrees: int)
    requires radius > 0.0
    ensures INT_MIN <= degrees <= INT_MAX
    ensures distance >= 0.0 ==> degrees >= 0
    ensures distance <= 0.0 ==> degrees <= 0
  {
    QuotientSign(180.0 * distance, PI * radius);
    JavaInt((180.0 * distance) / (PI * radius))
  }

  /**
   * convertAngle: the wheel degrees that turn the robot by `angle` degrees
   * on the spot; for a real wheelbase they have the sign of the angle.
   */
  function ConvertAngle(radius: real, width: real, angle: real): (degrees: int)
    requires radius > 0.0
    ensures INT_MIN <= degrees <= INT_MAX
    ensures width >= 0.0 && angle >= 0.0 ==> degrees >= 0
    ensures width >= 0.0 && angle <= 0.0 ==> degrees <= 0
  {
    ProductSign(PI * width, angle);
    ConvertDistance(radius, PI * width * angle / 360.0)
  }

  lemma ProductSign(a: real, b: real)
    ensures a >= 0.0 && b >= 0.0 ==> a * b >= 0.0
    ensures a >= 0.0 && b <= 0.0 ==> a * b <= 0.0
  {
    if a >= 0.0 && b <= 0.0 {
      assert a * b == -(a * (-b));
    }
  }

  lemma DivLeq(a: real, b: real, c: real)
    requires c > 0.0 && a <= b
    ensures a / c <= b / c
  {
    QuotientSign(b - a, c);
    assert (b - a) / c == b / c - a / c;
  }

  lemma TruncMonotone(a: real, b: real)
    requires a <= b
    ensures Trunc(a) <= Trunc(b)
  {
  }

  /** Rolling further never takes fewer wheel degrees. */
  lemma ConvertDistanceMonotone(radius: real, d1: real, d2: real)
    requires radius > 0.0 && d1 <= d2
    ensures ConvertDistance(radius, d1) <= ConvertDistance(radius, d2)
  {
    assert 180.0 * d1 <= 180.0 * d2;
    DivLeq(180.0 * d1, 180.0 * d2, PI * radius);
    TruncMonotone(180.0 * d1 / (PI * radius), 180.0 * d2 / (PI * radius));
  }

  /** Rolling backward takes the same wheel degrees as rolling forward, negated. */
  lemma ConvertDistanceOdd(radius: real, distance: real)
    requires radius > 0.0
    requires -INT_MAX <= Trunc((180.0 * distance) / (PI * radius)) <= INT_MAX
    ensures ConvertDistance(radius, -distance) == -ConvertDistance(radius, distance)
  {
    var q := (180.0 * distance) / (PI * radius);
    assert (180.0 * -distance) / (PI * radius) == -q;
    JavaIntNegate(q);
  }

  /**
   * The constant π cancels out of convertAngle: turning by `angle` degrees
   * takes width·angle / (2·radius) wheel degrees, truncated.
   */
  lemma ConvertAngleCancelsPi(radius: real, width: real, angle: real)
    requires radius > 0.0
    ensures ConvertAngle(radius, width, angle) == JavaInt(width * angle / (2.0 * radius))
  {
    var arc := PI * width * angle / 360.0;
    var n := 180.0 * arc;
    assert n == PI * (width * angle) / 2.0;
    var wa := width * angle;
    assert n / (PI * radius) == wa / (2.0 * radius) by {
      assert (wa / (2.0 * radius)) * (PI * radius) == PI * wa / 2.0;
      QuotientSign(n, PI * radius);
    }
  }

  /** turnTo's clockwise rotation from `current` to `theta`, in [0, 360) for headings in range. */
  function RightRotation(theta: real, current: real): (r: real)
  {
    var r := theta - current;
    if r < 0.0 then r + 360.0 else r
  }

  /** turnTo's counter-clockwise rotation from `current` to `theta`. */
  function LeftRotation(theta: real, current: real): (r: real)
  {
    var l := current - theta;
    if l < 0.0 then l + 360.0 else l
  }

  /** turnTo turns clockwise only when that way round is strictly shorter. */
  predicate TurnsClockwise(theta: real, current: real)
  {
    RightRotation(theta, current) < LeftRotation(theta, current)
  }

  /** The rotation turnTo executes, in degrees of heading. */
  function Rotation(theta: real, current: real): (r: real)
  {
    if TurnsClockwise(theta, current) then RightRotation(theta, current) else LeftRotation(theta, current)
  }

  /**
   * For headings in [0, 360): both rotations are in [0, 360) and add up to
   * a full turn when the headings differ, so the executed one is the
   * shorter way round and never more than half a turn.
   */
  lemma TurnIsShortest(theta: real, current: real)
    requires 0.0 <= theta < 360.0 && 0.0 <= current < 360.0
    ensures 0.0 <= RightRotation(theta, current) < 360.0
    ensures 0.0 <= LeftRotation(theta, current) < 360.0
    ensures theta != current ==> RightRotation(theta, current) + LeftRotation(theta, current) == 360.0
    ensures theta == current ==> Rotation(theta, current) == 0.0 && !TurnsClockwise(theta, current)
    ensures Rotation(theta, current) <= RightRotation(theta, current)
    ensures Rotation(theta, current) <= LeftRotation(theta, current)
    ensures 0.0 <= Rotation(theta, current) <= 180.0
  {
  }

  /** A half turn either way is a tie, and a tie turns counter-clockwise. */
  lemma HalfTurnGoesLeft(theta: real, current: real)
    requires 0.0 <= theta < 360.0 && 0.0 <= current < 360.0
    requires theta - current == 180.0 || current - theta == 180.0
    ensures !TurnsClockwise(theta, current) && Rotation(theta, current) == 180.0
  {
  }

  datatype Wheels = Wheels(left: int, right: int)

  /**
   * The wheel rotations of turnTo: clockwise drives the left wheel forward
   * and the right one back, counter-clockwise the other way.
   */
  function TurnWheels(leftRadius: real, rightRadius: real, width: real, theta: real, current: real): (wheels: Wheels)
    requires leftRadius > 0.0 && rightRadius > 0.0
  {
    var rotation := Rotation(theta, current);
    if TurnsClockwise(theta, current) then
      Wheels(ConvertAngle(leftRadius, width, rotation), -ConvertAngle(rightRadius, width, rotation))
    else
      Wheels(-ConvertAngle(leftRadius, width, rotation), ConvertAngle(rightRadius, width, rotation))
  }

  /**
   * With equal wheels the two rotations cancel, the left wheel goes
   * forward exactly on a clockwise turn, and neither wheel turns further
   * than a half turn of the robot needs.
   */
  lemma TurnWheelsOpposite(radius: real, width: real, theta: real, current: real)
    requires radius > 0.0 && width >= 0.0
    requires 0.0 <= theta < 360.0 && 0.0 <= current < 360.0
    ensures TurnWheels(radius, radius, width, theta, current).left == -TurnWheels(radius, radius, width, theta, current).right
    ensures TurnsClockwise(theta, current) ==> TurnWheels(radius, radius, width, theta, current).left >= 0
    ensures !TurnsClockwise(theta, current) ==> TurnWheels(radius, radius, width, theta, current).left <= 0
    ensures Abs(TurnWheels(radius, radius, width, theta, current).left) <= ConvertAngle(radius, width, 180.0)
  {
    TurnIsShortest(theta, current);
    ConvertAngleRange(radius, width, Rotation(theta, current));
  }

  /** Turning by up to half a turn takes between zero and the half turn's wheel degrees. */
  lemma ConvertAngleRange(radius: real, width: real, rotation: real)
    requires radius > 0.0 && width >= 0.0 && 0.0 <= rotation <= 180.0
    ensures 0 <= ConvertAngle(radius, width, rotation) <= ConvertAngle(radius, width, 180.0)
  {
    assert 0.0 <= PI * width * rotation / 360.0 <= PI * width * 180.0 / 360.0 by {
      assert PI * width >= 0.0;
      ScaleNonNegative(PI * width, rotation, 180.0);
    }
    ConvertDistanceMonotone(radius, 0.0, PI * width * rotation / 360.0);
    ConvertDistanceMonotone(radius, PI * width * rotation / 360.0, PI * width * 180.0 / 360.0);
    assert ConvertDistance(radius, 0.0) == 0;
  }

  lemma ScaleNonNegative(k: real, a: real, b: real)
    requires k >= 0.0 && 0.0 <= a <= b
    ensures 0.0 <= k * a / 360.0 <= k * b / 360.0
  {
    assert k * a <= k * b;
  }

  /**
   * The commands of turnTo: rotation speed on both wheels, slow
   * acceleration, the left wheel started without waiting and the right
   * wheel waited for, then fast acceleration again.
   */
  function TurnCommands(rotateSpeed: int, slowAccel: int, fastAccel: int, w: Wheels): (cmds: seq<Command>)
  {
    [SetSpeed(LeftWheel, rotateSpeed), SetSpeed(RightWheel, rotateSpeed),
     SetAcceleration(RightWheel, slowAccel), SetAcceleration(LeftWheel, slowAccel),
     Rotate(LeftWheel, w.left, true), Rotate(RightWheel, w.right, false),
     SetAcceleration(RightWheel, fastAccel), SetAcceleration(LeftWheel, fastAccel)]
  }

  /** Every turn ends with both wheels back at the fast acceleration. */
  lemma TurnEndsFast(rotateSpeed: int, slowAccel: int, fastAccel: int, w: Wheels)
    ensures LastAcceleration(TurnCommands(rotateSpeed, slowAccel, fastAccel, w), LeftWheel) == Some(fastAccel)
    ensures LastAcceleration(TurnCommands(rotateSpeed, slowAccel, fastAccel, w), RightWheel) == Some(fastAccel)
    ensures NetRotation(TurnCommands(rotateSpeed, slowAccel, fastAccel, w), LeftWheel) == w.left
    ensures NetRotation(TurnCommands(rotateSpeed, slowAccel, fastAccel, w), RightWheel) == w.right
  {
    var cs := TurnCommands(rotateSpeed, slowAccel, fastAccel, w);
    assert cs == cs[..4] + cs[4..6] + cs[6..];
    NetRotationAppend(cs[..4] + cs[4..6], cs[6..], LeftWheel);
    NetRotationAppend(cs[..4], cs[4..6], LeftWheel);
    NetRotationAppend(cs[..4] + cs[4..6], cs[6..], RightWheel);
    NetRotationAppend(cs[..4], cs[4..6], RightWheel);
    NoRotation(cs[..4], LeftWheel);
    NoRotation(cs[6..], LeftWheel);
    NoRotation(cs[..4], RightWheel);
    NoRotation(cs[6..], RightWheel);
    assert cs[4..6] == [Rotate(LeftWheel, w.left, true)] + [Rotate(RightWheel, w.right, false)];
    NetRotationAppend([Rotate(LeftWheel, w.left, true)], [Rotate(RightWheel, w.right, false)], LeftWheel);
    NetRotationAppend([Rotate(LeftWheel, w.left, true)], [Rotate(RightWheel, w.right, false)], RightWheel);
  }

  /**
   * The turn turnTo executes, in degrees of heading, clockwise positive:
   * the clockwise rotation when that is chosen, else the counter-clockwise
   * one negated.
   */
  function SignedTurn(theta: real, current: real): (t: real)
  {
    if TurnsClockwise(theta, current) then RightRotation(theta, current) else -LeftRotation(theta, current)
  }

  /**
   * turnTo reaches its target heading modulo a full turn and never turns
   * more than half a turn, also for the targets in [-180, 0) that the
   * bearings of travelTo produce, where a single "+360" leaves the
   * clockwise rotation negative and the turn goes counter-clockwise.
   */
  lemma TurnReachesHeading(theta: real, current: real)
    requires -180.0 <= theta < 360.0 && 0.0 <= current < 360.0
    ensures -180.0 <= SignedTurn(theta, current) <= 180.0
    ensures var reached := current + SignedTurn(theta, current);
            reached == theta || reached == theta + 360.0 || reached == theta - 360.0
  {
  }

  /** The heading, in degrees, from (currentX, currentY) toward (x, y), as travelTo computes it. */
  function Bearing(x: real, y: real, currentX: real, currentY: real, atan2: (real, real) -> real): (bearing: real)
  {
    ToDegrees(atan2(x - currentX, y - currentY))
  }

  /** The straight-line distance travelTo drives, `sqrt` of the squared differences. */
  function TravelDistance(x: real, y: real, currentX: real, currentY: real, sqrt: real -> real): (d: real)
  {
    sqrt((y - currentY) * (y - currentY) + (x - currentX) * (x - currentX))
  }

  /** A bearing from an `atan2` with values in [-π, π] is a valid target for turnTo. */
  lemma BearingInRange(x: real, y: real, currentX: real, currentY: real, atan2: (real, real) -> real)
    requires forall a, b :: -PI <= atan2(a, b) <= PI
    ensures -180.0 <= Bearing(x, y, currentX, currentY, atan2) <= 180.0
  {
    var r := atan2(x - currentX, y - currentY);
    assert -PI <= r <= PI;
    assert r * 180.0 <= PI * 180.0;
    assert -PI * 180.0 <= r * 180.0;
    DivLeq(r * 180.0, PI * 180.0, PI);
    DivLeq(-PI * 180.0, r * 180.0, PI);
  }

  /**
   * A straight drive: both wheels at `speed`, the left wheel started
   * without waiting, the right one waited for unless `rightImmediate`.
   */
  function ForwardCommands(speed: int, leftDegrees: int, rightDegrees: int, rightImmediate: bool): (cmds: seq<Command>)
  {
    [SetSpeed(LeftWheel, speed), SetSpeed(RightWheel, speed),
     Rotate(LeftWheel, leftDegrees, true), Rotate(RightWheel, rightDegrees, rightImmediate)]
  }

  /** A straight drive turns each wheel by its own degrees and sets no acceleration. */
  lemma ForwardDrivesBoth(speed: int, leftDegrees: int, rightDegrees: int, rightImmediate: bool)
    ensures NetRotation(ForwardCommands(speed, leftDegrees, rightDegrees, rightImmediate), LeftWheel) == leftDegrees
    ensures NetRotation(ForwardCommands(speed, leftDegrees, rightDegrees, rightImmediate), RightWheel) == rightDegrees
    ensures LastAcceleration(ForwardCommands(speed, leftDegrees, rightDegrees, rightImmediate), LeftWheel) == None
    ensures LastAcceleration(ForwardCommands(speed, leftDegrees, rightDegrees, rightImmediate), RightWheel) == None
  {
    var cs := ForwardCommands(speed, leftDegrees, rightDegrees, rightImmediate);
    assert cs == cs[..2] + cs[2..];
    NetRotationAppend(cs[..2], cs[2..], LeftWheel);
    NetRotationAppend(cs[..2], cs[2..], RightWheel);
    NoRotation(cs[..2], LeftWheel);
    NoRotation(cs[..2], RightWheel);
    assert cs[2..] == [Rotate(LeftWheel, leftDegrees, true)] + [Rotate(RightWheel, rightDegrees, rightImmediate)];
    NetRotationAppend([Rotate(LeftWheel, leftDegrees, true)], [Rotate(RightWheel, rightDegrees, rightImmediate)], LeftWheel);
    NetRotationAppend([Rotate(LeftWheel, leftDegrees, true)], [Rotate(RightWheel, rightDegrees, rightImmediate)], RightWheel);
    NoAcceleration(cs, LeftWheel);
    NoAcceleration(cs, RightWheel);
  }
}
