/**
 * The navigation lab's square drive: four legs of 90 cm, each followed by
 * a quarter turn counter-clockwise. The one-degree nudges of the left
 * wheel around each turn are booked into the odometer's left tacho count
 * and back out again.
 */
module SquareDriving {
  import opened JavaSemantics
  import opened Motors
  import opened Driving
  import LabOdometry

  const FORWARD_SPEED: int := 250
  const ROTATE_SPEED: int := 150
  const RESET_ACCEL: int := 250
  const LEG_LENGTH: real := 90.0

  /** Before the legs: each wheel, left then right, is stopped and given the reset acceleration. */
  function ResetCommands(): (cmds: seq<Command>)
  {
    [Stop(LeftWheel, false), SetAcceleration(LeftWheel, RESET_ACCEL),
     Stop(RightWheel, false), SetAcceleration(RightWheel, RESET_ACCEL)]
  }

  /**
   * One leg: drive straight, then nudge the left wheel back, turn a
   * quarter turn counter-clockwise and nudge the left wheel forward again.
   */
  function Leg(driveLeft: int, driveRight: int, nudge: int, turnLeft: int, turnRight: int): (cmds: seq<Command>)
  {
    ForwardCommands(FORWARD_SPEED, driveLeft, driveRight, false)
    + [SetSpeed(LeftWheel, ROTATE_SPEED), SetSpeed(RightWheel, ROTATE_SPEED)]
    + [Rotate(LeftWheel, -nudge, false)]
    + [Rotate(LeftWheel, -turnLeft, true), Rotate(RightWheel, turnRight, false)]
    + [Rotate(LeftWheel, nudge, false)]
  }

  /** The leg of drive, from the wheel radii and the wheel base. */
  function SquareLeg(leftRadius: real, rightRadius: real, width: real): (cmds: seq<Command>)
    requires leftRadius > 0.0 && rightRadius > 0.0
  {
    Leg(ConvertDistance(leftRadius, LEG_LENGTH), ConvertDistance(rightRadius, LEG_LENGTH),
        ConvertAngle(leftRadius, width, 1.0), ConvertAngle(leftRadius, width, 90.0), ConvertAngle(rightRadius, width, 90.0))
  }

  /** `n` copies of `leg`, one after the other. */
  function Legs(n: nat, leg: seq<Command>): (cmds: seq<Command>)
  {
    if n == 0 then [] else Legs(n - 1, leg) + leg
  }

  /**
   * drive: reset both wheels, then four legs. The left tacho count of the
   * odometer is lowered by one after the first nudge and raised by one
   * after the second.
   */
  method Drive(leftRadius: real, rightRadius: real, width: real, odometer: LabOdometry.Odometer)
    returns (cmds: seq<Command>)
    requires leftRadius > 0.0 && rightRadius > 0.0
    modifies odometer`leftMotorTachoCount
    ensures cmds == ResetCommands() + Legs(4, SquareLeg(leftRadius, rightRadius, width))
    ensures odometer.leftMotorTachoCount == old(odometer.leftMotorTachoCount)
  {
    cmds := [];
    for motor := 0 to 2
      invariant cmds == ResetCommands()[..2 * motor]
    {
      var m := if motor == 0 then LeftWheel else RightWheel;
      cmds := cmds + [Stop(m, false), SetAcceleration(m, RESET_ACCEL)];
    }
    for i := 0 to 4
      invariant cmds == ResetCommands() + Legs(i, SquareLeg(leftRadius, rightRadius, width))
      invariant odometer.leftMotorTachoCount == old(odometer.leftMotorTachoCount)
    {
      var start := cmds;
      cmds := cmds + [SetSpeed(LeftWheel, FORWARD_SPEED), SetSpeed(RightWheel, FORWARD_SPEED)];
      cmds := cmds + [Rotate(LeftWheel, ConvertDistance(leftRadius, LEG_LENGTH), true),
                      Rotate(RightWheel, ConvertDistance(rightRadius, LEG_LENGTH), false)];
      cmds := cmds + [SetSpeed(LeftWheel, ROTATE_SPEED), SetSpeed(RightWheel, ROTATE_SPEED)];
      cmds := cmds + [Rotate(LeftWheel, -ConvertAngle(leftRadius, width, 1.0), false)];
      odometer.SetLeftMotorTachoCount(odometer.leftMotorTachoCount - 1);
      cmds := cmds + [Rotate(LeftWheel, -ConvertAngle(leftRadius, width, 90.0), true),
                      Rotate(RightWheel, ConvertAngle(rightRadius, width, 90.0), false)];
      cmds := cmds + [Rotate(LeftWheel, ConvertAngle(leftRadius, width, 1.0), false)];
      odometer.SetLeftMotorTachoCount(odometer.leftMotorTachoCount + 1);
      assert cmds == start + SquareLeg(leftRadius, rightRadius, width);
    }
  }

  lemma {:induction false} LegsNetRotation(n: nat, leg: seq<Command>, m: Motor)
    ensures NetRotation(Legs(n, leg), m) == n * NetRotation(leg, m)
  {
    if n > 0 {
      LegsNetRotation(n - 1, leg, m);
      NetRotationAppend(Legs(n - 1, leg), leg, m);
    }
  }

  lemma {:induction false} LegsLength(n: nat, leg: seq<Command>)
    ensures |Legs(n, leg)| == n * |leg|
  {
    if n > 0 {
      LegsLength(n - 1, leg);
    }
  }

  lemma {:induction false} LegsKeepAcceleration(n: nat, leg: seq<Command>, m: Motor)
    requires LastAcceleration(leg, m) == None
    ensures LastAcceleration(Legs(n, leg), m) == None
  {
    if n > 0 {
      LegsKeepAcceleration(n - 1, leg, m);
      LastAccelerationAppend(Legs(n - 1, leg), leg, m);
    }
  }

  /**
   * Over one leg the nudges cancel: the left wheel drives the leg and turns
   * back by the quarter turn, the right wheel drives the leg and turns
   * forward by it, and no acceleration is touched.
   */
  lemma LegNetRotation(driveLeft: int, driveRight: int, nudge: int, turnLeft: int, turnRight: int, m: Motor)
    requires m == LeftWheel || m == RightWheel
    ensures NetRotation(Leg(driveLeft, driveRight, nudge, turnLeft, turnRight), m)
            == (if m == LeftWheel then driveLeft - turnLeft else driveRight + turnRight)
    ensures LastAcceleration(Leg(driveLeft, driveRight, nudge, turnLeft, turnRight), m) == None
  {
    var front := ForwardCommands(FORWARD_SPEED, driveLeft, driveRight, false);
    var speeds := [SetSpeed(LeftWheel, ROTATE_SPEED), SetSpeed(RightWheel, ROTATE_SPEED)];
    var n0 := Rotate(LeftWheel, -nudge, false);
    var t0, t1 := Rotate(LeftWheel, -turnLeft, true), Rotate(RightWheel, turnRight, false);
    var n1 := Rotate(LeftWheel, nudge, false);
    var leg := Leg(driveLeft, driveRight, nudge, turnLeft, turnRight);
    assert leg == front + speeds + [n0] + ([t0] + [t1]) + [n1];
    ForwardDrivesBoth(FORWARD_SPEED, driveLeft, driveRight, false);
    NetRotationAppend(front + speeds + [n0] + ([t0] + [t1]), [n1], m);
    NetRotationAppend(front + speeds + [n0], [t0] + [t1], m);
    NetRotationAppend(front + speeds, [n0], m);
    NetRotationAppend(front, speeds, m);
    NoRotation(speeds, m);
    NetRotationAppend([t0], [t1], m);
    NetRotationSingle(t0, m);
    NetRotationSingle(t1, m);
    NetRotationSingle(n0, m);
    NetRotationSingle(n1, m);
    NoAcceleration(leg, m);
  }

  /** The whole square has the four reset commands and four legs of ten commands. */
  lemma SquareLength(leg: seq<Command>)
    requires |leg| == 10
    ensures |ResetCommands() + Legs(4, leg)| == 44
  {
    LegsLength(4, leg);
  }

  /**
   * Over the whole square each wheel ends at the reset acceleration and
   * turns by four times its net rotation over one leg.
   */
  lemma SquareTotals(leg: seq<Command>, m: Motor)
    requires m == LeftWheel || m == RightWheel
    requires LastAcceleration(leg, m) == None
    ensures LastAcceleration(ResetCommands() + Legs(4, leg), m) == Some(RESET_ACCEL)
    ensures NetRotation(ResetCommands() + Legs(4, leg), m) == 4 * NetRotation(leg, m)
  {
    var r := ResetCommands();
    LegsNetRotation(4, leg, m);
    NetRotationAppend(r, Legs(4, leg), m);
    NoRotation(r, m);
    LegsKeepAcceleration(4, leg, m);
    LastAccelerationAppend(r, Legs(4, leg), m);
    assert r[..3][..2] == r[..2];
    assert r[..3][2] == Stop(RightWheel, false);
  }

  /**
   * The square in wheel degrees: the left wheel's net rotation is four legs
   * less four quarter turns, the right wheel's four legs plus four quarter
   * turns, and both wheels end at the reset acceleration.
   */
  lemma SquareNetRotation(leftRadius: real, rightRadius: real, width: real)
    requires leftRadius > 0.0 && rightRadius > 0.0
    ensures NetRotation(ResetCommands() + Legs(4, SquareLeg(leftRadius, rightRadius, width)), LeftWheel)
            == 4 * (ConvertDistance(leftRadius, LEG_LENGTH) - ConvertAngle(leftRadius, width, 90.0))
    ensures NetRotation(ResetCommands() + Legs(4, SquareLeg(leftRadius, rightRadius, width)), RightWheel)
            == 4 * (ConvertDistance(rightRadius, LEG_LENGTH) + ConvertAngle(rightRadius, width, 90.0))
    ensures LastAcceleration(ResetCommands() + Legs(4, SquareLeg(leftRadius, rightRadius, width)), LeftWheel) == Some(RESET_ACCEL)
    ensures LastAcceleration(ResetCommands() + Legs(4, SquareLeg(leftRadius, rightRadius, width)), RightWheel) == Some(RESET_ACCEL)
  {
    var dl, dr := ConvertDistance(leftRadius, LEG_LENGTH), ConvertDistance(rightRadius, LEG_LENGTH);
    var n, tl, tr := ConvertAngle(leftRadius, width, 1.0), ConvertAngle(leftRadius, width, 90.0), ConvertAngle(rightRadius, width, 90.0);
    LegNetRotation(dl, dr, n, tl, tr, LeftWheel);
    LegNetRotation(dl, dr, n, tl, tr, RightWheel);
    SquareTotals(Leg(dl, dr, n, tl, tr), LeftWheel);
    SquareTotals(Leg(dl, dr, n, tl, tr), RightWheel);
  }
}
