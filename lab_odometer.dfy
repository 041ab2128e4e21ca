/**
 * The odometer of the localisation lab. It keeps the same pose as the
 * Capture-the-Flag one, with three differences: the wheel radius and
 * track are the lab's constants, a positive heading change turns toward
 * the left wheel, and getPosition and setPosition do not check the length
 * of their arrays.
 */
module LabOdometry {
  import opened JavaSemantics
  import opened Angles
  import opened Odometry
  import CaptureOdometry

  /** LocalisationLab.WHEEL_RADIUS and LocalisationLab.TRACK. */
  const WHEEL_RADIUS: real := 2.1
  const TRACK: real := 17.0

  /** The heading change of one tick: right wheel ahead of the left turns counter-clockwise. */
  function DeltaTheta(distL: real, distR: real): (dt: real)
  {
    (distR - distL) / TRACK
  }

  class Odometer {
    var x: real
    var y: real
    /** The heading in radians, in [0, 2π) whenever setTheta or a tick wrote it. */
    var theta: real
    var thetaDegree: real
    var leftMotorTachoCount: int
    var rightMotorTachoCount: int

    constructor ()
      ensures x == 0.0 && y == 0.0 && theta == 0.0 && thetaDegree == 0.0
      ensures leftMotorTachoCount == 0 && rightMotorTachoCount == 0
    {
      x := 0.0;
      y := 0.0;
      theta := 0.0;
      thetaDegree := 0.0;
      leftMotorTachoCount := 0;
      rightMotorTachoCount := 0;
    }

    function CurrentPose(): (p: Pose)
      reads this
    {
      Pose(x, y, theta)
    }

    /**
     * setTheta: the heading is stored brought into [0, 2π), and its value
     * in degrees beside it.
     */
    method SetTheta(t0: real)
      modifies this`theta, this`thetaDegree
      ensures theta == Normalise(t0) && 0.0 <= theta < TWO_PI
      ensures thetaDegree == ToDegrees(theta)
    {
      var t := AddTurnsWhileNegative(t0);
      RemainderIsNormalise(t);
      t := RealRem(t, TWO_PI);
      thetaDegree := t * 180.0 / PI;
      theta := t;
    }

    /**
     * One pass of run: the wheel distances since the last tacho readings
     * turn and then advance the pose, and the readings are kept for the
     * next pass.
     */
    method Tick(nowTachoL: int, nowTachoR: int, sin: real -> real, cos: real -> real)
      modifies this`x, this`y, this`theta, this`thetaDegree, this`leftMotorTachoCount, this`rightMotorTachoCount
      ensures leftMotorTachoCount == nowTachoL && rightMotorTachoCount == nowTachoR
      ensures CurrentPose() ==
                Integrate(old(CurrentPose()),
                          Advance(WheelDistance(WHEEL_RADIUS, nowTachoL, old(leftMotorTachoCount)),
                                  WheelDistance(WHEEL_RADIUS, nowTachoR, old(rightMotorTachoCount))),
                          DeltaTheta(WheelDistance(WHEEL_RADIUS, nowTachoL, old(leftMotorTachoCount)),
                                     WheelDistance(WHEEL_RADIUS, nowTachoR, old(rightMotorTachoCount))),
                          sin, cos)
      ensures thetaDegree == ToDegrees(theta)
    {
      var distL := WheelDistance(WHEEL_RADIUS, nowTachoL, leftMotorTachoCount);
      var distR := WheelDistance(WHEEL_RADIUS, nowTachoR, rightMotorTachoCount);
      leftMotorTachoCount := nowTachoL;
      rightMotorTachoCount := nowTachoR;
      var deltaD := 0.5 * (distL + distR);
      var deltaT := (distR - distL) / TRACK;
      Move(deltaD, deltaT, sin, cos);
    }

    /** The synchronized block of run: turn by `deltaT`, then advance `deltaD` along the new heading. */
    method Move(deltaD: real, deltaT: real, sin: real -> real, cos: real -> real)
      modifies this`x, this`y, this`theta, this`thetaDegree
      ensures CurrentPose() == Integrate(old(CurrentPose()), deltaD, deltaT, sin, cos)
      ensures thetaDegree == ToDegrees(theta)
    {
      ghost var before := CurrentPose();
      SetTheta(theta + deltaT);
      var dX := deltaD * sin(theta);
      var dY := deltaD * cos(theta);
      ghost var q := Integrate(before, deltaD, deltaT, sin, cos);
      assert q.theta == theta && q.x == before.x + dX && q.y == before.y + dY;
      x := x + dX;
      y := y + dY;
    }

    /**
     * getPosition: copies x, y and the heading in degrees into the flagged
     * slots. All three flags are read, and only the flagged slots written.
     */
    method GetPosition(position: array<real>, update: array<bool>)
      requires update.Length >= 3
      requires forall k :: 0 <= k < 3 && update[k] ==> k < position.Length
      modifies position
      ensures forall k :: 0 <= k < position.Length && (k >= 3 || !update[k]) ==> position[k] == old(position[k])
      ensures update[0] ==> position[0] == x
      ensures update[1] ==> position[1] == y
      ensures update[2] ==> position[2] == thetaDegree
    {
      if update[0] {
        position[0] := x;
      }
      if update[1] {
        position[1] := y;
      }
      if update[2] {
        position[2] := thetaDegree;
      }
    }

    /**
     * setPosition: overwrites the flagged fields. The heading is stored as
     * given, without normalising it and without touching its value in
     * degrees.
     */
    method SetPosition(position: array<real>, update: array<bool>)
      requires update.Length >= 3
      requires forall k :: 0 <= k < 3 && update[k] ==> k < position.Length
      modifies this`x, this`y, this`theta
      ensures x == (if update[0] then position[0] else old(x))
      ensures y == (if update[1] then position[1] else old(y))
      ensures theta == (if update[2] then position[2] else old(theta))
    {
      if update[0] {
        x := position[0];
      }
      if update[1] {
        y := position[1];
      }
      if update[2] {
        theta := position[2];
      }
    }

    method SetX(x: real)
      modifies this`x
      ensures this.x == x
    {
      this.x := x;
    }

    method SetY(y: real)
      modifies this`y
      ensures this.y == y
    {
      this.y := y;
    }

    method SetLeftMotorTachoCount(count: int)
      modifies this`leftMotorTachoCount
      ensures leftMotorTachoCount == count
    {
      leftMotorTachoCount := count;
    }

    method SetRightMotorTachoCount(count: int)
      modifies this`rightMotorTachoCount
      ensures rightMotorTachoCount == count
    {
      rightMotorTachoCount := count;
    }
  }

  /** The lab odometer turns the other way from the Capture-the-Flag one for the same wheel distances. */
  lemma OppositeHeadingSign(distL: real, distR: real)
    ensures DeltaTheta(distL, distR) == -CaptureOdometry.DeltaTheta(distL, distR, TRACK)
  {
  }
}
