/**
 * The Capture-the-Flag odometer: the pose store the rest of the robot
 * reads and corrects, and the tick that integrates the wheel tachos into
 * it. A positive heading change turns toward the right wheel.
 */
module CaptureOdometry {
  import opened JavaSemantics
  import opened Angles
  import opened Odometry

  /** The heading change of one tick: left wheel ahead of the right turns clockwise. */
  function DeltaTheta(distL: real, distR: real, track: real): (dt: real)
    requires track != 0.0
  {
    (distL - distR) / track
  }

  class Odometer {
    var x: real
    var y: real
    /** The heading in radians, in [0, 2π) whenever setTheta or a tick wrote it. */
    var theta: real
    var thetaDegree: real
    var leftMotorTachoCount: int
    var rightMotorTachoCount: int
    const wheelRadius: real
    const track: real

    constructor (wheelRadius: real, track: real)
      ensures this.wheelRadius == wheelRadius && this.track == track
      ensures x == 0.0 && y == 0.0 && theta == 0.0 && thetaDegree == 0.0
      ensures leftMotorTachoCount == 0 && rightMotorTachoCount == 0
    {
      this.wheelRadius := wheelRadius;
      this.track := track;
      x := 0.0;
      y := 0.0;
      theta := 0.0;
      thetaDegree := 0.0;
      leftMotorTachoCount := 0;
      rightMotorTachoCount := 0;
    }

    function CurrentPose(): (p: Pose)
      reads this
    {
      Pose(x, y, theta)
    }

    /**
     * setTheta: the heading is stored brought into [0, 2π), and its value
     * in degrees beside it.
     */
    method SetTheta(t0: real)
      modifies this`theta, this`thetaDegree
      ensures theta == Normalise(t0) && 0.0 <= theta < TWO_PI
      ensures thetaDegree == ToDegrees(theta)
    {
      var t := AddTurnsWhileNegative(t0);
      RemainderIsNormalise(t);
      t := RealRem(t, TWO_PI);
      thetaDegree := t * 180.0 / PI;
      theta := t;
    }

    /**
     * One pass of run: the wheel distances since the last tacho readings
     * turn and then advance the pose, and the readings are kept for the
     * next pass.
     */
    method Tick(nowTachoL: int, nowTachoR: int, sin: real -> real, cos: real -> real)
      requires track != 0.0
      modifies this`x, this`y, this`theta, this`thetaDegree, this`leftMotorTachoCount, this`rightMotorTachoCount
      ensures leftMotorTachoCount == nowTachoL && rightMotorTachoCount == nowTachoR
      ensures CurrentPose() ==
                Integrate(old(CurrentPose()),
                          Advance(WheelDistance(wheelRadius, nowTachoL, old(leftMotorTachoCount)),
                                  WheelDistance(wheelRadius, nowTachoR, old(rightMotorTachoCount))),
                          DeltaTheta(WheelDistance(wheelRadius, nowTachoL, old(leftMotorTachoCount)),
                                     WheelDistance(wheelRadius, nowTachoR, old(rightMotorTachoCount)), track),
                          sin, cos)
      ensures thetaDegree == ToDegrees(theta)
    {
      var distL := WheelDistance(wheelRadius, nowTachoL, leftMotorTachoCount);
      var distR := WheelDistance(wheelRadius, nowTachoR, rightMotorTachoCount);
      leftMotorTachoCount := nowTachoL;
      rightMotorTachoCount := nowTachoR;
      var deltaD := 0.5 * (distL + distR);
      var deltaT := (distL - distR) / track;
      Move(deltaD, deltaT, sin, cos);
    }

    /** The synchronized block of run: turn by `deltaT`, then advance `deltaD` along the new heading. */
    method Move(deltaD: real, deltaT: real, sin: real -> real, cos: real -> real)
      modifies this`x, this`y, this`theta, this`thetaDegree
      ensures CurrentPose() == Integrate(old(CurrentPose()), deltaD, deltaT, sin, cos)
      ensures thetaDegree == ToDegrees(theta)
    {
      ghost var before := CurrentPose();
      SetTheta(theta + deltaT);
      var dX := deltaD * sin(theta);
      var dY := deltaD * cos(theta);
      ghost var q := Integrate(before, deltaD, deltaT, sin, cos);
      assert q.theta == theta && q.x == before.x + dX && q.y == before.y + dY;
      x := x + dX;
      y := y + dY;
    }

    /**
     * getPosition: copies x, y and the heading in degrees into the flagged
     * slots, and does nothing unless both arrays have three slots.
     */
    method GetPosition(position: array<real>, update: array<bool>)
      modifies position
      ensures position.Length == 3 && update.Length == 3 ==>
                position[0] == (if update[0] then x else old(position[0]))
                && position[1] == (if update[1] then y else old(position[1]))
                && position[2] == (if update[2] then thetaDegree else old(position[2]))
      ensures !(position.Length == 3 && update.Length == 3) ==> position[..] == old(position[..])
    {
      if position.Length == 3 && update.Length == 3 {
        if update[0] {
          position[0] := x;
        }
        if update[1] {
          position[1] := y;
        }
        if update[2] {
          position[2] := thetaDegree;
        }
      }
    }

    /**
     * setPosition: overwrites the flagged fields, and nothing unless both
     * arrays have three slots. The heading is stored as given, without
     * normalising it and without touching its value in degrees.
     */
    method SetPosition(position: array<real>, update: array<bool>)
      modifies this`x, this`y, this`theta
      ensures position.Length == 3 && update.Length == 3 ==>
                x == (if update[0] then position[0] else old(x))
                && y == (if update[1] then position[1] else old(y))
                && theta == (if update[2] then position[2] else old(theta))
      ensures !(position.Length == 3 && update.Length == 3) ==>
                x == old(x) && y == old(y) && theta == old(theta)
    {
      if update.Length == 3 && position.Length == 3 {
        if update[0] {
          x := position[0];
        }
        if update[1] {
          y := position[1];
        }
        if update[2] {
          theta := position[2];
        }
      }
    }

    method SetX(x: real)
      modifies this`x
      ensures this.x == x
    {
      this.x := x;
    }

    method SetY(y: real)
      modifies this`y
      ensures this.y == y
    {
      this.y := y;
    }

    method SetLeftMotorTachoCount(count: int)
      modifies this`leftMotorTachoCount
      ensures leftMotorTachoCount == count
    {
      leftMotorTachoCount := count;
    }

    method SetRightMotorTachoCount(count: int)
      modifies this`rightMotorTachoCount
      ensures rightMotorTachoCount == count
    {
      rightMotorTachoCount := count;
    }
  }

  /** A tick with both tachos where they were leaves the position where it was. */
  lemma StillTickKeepsPosition(p: Pose, radius: real, track: real, tachoL: int, tachoR: int,
                               sin: real -> real, cos: real -> real)
    requires track != 0.0
    ensures var q := Integrate(p, Advance(WheelDistance(radius, tachoL, tachoL), WheelDistance(radius, tachoR, tachoR)),
                               DeltaTheta(WheelDistance(radius, tachoL, tachoL), WheelDistance(radius, tachoR, tachoR), track),
                               sin, cos);
            q.x == p.x && q.y == p.y && q.theta == Normalise(p.theta)
  {
    StillWheel(radius, tachoL);
    StillWheel(radius, tachoR);
    NoMotionKeepsPosition(p, sin, cos);
  }

  /** Equal wheel distances drive straight: the heading only gets normalised. */
  lemma StraightTickKeepsHeading(p: Pose, dist: real, track: real, sin: real -> real, cos: real -> real)
    requires track != 0.0
    ensures Integrate(p, Advance(dist, dist), DeltaTheta(dist, dist, track), sin, cos).theta == Normalise(p.theta)
  {
    assert DeltaTheta(dist, dist, track) == 0.0;
  }
}
