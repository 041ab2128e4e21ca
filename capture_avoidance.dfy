/**
 * The Capture-the-Flag obstacle avoider (UltrasonicNavigationData). While
 * the robot navigates, a close reading from the front-facing ultrasonic
 * sensor breaks off navigation: the robot picks the side that turns it
 * toward the board centre, points the sensor at the wall it will follow,
 * turns a quarter turn and switches the planner to AVOIDING. While
 * avoiding, every reading drives a proportional wall follower that works
 * for a wall on either side.
 *
 * The drive commands it issues itself go to `issued`. The turn of the
 * front motor, which the planner's one-line turnFrontMotor performs as a
 * non-blocking rotateTo, is recorded there too. The quarter turn is the
 * navigation's own interruptNav and goes to that object's log. atan2 is a
 * parameter.
 */
module CaptureAvoidance {
  import opened JavaSemantics
  import opened Motors
  import opened WallFollowing
  import CaptureOdometry
  import CaptureNavigation
  import PathPlanner

  /** A reading below this while navigating is an obstacle ahead. */
  const OBSTACLE_THRESHOLD: int := 18
  const MOTOR_SPEED: int := 140
  const FILTER_OUT: int := 16
  const ERROR_PROPORTIONALITY: int := 35
  const CORNER_OUTER_SPEED: int := 250
  const CORNER_INNER_SPEED: int := 100
  const BACKWARD_SPEED: int := 200
  const SPIN_SPEED: int := 150
  const BAND_CENTER: int := 20
  const BAND_WIDTH: int := 3
  const MAX_SPEED_DIFFERENCE: int := 80
  /** Closer than this the robot backs off. */
  const REVERSE_DISTANCE: int := 8
  /** Closer than this, and not reversing, the robot spins. */
  const SPIN_DISTANCE: int := 17
  /** The front motor angles that point the sensor at a wall on the left, or on the right. */
  const LEFT_WALL_ANGLE: int := -290
  const RIGHT_WALL_ANGLE: int := 70

  /**
   * The turn in whole degrees, on Java ints, that takes `from` clockwise to
   * `to`, lifted by 360 when negative. whichDirectionInterruption's
   * rightRotation is ClockwiseRotation(next, current) and its leftRotation
   * is ClockwiseRotation(current, next).
   */
  function ClockwiseRotation(to: int, from: int): (r: int)
    ensures INT_MIN <= r <= INT_MAX
    ensures -360 < to - from < 360 ==> r == (to - from) % 360
  {
    var r := Int32(to - from);
    if r < 0 then Int32(r + 360) else r
  }

  /**
   * whichDirectionInterruption's comparison: true means turn right, with
   * the wall then on the left. For headings less than a full turn apart
   * the robot turns right exactly when the target is less than half a
   * turn clockwise: the shorter way, and left for a target straight ahead
   * or exactly behind.
   */
  function TurnsRightToward(next: int, current: int): (right: bool)
    ensures -360 < next - current < 360 ==> (right <==> 0 < (next - current) % 360 < 180)
  {
    ClockwiseRotation(next, current) < ClockwiseRotation(current, next)
  }

  /**
   * The heading in whole degrees from the truncated position to the board
   * centre; with an arc tangent in [-pi, pi] it lies in [-180, 180].
   */
  function CentreHeading(x: real, y: real, boardSize: real, tile: real, atan2: (real, real) -> real): (heading: int)
    ensures (forall a, b :: -PI <= atan2(a, b) <= PI) ==> -180 <= heading <= 180
  {
    var centre := (boardSize / 2.0) * tile;
    var angle := atan2(centre - JavaInt(x) as real, centre - JavaInt(y) as real);
    DegreesOfHalfTurn(angle);
    JavaInt(ToDegrees(angle))
  }

  lemma DegreesOfHalfTurn(angle: real)
    ensures -PI <= angle <= PI ==> -180.0 <= ToDegrees(angle) <= 180.0
  {
    if -PI <= angle <= PI {
      QuotientSign(PI * 180.0 - angle * 180.0, PI);
      QuotientSign(angle * 180.0 + PI * 180.0, PI);
      assert (PI * 180.0 - angle * 180.0) / PI == 180.0 - ToDegrees(angle);
      assert (angle * 180.0 + PI * 180.0) / PI == ToDegrees(angle) + 180.0;
    }
  }

  /**
   * For headings less than a full turn apart, the two rotations add up to
   * a full turn (or are both 0), and the result is "the centre is less
   * than half a turn clockwise": the robot turns the shorter way, and
   * left when the centre is exactly behind or straight ahead.
   */
  lemma RotationsSplitTheCircle(next: int, current: int)
    requires -360 < next - current < 360 && INT_MIN <= next <= INT_MAX && INT_MIN <= current <= INT_MAX
    ensures next != current ==> ClockwiseRotation(next, current) + ClockwiseRotation(current, next) == 360
    ensures next == current ==> ClockwiseRotation(next, current) == 0 == ClockwiseRotation(current, next)
  {
    assert Int32(next - current) == next - current;
    assert Int32(current - next) == current - next;
    if next - current < 0 {
      assert (next - current) % 360 == next - current + 360;
      assert Int32(next - current + 360) == next - current + 360;
    } else if current - next < 0 {
      assert (next - current) % 360 == next - current;
      assert Int32(current - next + 360) == current - next + 360;
    }
  }

  /**
   * The speed difference outside a corner: 3.5 times the error between 20
   * and the raw reading, truncated, on Java ints, capped at 80.
   */
  function SpeedDifference(raw: int): (w: int)
    ensures 0 <= w <= MAX_SPEED_DIFFERENCE
  {
    var w := AbsInt32(JDiv(Int32(ERROR_PROPORTIONALITY * Int32(BAND_CENTER - raw)), 10));
    if w > MAX_SPEED_DIFFERENCE then MAX_SPEED_DIFFERENCE else w
  }

  /** Off the band the difference is at least 10 and, short of the cap, the error times 3.5 truncated. */
  lemma SpeedDifferenceIsProportional(raw: int)
    requires 0 <= raw < FAR_READING
    ensures var e := ERROR_PROPORTIONALITY * Abs(BAND_CENTER - raw);
            var w := SpeedDifference(raw);
            (e < (MAX_SPEED_DIFFERENCE + 1) * 10 ==> w * 10 <= e < w * 10 + 10)
            && (e >= (MAX_SPEED_DIFFERENCE + 1) * 10 ==> w == MAX_SPEED_DIFFERENCE)
            && (Abs(BAND_CENTER - raw) >= BAND_WIDTH ==> w >= 10)
  {
    var x := ERROR_PROPORTIONALITY * (BAND_CENTER - raw);
    assert Int32(BAND_CENTER - raw) == BAND_CENTER - raw;
    assert Int32(x) == x;
    assert Abs(x) == ERROR_PROPORTIONALITY * Abs(BAND_CENTER - raw);
  }

  /** Both wheels forward, the one on the wall's side at `wallSide` and the other at `otherSide`. */
  function SideSteer(leftWall: bool, wallSide: int, otherSide: int): (d: Drive)
  {
    if leftWall then Steer(wallSide, otherSide) else Steer(otherSide, wallSide)
  }

  /** The drive for a filtered distance, the wall side and a speed difference. */
  function Follow(leftWall: bool, distance: int, w: int): (d: Drive)
  {
    if distance >= FAR_READING then SideSteer(leftWall, CORNER_INNER_SPEED, CORNER_OUTER_SPEED)
    else if InBand(distance, BAND_CENTER, BAND_WIDTH) then Steer(MOTOR_SPEED, MOTOR_SPEED)
    else if distance < BAND_CENTER then
      (if distance < REVERSE_DISTANCE then Reverse(BACKWARD_SPEED)
       else if distance < SPIN_DISTANCE then
         (if leftWall then SpinClockwise(SPIN_SPEED) else Mirrored(SpinClockwise(SPIN_SPEED)))
       else SideSteer(leftWall, MOTOR_SPEED + w, MOTOR_SPEED - w))
    else SideSteer(leftWall, MOTOR_SPEED - w, MOTOR_SPEED + w)
  }

  /** Following a wall on the right is following one on the left with the wheels exchanged. */
  lemma RightWallMirrorsLeftWall(distance: int, w: int)
    ensures Follow(false, distance, w) == Mirrored(Follow(true, distance, w))
  {
  }

  /** The drive turns away from the wall: right for a wall on the left, left for a wall on the right. */
  predicate TurnsAway(leftWall: bool, d: Drive)
  {
    if leftWall then TurnsRight(d) else TurnsLeft(d)
  }

  datatype FState = FState(filterControl: int, distance: int, wheelSpeedDifference: int, corner: bool)

  /**
   * processWallFollowing: the new state and the drive issued. A corner
   * keeps the previous speed difference.
   */
  function FollowStep(leftWall: bool, s: FState, raw: int): (r: (FState, Drive))
    ensures r.0.corner <==> r.0.distance >= FAR_READING
    ensures r.0.corner ==> r.0.wheelSpeedDifference == s.wheelSpeedDifference
    ensures r.0.distance == raw || (raw >= FAR_READING && r.0.distance == BAND_CENTER)
  {
    var f := Filtered(FILTER_OUT, BAND_CENTER, s.filterControl, raw);
    if f.1 >= FAR_READING then
      (FState(f.0, f.1, s.wheelSpeedDifference, true), Follow(leftWall, f.1, s.wheelSpeedDifference))
    else
      var w := SpeedDifference(raw);
      (FState(f.0, f.1, w, false), Follow(leftWall, f.1, w))
  }

  /**
   * The speed difference comes from the raw reading. It differs from one
   * computed from the filtered distance only when a far reading was
   * replaced by 20, and then the drive is straight whatever it is.
   */
  lemma DifferenceIsUnusedForReplacedReading(leftWall: bool, s: FState, raw: int, w: int)
    requires Filtered(FILTER_OUT, BAND_CENTER, s.filterControl, raw).1 != raw
    ensures FollowStep(leftWall, s, raw).1 == Steer(MOTOR_SPEED, MOTOR_SPEED) == Follow(leftWall, BAND_CENTER, w)
  {
    assert Int32(BAND_CENTER - BAND_CENTER) == 0;
  }

  /**
   * The follower corrects the error for either wall: a sweep toward the
   * wall at a corner, straight in the band, backing off when very close,
   * a turn away from the wall when too close otherwise, and a turn toward
   * it when too far.
   */
  lemma {:induction false} SteersAgainstTheError(leftWall: bool, s: FState, raw: int)
    requires 0 <= raw <= INT_MAX
    ensures var r := FollowStep(leftWall, s, raw);
            var d := r.0.distance;
            (d >= FAR_READING ==> TurnsAway(!leftWall, r.1))
            && (Abs(d - BAND_CENTER) < BAND_WIDTH ==> r.1 == Steer(MOTOR_SPEED, MOTOR_SPEED))
            && (d < REVERSE_DISTANCE ==> r.1 == Reverse(BACKWARD_SPEED))
            && (REVERSE_DISTANCE <= d <= BAND_CENTER - BAND_WIDTH ==> TurnsAway(leftWall, r.1))
            && (BAND_CENTER + BAND_WIDTH <= d < FAR_READING ==> TurnsAway(!leftWall, r.1))
  {
    var f := Filtered(FILTER_OUT, BAND_CENTER, s.filterControl, raw);
    var d := f.1;
    InBandIsNear(d, BAND_CENTER, BAND_WIDTH);
    if d < FAR_READING && Abs(d - BAND_CENTER) >= BAND_WIDTH {
      assert d == raw;
      SpeedDifferenceIsProportional(raw);
    }
    var r := FollowStep(leftWall, s, raw);
    RightWallMirrorsLeftWall(d, r.0.wheelSpeedDifference);
    MirroredTwice(Follow(true, d, r.0.wheelSpeedDifference));
  }

  class UltrasonicNavigationData {
    const tile: real
    const boardSize: real
    var followingLeftWall: bool
    var wheelSpeedDifference: int
    var distance: int
    var filterControl: int
    var corner: bool
    /** The motor commands issued so far, in order. */
    var issued: seq<Command>
    var odometer: CaptureOdometry.Odometer?
    var navigation: CaptureNavigation.Navigation?
    /** The planner whose navigation state this object reads and writes. */
    var navigationController: PathPlanner.NavigationController?

    function State(): (s: FState)
      reads this
    {
      FState(filterControl, distance, wheelSpeedDifference, corner)
    }

    /** The associations are set afterwards, through the setters. */
    constructor (tile: real, boardSize: real)
      ensures this.tile == tile && this.boardSize == boardSize
      ensures State() == FState(0, 0, 0, false) && !followingLeftWall && issued == []
      ensures odometer == null && navigation == null && navigationController == null
    {
      this.tile := tile;
      this.boardSize := boardSize;
      followingLeftWall := false;
      wheelSpeedDifference := 0;
      distance := 0;
      filterControl := 0;
      corner := false;
      issued := [];
      odometer := null;
      navigation := null;
      navigationController := null;
    }

    method SetOdometer(odometer: CaptureOdometry.Odometer)
      modifies this`odometer
      ensures this.odometer == odometer
    {
      this.odometer := odometer;
    }

    method SetNavigation(navigation: CaptureNavigation.Navigation)
      modifies this`navigation
      ensures this.navigation == navigation
    {
      this.navigation := navigation;
    }

    method SetNavigationController(navigationController: PathPlanner.NavigationController)
      modifies this`navigationController
      ensures this.navigationController == navigationController
    {
      this.navigationController := navigationController;
    }

    /**
     * What processData dereferences for this reading: the planner always,
     * and when it breaks off, the odometer and the navigation, whose wheel
     * radius the turn divides by.
     */
    predicate CanProcess(raw: int)
      reads this, navigationController
    {
      navigationController != null
      && (navigationController.state == PathPlanner.NAVIGATING && raw < OBSTACLE_THRESHOLD ==>
            odometer != null && navigation != null && navigation.wheelRadius > 0.0)
    }

    /** Sets both speeds, then the right wheel's direction, then the left's. */
    method IssueDrive(d: Drive)
      modifies this`issued
      ensures issued == old(issued) + DriveCommands(d)
    {
      issued := issued + [SetSpeed(LeftWheel, d.leftSpeed), SetSpeed(RightWheel, d.rightSpeed)];
      issued := issued + [if d.rightForward then Forward(RightWheel) else Backward(RightWheel)];
      issued := issued + [if d.leftForward then Forward(LeftWheel) else Backward(LeftWheel)];
    }

    /**
     * whichDirectionInterruption: the pose is truncated to ints, and the
     * robot turns right exactly when the clockwise turn to the board
     * centre is the shorter.
     */
    method WhichDirectionInterruption(atan2: (real, real) -> real) returns (turnRight: bool)
      requires odometer != null
      ensures turnRight == TurnsRightToward(CentreHeading(odometer.x, odometer.y, boardSize, tile, atan2),
                                            JavaInt(odometer.thetaDegree))
    {
      var currentX := JavaInt(odometer.x);
      var currentY := JavaInt(odometer.y);
      var currentTheta := JavaInt(odometer.thetaDegree);
      var nextHeading := JavaInt(ToDegrees(atan2((boardSize / 2.0) * tile - currentX as real,
                                                 (boardSize / 2.0) * tile - currentY as real)));
      var rightRotation := Int32(nextHeading - currentTheta);
      if rightRotation < 0 {
        rightRotation := Int32(rightRotation + 360);
      }
      var leftRotation := Int32(currentTheta - nextHeading);
      if leftRotation < 0 {
        leftRotation := Int32(leftRotation + 360);
      }
      assert nextHeading == CentreHeading(odometer.x, odometer.y, boardSize, tile, atan2);
      assert rightRotation == ClockwiseRotation(nextHeading, currentTheta);
      assert leftRotation == ClockwiseRotation(currentTheta, nextHeading);
      turnRight := rightRotation < leftRotation;
    }

    /** processWallFollowing: filter the reading, then issue the follower's drive. */
    method ProcessWallFollowing(raw: int)
      modifies this`filterControl, this`distance, this`wheelSpeedDifference, this`corner, this`issued
      ensures State() == FollowStep(followingLeftWall, old(State()), raw).0
      ensures issued == old(issued) + DriveCommands(FollowStep(followingLeftWall, old(State()), raw).1)
    {
      ghost var s := old(State());
      if raw >= FAR_READING && filterControl < FILTER_OUT {
        filterControl := Int32(filterControl + 1);
        distance := BAND_CENTER;
      } else if raw >= FAR_READING {
        distance := raw;
      } else {
        filterControl := 0;
        distance := raw;
      }
      assert (filterControl, distance) == Filtered(FILTER_OUT, BAND_CENTER, s.filterControl, raw);

      corner := false;
      if distance >= FAR_READING {
        var leftSpeed := if followingLeftWall then CORNER_INNER_SPEED else CORNER_OUTER_SPEED;
        var rightSpeed := if !followingLeftWall then CORNER_INNER_SPEED else CORNER_OUTER_SPEED;
        IssueDrive(Steer(leftSpeed, rightSpeed));
        corner := true;
      } else {
        wheelSpeedDifference := AbsInt32(JDiv(Int32(ERROR_PROPORTIONALITY * Int32(BAND_CENTER - raw)), 10));
        if wheelSpeedDifference > MAX_SPEED_DIFFERENCE {
          wheelSpeedDifference := MAX_SPEED_DIFFERENCE;
        }
        assert wheelSpeedDifference == SpeedDifference(raw);
      }

      if !corner {
        if AbsInt32(Int32(distance - BAND_CENTER)) < BAND_WIDTH {
          IssueDrive(Steer(MOTOR_SPEED, MOTOR_SPEED));
        } else if distance < BAND_CENTER {
          if distance < REVERSE_DISTANCE {
            IssueDrive(Reverse(BACKWARD_SPEED));
          } else if distance < SPIN_DISTANCE {
            if followingLeftWall {
              IssueDrive(Drive(SPIN_SPEED, SPIN_SPEED, true, false));
            } else {
              IssueDrive(Drive(SPIN_SPEED, SPIN_SPEED, false, true));
            }
          } else {
            var leftSpeed := if followingLeftWall then MOTOR_SPEED + wheelSpeedDifference else MOTOR_SPEED - wheelSpeedDifference;
            var rightSpeed := if !followingLeftWall then MOTOR_SPEED + wheelSpeedDifference else MOTOR_SPEED - wheelSpeedDifference;
            IssueDrive(Steer(leftSpeed, rightSpeed));
          }
        } else {
          var leftSpeed := if !followingLeftWall then MOTOR_SPEED + wheelSpeedDifference else MOTOR_SPEED - wheelSpeedDifference;
          var rightSpeed := if followingLeftWall then MOTOR_SPEED + wheelSpeedDifference else MOTOR_SPEED - wheelSpeedDifference;
          IssueDrive(Steer(leftSpeed, rightSpeed));
        }
      }
    }

    /**
     * The break-off from navigation: choose the side, point the sensor at
     * the wall on that side, turn a quarter turn and switch the planner to
     * AVOIDING.
     */
    method BreakOff(atan2: (real, real) -> real)
      requires odometer != null && navigation != null && navigation.wheelRadius > 0.0 && navigationController != null
      modifies this`followingLeftWall, this`issued, navigation`issued, navigation`interruptedTheta,
               navigationController`state
      ensures followingLeftWall == TurnsRightToward(CentreHeading(odometer.x, odometer.y, boardSize, tile, atan2),
                                                    JavaInt(odometer.thetaDegree))
      ensures issued == old(issued) + [RotateTo(FrontMotor, if followingLeftWall then LEFT_WALL_ANGLE else RIGHT_WALL_ANGLE, true)]
      ensures navigation.issued == old(navigation.issued)
                + CaptureNavigation.InterruptCommands(navigation.wheelRadius, navigation.track, followingLeftWall)
      ensures navigation.interruptedTheta == JavaInt(navigation.odometer.thetaDegree) as real
      ensures navigationController.state == PathPlanner.AVOIDING
    {
      followingLeftWall := WhichDirectionInterruption(atan2);
      var angle := RIGHT_WALL_ANGLE;
      if followingLeftWall {
        angle := LEFT_WALL_ANGLE;
      }
      issued := issued + [RotateTo(FrontMotor, angle, true)];
      navigation.InterruptNav(followingLeftWall);
      navigationController.SetNavigationState(PathPlanner.AVOIDING);
    }

    /**
     * processData: while navigating, a reading below 18 breaks off
     * navigation toward the side of the board centre; while avoiding,
     * the reading drives the wall follower; otherwise it is ignored.
     */
    method ProcessData(raw: int, atan2: (real, real) -> real)
      requires CanProcess(raw)
      modifies this`followingLeftWall, this`filterControl, this`distance, this`wheelSpeedDifference,
               this`corner, this`issued, navigation, navigationController`state
      ensures old(navigationController.state) == PathPlanner.NAVIGATING && raw < OBSTACLE_THRESHOLD ==>
                followingLeftWall == TurnsRightToward(CentreHeading(odometer.x, odometer.y, boardSize, tile, atan2),
                                                      JavaInt(odometer.thetaDegree))
                && issued == old(issued) + [RotateTo(FrontMotor, if followingLeftWall then LEFT_WALL_ANGLE else RIGHT_WALL_ANGLE, true)]
                && navigation.issued == old(navigation.issued) + CaptureNavigation.InterruptCommands(navigation.wheelRadius, navigation.track, followingLeftWall)
                && navigation.interruptedTheta == JavaInt(navigation.odometer.thetaDegree) as real
                && navigationController.state == PathPlanner.AVOIDING
                && State() == old(State())
      ensures old(navigationController.state) == PathPlanner.AVOIDING ==>
                State() == FollowStep(followingLeftWall, old(State()), raw).0
                && issued == old(issued) + DriveCommands(FollowStep(followingLeftWall, old(State()), raw).1)
                && followingLeftWall == old(followingLeftWall)
                && navigationController.state == PathPlanner.AVOIDING
      ensures old(navigationController.state) == PathPlanner.READY
              || (old(navigationController.state) == PathPlanner.NAVIGATING && raw >= OBSTACLE_THRESHOLD) ==>
                State() == old(State()) && issued == old(issued) && followingLeftWall == old(followingLeftWall)
                && navigationController.state == old(navigationController.state)
      ensures navigation != null && !(old(navigationController.state) == PathPlanner.NAVIGATING && raw < OBSTACLE_THRESHOLD) ==>
                unchanged(navigation)
    {
      var state := navigationController.GetNavigationState();
      if state == PathPlanner.NAVIGATING {
        if raw < OBSTACLE_THRESHOLD {
          BreakOff(atan2);
        }
      } else if state == PathPlanner.AVOIDING {
        ProcessWallFollowing(raw);
      }
    }
  }
}
