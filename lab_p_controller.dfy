/**
 * The localisation lab's proportional wall follower (odometerlab package).
 * The wall is on the robot's left. Unlike the wall-following lab's
 * controller, a filtered distance of 100 or more is a corner: the robot
 * sweeps left around it and skips the band rules. The speed difference is
 * clamped at 90 rather than jumping to it, and reversing away from the wall
 * does not count as spinning.
 */
module LabPController {
  import opened JavaSemantics
  import opened Motors
  import opened WallFollowing

  const MOTOR_SPEED: int := 140
  const FILTER_OUT: int := 45
  const ERROR_PROPORTIONALITY: int := 35
  const CORNER_SPEED_DIFFERENCE: int := 45
  const SPIN_SPEED: int := 150
  /** The corner drive: the right wheel faster, swinging the robot left toward the wall. */
  const CORNER_RIGHT_SPEED: int := 240
  const REVERSE_SPEED: int := 300
  /** Closer than this the robot backs off. */
  const REVERSE_DISTANCE: int := 10
  /** Closer than this, and not reversing, the robot spins. */
  const SPIN_DISTANCE: int := 20
  /** The largest speed difference. */
  const MAX_SPEED_DIFFERENCE: int := 90

  datatype LState = LState(filterControl: int, distance: int, wheelSpeedDifference: int,
                           spinning: bool, corner: bool)

  /**
   * The speed difference outside a corner: 3.5 times the error between the
   * band centre and the raw reading, truncated, on Java ints, clamped at 90.
   */
  function SpeedDifference(bandCenter: int, raw: int): (w: int)
    ensures 0 <= w <= MAX_SPEED_DIFFERENCE
  {
    var w := AbsInt32(JDiv(Int32(ERROR_PROPORTIONALITY * Int32(bandCenter - raw)), 10));
    if w > MAX_SPEED_DIFFERENCE then MAX_SPEED_DIFFERENCE else w
  }

  /** Without wrap-around the difference is the error times 3.5, truncated, up to the clamp. */
  lemma SpeedDifferenceIsProportional(bandCenter: int, raw: int)
    requires Abs(bandCenter - raw) < 1000
    ensures var e := ERROR_PROPORTIONALITY * Abs(bandCenter - raw);
            var w := SpeedDifference(bandCenter, raw);
            (e < (MAX_SPEED_DIFFERENCE + 1) * 10 ==> w * 10 <= e < w * 10 + 10)
            && (e >= (MAX_SPEED_DIFFERENCE + 1) * 10 ==> w == MAX_SPEED_DIFFERENCE)
  {
    var x := ERROR_PROPORTIONALITY * (bandCenter - raw);
    assert Int32(bandCenter - raw) == bandCenter - raw;
    assert Int32(x) == x;
    assert Abs(x) == ERROR_PROPORTIONALITY * Abs(bandCenter - raw);
  }

  /** The drive for a filtered distance that is not a corner, and a speed difference. */
  function BandRule(bandCenter: int, bandWidth: int, distance: int, w: int): (d: Drive)
  {
    if InBand(distance, bandCenter, bandWidth) then Steer(MOTOR_SPEED, MOTOR_SPEED)
    else if distance < bandCenter then
      (if distance < REVERSE_DISTANCE then Reverse(REVERSE_SPEED)
       else if distance < SPIN_DISTANCE then SpinClockwise(SPIN_SPEED)
       else Steer(MOTOR_SPEED + w, MOTOR_SPEED - w))
    else Steer(MOTOR_SPEED - w, MOTOR_SPEED + w)
  }

  /**
   * processUSData: the new state and the drive issued. A corner sets the
   * difference to 45 and keeps the spinning flag; otherwise the band rule
   * decides, and only a spin raises the flag.
   */
  function Respond(bandCenter: int, bandWidth: int, s: LState, raw: int): (r: (LState, Drive))
    ensures r.0.corner <==> r.0.distance >= FAR_READING
    ensures r.0.corner ==> r.1 == Steer(MOTOR_SPEED, CORNER_RIGHT_SPEED)
                           && r.0.wheelSpeedDifference == CORNER_SPEED_DIFFERENCE && r.0.spinning == s.spinning
    ensures !r.0.corner && InBand(r.0.distance, bandCenter, bandWidth) ==> r.0.spinning == s.spinning
    ensures !r.0.corner && !InBand(r.0.distance, bandCenter, bandWidth) ==>
              (r.0.spinning <==> r.1 == SpinClockwise(SPIN_SPEED))
  {
    var f := Filtered(FILTER_OUT, bandCenter, s.filterControl, raw);
    if f.1 >= FAR_READING then
      (LState(f.0, f.1, CORNER_SPEED_DIFFERENCE, s.spinning, true), Steer(MOTOR_SPEED, CORNER_RIGHT_SPEED))
    else
      var w := SpeedDifference(bandCenter, raw);
      var drive := BandRule(bandCenter, bandWidth, f.1, w);
      var spinning := if InBand(f.1, bandCenter, bandWidth) then s.spinning else drive == SpinClockwise(SPIN_SPEED);
      (LState(f.0, f.1, w, spinning, false), drive)
  }

  /**
   * The speed difference is taken from the raw reading, not the filtered
   * distance. The two differ only for a far reading replaced by the band
   * centre, and that distance is in the band, so the difference is unused.
   */
  lemma DifferenceIsUnusedForReplacedReading(bandCenter: int, bandWidth: int, s: LState, raw: int, w: int)
    requires 0 < bandWidth && bandCenter < FAR_READING
    requires Filtered(FILTER_OUT, bandCenter, s.filterControl, raw).1 != raw
    ensures Respond(bandCenter, bandWidth, s, raw).1 == Steer(MOTOR_SPEED, MOTOR_SPEED)
    ensures BandRule(bandCenter, bandWidth, bandCenter, w) == Steer(MOTOR_SPEED, MOTOR_SPEED)
  {
    assert Int32(bandCenter - bandCenter) == 0;
  }

  /**
   * With the band centre below the far-reading threshold and a positive
   * band width, the drive corrects the error: a left sweep at a corner,
   * straight in the band, backing off when very close, a right turn away
   * from the wall when too close otherwise, and a left turn toward it when
   * too far.
   */
  lemma SteersAgainstTheError(bandCenter: int, bandWidth: int, s: LState, raw: int)
    requires 0 < bandWidth && 0 <= bandCenter < FAR_READING && 0 <= raw <= INT_MAX
    ensures var r := Respond(bandCenter, bandWidth, s, raw);
            var d := r.0.distance;
            (d >= FAR_READING ==> TurnsLeft(r.1))
            && (Abs(d - bandCenter) < bandWidth && d < FAR_READING ==> r.1 == Steer(MOTOR_SPEED, MOTOR_SPEED))
            && (Abs(d - bandCenter) >= bandWidth && d < REVERSE_DISTANCE && d < bandCenter ==> r.1 == Reverse(REVERSE_SPEED))
            && (Abs(d - bandCenter) >= bandWidth && REVERSE_DISTANCE <= d < bandCenter ==> TurnsRight(r.1))
            && (Abs(d - bandCenter) >= bandWidth && bandCenter < d < FAR_READING ==> TurnsLeft(r.1))
  {
    var f := Filtered(FILTER_OUT, bandCenter, s.filterControl, raw);
    var d := f.1;
    InBandIsNear(d, bandCenter, bandWidth);
    if d < FAR_READING && Abs(d - bandCenter) >= bandWidth {
      assert d == raw;
      SpeedDifferenceIsProportional(bandCenter, raw);
      assert SpeedDifference(bandCenter, raw) >= 3;
    }
  }

  class PController {
    const bandCenter: int
    const bandWidth: int
    var wheelSpeedDifference: int
    var distance: int
    var filterControl: int
    var spinning: bool
    var corner: bool
    /** The motor commands issued so far, in order. */
    var issued: seq<Command>

    function State(): (s: LState)
      reads this
    {
      LState(filterControl, distance, wheelSpeedDifference, spinning, corner)
    }

    /** The constructor zeroes the state and sets both wheels rolling forward. */
    constructor (bandCenter: int, bandWidth: int)
      ensures this.bandCenter == bandCenter && this.bandWidth == bandWidth
      ensures State() == LState(0, 0, 0, false, false)
      ensures issued == [SetSpeed(LeftWheel, MOTOR_SPEED), SetSpeed(RightWheel, MOTOR_SPEED),
                         Forward(LeftWheel), Forward(RightWheel)]
    {
      this.bandCenter := bandCenter;
      this.bandWidth := bandWidth;
      filterControl := 0;
      wheelSpeedDifference := 0;
      distance := 0;
      spinning := false;
      corner := false;
      issued := [SetSpeed(LeftWheel, MOTOR_SPEED), SetSpeed(RightWheel, MOTOR_SPEED),
                 Forward(LeftWheel), Forward(RightWheel)];
    }

    /** Sets both speeds, then the right wheel's direction, then the left's. */
    method IssueDrive(d: Drive)
      modifies this`issued
      ensures issued == old(issued) + DriveCommands(d)
    {
      issued := issued + [SetSpeed(LeftWheel, d.leftSpeed), SetSpeed(RightWheel, d.rightSpeed)];
      issued := issued + [if d.rightForward then Forward(RightWheel) else Backward(RightWheel)];
      issued := issued + [if d.leftForward then Forward(LeftWheel) else Backward(LeftWheel)];
    }

    method ProcessUSData(raw: int)
      modifies this`wheelSpeedDifference, this`distance, this`filterControl, this`spinning,
               this`corner, this`issued
      ensures State() == Respond(bandCenter, bandWidth, old(State()), raw).0
      ensures issued == old(issued) + DriveCommands(Respond(bandCenter, bandWidth, old(State()), raw).1)
    {
      ghost var s := old(State());
      if raw >= FAR_READING && filterControl < FILTER_OUT {
        filterControl := Int32(filterControl + 1);
        distance := bandCenter;
      } else if raw >= FAR_READING {
        distance := raw;
      } else {
        filterControl := 0;
        distance := raw;
      }
      assert (filterControl, distance) == Filtered(FILTER_OUT, bandCenter, s.filterControl, raw);

      corner := false;
      if distance >= FAR_READING {
        wheelSpeedDifference := CORNER_SPEED_DIFFERENCE;
        IssueDrive(Steer(MOTOR_SPEED, CORNER_RIGHT_SPEED));
        corner := true;
      } else {
        wheelSpeedDifference := AbsInt32(JDiv(Int32(ERROR_PROPORTIONALITY * Int32(bandCenter - raw)), 10));
        if wheelSpeedDifference > MAX_SPEED_DIFFERENCE {
          wheelSpeedDifference := MAX_SPEED_DIFFERENCE;
        }
        assert wheelSpeedDifference == SpeedDifference(bandCenter, raw);
      }

      if !corner {
        if AbsInt32(Int32(distance - bandCenter)) < bandWidth {
          IssueDrive(Steer(MOTOR_SPEED, MOTOR_SPEED));
        } else if distance < bandCenter {
          if distance < REVERSE_DISTANCE {
            IssueDrive(Reverse(REVERSE_SPEED));
            spinning := false;
          } else if distance < SPIN_DISTANCE {
            IssueDrive(SpinClockwise(SPIN_SPEED));
            spinning := true;
          } else {
            IssueDrive(Steer(MOTOR_SPEED + wheelSpeedDifference, MOTOR_SPEED - wheelSpeedDifference));
            spinning := false;
          }
        } else {
          IssueDrive(Steer(MOTOR_SPEED - wheelSpeedDifference, MOTOR_SPEED + wheelSpeedDifference));
          spinning := false;
        }
      }
    }

    /** readUSDistance: the filtered distance. */
    method ReadUSDistance() returns (d: int)
      ensures d == distance
    {
      d := distance;
    }
  }
}
