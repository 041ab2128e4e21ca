/**
 * The wall-following lab's proportional controller. The wall is on the
 * robot's left. Each ultrasonic sample is filtered, turned into a
 * proportional speed difference, and answered with one drive. The robot
 * goes straight in the band, turns right when too close (spinning when very
 * close), and turns left when too far.
 */
module WallPController {
  import opened JavaSemantics
  import opened Motors
  import opened WallFollowing

  const MOTOR_SPEED: int := 140
  const FILTER_OUT: int := 40
  const ERROR_PROPORTIONALITY: int := 35
  const CORNER_SPEED_DIFFERENCE: int := 60
  const SPIN_SPEED: int := 150
  /** Closer than this the robot spins instead of steering. */
  const SPIN_DISTANCE: int := 20
  /** A speed difference above this is replaced by JUMP_SPEED_DIFFERENCE. */
  const JUMP_LIMIT: int := 70
  const JUMP_SPEED_DIFFERENCE: int := 90

  datatype PState = PState(filterControl: int, distance: int, wheelSpeedDifference: int,
                           spinning: bool, spinningCounter: int)

  /**
   * The speed difference: the corner value for a far reading, otherwise
   * 3.5 times the error truncated, with anything above 70 raised to 90.
   */
  function SpeedDifference(bandCenter: int, raw: int): (w: int)
    ensures raw >= FAR_READING ==> w == CORNER_SPEED_DIFFERENCE
    ensures 0 <= w <= JUMP_LIMIT || w == JUMP_SPEED_DIFFERENCE
  {
    if raw >= FAR_READING then CORNER_SPEED_DIFFERENCE
    else
      var w := AbsInt32(JDiv(Int32(ERROR_PROPORTIONALITY * Int32(bandCenter - raw)), 10));
      if w > JUMP_LIMIT then JUMP_SPEED_DIFFERENCE else w
  }

  /**
   * Below the jump the difference is the error times 3.5, truncated; from
   * an error of 71/3.5 on, it is 90 and never anything between 70 and 90.
   */
  lemma SpeedDifferenceIsProportional(bandCenter: int, raw: int)
    requires raw < FAR_READING && Abs(bandCenter - raw) < 1000
    ensures var e := ERROR_PROPORTIONALITY * Abs(bandCenter - raw);
            var w := SpeedDifference(bandCenter, raw);
            (e < (JUMP_LIMIT + 1) * 10 ==> w * 10 <= e < w * 10 + 10)
            && (e >= (JUMP_LIMIT + 1) * 10 ==> w == JUMP_SPEED_DIFFERENCE)
  {
    var x := ERROR_PROPORTIONALITY * (bandCenter - raw);
    assert Int32(bandCenter - raw) == bandCenter - raw;
    assert Int32(x) == x;
    assert Abs(x) == ERROR_PROPORTIONALITY * Abs(bandCenter - raw);
  }

  /** The drive for a filtered distance and a speed difference. */
  function Rule(bandCenter: int, bandWidth: int, distance: int, w: int): (d: Drive)
  {
    if InBand(distance, bandCenter, bandWidth) then Steer(MOTOR_SPEED, MOTOR_SPEED)
    else if distance < bandCenter then
      (if distance < SPIN_DISTANCE then SpinClockwise(SPIN_SPEED)
       else Steer(MOTOR_SPEED + w, MOTOR_SPEED - w))
    else Steer(MOTOR_SPEED - w, MOTOR_SPEED + w)
  }

  /**
   * processUSData: the new state and the drive issued. The spinning
   * counter counts the samples since the robot last spun.
   */
  function Respond(bandCenter: int, bandWidth: int, s: PState, raw: int): (r: (PState, Drive))
    ensures r.0.spinningCounter == (if r.1 == SpinClockwise(SPIN_SPEED) then 0 else Int32(s.spinningCounter + 1))
    ensures InBand(r.0.distance, bandCenter, bandWidth) ==> r.0.spinning == s.spinning
    ensures !InBand(r.0.distance, bandCenter, bandWidth) ==> (r.0.spinning <==> r.1 == SpinClockwise(SPIN_SPEED))
  {
    var f := Filtered(FILTER_OUT, bandCenter, s.filterControl, raw);
    var w := SpeedDifference(bandCenter, raw);
    var drive := Rule(bandCenter, bandWidth, f.1, w);
    var spins := drive == SpinClockwise(SPIN_SPEED);
    var spinning := if InBand(f.1, bandCenter, bandWidth) then s.spinning else spins;
    var counter := if spins then 0 else Int32(s.spinningCounter + 1);
    (PState(f.0, f.1, w, spinning, counter), drive)
  }

  /**
   * With the band centre below the far-reading threshold and a positive
   * band width, the drive corrects the error: straight in the band, a
   * right turn away from the wall when too close, and a left turn toward
   * it when too far.
   */
  lemma SteersAgainstTheError(bandCenter: int, bandWidth: int, s: PState, raw: int)
    requires 0 < bandWidth && 0 <= bandCenter < FAR_READING && 0 <= raw <= INT_MAX
    ensures var r := Respond(bandCenter, bandWidth, s, raw);
            var d := r.0.distance;
            (Abs(d - bandCenter) < bandWidth ==> r.1 == Steer(MOTOR_SPEED, MOTOR_SPEED))
            && (Abs(d - bandCenter) >= bandWidth && d < bandCenter ==> TurnsRight(r.1))
            && (Abs(d - bandCenter) >= bandWidth && d > bandCenter ==> TurnsLeft(r.1))
  {
    var f := Filtered(FILTER_OUT, bandCenter, s.filterControl, raw);
    var d := f.1;
    InBandIsNear(d, bandCenter, bandWidth);
    var w := SpeedDifference(bandCenter, raw);
    if raw < FAR_READING && Abs(d - bandCenter) >= bandWidth {
      SpeedDifferenceIsProportional(bandCenter, raw);
      assert d == raw;
      assert w >= 3;
    }
  }

  class PController {
    const bandCenter: int
    const bandWidth: int
    var spinningCounter: int
    var wheelSpeedDifference: int
    var distance: int
    var filterControl: int
    var spinning: bool
    /** The motor commands issued so far, in order. */
    var issued: seq<Command>

    function State(): (s: PState)
      reads this
    {
      PState(filterControl, distance, wheelSpeedDifference, spinning, spinningCounter)
    }

    /** The constructor zeroes the state and sets both wheels rolling forward. */
    constructor (bandCenter: int, bandWidth: int)
      ensures this.bandCenter == bandCenter && this.bandWidth == bandWidth
      ensures State() == PState(0, 0, 0, false, 0)
      ensures issued == [SetSpeed(LeftWheel, MOTOR_SPEED), SetSpeed(RightWheel, MOTOR_SPEED),
                         Forward(LeftWheel), Forward(RightWheel)]
    {
      this.bandCenter := bandCenter;
      this.bandWidth := bandWidth;
      filterControl := 0;
      spinningCounter := 0;
      wheelSpeedDifference := 0;
      distance := 0;
      spinning := false;
      issued := [SetSpeed(LeftWheel, MOTOR_SPEED), SetSpeed(RightWheel, MOTOR_SPEED),
                 Forward(LeftWheel), Forward(RightWheel)];
    }

    /** Sets both speeds, then the right wheel's direction, then the left's. */
    method IssueDrive(d: Drive)
      modifies this`issued
      ensures issued == old(issued) + DriveCommands(d)
    {
      issued := issued + [SetSpeed(LeftWheel, d.leftSpeed), SetSpeed(RightWheel, d.rightSpeed)];
      issued := issued + [if d.rightForward then Forward(RightWheel) else Backward(RightWheel)];
      issued := issued + [if d.leftForward then Forward(LeftWheel) else Backward(LeftWheel)];
    }

    method ProcessUSData(raw: int)
      modifies this`spinningCounter, this`wheelSpeedDifference, this`distance, this`filterControl,
               this`spinning, this`issued
      ensures State() == Respond(bandCenter, bandWidth, old(State()), raw).0
      ensures issued == old(issued) + DriveCommands(Respond(bandCenter, bandWidth, old(State()), raw).1)
    {
      ghost var s := old(State());
      if raw >= FAR_READING && filterControl < FILTER_OUT {
        filterControl := Int32(filterControl + 1);
        distance := bandCenter;
      } else if raw >= FAR_READING {
        distance := raw;
      } else {
        filterControl := 0;
        distance := raw;
      }
      assert (filterControl, distance) == Filtered(FILTER_OUT, bandCenter, s.filterControl, raw);

      if raw >= FAR_READING {
        wheelSpeedDifference := CORNER_SPEED_DIFFERENCE;
      } else {
        wheelSpeedDifference := AbsInt32(JDiv(Int32(ERROR_PROPORTIONALITY * Int32(bandCenter - raw)), 10));
        if wheelSpeedDifference > JUMP_LIMIT {
          wheelSpeedDifference := JUMP_SPEED_DIFFERENCE;
        }
      }
      assert wheelSpeedDifference == SpeedDifference(bandCenter, raw);

      spinningCounter := Int32(spinningCounter + 1);

      if AbsInt32(Int32(distance - bandCenter)) < bandWidth {
        IssueDrive(Steer(MOTOR_SPEED, MOTOR_SPEED));
      } else if distance < bandCenter {
        if distance < SPIN_DISTANCE {
          IssueDrive(SpinClockwise(SPIN_SPEED));
          spinning := true;
          spinningCounter := 0;
        } else {
          IssueDrive(Steer(MOTOR_SPEED + wheelSpeedDifference, MOTOR_SPEED - wheelSpeedDifference));
          spinning := false;
        }
      } else {
        IssueDrive(Steer(MOTOR_SPEED - wheelSpeedDifference, MOTOR_SPEED + wheelSpeedDifference));
        spinning := false;
      }
    }

    /** readUSDistance: the filtered distance. */
    method ReadUSDistance() returns (d: int)
      ensures d == distance
    {
      d := distance;
    }
  }
}
