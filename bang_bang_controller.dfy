/**
 * The wall-following lab's bang-bang controller. The wall is on the
 * robot's left. There are two fixed wheel speeds, low and high: in the
 * band both wheels run low, too close the left wheel runs high, too far the
 * right wheel does. Very close the robot backs off or spins, and both count
 * as spinning.
 */
module BangBangControl {
  import opened JavaSemantics
  import opened Motors
  import opened WallFollowing

  const FILTER_OUT: int := 35
  const SPIN_SPEED: int := 175
  const REVERSE_SPEED: int := 300
  /** Closer than this the robot backs off. */
  const REVERSE_DISTANCE: int := 10
  /** Closer than this, and not reversing, the robot spins. */
  const SPIN_DISTANCE: int := 20

  datatype BState = BState(filterControl: int, distance: int, spinning: bool)

  /** The drive for a filtered distance. */
  function Rule(bandCenter: int, bandwidth: int, motorLow: int, motorHigh: int, distance: int): (d: Drive)
  {
    if InBand(distance, bandCenter, bandwidth) then Steer(motorLow, motorLow)
    else if distance < bandCenter then
      (if distance < REVERSE_DISTANCE then Reverse(REVERSE_SPEED)
       else if distance < SPIN_DISTANCE then SpinClockwise(SPIN_SPEED)
       else Steer(motorHigh, motorLow))
    else Steer(motorLow, motorHigh)
  }

  /**
   * processUSData: the new state and the drive issued. The spinning flag
   * is raised exactly when the robot backs off or spins.
   */
  function Respond(bandCenter: int, bandwidth: int, motorLow: int, motorHigh: int, s: BState, raw: int): (r: (BState, Drive))
    ensures r.0.spinning <==> (r.1 == Reverse(REVERSE_SPEED) || r.1 == SpinClockwise(SPIN_SPEED))
                               && !InBand(r.0.distance, bandCenter, bandwidth)
    ensures r.0.distance == raw || (raw >= FAR_READING && r.0.distance == bandCenter)
  {
    var f := Filtered(FILTER_OUT, bandCenter, s.filterControl, raw);
    var drive := Rule(bandCenter, bandwidth, motorLow, motorHigh, f.1);
    var spinning := !InBand(f.1, bandCenter, bandwidth) && f.1 < bandCenter && f.1 < SPIN_DISTANCE;
    (BState(f.0, f.1, spinning), drive)
  }

  /**
   * With wheel speeds 0 <= low < high below the reverse and spin speeds,
   * the drive corrects the error: both low in the band, a right turn away
   * from the wall when too close, backing off when very close, a left
   * turn toward it when too far.
   */
  lemma SteersAgainstTheError(bandCenter: int, bandwidth: int, motorLow: int, motorHigh: int, s: BState, raw: int)
    requires 0 <= motorLow < motorHigh && 0 <= bandCenter < FAR_READING && 0 <= raw <= INT_MAX
    ensures var r := Respond(bandCenter, bandwidth, motorLow, motorHigh, s, raw);
            var d := r.0.distance;
            (Abs(d - bandCenter) < bandwidth ==> r.1 == Steer(motorLow, motorLow) && !r.0.spinning)
            && (Abs(d - bandCenter) >= bandwidth && d < REVERSE_DISTANCE && d < bandCenter ==>
                  r.1 == Reverse(REVERSE_SPEED) && r.0.spinning)
            && (Abs(d - bandCenter) >= bandwidth && REVERSE_DISTANCE <= d < bandCenter ==> TurnsRight(r.1))
            && (Abs(d - bandCenter) >= bandwidth && d > bandCenter ==> TurnsLeft(r.1) && !r.0.spinning)
  {
    var f := Filtered(FILTER_OUT, bandCenter, s.filterControl, raw);
    InBandIsNear(f.1, bandCenter, bandwidth);
  }

  class BangBangController {
    const bandCenter: int
    const bandwidth: int
    const motorLow: int
    const motorHigh: int
    var distance: int
    var filterControl: int
    var spinning: bool
    /** The motor commands issued so far, in order. */
    var issued: seq<Command>

    function State(): (s: BState)
      reads this
    {
      BState(filterControl, distance, spinning)
    }

    /** The constructor zeroes the state and sets both wheels rolling forward at the low speed. */
    constructor (bandCenter: int, bandwidth: int, motorLow: int, motorHigh: int)
      ensures this.bandCenter == bandCenter && this.bandwidth == bandwidth
      ensures this.motorLow == motorLow && this.motorHigh == motorHigh
      ensures State() == BState(0, 0, false)
      ensures issued == [SetSpeed(LeftWheel, motorLow), SetSpeed(RightWheel, motorLow),
                         Forward(LeftWheel), Forward(RightWheel)]
    {
      this.bandCenter := bandCenter;
      this.bandwidth := bandwidth;
      this.motorLow := motorLow;
      this.motorHigh := motorHigh;
      distance := 0;
      filterControl := 0;
      spinning := false;
      issued := [SetSpeed(LeftWheel, motorLow), SetSpeed(RightWheel, motorLow),
                 Forward(LeftWheel), Forward(RightWheel)];
    }

    /** Sets both speeds, then the right wheel's direction, then the left's. */
    method IssueDrive(d: Drive)
      modifies this`issued
      ensures issued == old(issued) + DriveCommands(d)
    {
      issued := issued + [SetSpeed(LeftWheel, d.leftSpeed), SetSpeed(RightWheel, d.rightSpeed)];
      issued := issued + [if d.rightForward then Forward(RightWheel) else Backward(RightWheel)];
      issued := issued + [if d.leftForward then Forward(LeftWheel) else Backward(LeftWheel)];
    }

    method ProcessUSData(raw: int)
      modifies this`distance, this`filterControl, this`spinning, this`issued
      ensures State() == Respond(bandCenter, bandwidth, motorLow, motorHigh, old(State()), raw).0
      ensures issued == old(issued) + DriveCommands(Respond(bandCenter, bandwidth, motorLow, motorHigh, old(State()), raw).1)
    {
      ghost var s := old(State());
      if raw >= FAR_READING && filterControl < FILTER_OUT {
        filterControl := Int32(filterControl + 1);
        distance := bandCenter;
      } else if raw >= FAR_READING {
        distance := raw;
      } else {
        filterControl := 0;
        distance := raw;
      }
      assert (filterControl, distance) == Filtered(FILTER_OUT, bandCenter, s.filterControl, raw);

      if AbsInt32(Int32(distance - bandCenter)) < bandwidth {
        IssueDrive(Steer(motorLow, motorLow));
        spinning := false;
      } else if distance < bandCenter {
        if distance < REVERSE_DISTANCE {
          IssueDrive(Reverse(REVERSE_SPEED));
          spinning := true;
        } else if distance < SPIN_DISTANCE {
          IssueDrive(SpinClockwise(SPIN_SPEED));
          spinning := true;
        } else {
          IssueDrive(Steer(motorHigh, motorLow));
          spinning := false;
        }
      } else {
        IssueDrive(Steer(motorLow, motorHigh));
        spinning := false;
      }
    }

    /** readUSDistance: the filtered distance. */
    method ReadUSDistance() returns (d: int)
      ensures d == distance
    {
      d := distance;
    }
  }
}
