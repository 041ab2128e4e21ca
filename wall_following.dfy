/**
 * What the wall-following controllers share. A distance filter ignores
 * isolated far readings. Each sample ends in one drive: a speed for each
 * wheel and a direction for each. Every controller issues a drive the same
 * way: the left speed, the right speed, then the right wheel's direction,
 * then the left's.
 */
module WallFollowing {
  import opened JavaSemantics
  import opened Motors

  /** Readings at or above this are suspected to be no echo at all. */
  const FAR_READING: int := 100

  datatype Drive = Drive(leftSpeed: int, rightSpeed: int, leftForward: bool, rightForward: bool)

  function Direction(m: Motor, forward: bool): (c: Command)
    ensures c.motor == m && (c.Forward? <==> forward) && (c.Backward? <==> !forward)
  {
    if forward then Forward(m) else Backward(m)
  }

  /** The commands that put a drive into effect, in the order the controllers issue them. */
  function DriveCommands(d: Drive): (cs: seq<Command>)
    ensures |cs| == 4
    ensures cs[0] == SetSpeed(LeftWheel, d.leftSpeed) && cs[1] == SetSpeed(RightWheel, d.rightSpeed)
    ensures cs[2].motor == RightWheel && (cs[2].Forward? <==> d.rightForward) && (cs[2].Backward? <==> !d.rightForward)
    ensures cs[3].motor == LeftWheel && (cs[3].Forward? <==> d.leftForward) && (cs[3].Backward? <==> !d.leftForward)
  {
    [SetSpeed(LeftWheel, d.leftSpeed), SetSpeed(RightWheel, d.rightSpeed),
     Direction(RightWheel, d.rightForward), Direction(LeftWheel, d.leftForward)]
  }

  /** Both wheels forward at their own speeds. */
  function Steer(left: int, right: int): (d: Drive)
  {
    Drive(left, right, true, true)
  }

  /** Both wheels backward at the same speed. */
  function Reverse(speed: int): (d: Drive)
  {
    Drive(speed, speed, false, false)
  }

  /** On the spot, clockwise: the left wheel forward and the right backward. */
  function SpinClockwise(speed: int): (r: Drive)
  {
    Drive(speed, speed, true, false)
  }

  /** The drive with the two wheels' roles exchanged. */
  function Mirrored(d: Drive): (m: Drive)
  {
    Drive(d.rightSpeed, d.leftSpeed, d.rightForward, d.leftForward)
  }

  lemma MirroredTwice(d: Drive)
    ensures Mirrored(Mirrored(d)) == d
  {
  }

  /**
   * The drive makes the robot turn right: it spins clockwise, or both
   * wheels go forward with the left one faster.
   */
  predicate TurnsRight(d: Drive)
  {
    (d.leftForward && !d.rightForward && d.leftSpeed > 0 && d.rightSpeed > 0)
    || (d.leftForward && d.rightForward && d.leftSpeed > d.rightSpeed >= 0)
  }

  /** A right turn mirrored is a left turn. */
  predicate TurnsLeft(d: Drive)
  {
    TurnsRight(Mirrored(d))
  }

  /** The sweet-spot test, `Math.abs(distance - bandCenter) < bandWidth` on Java ints. */
  predicate InBand(distance: int, bandCenter: int, bandWidth: int)
  {
    AbsInt32(Int32(distance - bandCenter)) < bandWidth
  }

  /** Without wrap-around, the sweet-spot test is the plain distance test. */
  lemma InBandIsNear(distance: int, bandCenter: int, bandWidth: int)
    requires INT_MIN < distance - bandCenter <= INT_MAX
    ensures InBand(distance, bandCenter, bandWidth) <==> Abs(distance - bandCenter) < bandWidth
  {
  }

  /**
   * The filter: a far reading is replaced by `substitute` while fewer than
   * `filterOut` far readings have come in a row. Further far readings pass.
   * A near reading passes and resets the count.
   */
  function Filtered(filterOut: int, substitute: int, filterControl: int, raw: int): (r: (int, int))
    ensures r.1 == raw || (raw >= FAR_READING && r.1 == substitute)
    ensures raw < FAR_READING ==> r.0 == 0
    ensures 0 <= filterControl <= filterOut <= INT_MAX ==> 0 <= r.0 <= filterOut
  {
    if raw >= FAR_READING && filterControl < filterOut then (Int32(filterControl + 1), substitute)
    else if raw >= FAR_READING then (filterControl, raw)
    else (0, raw)
  }

  /** The distances the filter lets through for a run of readings, and the count it ends on. */
  function FilterRun(filterOut: int, substitute: int, filterControl: int, raws: seq<int>): (r: (int, seq<int>))
    ensures |r.1| == |raws|
    decreases |raws|
  {
    if raws == [] then (filterControl, [])
    else
      var first := Filtered(filterOut, substitute, filterControl, raws[0]);
      var rest := FilterRun(filterOut, substitute, first.0, raws[1..]);
      (rest.0, [first.1] + rest.1)
  }

  /**
   * A run of far readings: the first `filterOut - filterControl` are
   * replaced by the substitute and every later one passes unchanged.
   */
  lemma {:induction false} FarRunPassesAfterFilterOut(filterOut: int, substitute: int, filterControl: int, raws: seq<int>)
    requires 0 <= filterControl <= filterOut < INT_MAX
    requires forall k :: 0 <= k < |raws| ==> raws[k] >= FAR_READING
    ensures forall k :: 0 <= k < |raws| ==>
              FilterRun(filterOut, substitute, filterControl, raws).1[k]
                == (if k < filterOut - filterControl then substitute else raws[k])
    ensures FilterRun(filterOut, substitute, filterControl, raws).0
              == (if |raws| < filterOut - filterControl then filterControl + |raws| else filterOut)
    decreases |raws|
  {
    if raws != [] {
      var first := Filtered(filterOut, substitute, filterControl, raws[0]);
      FarRunPassesAfterFilterOut(filterOut, substitute, first.0, raws[1..]);
      var out := FilterRun(filterOut, substitute, filterControl, raws).1;
      var tail := FilterRun(filterOut, substitute, first.0, raws[1..]).1;
      assert out == [first.1] + tail;
      forall k | 0 <= k < |raws|
        ensures out[k] == (if k < filterOut - filterControl then substitute else raws[k])
      {
        if k > 0 {
          assert out[k] == tail[k - 1];
          assert raws[1..][k - 1] == raws[k];
        }
      }
    }
  }

  /** A near reading always passes, and the next far reading is replaced again. */
  lemma NearReadingRearmsFilter(filterOut: int, substitute: int, filterControl: int, near: int, far: int)
    requires near < FAR_READING <= far && 0 < filterOut
    ensures Filtered(filterOut, substitute, filterControl, near) == (0, near)
    ensures Filtered(filterOut, substitute, 0, far) == (1, substitute)
  {
  }
}
