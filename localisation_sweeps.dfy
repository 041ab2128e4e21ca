/**
 * The motor commands the localisation routines issue while the robot
 * spins in place to look for wall edges or grid lines. Every routine sets
 * both wheels to the rotation speed, turns counter-clockwise (left wheel
 * backward, right wheel forward), and ends by stopping the left wheel
 * without waiting and the right wheel waiting for it. The ultrasonic
 * routine reverses the spin between its two edges.
 */
module LocalisationSweeps {
  import opened JavaSemantics
  import opened Motors

  /** ROTATION_SPEED of every localisation routine. */
  const ROTATION_SPEED: int := 150

  /** setSpeed on both wheels, then the left wheel backward and the right one forward. */
  function SpinCommands(speed: int): (cmds: seq<Command>)
  {
    [SetSpeed(LeftWheel, speed), SetSpeed(RightWheel, speed), Backward(LeftWheel), Forward(RightWheel)]
  }

  /** The spin the other way: the left wheel forward and the right one backward. */
  function ReverseCommands(): (cmds: seq<Command>)
  {
    [Forward(LeftWheel), Backward(RightWheel)]
  }

  /** stop(true) on the left wheel, then stop() on the right one. */
  function StopCommands(): (cmds: seq<Command>)
  {
    [Stop(LeftWheel, true), Stop(RightWheel, false)]
  }

  /** The ultrasonic routine: spin, reverse at the first edge, stop at the second. */
  function EdgeSweepCommands(speed: int): (cmds: seq<Command>)
  {
    SpinCommands(speed) + ReverseCommands() + StopCommands()
  }

  /** The light routine: spin one way through all four lines, then stop. */
  function LineSweepCommands(speed: int): (cmds: seq<Command>)
  {
    SpinCommands(speed) + StopCommands()
  }

  /**
   * The ultrasonic routine turns the robot one way and then the other, the
   * two wheels always in opposite directions, and leaves both stopped. While
   * it waits for the first edge both wheels run counter-clockwise, and while
   * it waits for the second they run clockwise.
   */
  lemma EdgeSweepReverses(speed: int)
    ensures Directions(EdgeSweepCommands(speed), LeftWheel) == [false, true]
    ensures Directions(EdgeSweepCommands(speed), RightWheel) == [true, false]
    ensures LastMotion(SpinCommands(speed), LeftWheel) == Some(Backward(LeftWheel))
    ensures LastMotion(SpinCommands(speed), RightWheel) == Some(Forward(RightWheel))
    ensures LastMotion(SpinCommands(speed) + ReverseCommands(), LeftWheel) == Some(Forward(LeftWheel))
    ensures LastMotion(SpinCommands(speed) + ReverseCommands(), RightWheel) == Some(Backward(RightWheel))
    ensures LastMotion(EdgeSweepCommands(speed), LeftWheel) == Some(Stop(LeftWheel, true))
    ensures LastMotion(EdgeSweepCommands(speed), RightWheel) == Some(Stop(RightWheel, false))
  {
    var spin := SpinCommands(speed);
    var reversed := spin + ReverseCommands();
    Blocks(speed);
    DirectionsAppend(spin, ReverseCommands(), LeftWheel);
    DirectionsAppend(reversed, StopCommands(), LeftWheel);
    DirectionsAppend(spin, ReverseCommands(), RightWheel);
    DirectionsAppend(reversed, StopCommands(), RightWheel);
    LastMotionAppend(spin, ReverseCommands(), LeftWheel);
    LastMotionAppend(reversed, StopCommands(), LeftWheel);
    LastMotionAppend(spin, ReverseCommands(), RightWheel);
    LastMotionAppend(reversed, StopCommands(), RightWheel);
  }

  /**
   * The light routine turns the robot one way only, the two wheels in
   * opposite directions, and leaves both stopped.
   */
  lemma LineSweepKeepsDirection(speed: int)
    ensures Directions(LineSweepCommands(speed), LeftWheel) == [false]
    ensures Directions(LineSweepCommands(speed), RightWheel) == [true]
    ensures LastMotion(SpinCommands(speed), LeftWheel) == Some(Backward(LeftWheel))
    ensures LastMotion(SpinCommands(speed), RightWheel) == Some(Forward(RightWheel))
    ensures LastMotion(LineSweepCommands(speed), LeftWheel) == Some(Stop(LeftWheel, true))
    ensures LastMotion(LineSweepCommands(speed), RightWheel) == Some(Stop(RightWheel, false))
  {
    var spin := SpinCommands(speed);
    Blocks(speed);
    DirectionsAppend(spin, StopCommands(), LeftWheel);
    DirectionsAppend(spin, StopCommands(), RightWheel);
    LastMotionAppend(spin, StopCommands(), LeftWheel);
    LastMotionAppend(spin, StopCommands(), RightWheel);
  }

  /** What each block of a sweep does to each wheel on its own. */
  lemma Blocks(speed: int)
    ensures Directions(SpinCommands(speed), LeftWheel) == [false]
    ensures Directions(SpinCommands(speed), RightWheel) == [true]
    ensures Directions(ReverseCommands(), LeftWheel) == [true]
    ensures Directions(ReverseCommands(), RightWheel) == [false]
    ensures Directions(StopCommands(), LeftWheel) == []
    ensures Directions(StopCommands(), RightWheel) == []
    ensures LastMotion(SpinCommands(speed), LeftWheel) == Some(Backward(LeftWheel))
    ensures LastMotion(SpinCommands(speed), RightWheel) == Some(Forward(RightWheel))
    ensures LastMotion(ReverseCommands(), LeftWheel) == Some(Forward(LeftWheel))
    ensures LastMotion(ReverseCommands(), RightWheel) == Some(Backward(RightWheel))
    ensures LastMotion(StopCommands(), LeftWheel) == Some(Stop(LeftWheel, true))
    ensures LastMotion(StopCommands(), RightWheel) == Some(Stop(RightWheel, false))
  {
    var spin := SpinCommands(speed);
    var front := [SetSpeed(LeftWheel, speed), SetSpeed(RightWheel, speed)];
    var back := [Backward(LeftWheel), Forward(RightWheel)];
    assert spin == front + back;
    assert front[1..][1..] == [] && back[1..][1..] == [];
    assert back[..1] == [Backward(LeftWheel)] && back[..1][..0] == [];
    assert front[..1][..0] == [];
    assert ReverseCommands()[1..][1..] == [] && ReverseCommands()[..1][..0] == [];
    assert StopCommands()[1..][1..] == [] && StopCommands()[..1][..0] == [];
    DirectionsAppend(front, back, LeftWheel);
    DirectionsAppend(front, back, RightWheel);
    LastMotionAppend(front, back, LeftWheel);
    LastMotionAppend(front, back, RightWheel);
  }
}
