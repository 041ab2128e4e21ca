/**
 * The odometer lab's ultrasonic poller. Each sample becomes a distance in
 * centimetres. While the controller is NAVIGATING, an obstacle closer than
 * 15 turns the sensor toward the wall, breaks navigation off and switches
 * to AVOIDING. While AVOIDING, every distance goes to the wall follower.
 * The sensor sits on the motor at port C, the FrontMotor here.
 */
module LabUltrasonicPolling {
  import opened JavaSemantics
  import opened Motors
  import LabNavigation
  import LabPController
  import WallFollowing
  import LabNavigationControl

  const OBSTACLE_THRESHOLD: int := 15
  /** The sensor motor's speed, and the turn toward the wall that breaks navigation off. */
  const SENSOR_SPEED: int := 30
  const SENSOR_TURN: int := 70

  /** What one sample leads to. */
  datatype Reaction = BreakOff | FollowWall(distance: int) | Ignore

  /** The distance in centimetres for a reading in metres: (int) (reading * 100). */
  function Distance(reading: real): (d: int)
    ensures INT_MIN <= d <= INT_MAX
    ensures 0.0 <= reading * 100.0 <= INT_MAX as real ==> d as real <= reading * 100.0 < d as real + 1.0
  {
    JavaInt(reading * 100.0)
  }

  /**
   * The switch on the navigation state: only a near reading breaks off
   * navigation, and every reading is followed while avoiding.
   */
  function React(state: LabNavigationControl.NavigationState, distance: int): (r: Reaction)
    ensures r == BreakOff <==> state == LabNavigationControl.NAVIGATING && distance < OBSTACLE_THRESHOLD
    ensures r.FollowWall? <==> state == LabNavigationControl.AVOIDING
    ensures r.FollowWall? ==> r.distance == distance
  {
    match state
    case NAVIGATING => if distance < OBSTACLE_THRESHOLD then BreakOff else Ignore
    case AVOIDING => FollowWall(distance)
  }

  /** A break-off followed by usSensorStraight leaves the sensor facing forward again. */
  lemma StraighteningUndoesTheTurn(before: seq<Command>)
    ensures NetRotation(before + [Rotate(FrontMotor, -SENSOR_TURN, true), Rotate(FrontMotor, SENSOR_TURN, true)], FrontMotor)
            == NetRotation(before, FrontMotor)
  {
    NetRotationAppend(before, [Rotate(FrontMotor, -SENSOR_TURN, true), Rotate(FrontMotor, SENSOR_TURN, true)], FrontMotor);
    var turns := [Rotate(FrontMotor, -SENSOR_TURN, true), Rotate(FrontMotor, SENSOR_TURN, true)];
    assert turns[1..][1..] == [];
    assert NetRotation(turns[1..], FrontMotor) == SENSOR_TURN;
  }

  class UltrasonicPoller {
    const navigation: LabNavigation.Navigation
    const cont: LabPController.PController
    /** Holds the navigation state, static in the robot code. */
    const controller: LabNavigationControl.NavigationController
    /** The commands issued to the sensor motor, in order. */
    var issued: seq<Command>

    constructor (navigation: LabNavigation.Navigation, cont: LabPController.PController,
                 controller: LabNavigationControl.NavigationController)
      ensures this.navigation == navigation && this.cont == cont && this.controller == controller
      ensures issued == [SetSpeed(FrontMotor, SENSOR_SPEED)]
    {
      this.navigation := navigation;
      this.cont := cont;
      this.controller := controller;
      issued := [SetSpeed(FrontMotor, SENSOR_SPEED)];
    }

    /**
     * One pass of run on a reading: the reaction React chooses for the
     * distance, carried out, and nothing else.
     */
    method Tick(reading: real) returns (reaction: Reaction)
      requires navigation.leftRadius > 0.0 && navigation.rightRadius > 0.0
      modifies this`issued, navigation`issued, navigation`interruptedTheta, controller`state,
               cont`wheelSpeedDifference, cont`distance, cont`filterControl, cont`spinning,
               cont`corner, cont`issued
      ensures reaction == React(old(controller.state), Distance(reading))
      ensures reaction == BreakOff ==>
                issued == old(issued) + [Rotate(FrontMotor, -SENSOR_TURN, true)]
                && navigation.issued == old(navigation.issued)
                     + LabNavigation.InterruptCommands(navigation.leftRadius, navigation.rightRadius, navigation.width)
                && navigation.interruptedTheta == JavaInt(navigation.odometer.thetaDegree)
                && controller.state == LabNavigationControl.AVOIDING
                && cont.State() == old(cont.State()) && cont.issued == old(cont.issued)
      ensures reaction.FollowWall? ==>
                cont.State() == LabPController.Respond(cont.bandCenter, cont.bandWidth, old(cont.State()), reaction.distance).0
                && cont.issued == old(cont.issued)
                     + WallFollowing.DriveCommands(
                         LabPController.Respond(cont.bandCenter, cont.bandWidth, old(cont.State()), reaction.distance).1)
                && issued == old(issued) && navigation.issued == old(navigation.issued)
                && navigation.interruptedTheta == old(navigation.interruptedTheta)
                && controller.state == old(controller.state)
      ensures reaction == Ignore ==>
                issued == old(issued) && navigation.issued == old(navigation.issued)
                && navigation.interruptedTheta == old(navigation.interruptedTheta)
                && controller.state == old(controller.state)
                && cont.State() == old(cont.State()) && cont.issued == old(cont.issued)
    {
      var distance := JavaInt(reading * 100.0);
      var state := controller.GetNavigationState();
      match state {
        case NAVIGATING =>
          if distance < OBSTACLE_THRESHOLD {
            issued := issued + [Rotate(FrontMotor, -SENSOR_TURN, true)];
            navigation.InterruptNav();
            controller.SetNavigationState(LabNavigationControl.AVOIDING);
            reaction := BreakOff;
          } else {
            reaction := Ignore;
          }
        case AVOIDING =>
          cont.ProcessUSData(distance);
          reaction := FollowWall(distance);
      }
    }

    /** usSensorStraight: turns the sensor back by the same angle. */
    method UsSensorStraight()
      modifies this`issued
      ensures issued == old(issued) + [Rotate(FrontMotor, SENSOR_TURN, true)]
    {
      issued := issued + [Rotate(FrontMotor, SENSOR_TURN, true)];
    }
  }
}
