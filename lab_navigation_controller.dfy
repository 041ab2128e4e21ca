/**
 * The odometer lab's navigation controller (odometerlab package). Its loop
 * drives toward the head of the waypoint list while NAVIGATING and, after
 * an obstacle broke navigation off, waits in AVOIDING until the robot
 * faces the other way. The state is shared with the ultrasonic poller.
 *
 * As written, the return to NAVIGATING passes a constant of the class that
 * shadows the enum value and is null, and arrival is measured against the
 * origin instead of the waypoint. PassAsWritten models both; the class uses
 * the corrected NextPass.
 *
 * Math.sqrt(d) < r is written d < r * r: the two agree for d >= 0 and
 * r >= 0, since the square root is increasing.
 */
module LabNavigationControl {
  import opened JavaSemantics
  import opened Coordinates
  import LabOdometry
  import LabNavigation

  datatype NavigationState = NAVIGATING | AVOIDING

  /** A waypoint is reached within this distance. */
  const ARRIVAL_RADIUS: real := 3.0
  /** The robot has turned around when its heading changed by more than 175 and less than 185 degrees. */
  const TURNED_LOWER: int := 175
  const TURNED_UPPER: int := 185

  /** The point (dx, dy) lies strictly within `radius` of the origin. */
  predicate Within(dx: real, dy: real, radius: real)
  {
    dx * dx + dy * dy < radius * radius
  }

  /** The heading test on Java ints: |interrupted - current| strictly between 175 and 185. */
  predicate TurnedAround(interrupted: int, current: int)
  {
    var difference := AbsInt32(Int32(interrupted - current));
    TURNED_LOWER < difference < TURNED_UPPER
  }

  /**
   * For headings in [0, 360) the test is "the heading changed by 180
   * degrees give or take 5", whichever way the robot turned.
   */
  lemma TurnedAroundIsHalfTurn(interrupted: int, current: int)
    requires 0 <= interrupted < 360 && 0 <= current < 360
    ensures TurnedAround(interrupted, current) <==> TURNED_LOWER < (interrupted - current) % 360 < TURNED_UPPER
  {
    assert Int32(interrupted - current) == interrupted - current;
    if interrupted < current {
      assert (interrupted - current) % 360 == 360 + interrupted - current;
    } else {
      assert (interrupted - current) % 360 == interrupted - current;
    }
  }

  /**
   * One pass of run, corrected: while NAVIGATING the head is dropped once
   * the robot is within 3 of it; while AVOIDING the state goes back to
   * NAVIGATING once the robot has turned around. `x`, `y` and `current`
   * are the odometer's readings, `interrupted` the heading navigation was
   * broken off at.
   */
  function NextPass(state: NavigationState, list: seq<Coordinate>, x: real, y: real, interrupted: int, current: int)
    : (r: (NavigationState, seq<Coordinate>))
    requires |list| > 0
    ensures r.1 == list || r.1 == list[1..]
    ensures |r.1| < |list| <==> state == NAVIGATING && Within(x - list[0].x, y - list[0].y, ARRIVAL_RADIUS)
    ensures r.0 == AVOIDING <==> state == AVOIDING && !TurnedAround(interrupted, current)
  {
    match state
    case NAVIGATING =>
      (NAVIGATING, if Within(x - list[0].x, y - list[0].y, ARRIVAL_RADIUS) then list[1..] else list)
    case AVOIDING =>
      (if TurnedAround(interrupted, current) then NAVIGATING else AVOIDING, list)
  }

  /** The outcome of one pass of run as written: the new state, None for null, or the exception. */
  datatype Pass = Pass(state: Option<NavigationState>, coordinateList: seq<Coordinate>) | NullPointerThrown

  /**
   * One pass of run as written: the switch throws on a null state; the
   * head is dropped when the robot is within 3 of the origin; turning
   * around stores the null constant.
   */
  function PassAsWritten(state: Option<NavigationState>, list: seq<Coordinate>, x: real, y: real,
                         interrupted: int, current: int): (r: Pass)
    requires |list| > 0
    ensures state == None <==> r == NullPointerThrown
  {
    match state
    case None => NullPointerThrown
    case Some(NAVIGATING) => Pass(state, if Within(x, y, ARRIVAL_RADIUS) then list[1..] else list)
    case Some(AVOIDING) => Pass(if TurnedAround(interrupted, current) then None else state, list)
  }

  /**
   * As written, the first time the robot turns around after an obstacle
   * the state becomes null, and the next pass of the loop throws.
   */
  lemma AsWrittenLosesTheState(list: seq<Coordinate>, x: real, y: real, interrupted: int, current: int,
                               x': real, y': real, interrupted': int, current': int)
    requires |list| > 0 && TurnedAround(interrupted, current)
    ensures PassAsWritten(Some(AVOIDING), list, x, y, interrupted, current) == Pass(None, list)
    ensures PassAsWritten(None, list, x', y', interrupted', current') == NullPointerThrown
    ensures NextPass(AVOIDING, list, x, y, interrupted, current) == (NAVIGATING, list)
  {
  }

  /**
   * As written, a robot standing on its only waypoint (30, 0) keeps it,
   * so the loop never ends; the corrected pass drops it and the loop ends.
   */
  lemma AsWrittenKeepsReachedWaypoint(interrupted: int, current: int)
    ensures PassAsWritten(Some(NAVIGATING), [Coordinate(30.0, 0.0)], 30.0, 0.0, interrupted, current)
            == Pass(Some(NAVIGATING), [Coordinate(30.0, 0.0)])
    ensures NextPass(NAVIGATING, [Coordinate(30.0, 0.0)], 30.0, 0.0, interrupted, current) == (NAVIGATING, [])
  {
  }

  /** Away from both defects, the two passes agree. */
  lemma CorrectedAgreesElsewhere(state: NavigationState, list: seq<Coordinate>, x: real, y: real,
                                 interrupted: int, current: int)
    requires |list| > 0 && list[0] == Coordinate(0.0, 0.0)
    requires state == AVOIDING ==> !TurnedAround(interrupted, current)
    ensures PassAsWritten(Some(state), list, x, y, interrupted, current)
            == Pass(Some(NextPass(state, list, x, y, interrupted, current).0), NextPass(state, list, x, y, interrupted, current).1)
  {
  }

  class NavigationController {
    var coordinateList: seq<Coordinate>
    /** The navigation state; static in the robot code, shared with the ultrasonic poller. */
    var state: NavigationState
    const objectDetection: bool
    var odometerStarted: bool
    var usPollerStarted: bool
    const odometer: LabOdometry.Odometer
    const navigation: LabNavigation.Navigation

    /** Starts the odometer, and the ultrasonic poller only when obstacles are to be avoided. */
    constructor (odometer: LabOdometry.Odometer, navigation: LabNavigation.Navigation,
                 coordinateList: seq<Coordinate>, objectDetection: bool)
      ensures this.odometer == odometer && this.navigation == navigation
      ensures this.coordinateList == coordinateList && this.objectDetection == objectDetection
      ensures state == NAVIGATING && odometerStarted && usPollerStarted == objectDetection
    {
      this.odometer := odometer;
      this.navigation := navigation;
      this.coordinateList := coordinateList;
      this.objectDetection := objectDetection;
      state := NAVIGATING;
      odometerStarted := true;
      usPollerStarted := objectDetection;
    }

    method GetNavigationState() returns (s: NavigationState)
      ensures s == state
    {
      s := state;
    }

    method SetNavigationState(navState: NavigationState)
      modifies this`state
      ensures state == navState
    {
      state := navState;
    }

    /**
     * One pass of run. The loop ends on an empty list. While NAVIGATING
     * the pass sends the robot toward the head every time, and drops the
     * head once the robot is within 3 of it.
     */
    method RunPass(atan2: (real, real) -> real, sqrt: real -> real) returns (finished: bool)
      requires navigation.leftRadius > 0.0 && navigation.rightRadius > 0.0
      modifies this`coordinateList, this`state, navigation`issued
      ensures finished <==> old(coordinateList) == []
      ensures finished ==> coordinateList == old(coordinateList) && state == old(state)
                           && navigation.issued == old(navigation.issued)
      ensures !finished ==>
                (state, coordinateList)
                  == NextPass(old(state), old(coordinateList), odometer.x, odometer.y,
                              navigation.interruptedTheta, JavaInt(odometer.thetaDegree))
      ensures !finished && old(state) == NAVIGATING ==>
                navigation.issued == old(navigation.issued)
                  + LabNavigation.TravelCommands(navigation.leftRadius, navigation.rightRadius, navigation.width,
                                                 old(coordinateList)[0].x, old(coordinateList)[0].y,
                                                 navigation.odometer.x, navigation.odometer.y,
                                                 navigation.odometer.thetaDegree, atan2, sqrt)
      ensures old(state) == AVOIDING ==> navigation.issued == old(navigation.issued)
    {
      if coordinateList == [] {
        return true;
      }
      finished := false;
      var s := GetNavigationState();
      match s {
        case NAVIGATING =>
          var point := coordinateList[0];
          navigation.TravelTo(point.x, point.y, atan2, sqrt);
          var x := odometer.x;
          var y := odometer.y;
          if (x - point.x) * (x - point.x) + (y - point.y) * (y - point.y) < ARRIVAL_RADIUS * ARRIVAL_RADIUS {
            coordinateList := coordinateList[1..];
          }
        case AVOIDING =>
          var interrupted := navigation.interruptedTheta;
          var current := JavaInt(odometer.thetaDegree);
          var difference := AbsInt32(Int32(interrupted - current));
          if difference < TURNED_UPPER && difference > TURNED_LOWER {
            SetNavigationState(NAVIGATING);
          }
      }
    }
  }
}
