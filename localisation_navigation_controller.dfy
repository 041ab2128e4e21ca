/**
 * The localisation lab's navigation controller (localisation package). It
 * walks a waypoint list: READY sends the robot toward the head, and
 * NAVIGATING drops the head once both motors have stopped within 5 of
 * it, which makes the controller READY for the next one. AVOIDING leaves
 * everything alone. The state is shared with the pollers.
 *
 * The Navigation and Odometer of this package are not part of this model:
 * the odometer's position and whether each motor is moving are
 * parameters, and the travelTo call is returned as the point it was given.
 */
module LocalisationNavigationControl {
  import opened JavaSemantics
  import opened Coordinates

  datatype NavigationState = NAVIGATING | AVOIDING | READY

  /** A waypoint is reached within this distance. */
  const ARRIVAL_RADIUS: real := 5.0

  /** What one pass of the loop sees: both motors' activity and the odometer's position. */
  datatype Observation = Observation(rightMoving: bool, leftMoving: bool, x: real, y: real)

  /** The robot has stopped strictly within 5 of `point`; Math.sqrt(d) < 5 is written d < 25. */
  predicate Arrived(point: Coordinate, o: Observation)
  {
    !o.rightMoving && !o.leftMoving
    && (o.x - point.x) * (o.x - point.x) + (o.y - point.y) * (o.y - point.y) < ARRIVAL_RADIUS * ARRIVAL_RADIUS
  }

  /**
   * One pass of run on a nonempty list: the new state, the new list, and
   * the point handed to travelTo if any.
   */
  function NextPass(state: NavigationState, list: seq<Coordinate>, o: Observation)
    : (r: (NavigationState, seq<Coordinate>, Option<Coordinate>))
    requires |list| > 0
    ensures r.2.Some? <==> state == READY
    ensures r.2.Some? ==> r.2.value == list[0] && r.0 == NAVIGATING && r.1 == list
    ensures r.1 == list || r.1 == list[1..]
    ensures |r.1| < |list| <==> state == NAVIGATING && Arrived(list[0], o)
    ensures r.0 == READY <==> |r.1| < |list|
    ensures r.0 == AVOIDING <==> state == AVOIDING
    ensures state == AVOIDING ==> r == (AVOIDING, list, None)
  {
    match state
    case READY => (NAVIGATING, list, Some(list[0]))
    case NAVIGATING => if Arrived(list[0], o) then (READY, list[1..], None) else (NAVIGATING, list, None)
    case AVOIDING => (AVOIDING, list, None)
  }

  /**
   * The loop run over a sequence of observations: it stops when the list
   * is empty or the observations run out. The result is the final state,
   * the final list and the points sent, in order.
   */
  function RunPasses(state: NavigationState, list: seq<Coordinate>, obs: seq<Observation>)
    : (r: (NavigationState, seq<Coordinate>, seq<Coordinate>))
    decreases |obs|
  {
    if list == [] || obs == [] then (state, list, [])
    else
      var p := NextPass(state, list, obs[0]);
      var rest := RunPasses(p.0, p.1, obs[1..]);
      (rest.0, rest.1, (if p.2.Some? then [p.2.value] else []) + rest.2)
  }

  /** The points already sent: the head while NAVIGATING, nothing otherwise. */
  function InFlight(state: NavigationState, list: seq<Coordinate>): (rest: seq<Coordinate>)
    requires state == NAVIGATING ==> |list| > 0
  {
    if state == NAVIGATING then [list[0]] else []
  }

  /**
   * Waypoints are visited in order, each is sent once before it is
   * dropped, and only after it was sent: the loop keeps a suffix of the
   * list, and what was in flight plus what it sends is the dropped prefix
   * plus the head still in flight. AVOIDING changes nothing.
   */
  lemma {:induction false} VisitsWaypointsInOrder(state: NavigationState, list: seq<Coordinate>, obs: seq<Observation>)
    requires state == NAVIGATING ==> |list| > 0
    ensures var r := RunPasses(state, list, obs);
            var k := |list| - |r.1|;
            0 <= k <= |list| && r.1 == list[k..]
            && (r.0 == NAVIGATING ==> |r.1| > 0)
            && (state != AVOIDING ==>
                  r.0 != AVOIDING && InFlight(state, list) + r.2 == list[..k] + InFlight(r.0, r.1))
            && (state == AVOIDING ==> r == (AVOIDING, list, []))
    decreases |obs|
  {
    if list != [] && obs != [] {
      var p := NextPass(state, list, obs[0]);
      VisitsWaypointsInOrder(p.0, p.1, obs[1..]);
      var rest := RunPasses(p.0, p.1, obs[1..]);
      assert RunPasses(state, list, obs) == (rest.0, rest.1, (if p.2.Some? then [p.2.value] else []) + rest.2);
      var k' := |p.1| - |rest.1|;
      if state == NAVIGATING && Arrived(list[0], obs[0]) {
        assert p == (READY, list[1..], None);
        assert rest.1 == list[k' + 1..];
        assert list[1..][..k'] == list[1..k' + 1];
        assert list[..k' + 1] == [list[0]] + list[1..k' + 1];
      } else if state == NAVIGATING {
        assert p == (NAVIGATING, list, None);
      } else if state == READY {
        assert p == (NAVIGATING, list, Some(list[0]));
        assert InFlight(p.0, p.1) == [list[0]] && InFlight(state, list) == [];
      } else {
        assert p == (AVOIDING, list, None);
        assert rest == (AVOIDING, list, []);
        var none: seq<Coordinate> := [];
        assert none + rest.2 == [];
      }
    }
  }

  /** A list that is already empty ends the loop at once with nothing sent. */
  lemma EmptyListStops(state: NavigationState, obs: seq<Observation>)
    ensures RunPasses(state, [], obs) == (state, [], [])
  {
  }

  class NavigationController {
    var coordinateList: seq<Coordinate>
    /** The navigation state; static in the robot code, shared with the pollers. */
    var state: NavigationState
    var odometerStarted: bool

    /** Starts the odometer; the controller starts READY. */
    constructor (coordinateList: seq<Coordinate>)
      ensures this.coordinateList == coordinateList && state == READY && odometerStarted
    {
      this.coordinateList := coordinateList;
      state := READY;
      odometerStarted := true;
    }

    method GetNavigationState() returns (s: NavigationState)
      ensures s == state
    {
      s := state;
    }

    method SetNavigationState(navState: NavigationState)
      modifies this`state
      ensures state == navState
    {
      state := navState;
    }

    /**
     * One pass of run: `finished` when the list is empty, otherwise the
     * pass of NextPass, with `travel` the point handed to travelTo.
     */
    method RunPass(o: Observation) returns (finished: bool, travel: Option<Coordinate>)
      modifies this`coordinateList, this`state
      ensures finished <==> old(coordinateList) == []
      ensures finished ==> coordinateList == old(coordinateList) && state == old(state) && travel == None
      ensures !finished ==> (state, coordinateList, travel) == NextPass(old(state), old(coordinateList), o)
    {
      if |coordinateList| == 0 {
        return true, None;
      }
      finished := false;
      travel := None;
      var point := coordinateList[0];
      var s := GetNavigationState();
      match s {
        case READY =>
          travel := Some(point);
          SetNavigationState(NAVIGATING);
        case NAVIGATING =>
          var x := o.x;
          var y := o.y;
          if !o.rightMoving && !o.leftMoving
             && (x - point.x) * (x - point.x) + (y - point.y) * (y - point.y) < ARRIVAL_RADIUS * ARRIVAL_RADIUS {
            coordinateList := coordinateList[1..];
            SetNavigationState(READY);
          }
        case AVOIDING =>
      }
    }

    /**
     * run over a sequence of observations: passes until the list is empty
     * or the observations run out, collecting the points sent.
     */
    method Run(obs: seq<Observation>) returns (sent: seq<Coordinate>)
      modifies this`coordinateList, this`state
      ensures (state, coordinateList, sent) == RunPasses(old(state), old(coordinateList), obs)
    {
      ghost var goal := RunPasses(state, coordinateList, obs);
      sent := [];
      var i := 0;
      while i < |obs| && coordinateList != []
        invariant 0 <= i <= |obs|
        invariant RunPasses(state, coordinateList, obs[i..]).0 == goal.0
        invariant RunPasses(state, coordinateList, obs[i..]).1 == goal.1
        invariant sent + RunPasses(state, coordinateList, obs[i..]).2 == goal.2
        decreases |obs| - i
      {
        var finished, travel := RunPass(obs[i]);
        assert obs[i..][1..] == obs[i + 1..];
        if travel.Some? {
          sent := sent + [travel.value];
        }
        i := i + 1;
      }
      assert RunPasses(state, coordinateList, obs[i..]) == (state, coordinateList, []);
      assert sent == goal.2;
    }
  }
}
