/**
 * The Capture-the-Flag navigation controller: the backtracking search that
 * turns a list of waypoints into a path of row and column legs around the
 * river and the towers, and the loop that drives the robot along it.
 */
module PathPlanner {
  import opened JavaSemantics
  import opened Coordinates
  import opened GameParams
  import opened ZoneMap
  import opened PathEditing
  import opened Motors

  datatype NavigationState = NAVIGATING | AVOIDING | READY

  /**
   * How a call of recursivePath ends. `Exhausted` stands for the
   * StackOverflowError the unbounded recursion can raise: like the error, it
   * passes straight through every caller and undoes nothing.
   */
  datatype Search = Found | NotFound | Exhausted

  /** List.add(n, c): `c` placed before the element at index `n`. */
  function Insert(p: seq<Coordinate>, n: nat, c: Coordinate): (r: seq<Coordinate>)
    requires n <= |p|
    ensures |r| == |p| + 1 && r[n] == c
    ensures forall j :: 0 <= j < n ==> r[j] == p[j]
    ensures forall j :: n < j < |r| ==> r[j] == p[j - 1]
  {
    p[..n] + [c] + p[n..]
  }

  /** List.remove(n): the element at index `n` dropped, the rest closing up. */
  function Remove(p: seq<Coordinate>, n: nat): (r: seq<Coordinate>)
    requires n < |p|
    ensures |r| == |p| - 1
    ensures forall j :: 0 <= j < n ==> r[j] == p[j]
    ensures forall j :: n <= j < |r| ==> r[j] == p[j + 1]
  {
    p[..n] + p[n + 1..]
  }

  /** Removing what was just added gives the list back. */
  lemma RemoveInsert(p: seq<Coordinate>, n: nat, c: Coordinate)
    requires n <= |p|
    ensures Remove(Insert(p, n, c), n) == p
  {
    var q := Remove(Insert(p, n, c), n);
    assert forall j :: 0 <= j < |p| ==> q[j] == p[j];
  }

  /**
   * A plan found after a waypoint was inserted strictly inside the list
   * starts and ends where the list did before the insertion.
   */
  lemma DetourKeepsEnds(g: GameParameters, p: seq<Coordinate>, i: nat, c: Coordinate,
                        closest: Coordinate, plan: seq<Coordinate>)
    requires i + 1 < |p| && (i == 0 ==> p[0] == closest)
    requires var q := Insert(p, i + 1, c);
             GoodPlan(g, plan, if i == 0 then closest else q[0], q[|q| - 1])
    ensures GoodPlan(g, plan, p[0], p[|p| - 1])
  {
    var q := Insert(p, i + 1, c);
    assert q[0] == p[0] && q[|q| - 1] == p[|p| - 1];
  }

  /** Adding a waypoint after index `i` leaves the legs before `i` alone. */
  lemma InsertKeepsAlignedBefore(p: seq<Coordinate>, i: nat, c: Coordinate)
    requires i < |p| && AlignedBefore(p, i)
    ensures AlignedBefore(Insert(p, i + 1, c), i)
    ensures Aligned(p[i], c) ==> AlignedBefore(Insert(p, i + 1, c), i + 1)
  {
    var q := Insert(p, i + 1, c);
    forall j | 0 <= j < i && j < |q| - 1
      ensures Aligned(q[j], q[j + 1])
    {
      assert q[j] == p[j] && q[j + 1] == p[j + 1];
    }
  }

  /**
   * What a successful search leaves behind: a list that starts and ends at
   * the given points and has no redundant waypoint, and, on a board whose
   * zones lie right of the origin, only row and column legs.
   */
  predicate GoodPlan(g: GameParameters, p: seq<Coordinate>, first: Coordinate, last: Coordinate)
  {
    |p| > 0 && p[0] == first && p[|p| - 1] == last
    && NoRedundantTriple(p)
    && (CornersNonNegative(g) ==> AllAligned(p))
  }

  /** The legs from `a` to `b` may be planned directly: same zone, or one end on a crossing. */
  predicate ZonesCompatible(g: GameParameters, a: Coordinate, b: Coordinate)
  {
    MapPoint(g, a) == MapPoint(g, b) || MapPoint(g, b) == BRIDGE || MapPoint(g, a) == BRIDGE
  }

  /** The point the shift search steers toward: the own zone's origin, or else the next waypoint. */
  function ShiftGoal(g: GameParameters, ith: Coordinate, next: Coordinate): (goal: Coordinate)
  {
    match MapPoint(g, ith)
    case BRIDGE => next
    case GREEN => g.ZO_G
    case RED => g.ZO_R
    case RIVER => next
  }

  /** The centre of the two crossings, where a path changing zones is sent. */
  function BridgeMid(g: GameParameters): (mid: Coordinate)
  {
    Coordinate((g.SV_UR.x + g.SV_LL.x) / 2.0, (g.SH_UR.y + g.SH_LL.y) / 2.0)
  }

  /**
   * A corner `mid` of the rectangle spanned by a diagonal leg that the
   * search may use: on land, not on a crossing, in the next waypoint's zone
   * when starting from a crossing, and with both legs clear of the towers.
   */
  predicate CornerUsable(g: GameParameters, ith: Coordinate, mid: Coordinate, next: Coordinate)
  {
    MapPoint(g, mid) != RIVER && MapPoint(g, mid) != BRIDGE
    && (MapPoint(g, ith) != BRIDGE || MapPoint(g, mid) == MapPoint(g, next))
    && ObstacleCheck(g, ith, mid) && ObstacleCheck(g, mid, next)
  }

  /** What the controller asks of the rest of the robot, in order. */
  datatype Effect =
    | MotorCommand(command: Command)
    /** navigation.travelTo(x, y, returnThread) */
    | TravelTo(x: real, y: real, returnThread: bool)
    /** localisation.colorLocalisation(false) */
    | ColorLocalisation
    /** ultrasonicPoller.startPolling(NAVIGATION) */
    | StartPolling
    /** ultrasonicPoller.stopPolling() */
    | StopPolling
    /** Sound.buzz(), when the initial search overflows */
    | Buzz

  /** What the controller reads from the robot during one pass of its loop. */
  datatype Sample = Sample(
    /** a state written by the obstacle-avoidance thread since the last pass */
    stateWrite: Option<NavigationState>,
    /** either wheel still turning */
    moving: bool,
    distanceSinceLocalisation: real,
    /** the closest grid intersection when the distance is checked */
    closest: Coordinate,
    /** the closest grid intersection once the robot has relocalised */
    replanClosest: Coordinate,
    interruptedTheta: real,
    thetaDegrees: real)

  /** The robot has driven far enough to relocalise, at an intersection it may stop on. */
  predicate Relocalises(g: GameParameters, tile: real, s: Sample)
  {
    s.distanceSinceLocalisation > tile * 4.0 && Passable(g, s.closest)
  }

  /**
   * The robot faces the other way from where it broke off: the integral
   * headings differ by more than 165 and less than 195 degrees, the
   * difference and its absolute value taken on Java ints. When the
   * difference of the integral headings fits in an int it is the plain
   * distance between them.
   */
  function TurnedAround(interruptedTheta: real, thetaDegrees: real): (turned: bool)
    ensures var d := JavaInt(interruptedTheta) - JavaInt(thetaDegrees);
            INT_MIN <= d <= INT_MAX ==> (turned <==> 165 < Abs(d) < 195)
  {
    var difference := AbsInt32(Int32(JavaInt(interruptedTheta) - JavaInt(thetaDegrees)));
    165 < difference < 195
  }

  /**
   * For headings in [0, 360) the test is exactly "the heading changed by
   * 180 degrees give or take 15", whichever way the robot turned.
   */
  lemma TurnedAroundIsHalfTurn(a: int, b: int)
    requires 0 <= a < 360 && 0 <= b < 360
    ensures TurnedAround(a as real, b as real) <==> 165 < (a - b) % 360 < 195
  {
    assert Trunc(a as real) == a && Trunc(b as real) == b;
    assert Int32(a - b) == a - b;
    if a < b {
      assert (a - b) % 360 == 360 + a - b;
    } else {
      assert (a - b) % 360 == a - b;
    }
  }

  /**
   * A closeShift answer the search keeps is a row or column step from
   * `ith`: the no-candidate answer (-1, -1) lies left of the board, in the
   * river.
   */
  lemma ShiftIsAligned(g: GameParameters, tile: real, ith: Coordinate, option: Coordinate)
    requires CornersNonNegative(g) && MapPoint(g, option) != RIVER
    requires option == Coordinate(-1.0, -1.0) || exists k :: 0 <= k < 8 && option == Shifted(ith, k, tile)
    ensures Aligned(ith, option)
  {
    if option == Coordinate(-1.0, -1.0) {
      LeftOfBoardIsRiver(g, option);
    }
  }

  class NavigationController {
    var coordinateList: seq<Coordinate>
    var objectDetection: bool
    /** The navigation state; static in the robot code, shared with the avoidance thread. */
    var state: NavigationState
    const gameParameters: GameParameters
    const tile: real

    constructor (gameParameters: GameParameters, tile: real)
      ensures this.gameParameters == gameParameters && this.tile == tile
      ensures coordinateList == [] && !objectDetection && state == READY
    {
      this.gameParameters := gameParameters;
      this.tile := tile;
      coordinateList := [];
      objectDetection := false;
      state := READY;
    }

    method SetCoordinateList(coordinates: seq<Coordinate>)
      modifies this`coordinateList
      ensures coordinateList == coordinates
    {
      coordinateList := coordinates;
    }

    method AddWayPoint(newPoint: Coordinate)
      modifies this`coordinateList
      ensures coordinateList == old(coordinateList) + [newPoint]
    {
      coordinateList := coordinateList + [newPoint];
    }

    /** addWayPoint(x, y). */
    method AddWayPointAt(x: real, y: real)
      modifies this`coordinateList
      ensures coordinateList == old(coordinateList) + [Coordinate(x, y)]
    {
      coordinateList := coordinateList + [Coordinate(x, y)];
    }

    method SetObjectAvoidance(b: bool)
      modifies this`objectDetection
      ensures objectDetection == b
    {
      objectDetection := b;
    }

    method SetNavigationState(navState: NavigationState)
      modifies this`state
      ensures state == navState
    {
      state := navState;
    }

    method GetNavigationState() returns (s: NavigationState)
      ensures s == state
    {
      s := state;
    }

    /**
     * recursivePath(i). On entry at index 0 the closest intersection is
     * put in front of the list and the whole list is scanned. A failed
     * search from a later index leaves the list as it found it; a
     * successful one leaves a clean path that still starts and ends where
     * the list did.
     */
    method RecursivePath(i: nat, closest: Coordinate, fuel: nat) returns (res: Search)
      requires i == 0 || i < |coordinateList|
      requires CornersNonNegative(gameParameters) ==> AlignedBefore(coordinateList, i)
      modifies this`coordinateList
      ensures i > 0 && res == NotFound ==> coordinateList == old(coordinateList)
      ensures i == 0 && res == NotFound ==>
                |coordinateList| > |old(coordinateList)| && coordinateList[0] == closest
      ensures res == Found ==>
                GoodPlan(gameParameters, coordinateList,
                         if i == 0 then closest else old(coordinateList)[0],
                         if |old(coordinateList)| > 0 then old(coordinateList)[|old(coordinateList)| - 1] else closest)
      decreases fuel, 3
    {
      if fuel == 0 {
        return Exhausted;
      }
      if i == 0 {
        coordinateList := [closest] + coordinateList;
        var ok := AllPassable(gameParameters, coordinateList);
        if !ok {
          return NotFound;
        }
      }
      if i >= 5 {
        var repeat := RepeatsBlock(coordinateList, i);
        if repeat {
          return NotFound;
        }
      }
      if i == |coordinateList| - 1 {
        coordinateList := RemoveRedundantPoints(coordinateList);
        return Found;
      }
      var ith := coordinateList[i];
      var next := coordinateList[i + 1];
      if ith.y == next.y {
        res := StraightLeg(i, closest, fuel, true);
      } else if ith.x == next.x {
        res := StraightLeg(i, closest, fuel, false);
      } else {
        res := DiagonalLeg(i, closest, fuel);
      }
    }

    /**
     * Inserts `c` after index `i` and searches on from it; a failure takes
     * `c` out again.
     */
    method TryWaypoint(i: nat, closest: Coordinate, fuel: nat, c: Coordinate) returns (res: Search)
      requires fuel > 0 && i + 1 < |coordinateList|
      requires CornersNonNegative(gameParameters) ==>
                 AlignedBefore(coordinateList, i) && Aligned(coordinateList[i], c)
      modifies this`coordinateList
      ensures res == NotFound ==> coordinateList == old(coordinateList)
      ensures res == Found ==>
                GoodPlan(gameParameters, coordinateList, old(coordinateList)[0],
                         old(coordinateList)[|old(coordinateList)| - 1])
      decreases fuel, 0
    {
      var before := coordinateList;
      if CornersNonNegative(gameParameters) {
        InsertKeepsAlignedBefore(before, i, c);
      }
      coordinateList := Insert(before, i + 1, c);
      res := RecursivePath(i + 1, closest, fuel - 1);
      if res == NotFound {
        RemoveInsert(before, i + 1, c);
        coordinateList := Remove(coordinateList, i + 1);
      }
    }

    /**
     * The eight tries of closeShift around waypoint `i`, each inserting the
     * option found when it is on land, differs from the waypoint before
     * and, on a diagonal leg, clears both towers.
     */
    method ShiftSearch(i: nat, closest: Coordinate, fuel: nat, goal: Coordinate,
                       vertical: bool, horizontal: bool, diagonal: bool) returns (res: Search)
      requires fuel > 0 && i + 1 < |coordinateList|
      requires CornersNonNegative(gameParameters) ==> AlignedBefore(coordinateList, i)
      modifies this`coordinateList
      ensures res == NotFound ==> coordinateList == old(coordinateList)
      ensures res == Found ==>
                GoodPlan(gameParameters, coordinateList, old(coordinateList)[0],
                         old(coordinateList)[|old(coordinateList)| - 1])
      decreases fuel, 1
    {
      var g := gameParameters;
      var ith := coordinateList[i];
      var next := coordinateList[i + 1];
      var previous := if i > 0 then Some(coordinateList[i - 1]) else None;
      var status: bv32 := 0;
      var j := 0;
      while j < 8
        invariant coordinateList == old(coordinateList)
      {
        var option;
        option, status := CloseShift(ith, goal, status, vertical, horizontal, tile);
        if MapPoint(g, option) != RIVER && !Equals(option, previous)
           && (!diagonal || (ObstacleCheck(g, ith, option) && ObstacleCheck(g, option, next))) {
          if CornersNonNegative(g) {
            ShiftIsAligned(g, tile, ith, option);
          }
          res := TryWaypoint(i, closest, fuel, option);
          if res != NotFound {
            return;
          }
        }
        j := j + 1;
      }
      return NotFound;
    }

    /**
     * Waypoints `i` and `i + 1` share a row (`sameRow`) or a column. In
     * compatible zones the leg is taken directly when it is clear, and the
     * shift search runs otherwise; across zones the search is sent through
     * the middle of the crossings.
     */
    method StraightLeg(i: nat, closest: Coordinate, fuel: nat, sameRow: bool) returns (res: Search)
      requires fuel > 0 && i + 1 < |coordinateList|
      requires sameRow ==> coordinateList[i].y == coordinateList[i + 1].y
      requires !sameRow ==> coordinateList[i].x == coordinateList[i + 1].x
      requires i == 0 ==> coordinateList[0] == closest
      requires CornersNonNegative(gameParameters) ==> AlignedBefore(coordinateList, i)
      modifies this`coordinateList
      ensures i > 0 && res == NotFound ==> coordinateList == old(coordinateList)
      ensures res == NotFound ==>
                |coordinateList| >= |old(coordinateList)| && coordinateList[0] == old(coordinateList)[0]
      ensures res == Found ==>
                GoodPlan(gameParameters, coordinateList, old(coordinateList)[0],
                         old(coordinateList)[|old(coordinateList)| - 1])
      decreases fuel, 2
    {
      var g := gameParameters;
      var ith := coordinateList[i];
      var next := coordinateList[i + 1];
      if !ZonesCompatible(g, ith, next) {
        res := BridgeDetour(i, closest, fuel);
        return;
      }
      if ObstacleCheck(g, ith, next) {
        res := RecursivePath(i + 1, closest, fuel - 1);
        if res != NotFound {
          return;
        }
      }
      var onBridge := MapPoint(g, ith) == BRIDGE;
      var vertical := onBridge || sameRow;
      var horizontal := onBridge || !sameRow;
      res := ShiftSearch(i, closest, fuel, ShiftGoal(g, ith, next), vertical, horizontal, false);
    }

    /**
     * Waypoints `i` and `i + 1` differ in both coordinates. In compatible
     * zones the two corners of the rectangle they span are tried, then the
     * shift search with the tower checks; across zones the search is sent
     * through the middle of the crossings.
     */
    method DiagonalLeg(i: nat, closest: Coordinate, fuel: nat) returns (res: Search)
      requires fuel > 0 && i + 1 < |coordinateList|
      requires i == 0 ==> coordinateList[0] == closest
      requires CornersNonNegative(gameParameters) ==> AlignedBefore(coordinateList, i)
      modifies this`coordinateList
      ensures i > 0 && res == NotFound ==> coordinateList == old(coordinateList)
      ensures res == NotFound ==>
                |coordinateList| >= |old(coordinateList)| && coordinateList[0] == old(coordinateList)[0]
      ensures res == Found ==>
                GoodPlan(gameParameters, coordinateList, old(coordinateList)[0],
                         old(coordinateList)[|old(coordinateList)| - 1])
      decreases fuel, 2
    {
      var g := gameParameters;
      var ith := coordinateList[i];
      var next := coordinateList[i + 1];
      if !ZonesCompatible(g, ith, next) {
        res := BridgeDetour(i, closest, fuel);
        return;
      }
      var midVH := Coordinate(ith.x, next.y);
      var midHV := Coordinate(next.x, ith.y);
      var previous := if i > 0 then Some(coordinateList[i - 1]) else None;
      if !Equals(midVH, previous) && CornerUsable(g, ith, midVH, next) && !CornerUsable(g, ith, midHV, next) {
        res := TryWaypoint(i, closest, fuel, midVH);
        if res != NotFound {
          return;
        }
      }
      if !Equals(midHV, previous) && CornerUsable(g, ith, midHV, next) {
        res := TryWaypoint(i, closest, fuel, midHV);
        if res != NotFound {
          return;
        }
      }
      res := ShiftSearch(i, closest, fuel, ShiftGoal(g, ith, next), true, true, true);
    }

    /** Inserts the middle of the crossings after index `i` and retries from `i`. */
    method BridgeDetour(i: nat, closest: Coordinate, fuel: nat) returns (res: Search)
      requires fuel > 0 && i + 1 < |coordinateList|
      requires i == 0 ==> coordinateList[0] == closest
      requires CornersNonNegative(gameParameters) ==> AlignedBefore(coordinateList, i)
      modifies this`coordinateList
      ensures i > 0 && res == NotFound ==> coordinateList == old(coordinateList)
      ensures res == NotFound ==>
                |coordinateList| >= |old(coordinateList)| && coordinateList[0] == old(coordinateList)[0]
      ensures res == Found ==>
                GoodPlan(gameParameters, coordinateList, old(coordinateList)[0],
                         old(coordinateList)[|old(coordinateList)| - 1])
      decreases fuel, 1
    {
      var before := coordinateList;
      var mid := BridgeMid(gameParameters);
      if CornersNonNegative(gameParameters) {
        InsertKeepsAlignedBefore(before, i, mid);
      }
      coordinateList := Insert(before, i + 1, mid);
      res := RecursivePath(i, closest, fuel - 1);
      if res == Found {
        DetourKeepsEnds(gameParameters, before, i, mid, closest, coordinateList);
      } else if res == NotFound {
        if i > 0 {
          RemoveInsert(before, i + 1, mid);
        }
        coordinateList := Remove(coordinateList, i + 1);
      }
    }

    /**
     * One pass of the loop in runNavigationTask, for a non-empty list,
     * with the robot's readings for that pass. `plan` is the outcome of the
     * search run after relocalising, when one was run.
     */
    method Step(rectangularPath: bool, s: Sample, fuel: nat) returns (effects: seq<Effect>, plan: Option<Search>)
      requires |coordinateList| > 0
      modifies this`coordinateList, this`state
      ensures old(state) == READY ==>
                effects == [TravelTo(old(coordinateList)[0].x, old(coordinateList)[0].y, true)]
                && state == NAVIGATING && coordinateList == old(coordinateList) && plan == None
      ensures old(state) == NAVIGATING && !s.moving ==>
                effects == [] && state == READY && coordinateList == old(coordinateList)[1..] && plan == None
      ensures old(state) == NAVIGATING && s.moving && !Relocalises(gameParameters, tile, s) ==>
                effects == [] && state == NAVIGATING && coordinateList == old(coordinateList) && plan == None
      ensures old(state) == NAVIGATING && s.moving && Relocalises(gameParameters, tile, s) ==>
                effects == [MotorCommand(Stop(RightWheel, true)), MotorCommand(Stop(LeftWheel, false)),
                            TravelTo(s.closest.x, s.closest.y, false), ColorLocalisation]
                && (plan.Some? <==> rectangularPath)
                && (plan != Some(Exhausted) ==> state == READY)
                && (plan == None ==> coordinateList == old(coordinateList))
                && (plan == Some(Found) ==>
                      GoodPlan(gameParameters, coordinateList, s.replanClosest,
                               old(coordinateList)[|old(coordinateList)| - 1]))
      ensures old(state) == AVOIDING ==>
                coordinateList == old(coordinateList) && plan == None
                && (TurnedAround(s.interruptedTheta, s.thetaDegrees) ==>
                      state == READY && effects == [MotorCommand(RotateTo(FrontMotor, 0, true))])
                && (!TurnedAround(s.interruptedTheta, s.thetaDegrees) ==>
                      state == AVOIDING && effects == [])
    {
      var point := coordinateList[0];
      effects := [];
      plan := None;
      match state
      case READY =>
        effects := [TravelTo(point.x, point.y, true)];
        state := NAVIGATING;
      case NAVIGATING =>
        if !s.moving {
          coordinateList := coordinateList[1..];
          state := READY;
        } else if Relocalises(gameParameters, tile, s) {
          effects := [MotorCommand(Stop(RightWheel, true)), MotorCommand(Stop(LeftWheel, false)),
                      TravelTo(s.closest.x, s.closest.y, false), ColorLocalisation];
          if rectangularPath {
            var res := RecursivePath(0, s.replanClosest, fuel);
            plan := Some(res);
            if res == Exhausted {
              return;
            }
          }
          state := READY;
        }
      case AVOIDING =>
        if TurnedAround(s.interruptedTheta, s.thetaDegrees) {
          state := READY;
          effects := [MotorCommand(RotateTo(FrontMotor, 0, true))];
        }
    }

    /**
     * runNavigationTask over a finite run of readings: plan first when the
     * path must be rectangular, then pass through the loop once per
     * reading until the list is empty. `finished` says the loop ran out of
     * waypoints, which is the only way it ends; the run stops early when
     * the readings run out or a search after relocalising overflows, which
     * ends the task with the list not yet empty.
     */
    method RunNavigationTask(rectangularPath: bool, closest: Coordinate, samples: seq<Sample>, fuel: nat)
      returns (effects: seq<Effect>, finished: bool)
      modifies this`coordinateList, this`state
      ensures finished <==> StopPolling in effects
      ensures finished ==> coordinateList == [] && effects[|effects| - 1] == StopPolling
      ensures |effects| > 0 && effects[0] == Buzz ==> rectangularPath
    {
      effects := [];
      if rectangularPath {
        var res := RecursivePath(0, closest, fuel);
        if res == Exhausted {
          effects := [Buzz];
        }
      }
      if objectDetection {
        effects := effects + [StartPolling];
      }
      var n := 0;
      while coordinateList != [] && n < |samples|
        invariant 0 <= n <= |samples|
        invariant StopPolling !in effects
        invariant |effects| > 0 && effects[0] == Buzz ==> rectangularPath
        decreases |samples| - n
      {
        var s := samples[n];
        if s.stateWrite.Some? {
          state := s.stateWrite.value;
        }
        var stepEffects, plan := Step(rectangularPath, s, fuel);
        effects := effects + stepEffects;
        if plan == Some(Exhausted) {
          return effects, false;
        }
        n := n + 1;
      }
      if coordinateList == [] {
        effects := effects + [StopPolling];
        return effects, true;
      }
      return effects, false;
    }
  }
}
