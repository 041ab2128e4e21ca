/**
 * The board map used by the Capture-the-Flag planner: which zone a grid
 * point belongs to, and whether a straight leg between two points runs
 * into a tower.
 */
module ZoneMap {
  import opened Coordinates
  import opened GameParams

  /** Strictly inside the rectangle with lower-left `ll` and upper-right `ur`. */
  predicate InsideOpen(p: Coordinate, ll: Coordinate, ur: Coordinate)
  {
    p.x > ll.x && p.x < ur.x && p.y > ll.y && p.y < ur.y
  }

  /** Inside the rectangle or on its border. */
  predicate InsideClosed(p: Coordinate, ll: Coordinate, ur: Coordinate)
  {
    p.x >= ll.x && p.x <= ur.x && p.y >= ll.y && p.y <= ur.y
  }

  /** Inside the rectangle by more than one centimetre on every side. */
  predicate InsideInset(x: real, y: real, ll: Coordinate, ur: Coordinate)
  {
    x > ll.x + 1.0 && x < ur.x - 1.0 && y > ll.y + 1.0 && y < ur.y - 1.0
  }

  /** The four corners of each shallow-water crossing. */
  function BridgeCorners(g: GameParameters): (cs: seq<Coordinate>)
    ensures |cs| == 8
  {
    [g.SH_LL, g.SH_UR, g.SV_LL, g.SV_UR,
     Coordinate(g.SH_LL.x, g.SH_UR.y), Coordinate(g.SH_UR.x, g.SH_LL.y),
     Coordinate(g.SV_LL.x, g.SV_UR.y), Coordinate(g.SV_UR.x, g.SV_LL.y)]
  }

  predicate InGreen(g: GameParameters, p: Coordinate) { InsideOpen(p, g.Green_LL, g.Green_UR) }
  predicate InRed(g: GameParameters, p: Coordinate) { InsideOpen(p, g.Red_LL, g.Red_UR) }
  predicate InCrossing(g: GameParameters, p: Coordinate)
  {
    InsideOpen(p, g.SV_LL, g.SV_UR) || InsideOpen(p, g.SH_LL, g.SH_UR)
  }

  /**
   * A point on the shared border of a player zone and a crossing, other than
   * a corner of a crossing, can be driven through: it counts as bridge.
   */
  predicate OnBridgeBorder(g: GameParameters, p: Coordinate)
  {
    (InsideClosed(p, g.Green_LL, g.Green_UR) || InsideClosed(p, g.Red_LL, g.Red_UR))
    && (InsideClosed(p, g.SV_LL, g.SV_UR) || InsideClosed(p, g.SH_LL, g.SH_UR))
    && p !in BridgeCorners(g)
  }

  /**
   * mapPoint(Coordinate): interiors are tried in the order green, red,
   * crossing; then the shared borders; everything else is river. Each
   * zone is characterised by its tier, and the green interior wins
   * overlaps.
   */
  function MapPoint(g: GameParameters, p: Coordinate): (z: Zone)
    ensures z == GREEN <==> InGreen(g, p)
    ensures z == RED <==> !InGreen(g, p) && InRed(g, p)
    ensures z == BRIDGE <==> !InGreen(g, p) && !InRed(g, p) && (InCrossing(g, p) || OnBridgeBorder(g, p))
    ensures z == RIVER <==> !InGreen(g, p) && !InRed(g, p) && !InCrossing(g, p) && !OnBridgeBorder(g, p)
  {
    if InGreen(g, p) then GREEN
    else if InRed(g, p) then RED
    else if InCrossing(g, p) then BRIDGE
    else if OnBridgeBorder(g, p) then BRIDGE
    else RIVER
  }

  /**
   * mapPoint(x, y): the same interiors shrunk by one centimetre, no
   * borders; green wins overlaps, then red.
   */
  function MapPointInset(g: GameParameters, x: real, y: real): (z: Zone)
    ensures z == GREEN <==> InsideInset(x, y, g.Green_LL, g.Green_UR)
    ensures z == RED <==> !InsideInset(x, y, g.Green_LL, g.Green_UR) && InsideInset(x, y, g.Red_LL, g.Red_UR)
    ensures z == RIVER <==>
              !InsideInset(x, y, g.Green_LL, g.Green_UR) && !InsideInset(x, y, g.Red_LL, g.Red_UR)
              && !InsideInset(x, y, g.SV_LL, g.SV_UR) && !InsideInset(x, y, g.SH_LL, g.SH_UR)
  {
    if InsideInset(x, y, g.Green_LL, g.Green_UR) then GREEN
    else if InsideInset(x, y, g.Red_LL, g.Red_UR) then RED
    else if InsideInset(x, y, g.SV_LL, g.SV_UR) || InsideInset(x, y, g.SH_LL, g.SH_UR) then BRIDGE
    else RIVER
  }

  /**
   * The inset classifier is the more cautious one: whatever it calls green,
   * red or bridge is at least as passable under the full classifier.
   */
  lemma InsetIsCautious(g: GameParameters, x: real, y: real)
    ensures MapPointInset(g, x, y) == GREEN ==> MapPoint(g, Coordinate(x, y)) == GREEN
    ensures MapPointInset(g, x, y) == RED ==> MapPoint(g, Coordinate(x, y)) in {GREEN, RED}
    ensures MapPointInset(g, x, y) != RIVER ==> MapPoint(g, Coordinate(x, y)) != RIVER
    ensures MapPoint(g, Coordinate(x, y)) == RIVER ==> MapPointInset(g, x, y) == RIVER
  {
  }

  /** A corner of a crossing that is not inside any zone is river. */
  lemma BridgeCornerIsRiver(g: GameParameters, k: nat)
    requires k < 8
    requires !InGreen(g, BridgeCorners(g)[k]) && !InRed(g, BridgeCorners(g)[k])
    requires !InCrossing(g, BridgeCorners(g)[k])
    ensures MapPoint(g, BridgeCorners(g)[k]) == RIVER
  {
  }

  /** Board corners at or above zero put every point left of the board in the river. */
  predicate CornersNonNegative(g: GameParameters)
  {
    g.Green_LL.x >= 0.0 && g.Red_LL.x >= 0.0 && g.SV_LL.x >= 0.0 && g.SH_LL.x >= 0.0
  }

  lemma LeftOfBoardIsRiver(g: GameParameters, p: Coordinate)
    requires CornersNonNegative(g) && p.x < 0.0
    ensures MapPoint(g, p) == RIVER
  {
  }

  /** `u` and `v` lie on opposite sides of `c`, or on it. */
  predicate Straddles(u: real, v: real, c: real)
  {
    (u <= c && v >= c) || (u >= c && v <= c)
  }

  /** obstacleCheck's tests for a leg along a row (`a.y == b.y`). */
  predicate RowBlocked(g: GameParameters, a: Coordinate, b: Coordinate)
  {
    (a.y == g.ZC_R.y && Straddles(a.x, b.x, g.ZC_R.x))
    || (a.y == g.ZC_G.y && Straddles(a.x, b.x, g.ZC_G.x))
    || (g.ZC_G.x == g.ZC_R.x
        && ((a.y < g.ZC_R.y && a.y > g.ZC_G.y) || (a.y > g.ZC_R.y && a.y < g.ZC_G.y))
        && Straddles(a.x, b.x, g.ZC_G.x))
  }

  /**
   * The third column test as written: it asks for `a.x` to be both below and
   * above the red tower, so it never holds.
   */
  predicate ColumnBetweenTowers(g: GameParameters, a: Coordinate)
  {
    (a.x < g.ZC_R.x && a.x > g.ZC_G.x) && (a.x > g.ZC_R.x && a.x < g.ZC_G.x)
  }

  /** obstacleCheck's tests for a leg along a column (`a.x == b.x`). */
  predicate ColumnBlocked(g: GameParameters, a: Coordinate, b: Coordinate)
  {
    (a.x == g.ZC_R.x && Straddles(a.y, b.y, g.ZC_R.y))
    || (a.x == g.ZC_G.x && Straddles(a.y, b.y, g.ZC_G.y))
    || (g.ZC_G.y == g.ZC_R.y && ColumnBetweenTowers(g, a) && Straddles(a.y, b.y, g.ZC_G.y))
  }

  /** The towers differ in both coordinates, so the line through them has a slope. */
  predicate TowersOffAxis(g: GameParameters)
  {
    g.ZC_G.x != g.ZC_R.x && g.ZC_G.y != g.ZC_R.y
  }

  function TowerSlope(g: GameParameters): (s: real)
    requires TowersOffAxis(g)
    ensures s != 0.0
  {
    var dy, dx := g.ZC_R.y - g.ZC_G.y, g.ZC_R.x - g.ZC_G.x;
    QuotientNonZero(dy, dx);
    QuotientNonZero(-dy, -dx);
    if g.ZC_R.x > g.ZC_G.x then dy / dx else (g.ZC_G.y - g.ZC_R.y) / (g.ZC_G.x - g.ZC_R.x)
  }

  lemma QuotientNonZero(n: real, d: real)
    requires n != 0.0 && d != 0.0
    ensures n / d != 0.0
  {
    assert n / d * d == n;
  }

  /** The test against the line joining the two towers, as written. */
  predicate SlopeBlocked(g: GameParameters, a: Coordinate, b: Coordinate)
    requires TowersOffAxis(g)
  {
    var slope := TowerSlope(g);
    var yIntercept := slope * g.ZC_G.x - g.ZC_G.y;
    if a.x == b.x && Straddles(g.ZC_G.x, g.ZC_R.x, a.x) then
      var lineY := slope * a.x + yIntercept;
      Straddles(a.y, b.y, lineY)
    else if a.y == b.y && Straddles(g.ZC_G.y, g.ZC_R.y, a.y) then
      var lineX := (a.y - yIntercept) / slope;
      Straddles(a.x, b.x, lineX)
    else
      false
  }

  /**
   * obstacleCheck: true when nothing blocks the straight leg from `a` to
   * `b`. Only a row or a column leg can be reported blocked.
   */
  function ObstacleCheck(g: GameParameters, a: Coordinate, b: Coordinate): (clear: bool)
    ensures !clear ==> a.x == b.x || a.y == b.y
  {
    !((a.y == b.y && RowBlocked(g, a, b))
      || (a.x == b.x && ColumnBlocked(g, a, b))
      || (TowersOffAxis(g) && SlopeBlocked(g, a, b)))
  }

  lemma ColumnBetweenTowersNeverHolds(g: GameParameters, a: Coordinate)
    ensures !ColumnBetweenTowers(g, a)
  {
  }

  /** The check does not depend on the direction of travel. */
  lemma ObstacleCheckSymmetric(g: GameParameters, a: Coordinate, b: Coordinate)
    ensures ObstacleCheck(g, a, b) == ObstacleCheck(g, b, a)
  {
    if a.y == b.y {
      assert RowBlocked(g, a, b) == RowBlocked(g, b, a);
    }
    if a.x == b.x {
      assert ColumnBetweenTowers(g, a) == ColumnBetweenTowers(g, b);
      assert ColumnBlocked(g, a, b) == ColumnBlocked(g, b, a);
    }
    if TowersOffAxis(g) {
      SlopeBlockedSymmetric(g, a, b);
    }
  }

  lemma SlopeBlockedSymmetric(g: GameParameters, a: Coordinate, b: Coordinate)
    requires TowersOffAxis(g)
    ensures SlopeBlocked(g, a, b) == SlopeBlocked(g, b, a)
  {
    var slope := TowerSlope(g);
    var yIntercept := slope * g.ZC_G.x - g.ZC_G.y;
    if a.x == b.x && Straddles(g.ZC_G.x, g.ZC_R.x, a.x) {
      var lineY := slope * a.x + yIntercept;
      assert lineY == slope * b.x + yIntercept;
    } else if a.y == b.y && Straddles(g.ZC_G.y, g.ZC_R.y, a.y) {
      var lineX := (a.y - yIntercept) / slope;
      assert lineX == (b.y - yIntercept) / slope;
    }
  }

  /** A row or column leg through the centre of either tower is always blocked. */
  lemma TowerOnLegBlocks(g: GameParameters, a: Coordinate, b: Coordinate, t: Coordinate)
    requires t == g.ZC_R || t == g.ZC_G
    requires (a.y == b.y == t.y && Straddles(a.x, b.x, t.x)) || (a.x == b.x == t.x && Straddles(a.y, b.y, t.y))
    ensures !ObstacleCheck(g, a, b)
  {
  }

  /** The leg from `a` to `b` along a row or column passes through `t`. */
  predicate LegThrough(a: Coordinate, b: Coordinate, t: Coordinate)
  {
    (a.y == b.y == t.y && Straddles(a.x, b.x, t.x)) || (a.x == b.x == t.x && Straddles(a.y, b.y, t.y))
  }

  /**
   * Once both towers are the same point, as every GameParameters the
   * constructor builds has them, a leg is blocked exactly when it passes
   * through that point.
   */
  lemma OneTowerBlocksOnlyThroughIt(g: GameParameters, a: Coordinate, b: Coordinate)
    requires g.ZC_R == g.ZC_G
    ensures ObstacleCheck(g, a, b) <==> !LegThrough(a, b, g.ZC_G)
  {
  }
}
