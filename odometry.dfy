/**
 * Dead reckoning shared by both odometers: the distance a wheel covers
 * between two tacho readings, and one integration step of the pose.
 * Sine and cosine are parameters; the step never needs their values.
 */
module Odometry {
  import opened JavaSemantics
  import opened Angles

  datatype Pose = Pose(x: real, y: real, theta: real)

  /**
   * The arc a wheel of radius `radius` covers when its tacho moves from
   * `last` to `now` degrees; the tacho difference is an int subtraction
   * and wraps.
   */
  function WheelDistance(radius: real, now: int, last: int): (d: real)
    ensures INT_MIN <= now - last <= INT_MAX ==> d * 180.0 == PI * radius * (now - last) as real
    ensures radius >= 0.0 && INT_MIN <= now - last <= INT_MAX ==> (d >= 0.0 <==> now >= last || radius == 0.0)
  {
    PI * radius * Int32(now - last) as real / 180.0
  }

  /** Driving the same distance with both wheels. */
  function Advance(left: real, right: real): (d: real)
  {
    0.5 * (left + right)
  }

  /**
   * One step of the integration: the heading turns by `deltaT` and is
   * normalised, then the position moves `deltaD` along the new heading,
   * x by the sine and y by the cosine.
   */
  function Integrate(p: Pose, deltaD: real, deltaT: real, sin: real -> real, cos: real -> real): (q: Pose)
    ensures 0.0 <= q.theta < TWO_PI
  {
    var th := Normalise(p.theta + deltaT);
    Pose(p.x + deltaD * sin(th), p.y + deltaD * cos(th), th)
  }

  /** A tacho that did not move gives no distance. */
  lemma StillWheel(radius: real, now: int)
    ensures WheelDistance(radius, now, now) == 0.0
  {
  }

  /**
   * Distances of successive readings add up to the distance of the whole
   * span, when no tacho difference wraps.
   */
  lemma WheelDistanceAdds(radius: real, a: int, b: int, c: int)
    ensures INT_MIN <= c - a <= INT_MAX && INT_MIN <= b - a <= INT_MAX && INT_MIN <= c - b <= INT_MAX
            ==> WheelDistance(radius, c, a) == WheelDistance(radius, b, a) + WheelDistance(radius, c, b)
  {
    var k := PI * radius;
    assert k * (c - a) as real == k * (b - a) as real + k * (c - b) as real;
  }

  /** A step with no travel and no turn only normalises the heading. */
  lemma NoMotionKeepsPosition(p: Pose, sin: real -> real, cos: real -> real)
    ensures Integrate(p, 0.0, 0.0, sin, cos) == Pose(p.x, p.y, Normalise(p.theta))
  {
  }

  /** Turning on the spot, with the wheels moving opposite ways, leaves the position alone. */
  lemma SpinKeepsPosition(p: Pose, left: real, deltaT: real, sin: real -> real, cos: real -> real)
    ensures Integrate(p, Advance(left, -left), deltaT, sin, cos).x == p.x
    ensures Integrate(p, Advance(left, -left), deltaT, sin, cos).y == p.y
  {
  }

  /** With sine and cosine bounded by one, a step moves each coordinate by at most the distance driven. */
  lemma StepIsBounded(p: Pose, deltaD: real, deltaT: real, sin: real -> real, cos: real -> real)
    requires forall a :: -1.0 <= sin(a) <= 1.0
    requires forall a :: -1.0 <= cos(a) <= 1.0
    ensures AbsReal(Integrate(p, deltaD, deltaT, sin, cos).x - p.x) <= AbsReal(deltaD)
    ensures AbsReal(Integrate(p, deltaD, deltaT, sin, cos).y - p.y) <= AbsReal(deltaD)
  {
    var th := Normalise(p.theta + deltaT);
    var q := Integrate(p, deltaD, deltaT, sin, cos);
    ProductBounded(deltaD, sin(th), q.x - p.x);
    ProductBounded(deltaD, cos(th), q.y - p.y);
  }

  lemma ProductBounded(d: real, s: real, e: real)
    requires -1.0 <= s <= 1.0 && e == d * s
    ensures AbsReal(e) <= AbsReal(d)
  {
    if d == 0.0 || s == 0.0 {
      assert e == 0.0;
    } else if d > 0.0 && s > 0.0 {
      PositiveProductBounded(d, s, e);
    } else if d > 0.0 {
      assert -e == (-s) * d;
      PositiveProductBounded(d, -s, -e);
    } else if s > 0.0 {
      assert -e == s * (-d);
      PositiveProductBounded(-d, s, -e);
    } else {
      assert e == (-s) * (-d);
      PositiveProductBounded(-d, -s, e);
    }
  }

  lemma PositiveProductBounded(d: real, s: real, e: real)
    requires d > 0.0 && 0.0 < s <= 1.0 && e == s * d
    ensures 0.0 < e <= d
  {
    ScaleLeq(s, 1.0, d);
    ScaleLess(0.0, s, d);
    assert s * d <= 1.0 * d && 1.0 * d == d;
    assert 0.0 * d < s * d && 0.0 * d == 0.0;
  }
}
