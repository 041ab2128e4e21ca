/**
 * The heading arithmetic the localisation routines share. Headings are
 * odometer readings in degrees, in [0, 360). The ultrasonic routine turns
 * two wall-edge headings into an orientation. The light routine turns two
 * grid-line headings into a position offset. Cosine is a parameter.
 */
module LocalisationGeometry {
  import opened JavaSemantics

  /** The distance from the light sensor to the wheel axle, in cm. */
  const COLOR_SENSOR_OFFSET: real := 15.0

  predicate IsHeading(h: real)
  {
    0.0 <= h < 360.0
  }

  /** A heading turned by `k` degrees and brought back into [0, 360). */
  function Turned(h: real, k: real): (r: real)
    requires IsHeading(h) && -360.0 < k < 360.0
    ensures IsHeading(r)
    ensures r == h + k || r == h + k - 360.0 || r == h + k + 360.0
  {
    if h + k >= 360.0 then h + k - 360.0 else if h + k < 0.0 then h + k + 360.0 else h + k
  }

  /**
   * The sweep from `first` to `second`: their difference, with 360 added
   * when it is negative.
   */
  function Sweep(first: real, second: real): (d: real)
    ensures d == second - first || d == second - first + 360.0
    ensures IsHeading(first) && IsHeading(second) ==> IsHeading(d)
  {
    var d := second - first;
    if d < 0.0 then d + 360.0 else d
  }

  /** The sweep is the only turn in [0, 360) that carries `first` onto `second`. */
  lemma SweepIsTheTurn(first: real, second: real, d: real)
    requires IsHeading(first) && IsHeading(second) && IsHeading(d)
    requires first + d == second || first + d == second + 360.0
    ensures d == Sweep(first, second)
  {
  }

  /** Out and back again covers the whole circle, unless the headings coincide. */
  lemma SweepsAddUp(a: real, b: real)
    requires IsHeading(a) && IsHeading(b)
    ensures a == b ==> Sweep(a, b) == 0.0 && Sweep(b, a) == 0.0
    ensures a != b ==> Sweep(a, b) + Sweep(b, a) == 360.0
  {
  }

  /** Turning both headings by the same amount leaves the sweep between them alone. */
  lemma SweepIgnoresCommonTurn(a: real, b: real, k: real)
    requires IsHeading(a) && IsHeading(b) && -360.0 < k < 360.0
    ensures Sweep(Turned(a, k), Turned(b, k)) == Sweep(a, b)
  {
    SweepIsTheTurn(Turned(a, k), Turned(b, k), Sweep(a, b));
  }

  /**
   * The orientation derived from two edge headings: `base` plus half the
   * sweep between them. For headings in range it lies in [base, base + 180).
   */
  function Bisector(base: real, first: real, second: real): (h: real)
    ensures IsHeading(first) && IsHeading(second) ==> base <= h < base + 180.0
  {
    base + Sweep(first, second) / 2.0
  }

  /**
   * The derived orientation depends only on where the two edges lie
   * relative to each other, not on the heading the odometer started from.
   */
  lemma BisectorIgnoresCommonTurn(base: real, first: real, second: real, k: real)
    requires IsHeading(first) && IsHeading(second) && -360.0 < k < 360.0
    ensures Bisector(base, Turned(first, k), Turned(second, k)) == Bisector(base, first, second)
  {
    SweepIgnoresCommonTurn(first, second, k);
  }

  /**
   * The lab routines' line angle: half the difference of two line
   * headings, with 360 added when that half is negative.
   */
  function HalvedDifference(a: real, b: real): (t: real)
    ensures t == (a - b) / 2.0 || t == (a - b) / 2.0 + 360.0
    ensures IsHeading(a) && IsHeading(b) ==> IsHeading(t) && t != 180.0
  {
    var t := (a - b) / 2.0;
    if t < 0.0 then t + 360.0 else t
  }

  /**
   * Because the 360 is added after halving, the line angle is half the
   * sweep from `b` to `a` only when `a` is not below `b`. Otherwise it is
   * that half turned by a further 180 degrees.
   */
  lemma HalvedDifferenceAgainstSweep(a: real, b: real)
    requires IsHeading(a) && IsHeading(b)
    ensures a >= b ==> HalvedDifference(a, b) == Sweep(b, a) / 2.0
    ensures a < b ==> HalvedDifference(a, b) == Sweep(b, a) / 2.0 + 180.0
  {
  }

  /** The lab routines' offset from a line angle: -15·cos of the angle. */
  function LineOffset(cos: real -> real, t: real): (r: real)
    ensures (forall a :: -1.0 <= cos(a) <= 1.0) ==> -COLOR_SENSOR_OFFSET <= r <= COLOR_SENSOR_OFFSET
  {
    -COLOR_SENSOR_OFFSET * cos(ToRadians(t))
  }
}
