/**
 * The parts of Java's numeric semantics that the robot code depends on:
 * integer division and the `(int)` cast both truncate toward zero, and the
 * `%` operator on doubles keeps the sign of the dividend. Dafny's own `/`
 * and `%` on `int` are Euclidean, so these are written out here.
 */
module JavaSemantics {
  /** Integer.MAX_VALUE and Integer.MIN_VALUE. */
  const INT_MAX: int := 0x7fff_ffff
  const INT_MIN: int := -0x8000_0000

  /** Math.PI, as the real number its double literal denotes. */
  const PI: real := 3.141592653589793
  const TWO_PI: real := 2.0 * PI

  /** A Java reference that may be null. */
  datatype Option<T> = None | Some(value: T)

  function Abs(x: int): (r: nat)
    ensures r == x || r == -x
  {
    if x < 0 then -x else x
  }

  function AbsReal(x: real): (r: real)
    ensures r >= 0.0 && (r == x || r == -x)
  {
    if x < 0.0 then -x else x
  }

  /** Java `a / b` on ints: the quotient truncated toward zero. */
  function JDiv(a: int, b: int): (q: int)
    requires b > 0
    ensures a >= 0 ==> q == a / b
    ensures a < 0 ==> q == -((-a) / b)
    ensures 0 <= Abs(a) - Abs(q) * b < b
    ensures q == 0 || (q < 0) == (a < 0)
  {
    if a >= 0 then DivisionBounds(a, b); a / b
    else DivisionBounds(-a, b); -((-a) / b)
  }

  /** Euclidean division of a natural number leaves a remainder below the divisor. */
  lemma DivisionBounds(a: nat, b: int)
    requires b > 0
    ensures a / b >= 0 && (a / b) * b <= a < (a / b) * b + b
  {
  }

  const TWO_32: int := 0x1_0000_0000

  /**
   * Java's 32-bit int arithmetic: the exact result of an operation,
   * wrapped back into int range.
   */
  function Int32(x: int): (r: int)
    ensures INT_MIN <= r <= INT_MAX
    ensures INT_MIN <= x <= INT_MAX ==> r == x
    ensures (r - x) % TWO_32 == 0
  {
    (x - INT_MIN) % TWO_32 + INT_MIN
  }

  /** Math.abs on an int: Integer.MIN_VALUE is its own absolute value. */
  function AbsInt32(x: int): (r: int)
    ensures x != INT_MIN ==> r == Abs(x)
    ensures x == INT_MIN ==> r == INT_MIN
  {
    if x == INT_MIN then INT_MIN else Abs(x)
  }

  /** A double's integral part: truncation toward zero. */
  function Trunc(x: real): (t: int)
    ensures x >= 0.0 ==> 0 <= t && t as real <= x < t as real + 1.0
    ensures x < 0.0 ==> t <= 0 && t as real - 1.0 < x <= t as real
  {
    if x >= 0.0 then x.Floor else -((-x).Floor)
  }

  /**
   * Java's `(int)` cast of a double: truncation toward zero, saturating at
   * the bounds of `int`.
   */
  function JavaInt(x: real): (r: int)
    ensures INT_MIN <= r <= INT_MAX
    ensures INT_MIN <= Trunc(x) <= INT_MAX ==> r == Trunc(x)
    ensures Trunc(x) > INT_MAX ==> r == INT_MAX
    ensures Trunc(x) < INT_MIN ==> r == INT_MIN
  {
    var t := Trunc(x);
    if t > INT_MAX then INT_MAX else if t < INT_MIN then INT_MIN else t
  }

  /** Java `a % b` on doubles, for a positive divisor: the sign follows `a`. */
  function RealRem(a: real, b: real): (r: real)
    requires b > 0.0
    ensures a >= 0.0 ==> 0.0 <= r < b
    ensures a < 0.0 ==> -b < r <= 0.0
  {
    var q := a / b;
    var t: real := Trunc(q) as real;
    QuotientSign(a, b);
    RemainderBound(a, b, q, t);
    a - t * b
  }

  lemma QuotientSign(a: real, b: real)
    requires b > 0.0
    ensures (a >= 0.0) == (a / b >= 0.0)
    ensures a / b * b == a
  {
    if a >= 0.0 {
      assert a / b >= 0.0;
    } else {
      assert a / b < 0.0;
    }
  }

  lemma RemainderBound(a: real, b: real, q: real, t: real)
    requires b > 0.0 && q * b == a && (a >= 0.0) == (q >= 0.0)
    requires q >= 0.0 ==> t <= q < t + 1.0
    requires q < 0.0 ==> t - 1.0 < q <= t
    ensures a >= 0.0 ==> 0.0 <= a - t * b < b
    ensures a < 0.0 ==> -b < a - t * b <= 0.0
  {
    if a >= 0.0 {
      RemainderBelow(a, b, q, t);
    } else {
      RemainderAbove(a, b, q, t);
    }
  }

  lemma RemainderBelow(a: real, b: real, q: real, t: real)
    requires b > 0.0 && q * b == a && t <= q < t + 1.0
    ensures 0.0 <= a - t * b < b
  {
    ScaleLeq(t, q, b);
    assert t * b <= q * b;
    assert t * b <= a;
    BelowNext(a, b, q, t);
  }

  lemma BelowNext(a: real, b: real, q: real, t: real)
    requires b > 0.0 && q * b == a && q < t + 1.0
    ensures a - t * b < b
  {
    ScaleLess(q, t + 1.0, b);
    assert q * b < (t + 1.0) * b;
    assert a < (t + 1.0) * b;
    assert (t + 1.0) * b == t * b + b;
  }

  lemma RemainderAbove(a: real, b: real, q: real, t: real)
    requires b > 0.0 && q * b == a && t - 1.0 < q <= t
    ensures -b < a - t * b <= 0.0
  {
    ScaleLeq(q, t, b);
    assert q * b <= t * b;
    assert a <= t * b;
    AbovePrevious(a, b, q, t);
  }

  lemma AbovePrevious(a: real, b: real, q: real, t: real)
    requires b > 0.0 && q * b == a && t - 1.0 < q
    ensures -b < a - t * b
  {
    ScaleLess(t - 1.0, q, b);
    assert (t - 1.0) * b < q * b;
    assert (t - 1.0) * b < a;
    assert (t - 1.0) * b == t * b - b;
  }

  lemma ScaleLeq(x: real, y: real, b: real)
    requires b > 0.0 && x <= y
    ensures x * b <= y * b
  {
  }

  lemma ScaleLess(x: real, y: real, b: real)
    requires b > 0.0 && x < y
    ensures x * b < y * b
  {
  }

  /** Math.toRadians. */
  function ToRadians(degrees: real): (radians: real)
  {
    degrees / 180.0 * PI
  }

  /** Math.toDegrees. */
  function ToDegrees(radians: real): (degrees: real)
  {
    radians * 180.0 / PI
  }

  lemma TruncNegate(x: real)
    ensures Trunc(-x) == -Trunc(x)
  {
  }

  /** The cast commutes with negation unless the positive side saturates. */
  lemma JavaIntNegate(x: real)
    requires -INT_MAX <= Trunc(x) <= INT_MAX
    ensures JavaInt(-x) == -JavaInt(x)
  {
    TruncNegate(x);
  }

  lemma {:induction false} RadiansDegreesRoundTrip(degrees: real)
    ensures ToDegrees(ToRadians(degrees)) == degrees
  {
  }
}
