/**
 * Headings in radians, as both odometers keep them: every heading they
 * store is brought into [0, 2π) by adding whole turns.
 */
module Angles {
  import opened JavaSemantics

  /** The number of whole turns below `t`. */
  function Turns(t: real): (n: int)
  {
    (t / TWO_PI).Floor
  }

  /** The heading `t` brought into [0, 2π): `t` minus its whole turns. */
  function Normalise(t: real): (r: real)
    ensures 0.0 <= r < TWO_PI
  {
    var f := Turns(t) as real;
    TurnsBound(t);
    t - f * TWO_PI
  }

  lemma TurnsBound(t: real)
    ensures Turns(t) as real * TWO_PI <= t < Turns(t) as real * TWO_PI + TWO_PI
  {
    var q := t / TWO_PI;
    var f := Turns(t) as real;
    QuotientSign(t, TWO_PI);
    assert f <= q < f + 1.0;
    ScaleLeq(f, q, TWO_PI);
    ScaleLess(q, f + 1.0, TWO_PI);
    assert (f + 1.0) * TWO_PI == f * TWO_PI + TWO_PI;
  }

  /** The heading `t` turned by `k` whole turns. */
  function Rotated(t: real, k: int): (r: real)
  {
    t + k as real * TWO_PI
  }

  /** Normalising changes a heading by whole turns only. */
  lemma NormaliseCongruent(t: real)
    ensures exists k: int :: Normalise(t) == Rotated(t, k)
  {
    var k := -Turns(t);
    assert Normalise(t) == Rotated(t, k);
  }

  lemma {:induction false} TurnsShift(t: real)
    ensures Turns(t + TWO_PI) == Turns(t) + 1
  {
    var q := t / TWO_PI;
    assert (t + TWO_PI) / TWO_PI == q + 1.0 by {
      QuotientSign(t, TWO_PI);
      assert (q + 1.0) * TWO_PI == q * TWO_PI + TWO_PI;
    }
  }

  /** Adding one turn does not change the normalised heading. */
  lemma {:induction false} NormalisePeriodic(t: real)
    ensures Normalise(t + TWO_PI) == Normalise(t)
  {
    TurnsShift(t);
    var f := Turns(t) as real;
    assert (f + 1.0) * TWO_PI == f * TWO_PI + TWO_PI;
  }

  /** Adding any whole number of turns does not change the normalised heading. */
  lemma {:induction false} NormaliseTurns(t: real, k: int)
    ensures Normalise(Rotated(t, k)) == Normalise(t)
    decreases if k < 0 then -k else k
  {
    if k > 0 {
      var u := t + (k - 1) as real * TWO_PI;
      NormaliseTurns(t, k - 1);
      NormalisePeriodic(u);
      assert u + TWO_PI == t + k as real * TWO_PI;
    } else if k < 0 {
      var u := t + k as real * TWO_PI;
      NormaliseTurns(t, k + 1);
      NormalisePeriodic(u);
      assert u + TWO_PI == t + (k + 1) as real * TWO_PI;
    }
  }

  /** A heading already in [0, 2π) is left as it is. */
  lemma NormaliseInRange(t: real)
    requires 0.0 <= t < TWO_PI
    ensures Normalise(t) == t
  {
    var q := t / TWO_PI;
    assert 0.0 <= q < 1.0 by {
      QuotientSign(t, TWO_PI);
      if q >= 1.0 {
        ScaleLeq(1.0, q, TWO_PI);
      }
    }
    assert Turns(t) == 0;
  }

  lemma NormaliseIdempotent(t: real)
    ensures Normalise(Normalise(t)) == Normalise(t)
  {
    NormaliseInRange(Normalise(t));
  }

  /**
   * The first step of setTheta: add whole turns while the heading is
   * negative. What is left is at least zero and normalises the same way.
   */
  method AddTurnsWhileNegative(t0: real) returns (t: real)
    ensures 0.0 <= t && Normalise(t) == Normalise(t0)
    ensures t0 >= 0.0 ==> t == t0
  {
    t := t0;
    while t < 0.0
      invariant Normalise(t) == Normalise(t0)
      invariant t0 >= 0.0 ==> t == t0
      decreases if t < 0.0 then -Turns(t) else 0
    {
      NormalisePeriodic(t);
      TurnsShift(t);
      TurnsBound(t);
      t := t + TWO_PI;
    }
  }

  /** The second step of setTheta, `theta %= 2π`, on a non-negative heading. */
  lemma RemainderIsNormalise(t: real)
    requires t >= 0.0
    ensures RealRem(t, TWO_PI) == Normalise(t)
  {
    QuotientSign(t, TWO_PI);
  }
}
