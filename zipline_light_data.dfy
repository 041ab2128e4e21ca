/**
 * The Capture-the-Flag landing detector for the zip line: the first
 * sample that is not negative is kept as a reference, and every later
 * sample more than four above it wakes the zip-line controller.
 */
module ZiplineLanding {
  import opened JavaSemantics

  const DIFFERENCE_THRESHOLD: int := 4
  const DIFFERENCE_POINTS: int := 10

  /** A sample wakes the controller: more than four above the reference, in wrapping int subtraction. */
  predicate Rises(lastData: int, v: int)
  {
    Int32(v - lastData) > DIFFERENCE_THRESHOLD
  }

  /**
   * processData on one sample: the reference afterwards and whether the
   * controller is woken.
   */
  function LightStep(lastData: int, newVal: int): (r: (int, bool))
    ensures lastData < 0 ==> r == (newVal, false)
    ensures lastData >= 0 ==> r.0 == lastData && (r.1 <==> Rises(lastData, newVal))
  {
    if lastData < 0 then (newVal, false) else (lastData, Rises(lastData, newVal))
  }

  /** The reference after a run of samples, and the positions of the samples that woke the controller. */
  function LightRun(lastData: int, samples: seq<int>): (int, seq<nat>)
    decreases |samples|
  {
    if samples == [] then (lastData, [])
    else
      var step := LightStep(lastData, samples[0]);
      var rest := LightRun(step.0, samples[1..]);
      (rest.0, (if step.1 then [0] else []) + Shift(rest.1))
  }

  function Shift(xs: seq<nat>): (ys: seq<nat>)
    ensures |ys| == |xs| && forall k :: 0 <= k < |xs| ==> ys[k] == xs[k] + 1
  {
    if xs == [] then [] else [xs[0] + 1] + Shift(xs[1..])
  }

  /**
   * Once a reference is set it never changes, and a sample wakes the
   * controller exactly when it is more than four above the reference.
   */
  lemma {:induction false} LandingIsARise(lastData: int, samples: seq<int>)
    requires lastData >= 0
    ensures LightRun(lastData, samples).0 == lastData
    ensures forall i :: i in LightRun(lastData, samples).1 <==> (0 <= i < |samples| && Rises(lastData, samples[i]))
    decreases |samples|
  {
    if samples != [] {
      LandingIsARise(lastData, samples[1..]);
      var rest := LightRun(lastData, samples[1..]).1;
      forall i
        ensures i in Shift(rest) <==> (1 <= i < |samples| && Rises(lastData, samples[i]))
      {
        ShiftMembers(rest, i);
        if 1 <= i < |samples| {
          assert samples[1..][i - 1] == samples[i];
        }
      }
    }
  }

  /** Shift moves every position one place on. */
  lemma ShiftMembers(xs: seq<nat>, i: int)
    ensures i in Shift(xs) <==> (i >= 1 && i - 1 in xs)
  {
    if i in Shift(xs) {
      var k :| 0 <= k < |xs| && Shift(xs)[k] == i;
      assert xs[k] in xs;
    }
    if i >= 1 && i - 1 in xs {
      var k :| 0 <= k < |xs| && xs[k] == i - 1;
      assert Shift(xs)[k] == i;
    }
  }

  class ZiplineLightData {
    var lastData: int
    /** Initialised and never used afterwards. */
    var differenceCounter: int

    constructor ()
      ensures lastData == -1 && differenceCounter == DIFFERENCE_POINTS
    {
      lastData := -1;
      differenceCounter := DIFFERENCE_POINTS;
    }

    /** processData: `resume` tells whether the zip-line controller is woken. */
    method ProcessData(newVal: int) returns (resume: bool)
      modifies this`lastData
      ensures (lastData, resume) == LightStep(old(lastData), newVal)
    {
      resume := false;
      if lastData < 0 {
        lastData := newVal;
      } else {
        var difference := Int32(newVal - lastData);
        if difference > DIFFERENCE_THRESHOLD {
          resume := true;
        }
      }
    }
  }
}
