/**
 * The Capture-the-Flag line detector on the light sensor. The first
 * sample is kept as a reference; a drop of more than four below it arms
 * the detector for ten samples, and a rise of more than four above it
 * while armed reports a line to the localisation routine.
 */
module ColorPulse {
  import opened JavaSemantics

  const DIFFERENCE_THRESHOLD: int := 4
  const DIFFERENCE_POINTS: int := 10

  datatype PulseState = PulseState(lastData: int, differenceCounter: int, lowPulse: bool)

  /** The state of a freshly constructed detector. */
  const INITIAL: PulseState := PulseState(-1, DIFFERENCE_POINTS, false)

  predicate CounterInRange(s: PulseState)
  {
    0 <= s.differenceCounter <= DIFFERENCE_POINTS
  }

  /**
   * processData on one sample: the new state and whether a line was
   * reported. The reference, once set, never changes; a line is reported
   * only while armed and only on a rise of more than four. The difference
   * is an int subtraction and wraps.
   */
  function PulseStep(s: PulseState, newVal: int): (r: (PulseState, bool))
    ensures r.0.lastData == (if s.lastData < 0 then newVal else s.lastData)
    ensures r.1 <==> s.lastData >= 0 && s.lowPulse && Int32(newVal - s.lastData) > DIFFERENCE_THRESHOLD
                     && !(Int32(newVal - s.lastData) < -DIFFERENCE_THRESHOLD)
    ensures r.1 ==> r.0 == s
    ensures s.lastData >= 0 && Int32(newVal - s.lastData) < -DIFFERENCE_THRESHOLD
            ==> r.0.lowPulse && r.0.differenceCounter == DIFFERENCE_POINTS
    ensures !s.lowPulse && r.0.lowPulse ==> s.lastData >= 0 && Int32(newVal - s.lastData) < -DIFFERENCE_THRESHOLD
    ensures CounterInRange(s) ==> CounterInRange(r.0)
  {
    if s.lastData < 0 then
      (s.(lastData := newVal), false)
    else
      var difference := Int32(newVal - s.lastData);
      if difference < -DIFFERENCE_THRESHOLD then
        (s.(lowPulse := true, differenceCounter := DIFFERENCE_POINTS), false)
      else if s.lowPulse && difference > DIFFERENCE_THRESHOLD then
        (s, true)
      else
        var counter := s.differenceCounter - 1;
        if counter < 0 then (s.(lowPulse := false, differenceCounter := DIFFERENCE_POINTS), false)
        else (s.(differenceCounter := counter), false)
  }

  /** The state after feeding `samples` in order, and whether any of them reported a line. */
  function PulseRun(s: PulseState, samples: seq<int>): (PulseState, bool)
    decreases |samples|
  {
    if samples == [] then (s, false)
    else
      var step := PulseStep(s, samples[0]);
      var rest := PulseRun(step.0, samples[1..]);
      (rest.0, step.1 || rest.1)
  }

  /** The first sample of a fresh detector, if not negative, only becomes the reference. */
  lemma SeedOnly(newVal: int)
    requires newVal >= 0
    ensures PulseStep(INITIAL, newVal) == (PulseState(newVal, DIFFERENCE_POINTS, false), false)
  {
  }

  /**
   * Starting disarmed, no line is reported unless some sample dropped more
   * than four below the reference.
   */
  lemma {:induction false} NoLineWithoutDip(s: PulseState, samples: seq<int>)
    requires s.lastData >= 0 && !s.lowPulse
    requires forall i :: 0 <= i < |samples| ==> Int32(samples[i] - s.lastData) >= -DIFFERENCE_THRESHOLD
    ensures !PulseRun(s, samples).1
    ensures PulseRun(s, samples).0.lastData == s.lastData && !PulseRun(s, samples).0.lowPulse
    decreases |samples|
  {
    if samples != [] {
      var step := PulseStep(s, samples[0]);
      assert forall i :: 0 <= i < |samples[1..]| ==> samples[1..][i] == samples[i + 1];
      NoLineWithoutDip(step.0, samples[1..]);
    }
  }

  /** The counter stays within [0, 10] over any run. */
  lemma {:induction false} CounterStaysInRange(s: PulseState, samples: seq<int>)
    requires CounterInRange(s)
    ensures CounterInRange(PulseRun(s, samples).0)
    decreases |samples|
  {
    if samples != [] {
      CounterStaysInRange(PulseStep(s, samples[0]).0, samples[1..]);
    }
  }

  class ColorLocalisationData {
    var lastData: int
    var differenceCounter: int
    var lowPulse: bool

    constructor ()
      ensures State() == INITIAL
    {
      lastData := -1;
      differenceCounter := DIFFERENCE_POINTS;
      lowPulse := false;
    }

    function State(): (s: PulseState)
      reads this
    {
      PulseState(lastData, differenceCounter, lowPulse)
    }

    /** processData: `resume` tells whether the localisation routine is woken for a line. */
    method ProcessData(newVal: int) returns (resume: bool)
      modifies this
      ensures (State(), resume) == PulseStep(old(State()), newVal)
    {
      resume := false;
      if lastData < 0 {
        lastData := newVal;
      } else {
        var difference := Int32(newVal - lastData);
        if difference < -DIFFERENCE_THRESHOLD {
          lowPulse := true;
          differenceCounter := DIFFERENCE_POINTS;
        } else if lowPulse && difference > DIFFERENCE_THRESHOLD {
          resume := true;
        } else {
          differenceCounter := differenceCounter - 1;
          if differenceCounter < 0 {
            lowPulse := false;
            differenceCounter := DIFFERENCE_POINTS;
          }
        }
      }
    }
  }
}
