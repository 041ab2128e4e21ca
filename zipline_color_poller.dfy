/**
 * The zipline colour poller: light samples go into a ten-sample window
 * with a running average, and a signal is sent when the last and the
 * current average lie on opposite sides of 2 (the light level at which
 * the robot leaves or reaches the ground). The averages are rotated in
 * the wrong order in the source; `AverageStepAsWritten` states that
 * order, and the class keeps the averages as they are evidently meant.
 */
module ZiplineColorPolling {
  import opened JavaSemantics
  import LineFilters

  const SAMPLE_POINTS: int := 10
  const LIGHT_THRESHOLD: int := 2

  datatype LightState = LightState(dataCounter: int, sensorData: seq<int>, lastAverage: int, currentAverage: int)

  predicate WellFormed(s: LightState)
  {
    |s.sensorData| == SAMPLE_POINTS && 0 <= s.dataCounter <= SAMPLE_POINTS
  }

  function Initial(): (s: LightState)
    ensures WellFormed(s)
  {
    LightState(0, seq(SAMPLE_POINTS, _ => -1), -1, -1)
  }

  /** sendSignal: one average is below 2 and the other at least 2. */
  predicate Signal(last: int, current: int)
  {
    (current < LIGHT_THRESHOLD && last >= LIGHT_THRESHOLD) || (last < LIGHT_THRESHOLD && current >= LIGHT_THRESHOLD)
  }

  /** The signal does not care which average is which. */
  lemma SignalIsSymmetric(a: int, b: int)
    ensures Signal(a, b) <==> Signal(b, a)
    ensures Signal(a, b) <==> (a < LIGHT_THRESHOLD) != (b < LIGHT_THRESHOLD)
  {
  }

  /**
   * newSensorValue as written: while filling, the sample goes into the
   * last average and the current average stays -1; afterwards the new
   * average is built on the LAST average, which then takes the old
   * current one.
   */
  function AverageStepAsWritten(s: LightState, newVal: int): (r: LightState)
    requires WellFormed(s)
    ensures WellFormed(r) && r.sensorData == LineFilters.Recorded(s.sensorData, s.dataCounter, newVal)
    ensures s.dataCounter < SAMPLE_POINTS ==> r.lastAverage == newVal && r.currentAverage == s.currentAverage
    ensures s.dataCounter == SAMPLE_POINTS ==>
              r.lastAverage == s.currentAverage
              && r.currentAverage == LineFilters.RunningAverage(s.lastAverage, s.sensorData[0], newVal, SAMPLE_POINTS)
  {
    if s.dataCounter < SAMPLE_POINTS then
      s.(sensorData := s.sensorData[s.dataCounter := newVal], lastAverage := newVal, dataCounter := s.dataCounter + 1)
    else
      var newAverage := LineFilters.RunningAverage(s.lastAverage, s.sensorData[0], newVal, SAMPLE_POINTS);
      s.(lastAverage := s.currentAverage, currentAverage := newAverage,
         sensorData := LineFilters.Shifted(s.sensorData, newVal))
  }

  function PollAsWritten(s: LightState, newVal: int): (r: (LightState, bool))
    requires WellFormed(s)
  {
    var t := AverageStepAsWritten(s, newVal);
    (t, Signal(t.lastAverage, t.currentAverage))
  }

  /** While the window fills, the source signals exactly on samples of at least 2. */
  lemma AsWrittenFillSignalsOnLight(s: LightState, newVal: int)
    requires WellFormed(s) && s.dataCounter < SAMPLE_POINTS && s.currentAverage == -1
    ensures PollAsWritten(s, newVal).1 <==> newVal >= LIGHT_THRESHOLD
    ensures PollAsWritten(s, newVal).0.currentAverage == -1
  {
  }

  /** Ten samples of 50 into the window. */
  function FullOfFifty(): (s: LightState)
  {
    LightState(SAMPLE_POINTS, seq(SAMPLE_POINTS, _ => 50), 50, -1)
  }

  /**
   * Under a steady light of 50 the averages as written swap between 50
   * and -1, so the source signals on every sample and comes back to where
   * it started after two.
   */
  lemma AsWrittenSteadyLightSignalsForever()
    ensures PollAsWritten(FullOfFifty(), 50).1
    ensures PollAsWritten(PollAsWritten(FullOfFifty(), 50).0, 50).1
    ensures PollAsWritten(PollAsWritten(FullOfFifty(), 50).0, 50).0 == FullOfFifty()
  {
    var w := seq(SAMPLE_POINTS, _ => 50);
    assert LineFilters.Shifted(w, 50) == w;
  }

  /**
   * newSensorValue as meant: while filling, the current average is the
   * sample; afterwards the last average takes the current one, which
   * moves by a tenth of the change, truncated, in wrapping 32-bit
   * arithmetic.
   */
  function AverageStep(s: LightState, newVal: int): (r: LightState)
    requires WellFormed(s)
    ensures WellFormed(r) && r.sensorData == LineFilters.Recorded(s.sensorData, s.dataCounter, newVal)
    ensures s.dataCounter < SAMPLE_POINTS ==>
              r.currentAverage == newVal && r.lastAverage == s.lastAverage && r.dataCounter == s.dataCounter + 1
    ensures s.dataCounter == SAMPLE_POINTS ==>
              && r.dataCounter == SAMPLE_POINTS && r.lastAverage == s.currentAverage
              && r.currentAverage == LineFilters.RunningAverage(s.currentAverage, s.sensorData[0], newVal, SAMPLE_POINTS)
  {
    if s.dataCounter < SAMPLE_POINTS then
      s.(sensorData := s.sensorData[s.dataCounter := newVal], currentAverage := newVal, dataCounter := s.dataCounter + 1)
    else
      s.(lastAverage := s.currentAverage,
         currentAverage := LineFilters.RunningAverage(s.currentAverage, s.sensorData[0], newVal, SAMPLE_POINTS),
         sensorData := LineFilters.Shifted(s.sensorData, newVal))
  }

  /** One pass of run: the sample goes into the window and sendSignal is checked. */
  function Poll(s: LightState, newVal: int): (r: (LightState, bool))
    requires WellFormed(s)
    ensures WellFormed(r.0)
    ensures s.dataCounter == SAMPLE_POINTS ==>
              (r.1 <==> (s.currentAverage < LIGHT_THRESHOLD) != (r.0.currentAverage < LIGHT_THRESHOLD))
  {
    var t := AverageStep(s, newVal);
    (t, Signal(t.lastAverage, t.currentAverage))
  }

  /** While filling from the initial state the signal fires on samples of at least 2, as in the source. */
  lemma FillSignalsOnLight(s: LightState, newVal: int)
    requires WellFormed(s) && s.dataCounter < SAMPLE_POINTS && s.lastAverage == -1
    ensures Poll(s, newVal).1 <==> newVal >= LIGHT_THRESHOLD
    ensures Poll(s, newVal).0.lastAverage == -1
  {
  }

  /** A window full of one level. */
  predicate Steady(s: LightState, level: int)
  {
    WellFormed(s) && s.dataCounter == SAMPLE_POINTS && s.currentAverage == level
    && forall k :: 0 <= k < |s.sensorData| ==> s.sensorData[k] == level
  }

  /** Once the window is full of one int level, more of that level keeps it so and sends no signal. */
  lemma SteadyLightIsSilent(s: LightState, level: int)
    requires Steady(s, level) && INT_MIN <= level <= INT_MAX
    ensures Steady(Poll(s, level).0, level) && !Poll(s, level).1
  {
    assert s.sensorData[0] == level;
  }

  class ZiplineColorPoller {
    const sensorData: array<int>
    var dataCounter: int
    var lastAverage: int
    var currentAverage: int
    var polling: bool

    predicate Valid()
      reads this, sensorData
    {
      WellFormed(State())
    }

    function State(): (s: LightState)
      reads this, sensorData
    {
      LightState(dataCounter, sensorData[..], lastAverage, currentAverage)
    }

    constructor ()
      ensures Valid() && State() == Initial() && !polling
    {
      dataCounter := 0;
      lastAverage := -1;
      currentAverage := -1;
      polling := false;
      var samples := new int[SAMPLE_POINTS];
      for i := 0 to SAMPLE_POINTS
        invariant forall k :: 0 <= k < i ==> samples[k] == -1
      {
        samples[i] := -1;
      }
      sensorData := samples;
      assert samples[..] == Initial().sensorData;
    }

    method NewAverageValue(newVal: int)
      requires Valid() && dataCounter == SAMPLE_POINTS
      modifies this`lastAverage, this`currentAverage
      ensures lastAverage == old(currentAverage)
      ensures currentAverage == LineFilters.RunningAverage(old(currentAverage), sensorData[0], newVal, SAMPLE_POINTS)
    {
      lastAverage := currentAverage;
      currentAverage := Int32(lastAverage + JDiv(Int32(newVal - sensorData[0]), SAMPLE_POINTS));
    }

    method NewSensorValue(newVal: int)
      requires Valid()
      modifies this`dataCounter, this`lastAverage, this`currentAverage, sensorData
      ensures Valid() && State() == AverageStep(old(State()), newVal)
    {
      if dataCounter < SAMPLE_POINTS {
        sensorData[dataCounter] := newVal;
        currentAverage := newVal;
        dataCounter := dataCounter + 1;
      } else {
        NewAverageValue(newVal);
        LineFilters.ShiftIn(sensorData, newVal);
      }
    }

    method SendSignal() returns (signal: bool)
      ensures signal == Signal(lastAverage, currentAverage)
    {
      signal := (currentAverage < LIGHT_THRESHOLD && lastAverage >= LIGHT_THRESHOLD)
                || (lastAverage < LIGHT_THRESHOLD && currentAverage >= LIGHT_THRESHOLD);
    }

    /** One pass of run on a reading in [0, 1]; `release` is the setWaiting(false) call a signal makes. */
    method Step(reading: real) returns (release: bool)
      requires Valid()
      modifies this`dataCounter, this`lastAverage, this`currentAverage, sensorData
      ensures Valid() && (State(), release) == Poll(old(State()), LineFilters.Sample(reading))
    {
      NewSensorValue(LineFilters.Sample(reading));
      release := SendSignal();
    }

    method StartPolling()
      modifies this`polling
      ensures polling
    {
      polling := true;
    }

    method StopPolling()
      modifies this`polling
      ensures !polling
    {
      polling := false;
    }
  }
}
