/**
 * The Localisation lab's ultrasonic poller: positive distances go into a
 * five-sample window with a running average, and an edge is reported when
 * the average crosses 40 cm in the direction the current mode asks for
 * (falling by default).
 */
module LocalisationUltrasonicPolling {
  import opened JavaSemantics
  import LineFilters

  const SAMPLE_POINTS: int := LineFilters.SAMPLE_POINTS
  const EDGE_THRESHOLD: int := 40

  datatype UsState = UsState(dataCounter: int, sensorData: seq<int>, lastAverage: int,
                             currentAverage: int, fallingEdge: bool)

  predicate WellFormed(s: UsState)
  {
    |s.sensorData| == SAMPLE_POINTS && 0 <= s.dataCounter <= SAMPLE_POINTS
  }

  /** The window holds -1 everywhere, both averages are -1 and the mode is falling. */
  function Initial(): (s: UsState)
    ensures WellFormed(s)
  {
    UsState(0, seq(SAMPLE_POINTS, _ => -1), -1, -1, true)
  }

  /**
   * newSensorValue: while the window fills, the current average is the
   * latest distance and the last average stays where it was; afterwards
   * the last average takes the current one, which moves by a fifth of
   * the change, truncated, in wrapping 32-bit arithmetic.
   */
  function AverageStep(s: UsState, newVal: int): (r: UsState)
    requires WellFormed(s)
    ensures WellFormed(r) && r.fallingEdge == s.fallingEdge
    ensures r.sensorData == LineFilters.Recorded(s.sensorData, s.dataCounter, newVal)
    ensures s.dataCounter < SAMPLE_POINTS ==>
              r.currentAverage == newVal && r.lastAverage == s.lastAverage && r.dataCounter == s.dataCounter + 1
    ensures s.dataCounter == SAMPLE_POINTS ==>
              && r.lastAverage == s.currentAverage && r.dataCounter == SAMPLE_POINTS
              && r.currentAverage == LineFilters.NextAverage(s.currentAverage, s.sensorData[0], newVal)
  {
    if s.dataCounter < SAMPLE_POINTS then
      s.(sensorData := s.sensorData[s.dataCounter := newVal], currentAverage := newVal, dataCounter := s.dataCounter + 1)
    else
      s.(lastAverage := s.currentAverage,
         currentAverage := LineFilters.NextAverage(s.currentAverage, s.sensorData[0], newVal),
         sensorData := LineFilters.Shifted(s.sensorData, newVal))
  }

  /** checkThreshold: the average crossed 40 cm downward (falling mode) or upward (rising mode), from a positive last average. */
  predicate Crossed(fallingEdge: bool, lastAverage: int, currentAverage: int)
  {
    if fallingEdge then currentAverage < EDGE_THRESHOLD && lastAverage > EDGE_THRESHOLD && lastAverage > 0
    else currentAverage > EDGE_THRESHOLD && lastAverage < EDGE_THRESHOLD && lastAverage > 0
  }

  /** The edge test on a poller state. */
  predicate Edge(s: UsState)
  {
    Crossed(s.fallingEdge, s.lastAverage, s.currentAverage)
  }

  /**
   * One pass of run on a distance in cm: a distance of 0 or less is
   * ignored; any other goes into the window and the threshold is checked.
   */
  function Poll(s: UsState, distance: int): (r: (UsState, bool))
    requires WellFormed(s)
    ensures WellFormed(r.0) && r.0.fallingEdge == s.fallingEdge
    ensures distance <= 0 ==> r == (s, false)
    ensures r.1 ==> distance > 0 && 0 < r.0.lastAverage
    ensures r.1 && s.fallingEdge ==> r.0.lastAverage > EDGE_THRESHOLD > r.0.currentAverage
    ensures r.1 && !s.fallingEdge ==> r.0.lastAverage < EDGE_THRESHOLD < r.0.currentAverage
  {
    if distance > 0 then
      var t := AverageStep(s, distance);
      (t, Edge(t))
    else
      (s, false)
  }

  /** The state after the distances, oldest first, and how many edges were reported. */
  function PollRun(s: UsState, distances: seq<int>): (r: (UsState, nat))
    requires WellFormed(s)
    ensures WellFormed(r.0) && r.0.fallingEdge == s.fallingEdge
    decreases |distances|
  {
    if distances == [] then (s, 0)
    else
      var before := PollRun(s, distances[..|distances| - 1]);
      var after := Poll(before.0, distances[|distances| - 1]);
      (after.0, before.1 + if after.1 then 1 else 0)
  }

  /** The positive distances, in order. */
  function Positive(distances: seq<int>): (r: seq<int>)
    ensures |r| <= |distances|
    ensures forall k :: 0 <= k < |r| ==> r[k] > 0
    decreases |distances|
  {
    if distances == [] then []
    else if distances[|distances| - 1] > 0 then Positive(distances[..|distances| - 1]) + [distances[|distances| - 1]]
    else Positive(distances[..|distances| - 1])
  }

  /** Readings of 0 or less leave no trace: the poller behaves as if only the positive ones arrived. */
  lemma {:induction false} NonPositiveReadingsAreIgnored(s: UsState, distances: seq<int>)
    requires WellFormed(s)
    ensures PollRun(s, distances) == PollRun(s, Positive(distances))
    decreases |distances|
  {
    if distances != [] {
      var init := distances[..|distances| - 1];
      var last := distances[|distances| - 1];
      NonPositiveReadingsAreIgnored(s, init);
      if last > 0 {
        var p := Positive(init) + [last];
        assert Positive(distances) == p;
        assert p[..|p| - 1] == Positive(init);
      }
    }
  }

  /**
   * No edge is reported before the window has filled: from the initial
   * state the last average is still -1 after the first five positive
   * distances.
   */
  lemma {:induction false} NoEdgeWhileFilling(distances: seq<int>)
    requires |Positive(distances)| <= SAMPLE_POINTS
    ensures PollRun(Initial(), distances).1 == 0
    ensures PollRun(Initial(), distances).0.lastAverage == -1
    ensures PollRun(Initial(), distances).0.dataCounter == |Positive(distances)|
    decreases |distances|
  {
    if distances != [] {
      var init := distances[..|distances| - 1];
      var last := distances[|distances| - 1];
      assert |Positive(init)| <= |Positive(distances)|;
      NoEdgeWhileFilling(init);
    }
  }

  /**
   * A distance whose cast saturates at Integer.MAX_VALUE wraps the running
   * average. The fill with 50, 50, 50, 50 and a saturated distance leaves
   * the window below with the current average at Integer.MAX_VALUE; one
   * more saturated distance wraps the average below zero, and a falling
   * edge is reported although no distance was below 40.
   */
  lemma SaturatedReadingFakesEdge()
    ensures var filled := UsState(SAMPLE_POINTS, [50, 50, 50, 50, INT_MAX], -1, INT_MAX, true);
            && PollRun(Initial(), [50, 50, 50, 50, INT_MAX]) == (filled, 0)
            && var r := Poll(filled, INT_MAX);
            && r.1 && r.0.lastAverage == INT_MAX && r.0.currentAverage < 0
  {
    var s0 := Initial();
    var s1 := UsState(1, [50, -1, -1, -1, -1], -1, 50, true);
    var s2 := UsState(2, [50, 50, -1, -1, -1], -1, 50, true);
    var s3 := UsState(3, [50, 50, 50, -1, -1], -1, 50, true);
    var s4 := UsState(4, [50, 50, 50, 50, -1], -1, 50, true);
    var s5 := UsState(5, [50, 50, 50, 50, INT_MAX], -1, INT_MAX, true);
    assert s0.sensorData[0 := 50] == s1.sensorData;
    assert s1.sensorData[1 := 50] == s2.sensorData;
    assert s2.sensorData[2 := 50] == s3.sensorData;
    assert s3.sensorData[3 := 50] == s4.sensorData;
    assert s4.sensorData[4 := INT_MAX] == s5.sensorData;
    assert PollRun(s0, []) == (s0, 0);
    FillOne(s0, [], 50, s0, s1);
    FillOne(s0, [50], 50, s1, s2);
    FillOne(s0, [50, 50], 50, s2, s3);
    FillOne(s0, [50, 50, 50], 50, s3, s4);
    assert [50, 50, 50] + [50] == [50, 50, 50, 50];
    FillOne(s0, [50, 50, 50, 50], INT_MAX, s4, s5);
    assert [50, 50, 50, 50] + [INT_MAX] == [50, 50, 50, 50, INT_MAX];
    assert Int32(INT_MAX - 50) == INT_MAX - 50;
    assert JDiv(INT_MAX - 50, SAMPLE_POINTS) == 429496719;
    assert Int32(INT_MAX + 429496719) == INT_MAX + 429496719 - TWO_32;
  }

  /** A run one distance longer: the run over the prefix, then one poll that reports nothing. */
  lemma FillOne(s0: UsState, prefix: seq<int>, v: int, before: UsState, after: UsState)
    requires WellFormed(s0) && PollRun(s0, prefix) == (before, 0)
    requires Poll(before, v) == (after, false)
    ensures PollRun(s0, prefix + [v]) == (after, 0)
  {
    assert (prefix + [v])[..|prefix|] == prefix;
  }

  class UltrasonicPoller {
    const sensorData: array<int>
    var dataCounter: int
    var lastAverage: int
    var currentAverage: int
    var fallingEdge: bool
    var polling: bool

    predicate Valid()
      reads this, sensorData
    {
      WellFormed(State())
    }

    function State(): (s: UsState)
      reads this, sensorData
    {
      UsState(dataCounter, sensorData[..], lastAverage, currentAverage, fallingEdge)
    }

    constructor ()
      ensures Valid() && State() == Initial() && polling
    {
      dataCounter := 0;
      lastAverage := -1;
      currentAverage := -1;
      fallingEdge := true;
      polling := true;
      var samples := new int[SAMPLE_POINTS];
      for i := 0 to SAMPLE_POINTS
        invariant forall k :: 0 <= k < i ==> samples[k] == -1
      {
        samples[i] := -1;
      }
      sensorData := samples;
      assert samples[..] == Initial().sensorData;
    }

    method NewAverageValue(newVal: int)
      requires Valid() && dataCounter == SAMPLE_POINTS
      modifies this`lastAverage, this`currentAverage
      ensures lastAverage == old(currentAverage)
      ensures currentAverage == LineFilters.NextAverage(old(currentAverage), sensorData[0], newVal)
    {
      lastAverage := currentAverage;
      var newAverage := Int32(lastAverage + JDiv(Int32(newVal - sensorData[0]), SAMPLE_POINTS));
      currentAverage := newAverage;
    }

    method NewSensorValue(newVal: int)
      requires Valid()
      modifies this`dataCounter, this`lastAverage, this`currentAverage, sensorData
      ensures Valid() && State() == AverageStep(old(State()), newVal)
    {
      if dataCounter < SAMPLE_POINTS {
        sensorData[dataCounter] := newVal;
        currentAverage := newVal;
        dataCounter := dataCounter + 1;
      } else {
        NewAverageValue(newVal);
        LineFilters.ShiftIn(sensorData, newVal);
      }
    }

    method CheckThreshold() returns (edge: bool)
      ensures edge == Crossed(fallingEdge, lastAverage, currentAverage)
    {
      edge := false;
      if fallingEdge && currentAverage < EDGE_THRESHOLD && lastAverage > EDGE_THRESHOLD && lastAverage > 0 {
        edge := true;
      } else if !fallingEdge && currentAverage > EDGE_THRESHOLD && lastAverage < EDGE_THRESHOLD && lastAverage > 0 {
        edge := true;
      }
    }

    /**
     * One pass of run on a reading in metres; `release` is the
     * setWaiting(false) call made on an edge.
     */
    method Step(reading: real) returns (release: bool)
      requires Valid()
      modifies this`dataCounter, this`lastAverage, this`currentAverage, sensorData
      ensures Valid() && (State(), release) == Poll(old(State()), LineFilters.Sample(reading))
    {
      var distance := LineFilters.Sample(reading);
      release := false;
      if distance > 0 {
        NewSensorValue(distance);
        release := CheckThreshold();
      }
    }

    method SetFallingEdgeMode(b: bool)
      modifies this`fallingEdge
      ensures fallingEdge == b
    {
      fallingEdge := b;
    }

    method StopPolling()
      modifies this`polling
      ensures !polling
    {
      polling := false;
    }
  }
}
