/**
 * The zipline ultrasonic poller: positive distances go into a five-sample
 * window whose truncated mean is the current average, and every pass with
 * that average below 17 cm releases the waiting controller.
 */
module ZiplineUltrasonicPolling {
  import opened JavaSemantics
  import LineFilters

  const SAMPLE_POINTS: int := 5
  const THRESHOLD: int := 17

  datatype UsState = UsState(dataCounter: int, sensorData: seq<int>, currentAverage: int)

  predicate WellFormed(s: UsState)
  {
    |s.sensorData| == SAMPLE_POINTS && 0 <= s.dataCounter <= SAMPLE_POINTS
  }

  function Initial(): (s: UsState)
    ensures WellFormed(s)
  {
    UsState(0, seq(SAMPLE_POINTS, _ => -1), -1)
  }

  /** The exact sum of the entries. */
  function Sum(s: seq<int>): (total: int)
  {
    if s == [] then 0 else Sum(s[..|s| - 1]) + s[|s| - 1]
  }

  /** The sum as `newAverageSum += …` accumulates it: every addition wraps to 32 bits. */
  function WrappedSum(s: seq<int>): (total: int)
    ensures INT_MIN <= total <= INT_MAX
  {
    if s == [] then 0 else Int32(WrappedSum(s[..|s| - 1]) + s[|s| - 1])
  }

  /** One more entry of a prefix adds that entry, wrapping. */
  lemma WrappedSumStep(s: seq<int>, i: nat)
    requires i < |s|
    ensures WrappedSum(s[..i + 1]) == Int32(WrappedSum(s[..i]) + s[i])
  {
    assert s[..i + 1][..i] == s[..i];
  }

  /** Entries between `lo` and `hi` sum to between |s| lo and |s| hi. */
  lemma {:induction false} SumBounds(s: seq<int>, lo: int, hi: int)
    requires forall k :: 0 <= k < |s| ==> lo <= s[k] <= hi
    ensures |s| * lo <= Sum(s) <= |s| * hi
    decreases |s|
  {
    if s != [] {
      var init := s[..|s| - 1];
      assert forall k :: 0 <= k < |init| ==> init[k] == s[k];
      SumBounds(init, lo, hi);
      assert |s| * lo == |init| * lo + lo && |s| * hi == |init| * hi + hi;
    }
  }

  /**
   * The truncated mean of a full window lies between its smallest and
   * largest entry, when those are not negative and the sum fits in an int.
   */
  lemma MeanBounds(w: seq<int>, lo: int, hi: int)
    requires |w| == SAMPLE_POINTS && 0 <= lo
    requires forall k :: 0 <= k < |w| ==> lo <= w[k] <= hi
    requires Sum(w) <= INT_MAX
    ensures lo <= JDiv(WrappedSum(w), SAMPLE_POINTS) <= hi
  {
    SumBounds(w, lo, hi);
    NonNegativeSumWraps(w);
  }

  /** A sum of non-negative entries that fits in an int is never wrapped along the way. */
  lemma {:induction false} NonNegativeSumWraps(s: seq<int>)
    requires forall k :: 0 <= k < |s| ==> 0 <= s[k]
    requires Sum(s) <= INT_MAX
    ensures 0 <= Sum(s) && WrappedSum(s) == Sum(s)
    decreases |s|
  {
    if s != [] {
      var init := s[..|s| - 1];
      assert forall k :: 0 <= k < |init| ==> init[k] == s[k];
      NonNegativeSumWraps(init);
    }
  }

  /**
   * newSensorValue: while the window fills, the average is the latest
   * distance; afterwards it is the truncated mean of the shifted window.
   */
  function AverageStep(s: UsState, newVal: int): (r: UsState)
    requires WellFormed(s)
    ensures WellFormed(r) && r.sensorData == LineFilters.Recorded(s.sensorData, s.dataCounter, newVal)
    ensures s.dataCounter < SAMPLE_POINTS ==> r.currentAverage == newVal && r.dataCounter == s.dataCounter + 1
    ensures s.dataCounter == SAMPLE_POINTS ==>
              r.dataCounter == SAMPLE_POINTS && r.currentAverage == JDiv(WrappedSum(r.sensorData), SAMPLE_POINTS)
  {
    if s.dataCounter < SAMPLE_POINTS then
      UsState(s.dataCounter + 1, s.sensorData[s.dataCounter := newVal], newVal)
    else
      var w := LineFilters.Shifted(s.sensorData, newVal);
      UsState(SAMPLE_POINTS, w, JDiv(WrappedSum(w), SAMPLE_POINTS))
  }

  /**
   * One pass of run on a distance in cm: a distance of 0 or less is
   * ignored; any other goes into the window, and checkThreshold releases
   * the controller on every pass whose average is below 17.
   */
  function Poll(s: UsState, distance: int): (r: (UsState, bool))
    requires WellFormed(s)
    ensures WellFormed(r.0)
    ensures distance <= 0 ==> r == (s, false)
    ensures distance > 0 ==> r.1 == (r.0.currentAverage < THRESHOLD)
  {
    if distance > 0 then
      var t := AverageStep(s, distance);
      (t, t.currentAverage < THRESHOLD)
    else
      (s, false)
  }

  /**
   * With the window full, the release follows the window: it comes when
   * every distance in it is below 17, and never when every one is 17 or
   * more and their sum fits in an int.
   */
  lemma ReleaseFollowsWindow(s: UsState, distance: int)
    requires WellFormed(s) && s.dataCounter == SAMPLE_POINTS && distance > 0
    ensures var r := Poll(s, distance);
            && ((forall k :: 0 <= k < SAMPLE_POINTS ==> 0 <= r.0.sensorData[k] < THRESHOLD) ==> r.1)
            && (((forall k :: 0 <= k < SAMPLE_POINTS ==> r.0.sensorData[k] >= THRESHOLD)
                 && Sum(r.0.sensorData) <= INT_MAX) ==> !r.1)
  {
    var w := Poll(s, distance).0.sensorData;
    if forall k :: 0 <= k < SAMPLE_POINTS ==> 0 <= w[k] < THRESHOLD {
      SumBounds(w, 0, THRESHOLD - 1);
      MeanBounds(w, 0, THRESHOLD - 1);
    }
    if (forall k :: 0 <= k < SAMPLE_POINTS ==> w[k] >= THRESHOLD) && Sum(w) <= INT_MAX {
      var hi := w[0] + w[1] + w[2] + w[3] + w[4];
      assert forall k :: 0 <= k < SAMPLE_POINTS ==> THRESHOLD <= w[k] <= hi;
      MeanBounds(w, THRESHOLD, hi);
    }
  }

  /**
   * A distance whose cast saturates at Integer.MAX_VALUE wraps the window
   * sum: with the window [Integer.MAX_VALUE, 20, 20, 20, 20] the sum wraps
   * below zero, so the controller is released although every distance is
   * 17 or more.
   */
  lemma SaturatedReadingReleases()
    ensures var r := Poll(UsState(SAMPLE_POINTS, [20, INT_MAX, 20, 20, 20], 20), 20);
            && r.0.sensorData == [INT_MAX, 20, 20, 20, 20]
            && (forall k :: 0 <= k < SAMPLE_POINTS ==> r.0.sensorData[k] >= THRESHOLD)
            && r.0.currentAverage < 0 && r.1
  {
    var w := [INT_MAX, 20, 20, 20, 20];
    assert LineFilters.Shifted([20, INT_MAX, 20, 20, 20], 20) == w;
    assert w[..1] == [INT_MAX] && w[..2][..1] == w[..1] && w[..3][..2] == w[..2];
    assert w[..4][..3] == w[..3] && w[..5][..4] == w[..4] && w[..5] == w;
    assert [INT_MAX][..0] == [];
    assert WrappedSum(w[..1]) == INT_MAX;
    assert WrappedSum(w[..2]) == INT_MAX + 20 - TWO_32;
    assert WrappedSum(w[..3]) == INT_MAX + 40 - TWO_32;
    assert WrappedSum(w[..4]) == INT_MAX + 60 - TWO_32;
    assert WrappedSum(w) == INT_MAX + 80 - TWO_32;
  }

  class ZiplineUSPoller {
    const sensorData: array<int>
    var dataCounter: int
    var currentAverage: int
    var polling: bool

    predicate Valid()
      reads this, sensorData
    {
      WellFormed(State())
    }

    function State(): (s: UsState)
      reads this, sensorData
    {
      UsState(dataCounter, sensorData[..], currentAverage)
    }

    constructor ()
      ensures Valid() && State() == Initial() && polling
    {
      dataCounter := 0;
      currentAverage := -1;
      polling := true;
      var samples := new int[SAMPLE_POINTS];
      for i := 0 to SAMPLE_POINTS
        invariant forall k :: 0 <= k < i ==> samples[k] == -1
      {
        samples[i] := -1;
      }
      sensorData := samples;
      assert samples[..] == Initial().sensorData;
    }

    /** newSensorValue, summing the window as it shifts. */
    method NewSensorValue(newVal: int)
      requires Valid()
      modifies this`dataCounter, this`currentAverage, sensorData
      ensures Valid() && State() == AverageStep(old(State()), newVal)
    {
      if dataCounter < SAMPLE_POINTS {
        sensorData[dataCounter] := newVal;
        currentAverage := newVal;
        dataCounter := dataCounter + 1;
      } else {
        var newAverageSum := ShiftIn(newVal);
        currentAverage := JDiv(newAverageSum, SAMPLE_POINTS);
      }
    }

    /** The loop of newSensorValue: shifts the window in place and sums it, wrapping, as it goes. */
    method ShiftIn(newVal: int) returns (newAverageSum: int)
      requires sensorData.Length == SAMPLE_POINTS
      modifies sensorData
      ensures sensorData[..] == LineFilters.Shifted(old(sensorData[..]), newVal)
      ensures newAverageSum == WrappedSum(sensorData[..])
    {
      ghost var w := LineFilters.Shifted(sensorData[..], newVal);
      newAverageSum := 0;
      for i := 0 to SAMPLE_POINTS
        invariant forall k :: 0 <= k < i ==> sensorData[k] == w[k]
        invariant forall k :: i <= k < SAMPLE_POINTS ==> sensorData[k] == old(sensorData[k])
        invariant newAverageSum == WrappedSum(w[..i])
      {
        WrappedSumStep(w, i);
        if i == SAMPLE_POINTS - 1 {
          sensorData[i] := newVal;
          newAverageSum := Int32(newAverageSum + newVal);
        } else {
          sensorData[i] := sensorData[i + 1];
          newAverageSum := Int32(newAverageSum + sensorData[i + 1]);
        }
      }
      assert sensorData[..] == w;
      assert w[..SAMPLE_POINTS] == w;
    }

    method CheckThreshold() returns (close: bool)
      ensures close == (currentAverage < THRESHOLD)
    {
      close := currentAverage < THRESHOLD;
    }

    /** One pass of run on a reading in metres; `release` is the setWaiting(false) call. */
    method Step(reading: real) returns (release: bool)
      requires Valid()
      modifies this`dataCounter, this`currentAverage, sensorData
      ensures Valid() && (State(), release) == Poll(old(State()), LineFilters.Sample(reading))
    {
      var distance := LineFilters.Sample(reading);
      release := false;
      if distance > 0 {
        NewSensorValue(distance);
        release := CheckThreshold();
      }
    }

    method StopPolling()
      modifies this`polling
      ensures !polling
    {
      polling := false;
    }
  }
}
