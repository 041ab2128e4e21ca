/**
 * The light-sensor line filter that the two odometry corrections and the
 * Localisation lab's colour poller each carry a copy of: a five-sample
 * window with a running average, a window of scaled average differences,
 * and the test for a line, a dip and a rise in the differences.
 */
module LineFilters {
  import opened JavaSemantics

  const SAMPLE_POINTS: int := 5
  const DIFFERENCE_THRESHOLD: int := 40
  const DIFFERENCE_SCALING: int := 11

  /** A light reading in [0, 1] as the filter takes it: scaled by 100 and cast to int. */
  function Sample(reading: real): (v: int)
    ensures 0.0 <= reading <= 1.0 ==> 0 <= v <= 100
  {
    JavaInt(reading * 100.0)
  }

  /** A full window after a shift: the oldest entry drops out and `v` comes in last. */
  function Shifted(w: seq<int>, v: int): (r: seq<int>)
    requires |w| > 0
    ensures |r| == |w| && r[|r| - 1] == v
    ensures forall k :: 0 <= k < |w| - 1 ==> r[k] == w[k + 1]
  {
    w[1..] + [v]
  }

  /** A window that is filled slot by slot while `count` is below its length, then shifted. */
  function Recorded(w: seq<int>, count: int, v: int): (r: seq<int>)
    requires |w| > 0 && 0 <= count <= |w|
    ensures |r| == |w|
  {
    if count < |w| then w[count := v] else Shifted(w, v)
  }

  datatype FilterState = FilterState(dataCounter: int, sensorData: seq<int>,
                                     differenceCounter: int, differenceData: seq<int>, lastAverage: int)

  predicate WellFormed(s: FilterState)
  {
    && |s.sensorData| == SAMPLE_POINTS && |s.differenceData| > 0
    && 0 <= s.dataCounter <= SAMPLE_POINTS && 0 <= s.differenceCounter <= |s.differenceData|
  }

  /** Both windows hold -1 everywhere, nothing has been counted and the average is -1. */
  function Initial(points: nat): (s: FilterState)
    requires points > 0
    ensures WellFormed(s)
  {
    FilterState(0, seq(SAMPLE_POINTS, _ => -1), 0, seq(points, _ => -1), -1)
  }

  /**
   * `lastAverage + ((newVal - oldest) / points)` on Java ints: the change
   * over the window, divided with truncation, moves the average, and the
   * subtraction and the addition each wrap to 32 bits.
   */
  function RunningAverage(lastAverage: int, oldest: int, newVal: int, points: int): (r: int)
    requires points > 0
    ensures INT_MIN <= r <= INT_MAX
    ensures INT_MIN <= newVal - oldest <= INT_MAX && INT_MIN <= lastAverage + JDiv(newVal - oldest, points) <= INT_MAX
            ==> r == lastAverage + JDiv(newVal - oldest, points)
  {
    Int32(lastAverage + JDiv(Int32(newVal - oldest), points))
  }

  /** The running average after `newVal` replaces `oldest` in a five-sample window. */
  function NextAverage(lastAverage: int, oldest: int, newVal: int): (r: int)
    ensures INT_MIN <= r <= INT_MAX
    ensures INT_MIN <= newVal - oldest <= INT_MAX && INT_MIN <= lastAverage + JDiv(newVal - oldest, SAMPLE_POINTS) <= INT_MAX
            ==> r == lastAverage + JDiv(newVal - oldest, SAMPLE_POINTS)
  {
    RunningAverage(lastAverage, oldest, newVal, SAMPLE_POINTS)
  }

  /** `(newAverage - lastAverage) * DIFFERENCE_SCALING` on Java ints. */
  function ScaledDifference(newAverage: int, lastAverage: int): (d: int)
    ensures INT_MIN <= d <= INT_MAX
    ensures INT_MIN <= (newAverage - lastAverage) * DIFFERENCE_SCALING <= INT_MAX
            ==> d == (newAverage - lastAverage) * DIFFERENCE_SCALING
  {
    Int32(Int32(newAverage - lastAverage) * DIFFERENCE_SCALING)
  }

  /**
   * newSensorValue. While the sample window fills, the average is just
   * the latest sample and no difference is produced; afterwards the
   * change of the average, scaled by 11, goes into the difference window.
   */
  function FilterStep(s: FilterState, newVal: int): (r: FilterState)
    requires WellFormed(s)
    ensures WellFormed(r) && |r.differenceData| == |s.differenceData|
    ensures r.sensorData == Recorded(s.sensorData, s.dataCounter, newVal)
    ensures s.dataCounter < SAMPLE_POINTS ==> r.lastAverage == newVal && r.dataCounter == s.dataCounter + 1
                                              && r.differenceData == s.differenceData
                                              && r.differenceCounter == s.differenceCounter
    ensures s.dataCounter == SAMPLE_POINTS ==>
              && r.dataCounter == SAMPLE_POINTS
              && r.lastAverage == NextAverage(s.lastAverage, s.sensorData[0], newVal)
              && r.differenceData == Recorded(s.differenceData, s.differenceCounter,
                                              ScaledDifference(r.lastAverage, s.lastAverage))
              && r.differenceCounter == (if s.differenceCounter < |s.differenceData| then s.differenceCounter + 1
                                         else s.differenceCounter)
  {
    if s.dataCounter < SAMPLE_POINTS then
      s.(sensorData := s.sensorData[s.dataCounter := newVal], lastAverage := newVal, dataCounter := s.dataCounter + 1)
    else
      var newAverage := NextAverage(s.lastAverage, s.sensorData[0], newVal);
      var difference := ScaledDifference(newAverage, s.lastAverage);
      var counter := if s.differenceCounter < |s.differenceData| then s.differenceCounter + 1 else s.differenceCounter;
      s.(differenceData := Recorded(s.differenceData, s.differenceCounter, difference),
         differenceCounter := counter,
         lastAverage := newAverage,
         sensorData := Shifted(s.sensorData, newVal))
  }

  /** The state after the samples, fed oldest first. */
  function FilterRun(s: FilterState, samples: seq<int>): (r: FilterState)
    requires WellFormed(s)
    ensures WellFormed(r) && |r.differenceData| == |s.differenceData|
    decreases |samples|
  {
    if samples == [] then s else FilterStep(FilterRun(s, samples[..|samples| - 1]), samples[|samples| - 1])
  }

  /**
   * The first five samples fill the window in order, the average is the
   * latest of them, and no difference has been produced yet.
   */
  lemma {:induction false} FillPhase(points: nat, samples: seq<int>)
    requires points > 0 && 0 < |samples| <= SAMPLE_POINTS
    ensures var r := FilterRun(Initial(points), samples);
            && r.dataCounter == |samples|
            && r.sensorData[..|samples|] == samples
            && r.lastAverage == samples[|samples| - 1]
            && r.differenceCounter == 0 && r.differenceData == Initial(points).differenceData
    decreases |samples|
  {
    var init := samples[..|samples| - 1];
    if |init| > 0 {
      FillPhase(points, init);
      var r0 := FilterRun(Initial(points), init);
      var r := FilterRun(Initial(points), samples);
      assert r.sensorData == r0.sensorData[|init| := samples[|init|]];
      assert r.sensorData[..|samples|] == r0.sensorData[..|init|] + [samples[|init|]];
      assert samples == init + [samples[|init|]];
    } else {
      assert FilterRun(Initial(points), init) == Initial(points);
      assert FilterRun(Initial(points), samples).sensorData[..1] == [samples[0]];
    }
  }

  function MinNat(a: int, b: int): (m: int)
  {
    if a < b then a else b
  }

  /**
   * The difference window counts one entry per sample after the fifth,
   * up to its length: a line can be looked for in a full window only once
   * five plus its length samples have arrived.
   */
  lemma {:induction false} DifferenceCount(points: nat, samples: seq<int>)
    requires points > 0
    ensures FilterRun(Initial(points), samples).differenceCounter
            == MinNat(if |samples| > SAMPLE_POINTS then |samples| - SAMPLE_POINTS else 0, points)
    ensures FilterRun(Initial(points), samples).dataCounter == MinNat(|samples|, SAMPLE_POINTS)
    decreases |samples|
  {
    if samples != [] {
      DifferenceCount(points, samples[..|samples| - 1]);
    }
  }

  /** The smallest of 0 and the entries, as isOnLine's running minimum computes it. */
  function MinWithZero(s: seq<int>): (m: int)
    ensures m <= 0
  {
    if s == [] then 0 else MinNat(MinWithZero(s[..|s| - 1]), s[|s| - 1])
  }

  /** The largest of 0 and the entries. */
  function MaxWithZero(s: seq<int>): (m: int)
    ensures m >= 0
  {
    if s == [] then 0 else (var m := MaxWithZero(s[..|s| - 1]); if s[|s| - 1] > m then s[|s| - 1] else m)
  }

  /** isOnLine: the differences dipped below -40 and rose above 40. */
  predicate OnLine(diffs: seq<int>)
  {
    MinWithZero(diffs) < -DIFFERENCE_THRESHOLD && MaxWithZero(diffs) > DIFFERENCE_THRESHOLD
  }

  lemma {:induction false} MinBelow(s: seq<int>, t: int)
    requires t >= 0
    ensures MinWithZero(s) < -t <==> exists i :: 0 <= i < |s| && s[i] < -t
    decreases |s|
  {
    if s != [] {
      var init := s[..|s| - 1];
      MinBelow(init, t);
      assert forall i :: 0 <= i < |init| ==> init[i] == s[i];
    }
  }

  lemma {:induction false} MaxAbove(s: seq<int>, t: int)
    requires t >= 0
    ensures MaxWithZero(s) > t <==> exists i :: 0 <= i < |s| && s[i] > t
    decreases |s|
  {
    if s != [] {
      var init := s[..|s| - 1];
      MaxAbove(init, t);
      assert forall i :: 0 <= i < |init| ==> init[i] == s[i];
    }
  }

  /** A line is seen exactly when some difference is below -40 and some is above 40. */
  lemma OnLineMeansDipAndRise(diffs: seq<int>)
    ensures OnLine(diffs) <==> (exists i :: 0 <= i < |diffs| && diffs[i] < -DIFFERENCE_THRESHOLD)
                               && (exists j :: 0 <= j < |diffs| && diffs[j] > DIFFERENCE_THRESHOLD)
  {
    MinBelow(diffs, DIFFERENCE_THRESHOLD);
    MaxAbove(diffs, DIFFERENCE_THRESHOLD);
  }

  /** The colour poller's debounce: every difference outside [-40, 40] becomes 0. */
  function Quietened(diffs: seq<int>): (r: seq<int>)
    ensures |r| == |diffs|
    ensures forall k :: 0 <= k < |diffs| ==> -DIFFERENCE_THRESHOLD <= r[k] <= DIFFERENCE_THRESHOLD
    ensures forall k :: 0 <= k < |diffs| && -DIFFERENCE_THRESHOLD <= diffs[k] <= DIFFERENCE_THRESHOLD ==> r[k] == diffs[k]
  {
    seq(|diffs|, k requires 0 <= k < |diffs| =>
      if diffs[k] < -DIFFERENCE_THRESHOLD || diffs[k] > DIFFERENCE_THRESHOLD then 0 else diffs[k])
  }

  /** After the debounce the same line is not seen again. */
  lemma QuietenedIsNotOnLine(diffs: seq<int>)
    ensures !OnLine(Quietened(diffs))
  {
    OnLineMeansDipAndRise(Quietened(diffs));
  }

  /** Shift `v` into the full array `a`, oldest entry out, as the source's loop does. */
  method ShiftIn(a: array<int>, v: int)
    requires a.Length > 0
    modifies a
    ensures a[..] == Shifted(old(a[..]), v)
  {
    for i := 0 to a.Length
      invariant forall k :: 0 <= k < i ==> a[k] == (if k == a.Length - 1 then v else old(a[k + 1]))
      invariant forall k :: i <= k < a.Length ==> a[k] == old(a[k])
    {
      if i == a.Length - 1 {
        a[i] := v;
      } else {
        a[i] := a[i + 1];
      }
    }
  }

  class LineFilter {
    var dataCounter: int
    const sensorData: array<int>
    var differenceCounter: int
    var lastAverage: int
    const differenceData: array<int>

    predicate Valid()
      reads this, sensorData, differenceData
    {
      sensorData != differenceData && WellFormed(State())
    }

    function State(): (s: FilterState)
      reads this, sensorData, differenceData
    {
      FilterState(dataCounter, sensorData[..], differenceCounter, differenceData[..], lastAverage)
    }

    /** Both windows are allocated and every entry set to -1. */
    constructor (points: nat)
      requires points > 0
      ensures Valid() && State() == Initial(points)
      ensures fresh(sensorData) && fresh(differenceData)
    {
      dataCounter := 0;
      differenceCounter := 0;
      lastAverage := -1;
      var samples := new int[SAMPLE_POINTS];
      for i := 0 to SAMPLE_POINTS
        invariant forall k :: 0 <= k < i ==> samples[k] == -1
      {
        samples[i] := -1;
      }
      var differences := new int[points];
      for i := 0 to points
        invariant forall k :: 0 <= k < i ==> differences[k] == -1
        invariant forall k :: 0 <= k < SAMPLE_POINTS ==> samples[k] == -1
      {
        differences[i] := -1;
      }
      sensorData := samples;
      differenceData := differences;
      assert samples[..] == Initial(points).sensorData;
      assert differences[..] == Initial(points).differenceData;
    }

    /** newDifferenceValue: fill the difference window, then shift. */
    method NewDifferenceValue(newVal: int)
      requires Valid()
      modifies this`differenceCounter, differenceData
      ensures Valid()
      ensures differenceData[..] == Recorded(old(differenceData[..]), old(differenceCounter), newVal)
      ensures differenceCounter == (if old(differenceCounter) < differenceData.Length then old(differenceCounter) + 1
                                    else old(differenceCounter))
    {
      if differenceCounter < differenceData.Length {
        differenceData[differenceCounter] := newVal;
        differenceCounter := differenceCounter + 1;
      } else {
        ShiftIn(differenceData, newVal);
      }
    }

    /** newAverageValue: move the average and record its scaled change. */
    method NewAverageValue(newVal: int)
      requires Valid()
      modifies this`differenceCounter, this`lastAverage, differenceData
      ensures Valid()
      ensures lastAverage == NextAverage(old(lastAverage), sensorData[0], newVal)
      ensures differenceData[..] == Recorded(old(differenceData[..]), old(differenceCounter),
                                             ScaledDifference(lastAverage, old(lastAverage)))
      ensures differenceCounter == (if old(differenceCounter) < differenceData.Length then old(differenceCounter) + 1
                                    else old(differenceCounter))
    {
      var newAverage := Int32(lastAverage + JDiv(Int32(newVal - sensorData[0]), SAMPLE_POINTS));
      NewDifferenceValue(Int32(Int32(newAverage - lastAverage) * DIFFERENCE_SCALING));
      lastAverage := newAverage;
    }

    /** newSensorValue: one sample through both windows. */
    method NewSensorValue(newVal: int)
      requires Valid()
      modifies this`dataCounter, this`differenceCounter, this`lastAverage, sensorData, differenceData
      ensures Valid() && State() == FilterStep(old(State()), newVal)
    {
      if dataCounter < SAMPLE_POINTS {
        sensorData[dataCounter] := newVal;
        lastAverage := newVal;
        dataCounter := dataCounter + 1;
      } else {
        NewAverageValue(newVal);
        ShiftIn(sensorData, newVal);
      }
    }

    /** isOnLine, as the odometry corrections have it. */
    method IsOnLine() returns (result: bool)
      requires Valid()
      ensures result == OnLine(differenceData[..])
    {
      var min := 0;
      var max := 0;
      for i := 0 to differenceData.Length
        invariant min == MinWithZero(differenceData[..i]) && max == MaxWithZero(differenceData[..i])
      {
        assert differenceData[..i + 1][..i] == differenceData[..i];
        if differenceData[i] < min {
          min := differenceData[i];
        }
        if differenceData[i] > max {
          max := differenceData[i];
        }
      }
      assert differenceData[..differenceData.Length] == differenceData[..];
      result := min < -DIFFERENCE_THRESHOLD && max > DIFFERENCE_THRESHOLD;
    }

    /** isOnLine, as the colour poller has it: a line found also quietens the differences. */
    method IsOnLineQuietening() returns (result: bool)
      requires Valid()
      modifies differenceData
      ensures Valid()
      ensures result == OnLine(old(differenceData[..]))
      ensures differenceData[..] == if result then Quietened(old(differenceData[..])) else old(differenceData[..])
    {
      result := IsOnLine();
      if result {
        for i := 0 to differenceData.Length
          invariant forall k :: 0 <= k < i ==> differenceData[k] == Quietened(old(differenceData[..]))[k]
          invariant forall k :: i <= k < differenceData.Length ==> differenceData[k] == old(differenceData[k])
        {
          if differenceData[i] < -DIFFERENCE_THRESHOLD || differenceData[i] > DIFFERENCE_THRESHOLD {
            differenceData[i] := 0;
          }
        }
      }
    }
  }
}
