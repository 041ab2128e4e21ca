/**
 * The Localisation lab's colour poller: the line filter with a ten-entry
 * difference window, run while polling is on. A line seen releases the
 * waiting localisation routine and quietens the differences, so that the
 * same pulse is not reported again.
 */
module LocalisationColorPolling {
  import opened LineFilters

  const DIFFERENCE_POINTS: nat := 10

  class ColorPoller {
    const filter: LineFilter
    var polling: bool

    predicate Valid()
      reads this, filter, filter.sensorData, filter.differenceData
    {
      filter.Valid() && filter.differenceData.Length == DIFFERENCE_POINTS
    }

    constructor ()
      ensures Valid() && filter.State() == Initial(DIFFERENCE_POINTS) && !polling
      ensures fresh(filter) && fresh(filter.sensorData) && fresh(filter.differenceData)
    {
      filter := new LineFilter(DIFFERENCE_POINTS);
      polling := false;
    }

    /** The start of run: polling is switched on. */
    method StartPolling()
      modifies this`polling
      ensures polling
    {
      polling := true;
    }

    method StopPolling()
      modifies this`polling
      ensures !polling
    {
      polling := false;
    }

    method GetPolling() returns (p: bool)
      ensures p == polling
    {
      p := polling;
    }

    /**
     * One pass of run: the reading goes through the filter and the window
     * is evaluated on every pass, full or not; `release` is the
     * setWaiting(false) call made when a line is seen.
     */
    method Step(reading: real) returns (release: bool)
      requires Valid()
      modifies filter`dataCounter, filter`differenceCounter, filter`lastAverage
      modifies filter.sensorData, filter.differenceData
      ensures Valid()
      ensures var s := FilterStep(old(filter.State()), Sample(reading));
              && release == OnLine(s.differenceData)
              && filter.State() == s.(differenceData := if release then Quietened(s.differenceData) else s.differenceData)
    {
      filter.NewSensorValue(Sample(reading));
      release := filter.IsOnLineQuietening();
    }
  }

  /** All differences inside [-40, 40]. */
  predicate Quiet(diffs: seq<int>)
  {
    forall k :: 0 <= k < |diffs| ==> -DIFFERENCE_THRESHOLD <= diffs[k] <= DIFFERENCE_THRESHOLD
  }

  /**
   * A pulse is reported once: quietened differences lie in [-40, 40], and
   * the next sample adds a single difference, which cannot be both the dip
   * and the rise a line needs.
   */
  lemma NoLineTwiceInARow(s: FilterState, newVal: int)
    requires WellFormed(s) && Quiet(s.differenceData)
    ensures !OnLine(FilterStep(s, newVal).differenceData)
  {
    var next := FilterStep(s, newVal).differenceData;
    var newest: int := if s.dataCounter < SAMPLE_POINTS then 0
                      else if s.differenceCounter < |s.differenceData| then s.differenceCounter
                      else |s.differenceData| - 1;
    assert forall k :: 0 <= k < |next| && k != newest ==> -DIFFERENCE_THRESHOLD <= next[k] <= DIFFERENCE_THRESHOLD;
    OnLineMeansDipAndRise(next);
  }
}
