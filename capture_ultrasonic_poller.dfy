/**
 * The Capture-the-Flag ultrasonic poller. Each tick of its loop reads the
 * sensor, scales the reading by 100 and truncates it, and drops anything
 * not positive. In LOCALISATION the sample, capped at 255, goes to the
 * edge detector. In NAVIGATION it goes, uncapped, to the obstacle avoider.
 *
 * The thread, its period and the sensor are not modelled: a tick takes the
 * reading as a parameter, and atan2 for the avoider.
 */
module CaptureUltrasonicPolling {
  import opened JavaSemantics
  import LineFilters
  import UltrasonicEdges
  import CaptureAvoidance

  /** The largest sample the edge detector is given. */
  const MAX_LOCALISATION_SAMPLE: int := 255

  datatype UltrasonicPollingState = LOCALISATION | NAVIGATION

  /** Where one tick sends its sample. */
  datatype Delivery = ToLocalisation(sample: int) | ToNavigation(sample: int) | Dropped

  /** The sample a tick hands on, and to whom. */
  function Route(state: UltrasonicPollingState, reading: real): (d: Delivery)
    ensures d == Dropped <==> LineFilters.Sample(reading) <= 0
    ensures d.ToLocalisation? ==> state == LOCALISATION && 1 <= d.sample <= MAX_LOCALISATION_SAMPLE
    ensures d.ToNavigation? ==> state == NAVIGATION && d.sample == LineFilters.Sample(reading)
  {
    var sample := LineFilters.Sample(reading);
    if sample <= 0 then Dropped
    else match state
      case LOCALISATION => ToLocalisation(if sample > MAX_LOCALISATION_SAMPLE then MAX_LOCALISATION_SAMPLE else sample)
      case NAVIGATION => ToNavigation(sample)
  }

  /**
   * In LOCALISATION the edge detector sees the sample itself up to 255,
   * and 255 for every longer one: a reading of 2.55 and any reading beyond
   * it look the same.
   */
  lemma LocalisationCapsAt255(reading: real)
    requires LineFilters.Sample(reading) > 0
    ensures LineFilters.Sample(reading) <= MAX_LOCALISATION_SAMPLE ==>
              Route(LOCALISATION, reading) == ToLocalisation(LineFilters.Sample(reading))
    ensures reading >= 2.55 ==> Route(LOCALISATION, reading) == ToLocalisation(MAX_LOCALISATION_SAMPLE)
  {
    if reading >= 2.55 {
      assert reading * 100.0 >= 255.0;
      assert Trunc(reading * 100.0) >= 255;
    }
  }

  class UltrasonicPoller {
    var polling: bool
    var state: UltrasonicPollingState
    const ultrasonicLocalisationData: UltrasonicEdges.UltrasonicLocalisationData
    const ultrasonicNavigationData: CaptureAvoidance.UltrasonicNavigationData

    /** The poller starts in LOCALISATION and not polling. */
    constructor (ultrasonicLocalisationData: UltrasonicEdges.UltrasonicLocalisationData,
                 ultrasonicNavigationData: CaptureAvoidance.UltrasonicNavigationData)
      ensures this.ultrasonicLocalisationData == ultrasonicLocalisationData
      ensures this.ultrasonicNavigationData == ultrasonicNavigationData
      ensures state == LOCALISATION && !polling
    {
      this.ultrasonicLocalisationData := ultrasonicLocalisationData;
      this.ultrasonicNavigationData := ultrasonicNavigationData;
      polling := false;
      state := LOCALISATION;
    }

    method SetPollingState(state: UltrasonicPollingState)
      modifies this`state
      ensures this.state == state
    {
      this.state := state;
    }

    method GetPollingState() returns (s: UltrasonicPollingState)
      ensures s == state
    {
      s := state;
    }

    method GetUltrasonicLocalisationData() returns (d: UltrasonicEdges.UltrasonicLocalisationData)
      ensures d == ultrasonicLocalisationData
    {
      d := ultrasonicLocalisationData;
    }

    method GetUltrasonicNavigationData() returns (d: CaptureAvoidance.UltrasonicNavigationData)
      ensures d == ultrasonicNavigationData
    {
      d := ultrasonicNavigationData;
    }

    /**
     * startPolling: the mode is set before the thread starts, and the
     * thread's loop raises the polling flag first.
     */
    method StartPolling(newPollingState: UltrasonicPollingState)
      modifies this`state, this`polling
      ensures state == newPollingState && polling
    {
      SetPollingState(newPollingState);
      polling := true;
    }

    /** stopPolling: the loop ends after its current tick. */
    method StopPolling()
      modifies this`polling
      ensures !polling
    {
      polling := false;
    }

    /**
     * One tick of the loop. The sample goes where Route says. The edge
     * detector's step is stated here; the avoider's is its processData's
     * contract. `resume` is the edge detector's signal that an edge came.
     */
    method Tick(reading: real, atan2: (real, real) -> real) returns (delivered: Delivery, resume: bool)
      requires state == NAVIGATION ==> ultrasonicNavigationData.CanProcess(LineFilters.Sample(reading))
      modifies ultrasonicLocalisationData, ultrasonicNavigationData, ultrasonicNavigationData.navigation,
               ultrasonicNavigationData.navigationController
      ensures delivered == Route(state, reading)
      ensures delivered.ToLocalisation? ==>
                (ultrasonicLocalisationData.State(), resume)
                  == UltrasonicEdges.EdgeStep(old(ultrasonicLocalisationData.State()), delivered.sample)
                && unchanged(ultrasonicNavigationData)
      ensures !delivered.ToLocalisation? ==> !resume && unchanged(ultrasonicLocalisationData)
      ensures delivered == Dropped ==> unchanged(ultrasonicNavigationData)
    {
      var sample := JavaInt(reading * 100.0);
      delivered := Dropped;
      resume := false;
      if sample > 0 {
        var s := GetPollingState();
        match s {
          case LOCALISATION =>
            if sample > MAX_LOCALISATION_SAMPLE {
              sample := MAX_LOCALISATION_SAMPLE;
            }
            resume := ultrasonicLocalisationData.ProcessData(sample);
            delivered := ToLocalisation(sample);
          case NAVIGATION =>
            ultrasonicNavigationData.ProcessData(sample, atan2);
            delivered := ToNavigation(sample);
        }
      }
    }
  }
}
