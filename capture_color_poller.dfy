/**
 * The Capture-the-Flag light-sensor poller. Each tick of its loop reads
 * the back sensor and hands the scaled reading to the detector of the
 * current mode: the localisation pulse detector, or the zipline landing
 * detector. Block searching reads nothing.
 *
 * The thread, its period and the sensors are not modelled: a tick takes
 * the back sensor's reading as a parameter.
 */
module CaptureColorPolling {
  import opened JavaSemantics
  import ColorPulse
  import ZiplineLanding
  import LineFilters

  datatype ColorPollingState = LOCALISATION | ZIPLINING | BLOCK_SEARCHING

  class ColorPoller {
    var polling: bool
    var state: ColorPollingState
    const colorLocalisationData: ColorPulse.ColorLocalisationData
    const ziplineLightData: ZiplineLanding.ZiplineLightData

    /** The poller starts in LOCALISATION and not polling. */
    constructor (colorLocalisationData: ColorPulse.ColorLocalisationData, ziplineLightData: ZiplineLanding.ZiplineLightData)
      ensures this.colorLocalisationData == colorLocalisationData && this.ziplineLightData == ziplineLightData
      ensures state == LOCALISATION && !polling
    {
      this.colorLocalisationData := colorLocalisationData;
      this.ziplineLightData := ziplineLightData;
      polling := false;
      state := LOCALISATION;
    }

    method SetPollingState(state: ColorPollingState)
      modifies this`state
      ensures this.state == state
    {
      this.state := state;
    }

    method GetPollingState() returns (s: ColorPollingState)
      ensures s == state
    {
      s := state;
    }

    method GetColorLocalisationData() returns (d: ColorPulse.ColorLocalisationData)
      ensures d == colorLocalisationData
    {
      d := colorLocalisationData;
    }

    method GetZiplineLightData() returns (d: ZiplineLanding.ZiplineLightData)
      ensures d == ziplineLightData
    {
      d := ziplineLightData;
    }

    /**
     * startPolling: the mode is set before the thread starts, and the
     * thread's loop raises the polling flag first.
     */
    method StartPolling(state: ColorPollingState)
      modifies this`state, this`polling
      ensures this.state == state && polling
    {
      SetPollingState(state);
      polling := true;
    }

    /** stopPolling: the loop ends after its current tick. */
    method StopPolling()
      modifies this`polling
      ensures !polling
    {
      polling := false;
    }

    /**
     * One tick of the loop: the back reading, scaled by 100 and truncated,
     * goes to the current mode's detector and to no other. `resume` is
     * the detector's signal that the event it waits for has come.
     */
    method Tick(back: real) returns (resume: bool)
      modifies colorLocalisationData, ziplineLightData
      ensures state == LOCALISATION ==>
                (colorLocalisationData.State(), resume) == ColorPulse.PulseStep(old(colorLocalisationData.State()), LineFilters.Sample(back))
                && unchanged(ziplineLightData)
      ensures state == ZIPLINING ==>
                (ziplineLightData.lastData, resume) == ZiplineLanding.LightStep(old(ziplineLightData.lastData), LineFilters.Sample(back))
                && unchanged(colorLocalisationData)
                && ziplineLightData.differenceCounter == old(ziplineLightData.differenceCounter)
      ensures state == BLOCK_SEARCHING ==> !resume && unchanged(colorLocalisationData) && unchanged(ziplineLightData)
    {
      var s := GetPollingState();
      match s {
        case LOCALISATION =>
          resume := colorLocalisationData.ProcessData(JavaInt(back * 100.0));
        case ZIPLINING =>
          resume := ziplineLightData.ProcessData(JavaInt(back * 100.0));
        case BLOCK_SEARCHING =>
          resume := false;
      }
    }
  }
}
