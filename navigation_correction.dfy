/**
 * The Navigation lab's odometry correction: a light sensor 6 cm behind
 * the centre, lines every 30 cm taken within 4 cm, and a ten-entry
 * difference window. The odometer it corrects is read and written by the
 * caller: each pass gets the heading in degrees and the position, and
 * returns the write to make.
 */
module NavigationCorrection {
  import opened JavaSemantics
  import opened LineFilters
  import opened LineCorrection

  const OFFSET: int := 6
  const DISTANCE_TOLERANCE: int := 4
  const DIFFERENCE_POINTS: nat := 10

  class OdometryCorrection {
    const filter: LineFilter
    /** The code of the last correction written, so that one line is not used twice. */
    var lastCorrection: int

    predicate Valid()
      reads this, filter, filter.sensorData, filter.differenceData
    {
      filter.Valid() && filter.differenceData.Length == DIFFERENCE_POINTS
    }

    constructor ()
      ensures Valid() && filter.State() == Initial(DIFFERENCE_POINTS) && lastCorrection == -1
      ensures fresh(filter) && fresh(filter.sensorData) && fresh(filter.differenceData)
    {
      filter := new LineFilter(DIFFERENCE_POINTS);
      lastCorrection := -1;
    }

    /**
     * One pass of run: the reading goes through the filter, and only once
     * the difference window is full and shows a line is a correction
     * attempted.
     */
    method Step(reading: real, theta: real, x: real, y: real) returns (write: Correction)
      requires Valid()
      modifies this`lastCorrection, filter`dataCounter, filter`differenceCounter, filter`lastAverage
      modifies filter.sensorData, filter.differenceData
      ensures Valid()
      ensures filter.State() == FilterStep(old(filter.State()), Sample(reading))
      ensures (write, lastCorrection)
              == if filter.differenceCounter == DIFFERENCE_POINTS && OnLine(filter.differenceData[..])
                 then Correct(OFFSET, DISTANCE_TOLERANCE, theta, x, y, old(lastCorrection))
                 else (NoWrite, old(lastCorrection))
    {
      filter.NewSensorValue(Sample(reading));
      write := NoWrite;
      if filter.differenceCounter == DIFFERENCE_POINTS {
        var line := filter.IsOnLine();
        if line {
          var r := Correct(OFFSET, DISTANCE_TOLERANCE, theta, x, y, lastCorrection);
          write := r.0;
          lastCorrection := r.1;
        }
      }
    }
  }

  /**
   * Away from the edge of the field (both coordinates at least 2 cm), a
   * correction moves the odometer by at most the 4 cm tolerance, puts the
   * sensor on a line, and is not repeated for the same line.
   */
  lemma CorrectionSnapsOnce(theta: real, x: real, y: real, last: int)
    requires 2.0 <= x <= POSITION_BOUND && 2.0 <= y <= POSITION_BOUND
    ensures var r := Correct(OFFSET, DISTANCE_TOLERANCE, theta, x, y, last);
            var p := Apply(r.0, x, y);
            && AbsReal(p.0 - x) <= 4.0 && AbsReal(p.1 - y) <= 4.0
            && Correct(OFFSET, DISTANCE_TOLERANCE, theta, p.0, p.1, r.1).0 == NoWrite
  {
    CorrectionIsSmall(OFFSET, DISTANCE_TOLERANCE, theta, x, y, last);
    CorrectedPositionIsStable(OFFSET, DISTANCE_TOLERANCE, theta, x, y, last);
  }
}
