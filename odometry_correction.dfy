/**
 * The Odometry lab's odometry correction: a light sensor 5 cm behind the
 * centre, lines every 30 cm taken within 8 cm, and a seven-entry
 * difference window. Its correction branches differ from the Navigation
 * lab's: `CorrectAsWritten` states them as they are, and the class applies
 * the step they evidently mean, `LineCorrection.Correct` with this lab's
 * offset and tolerance.
 */
module OdometryLabCorrection {
  import opened JavaSemantics
  import opened LineFilters
  import opened LineCorrection

  const OFFSET: int := 5
  const DISTANCE_TOLERANCE: int := 8
  const DIFFERENCE_POINTS: nat := 7

  /**
   * The branches as written: every branch takes its line from the y
   * coordinate and writes y, even when the robot drives along x, and only
   * the +Y branch records the code it used.
   */
  function CorrectAsWritten(theta: real, x: real, y: real, last: int): (r: (Correction, int))
    ensures !r.0.WriteX?
    ensures r.1 != last ==> Facing(theta, 0) && r.0.WriteY?
    ensures Branch(OFFSET, DISTANCE_TOLERANCE, theta, x, y).None? ==> r == (NoWrite, last)
    ensures Branch(OFFSET, DISTANCE_TOLERANCE, theta, x, y).Some? ==>
              var b := Branch(OFFSET, DISTANCE_TOLERANCE, theta, x, y).value.0;
              var m := Closest(y, DISTANCE_TOLERANCE);
              r.0 == (if m + b == last then NoWrite
                      else WriteY(m as real + (if b % 2 == 1 then OFFSET as real else -OFFSET as real)))
  {
    match Branch(OFFSET, DISTANCE_TOLERANCE, theta, x, y)
    case None => (NoWrite, last)
    case Some((b, _)) =>
      var m := Closest(y, DISTANCE_TOLERANCE);
      var off := if b % 2 == 1 then OFFSET as real else -OFFSET as real;
      if m + b == last then (NoWrite, last)
      else if b == 1 then (WriteY(m as real + off), m + 1)
      else (WriteY(m as real + off), last)
  }

  /** Driving along +x across the line x = 30 rewrites y instead, from 100 to 95. */
  lemma AsWrittenWritesYDrivingAlongX()
    ensures CorrectAsWritten(90.0, 35.0, 100.0, -1) == (WriteY(95.0), -1)
    ensures Correct(OFFSET, DISTANCE_TOLERANCE, 90.0, 35.0, 100.0, -1) == (WriteX(35.0), 33)
  {
    assert RealRem(30.0, 30.0) == 0.0;
    assert Closest(100.0, DISTANCE_TOLERANCE) == 90;
    assert Closest(30.0, DISTANCE_TOLERANCE) == 30;
  }

  /**
   * Driving along -y with the sensor past the line y = 60 snaps y from 50
   * to 25, 25 cm where the tolerance is 8; the intended step puts it at 55.
   */
  lemma AsWrittenJumpsDrivingAlongMinusY()
    ensures CorrectAsWritten(180.0, 0.0, 50.0, -1) == (WriteY(25.0), -1)
    ensures Correct(OFFSET, DISTANCE_TOLERANCE, 180.0, 0.0, 50.0, -1) == (WriteY(55.0), 62)
  {
    assert RealRem(55.0, 30.0) == 25.0;
    assert RealRem(63.0, 30.0) == 3.0;
    assert Closest(50.0, DISTANCE_TOLERANCE) == 30;
    assert Closest(55.0, DISTANCE_TOLERANCE) == 60;
  }

  /**
   * The intended step on this lab's constants: with both coordinates at
   * least -3 cm it moves the odometer by at most 8 cm, along the axis
   * driven, and not twice for one line.
   */
  lemma IntendedCorrectionSnapsOnce(theta: real, x: real, y: real, last: int)
    requires -3.0 <= x <= POSITION_BOUND && -3.0 <= y <= POSITION_BOUND
    ensures var r := Correct(OFFSET, DISTANCE_TOLERANCE, theta, x, y, last);
            var p := Apply(r.0, x, y);
            && AbsReal(p.0 - x) <= 8.0 && AbsReal(p.1 - y) <= 8.0
            && (r.0.WriteX? ==> !Facing(theta, 0) && !Facing(theta, 180))
            && Correct(OFFSET, DISTANCE_TOLERANCE, theta, p.0, p.1, r.1).0 == NoWrite
  {
    CorrectionIsSmall(OFFSET, DISTANCE_TOLERANCE, theta, x, y, last);
    CorrectedPositionIsStable(OFFSET, DISTANCE_TOLERANCE, theta, x, y, last);
  }

  class OdometryCorrection {
    const filter: LineFilter
    var lastCorrection: int

    predicate Valid()
      reads this, filter, filter.sensorData, filter.differenceData
    {
      filter.Valid() && filter.differenceData.Length == DIFFERENCE_POINTS
    }

    constructor ()
      ensures Valid() && filter.State() == Initial(DIFFERENCE_POINTS) && lastCorrection == -1
      ensures fresh(filter) && fresh(filter.sensorData) && fresh(filter.differenceData)
    {
      filter := new LineFilter(DIFFERENCE_POINTS);
      lastCorrection := -1;
    }

    /**
     * One pass of run: the reading goes through the filter, and a full
     * difference window showing a line leads to the intended correction.
     */
    method Step(reading: real, theta: real, x: real, y: real) returns (write: Correction)
      requires Valid()
      modifies this`lastCorrection, filter`dataCounter, filter`differenceCounter, filter`lastAverage
      modifies filter.sensorData, filter.differenceData
      ensures Valid()
      ensures filter.State() == FilterStep(old(filter.State()), Sample(reading))
      ensures (write, lastCorrection)
              == if filter.differenceCounter == DIFFERENCE_POINTS && OnLine(filter.differenceData[..])
                 then Correct(OFFSET, DISTANCE_TOLERANCE, theta, x, y, old(lastCorrection))
                 else (NoWrite, old(lastCorrection))
    {
      filter.NewSensorValue(Sample(reading));
      write := NoWrite;
      if filter.differenceCounter == DIFFERENCE_POINTS {
        var line := filter.IsOnLine();
        if line {
          var r := Correct(OFFSET, DISTANCE_TOLERANCE, theta, x, y, lastCorrection);
          write := r.0;
          lastCorrection := r.1;
        }
      }
    }
  }
}
