/**
 * The Capture-the-Flag wall-edge detector on the ultrasonic sensor. The
 * first sample is kept as a reference; a crossing of 50 between the
 * reference and a later sample is an edge. The first edge fixes the
 * polarity looked for next, and every edge wakes the localisation routine.
 */
module UltrasonicEdges {
  const EDGE_THRESHOLD: int := 50

  datatype EdgeState = EdgeState(lastData: int, fallingEdge: bool, foundFirstEdge: bool)

  const INITIAL: EdgeState := EdgeState(-1, false, false)

  predicate Falls(last: int, newVal: int)
  {
    last > EDGE_THRESHOLD && newVal < EDGE_THRESHOLD
  }

  predicate Rises(last: int, newVal: int)
  {
    last < EDGE_THRESHOLD && newVal > EDGE_THRESHOLD
  }

  /**
   * processData on one sample: the new state and whether an edge was
   * reported. Before the first edge a crossing either way counts and
   * records its polarity; after it, only a crossing of that polarity counts.
   */
  function EdgeStep(s: EdgeState, newVal: int): (r: (EdgeState, bool))
    ensures r.0.lastData == (if s.lastData < 0 then newVal else s.lastData)
    ensures r.1 ==> s.lastData >= 0 && (Falls(s.lastData, newVal) || Rises(s.lastData, newVal))
    ensures r.1 ==> r.0.foundFirstEdge == !s.foundFirstEdge
    ensures !r.1 ==> r.0.foundFirstEdge == s.foundFirstEdge && r.0.fallingEdge == s.fallingEdge
    ensures s.lastData >= 0 && !s.foundFirstEdge ==> (r.1 <==> Falls(s.lastData, newVal) || Rises(s.lastData, newVal))
    ensures s.lastData >= 0 && s.foundFirstEdge
            ==> (r.1 <==> if s.fallingEdge then Falls(s.lastData, newVal) else Rises(s.lastData, newVal))
    ensures r.1 && !s.foundFirstEdge ==> r.0.fallingEdge == Falls(s.lastData, newVal)
  {
    if s.lastData < 0 then
      (s.(lastData := newVal), false)
    else if !s.foundFirstEdge then
      if Falls(s.lastData, newVal) then (s.(fallingEdge := true, foundFirstEdge := true), true)
      else if Rises(s.lastData, newVal) then (s.(fallingEdge := false, foundFirstEdge := true), true)
      else (s, false)
    else
      if s.fallingEdge && Falls(s.lastData, newVal) then (s.(foundFirstEdge := false), true)
      else if !s.fallingEdge && Rises(s.lastData, newVal) then (s.(foundFirstEdge := false), true)
      else (s, false)
  }

  /** A reading of exactly 50, or a reference of exactly 50, is never an edge. */
  lemma ThresholdNeverFires(s: EdgeState, newVal: int)
    requires newVal == EDGE_THRESHOLD || s.lastData == EDGE_THRESHOLD
    ensures !EdgeStep(s, newVal).1
  {
  }

  /** The state after feeding `samples`, and how many edges they reported. */
  function EdgeRun(s: EdgeState, samples: seq<int>): (EdgeState, nat)
    decreases |samples|
  {
    if samples == [] then (s, 0)
    else
      var step := EdgeStep(s, samples[0]);
      var rest := EdgeRun(step.0, samples[1..]);
      (rest.0, rest.1 + if step.1 then 1 else 0)
  }

  /**
   * No edge is found before the reference is set, and a found first
   * edge has the polarity the reference allows: falling when the
   * reference is above 50, rising when it is below. The initial state has
   * this property and every run keeps it, so all edges of one detector
   * share a polarity.
   */
  predicate PolarityFollowsReference(s: EdgeState)
  {
    && (s.lastData < 0 ==> !s.foundFirstEdge)
    && (s.lastData >= 0 && s.foundFirstEdge ==> s.fallingEdge == (s.lastData > EDGE_THRESHOLD))
  }

  lemma {:induction false} PolarityIsFixed(s: EdgeState, samples: seq<int>)
    requires PolarityFollowsReference(s)
    ensures PolarityFollowsReference(EdgeRun(s, samples).0)
    decreases |samples|
  {
    if samples != [] {
      PolarityIsFixed(EdgeStep(s, samples[0]).0, samples[1..]);
    }
  }

  /**
   * Edges alternate between first and second: after any run the
   * first-edge flag has flipped exactly when an odd number of edges was
   * reported, and the reference, once set, is unchanged.
   */
  lemma {:induction false} EdgesAlternate(s: EdgeState, samples: seq<int>)
    requires s.lastData >= 0
    ensures EdgeRun(s, samples).0.foundFirstEdge == (s.foundFirstEdge != (EdgeRun(s, samples).1 % 2 == 1))
    ensures EdgeRun(s, samples).0.lastData == s.lastData
    decreases |samples|
  {
    if samples != [] {
      EdgesAlternate(EdgeStep(s, samples[0]).0, samples[1..]);
    }
  }

  /** A reference of exactly 50 never sees an edge. */
  lemma {:induction false} FlatReferenceIsSilent(s: EdgeState, samples: seq<int>)
    requires s.lastData == EDGE_THRESHOLD
    ensures EdgeRun(s, samples).1 == 0
    decreases |samples|
  {
    if samples != [] {
      FlatReferenceIsSilent(EdgeStep(s, samples[0]).0, samples[1..]);
    }
  }

  class UltrasonicLocalisationData {
    var fallingEdge: bool
    var foundFirstEdge: bool
    var lastData: int

    constructor ()
      ensures State() == INITIAL
    {
      fallingEdge := false;
      foundFirstEdge := false;
      lastData := -1;
    }

    function State(): (s: EdgeState)
      reads this
    {
      EdgeState(lastData, fallingEdge, foundFirstEdge)
    }

    /** processData: `resume` tells whether the localisation routine is woken for an edge. */
    method ProcessData(newVal: int) returns (resume: bool)
      modifies this
      ensures (State(), resume) == EdgeStep(old(State()), newVal)
    {
      resume := false;
      if lastData < 0 {
        lastData := newVal;
      } else {
        if !foundFirstEdge {
          if lastData > EDGE_THRESHOLD && newVal < EDGE_THRESHOLD {
            fallingEdge := true;
            foundFirstEdge := true;
            resume := true;
          } else if lastData < EDGE_THRESHOLD && newVal > EDGE_THRESHOLD {
            fallingEdge := false;
            foundFirstEdge := true;
            resume := true;
          }
        } else {
          if fallingEdge && lastData > EDGE_THRESHOLD && newVal < EDGE_THRESHOLD {
            resume := true;
            foundFirstEdge := false;
          } else if !fallingEdge && lastData < EDGE_THRESHOLD && newVal > EDGE_THRESHOLD {
            resume := true;
            foundFirstEdge := false;
          }
        }
      }
    }
  }
}
