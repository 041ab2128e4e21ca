/**
 * The motor interface the robot code drives. Every call the code makes on
 * a motor is recorded as one command, in order, so that the model can say
 * exactly which commands an operation issues.
 */
module Motors {
  import opened JavaSemantics

  datatype Motor = LeftWheel | RightWheel | FrontMotor

  datatype Command =
    | SetSpeed(motor: Motor, speed: int)
    | SetAcceleration(motor: Motor, acceleration: int)
    /** rotate(degrees, immediateReturn) */
    | Rotate(motor: Motor, degrees: int, immediateReturn: bool)
    /** rotateTo(angle, immediateReturn) */
    | RotateTo(motor: Motor, angle: int, immediateReturn: bool)
    | Forward(motor: Motor)
    | Backward(motor: Motor)
    /** stop(immediateReturn) */
    | Stop(motor: Motor, immediateReturn: bool)

  /** The degrees `m` is turned by the relative rotations in `cmds`, in total. */
  function NetRotation(cmds: seq<Command>, m: Motor): (total: int)
  {
    if cmds == [] then 0
    else (if cmds[0].Rotate? && cmds[0].motor == m then cmds[0].degrees else 0) + NetRotation(cmds[1..], m)
  }

  /** Net rotation of two command runs, one after the other, is the sum of theirs. */
  lemma {:induction false} NetRotationAppend(a: seq<Command>, b: seq<Command>, m: Motor)
    ensures NetRotation(a + b, m) == NetRotation(a, m) + NetRotation(b, m)
  {
    if a == [] {
      assert a + b == b;
    } else {
      NetRotationAppend(a[1..], b, m);
      assert (a + b)[1..] == a[1..] + b;
    }
  }

  /** Commands that rotate nothing relatively add nothing to the net rotation. */
  lemma {:induction false} NoRotation(cmds: seq<Command>, m: Motor)
    requires forall k :: 0 <= k < |cmds| ==> !cmds[k].Rotate?
    ensures NetRotation(cmds, m) == 0
  {
    if cmds != [] {
      NoRotation(cmds[1..], m);
    }
  }

  /** The acceleration `m` was last set to in `cmds`, if any. */
  function LastAcceleration(cmds: seq<Command>, m: Motor): (last: Option<int>)
  {
    if cmds == [] then None
    else
      var c := cmds[|cmds| - 1];
      if c.SetAcceleration? && c.motor == m then Some(c.acceleration)
      else LastAcceleration(cmds[..|cmds| - 1], m)
  }

  /** Commands that set no acceleration leave no last acceleration. */
  lemma {:induction false} NoAcceleration(cmds: seq<Command>, m: Motor)
    requires forall k :: 0 <= k < |cmds| ==> !cmds[k].SetAcceleration?
    ensures LastAcceleration(cmds, m) == None
  {
    if cmds != [] {
      NoAcceleration(cmds[..|cmds| - 1], m);
    }
  }

  /** A later acceleration setting hides every earlier one; without one the earlier ones show. */
  lemma {:induction false} LastAccelerationAppend(a: seq<Command>, b: seq<Command>, m: Motor)
    ensures LastAcceleration(a + b, m) == (if LastAcceleration(b, m).Some? then LastAcceleration(b, m) else LastAcceleration(a, m))
    decreases |b|
  {
    if b == [] {
      assert a + b == a;
    } else {
      assert (a + b)[..|a + b| - 1] == a + b[..|b| - 1];
      LastAccelerationAppend(a, b[..|b| - 1], m);
    }
  }

  /** The net rotation of a single command. */
  lemma NetRotationSingle(c: Command, m: Motor)
    ensures NetRotation([c], m) == (if c.Rotate? && c.motor == m then c.degrees else 0)
  {
    assert [c][1..] == [];
  }

  /** The directions `cmds` set on `m` with forward() and backward(), in order, true for forward. */
  function Directions(cmds: seq<Command>, m: Motor): (ds: seq<bool>)
    ensures |ds| <= |cmds|
  {
    if cmds == [] then [] else Direction(cmds[0], m) + Directions(cmds[1..], m)
  }

  /** The direction one command sets on `m`, if it is a forward() or a backward() on `m`. */
  function Direction(c: Command, m: Motor): (d: seq<bool>)
    ensures |d| <= 1
  {
    if (c.Forward? || c.Backward?) && c.motor == m then [c.Forward?] else []
  }

  /** The last forward(), backward() or stop() that `cmds` issue on `m`, if any: what `m` is left doing. */
  function LastMotion(cmds: seq<Command>, m: Motor): (r: Option<Command>)
    ensures r.Some? ==> r.value.motor == m && (r.value.Forward? || r.value.Backward? || r.value.Stop?)
  {
    if cmds == [] then None
    else
      var c := cmds[|cmds| - 1];
      if (c.Forward? || c.Backward? || c.Stop?) && c.motor == m then Some(c)
      else LastMotion(cmds[..|cmds| - 1], m)
  }

  /** The directions of two command runs, one after the other, are theirs in order. */
  lemma {:induction false} DirectionsAppend(a: seq<Command>, b: seq<Command>, m: Motor)
    ensures Directions(a + b, m) == Directions(a, m) + Directions(b, m)
  {
    if a == [] {
      assert a + b == b;
    } else {
      assert (a + b)[0] == a[0] && (a + b)[1..] == a[1..] + b;
      DirectionsAppend(a[1..], b, m);
    }
  }

  /** A later motion command hides every earlier one; without one the earlier ones show. */
  lemma {:induction false} LastMotionAppend(a: seq<Command>, b: seq<Command>, m: Motor)
    ensures LastMotion(a + b, m) == (if LastMotion(b, m).Some? then LastMotion(b, m) else LastMotion(a, m))
    decreases |b|
  {
    if b == [] {
      assert a + b == a;
    } else {
      assert (a + b)[..|a + b| - 1] == a + b[..|b| - 1];
      LastMotionAppend(a, b[..|b| - 1], m);
    }
  }
}
