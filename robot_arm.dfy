// The robot's arm (Arm.cpp): an elbow servo moved to a target pulse width
// one ELBOW_SPEED step at a time, and a two-servo claw. Writes to the
// servos are recorded in order.
module RobotArm {
  import opened CInt

  const ELBOW_SPEED := 1
  const ELBOW_INITIAL := 1500
  const ELBOW_UP := 1900
  const ELBOW_DOWN := 510

  /** One command sent to the arm's servos. */
  datatype ArmWrite = Elbow(microseconds: int) | Claw(open: bool)

  /** Whether `v` lies on the way from `a` to `b`, past `a`. */
  predicate Between(a: int, v: int, b: int)
  {
    if a < b then a < v <= b else b <= v < a
  }

  /** The elbow pulse widths written on the way from `from` to `to`: each
      step moves ELBOW_SPEED toward the target and is clamped to it. */
  function Ramp(from: int, to: int): (r: seq<int>)
    ensures |r| == Abs(to - from)
    ensures from != to ==> r[|r| - 1] == to
    ensures forall i :: 0 <= i < |r| ==> Between(from, r[i], to)
    ensures |r| > 0 ==> Abs(r[0] - from) == ELBOW_SPEED
    ensures forall i :: 0 <= i < |r| - 1 ==> Abs(r[i + 1] - r[i]) == ELBOW_SPEED
    decreases Abs(to - from)
  {
    if from == to then []
    else
      var change := if to > from then ELBOW_SPEED else -ELBOW_SPEED;
      var n := from + change;
      var n := if (if to > from then n > to else n < to) then to else n;
      [n] + Ramp(n, to)
  }

  /** The elbow's statics and the arm's write log. */
  class Arm {
    var isInitialised: bool
    var lastElbowMicroseconds: int
    var writes: seq<ArmWrite>

    /** Static initial values. */
    constructor ()
      ensures !isInitialised && lastElbowMicroseconds == ELBOW_INITIAL && writes == []
    {
      isInitialised := false;
      lastElbowMicroseconds := ELBOW_INITIAL;
      writes := [];
    }

    /** `ArmClass::elbowMoveToMicroseconds`: a no-op before initialisation
        or when already at the target; otherwise the elbow is stepped to
        the target and the target is remembered. */
    method ElbowMoveToMicroseconds(nextMicroseconds: int)
      modifies this`lastElbowMicroseconds, this`writes
      ensures !isInitialised || old(lastElbowMicroseconds) == nextMicroseconds ==>
                lastElbowMicroseconds == old(lastElbowMicroseconds) && writes == old(writes)
      ensures isInitialised ==> lastElbowMicroseconds == nextMicroseconds
      ensures isInitialised ==>
                writes == old(writes) + ElbowWrites(Ramp(old(lastElbowMicroseconds), nextMicroseconds))
    {
      if !isInitialised {
        return;
      }
      if lastElbowMicroseconds != nextMicroseconds {
        var currentMicroseconds := lastElbowMicroseconds;
        ghost var full := old(writes) + ElbowWrites(Ramp(lastElbowMicroseconds, nextMicroseconds));
        var up := nextMicroseconds > lastElbowMicroseconds;
        var change := if up then ELBOW_SPEED else -ELBOW_SPEED;
        while currentMicroseconds != nextMicroseconds
          invariant currentMicroseconds == nextMicroseconds ||
                    (up <==> nextMicroseconds > currentMicroseconds)
          invariant writes + ElbowWrites(Ramp(currentMicroseconds, nextMicroseconds)) == full
          decreases Abs(nextMicroseconds - currentMicroseconds)
        {
          ghost var previous := currentMicroseconds;
          currentMicroseconds := currentMicroseconds + change;
          if if up then currentMicroseconds > nextMicroseconds else currentMicroseconds < nextMicroseconds {
            currentMicroseconds := nextMicroseconds;
          }
          RampStep(previous, currentMicroseconds, nextMicroseconds);
          AppendAssociates(writes, [Elbow(currentMicroseconds)], ElbowWrites(Ramp(currentMicroseconds, nextMicroseconds)));
          writes := writes + [Elbow(currentMicroseconds)];
        }
        lastElbowMicroseconds := nextMicroseconds;
      }
    }

    /** `ArmClass::clawOpenNoDelay`: nothing before initialisation. */
    method ClawOpenNoDelay()
      modifies this`writes
      ensures writes == old(writes) + (if isInitialised then [Claw(true)] else [])
    {
      if !isInitialised {
        return;
      }
      writes := writes + [Claw(true)];
    }

    /** `ArmClass::clawClose`, without the wait that follows it. */
    method ClawClose()
      modifies this`writes
      ensures writes == old(writes) + (if isInitialised then [Claw(false)] else [])
    {
      if !isInitialised {
        return;
      }
      writes := writes + [Claw(false)];
    }

    /** `ArmClass::backToStarting`: open the claw, then write the raised
        elbow directly, without the ramp and without updating the
        remembered position. */
    method BackToStarting()
      modifies this`writes
      ensures writes == old(writes) + (if isInitialised then [Claw(true)] else []) + [Elbow(ELBOW_UP)]
    {
      ClawOpenNoDelay();
      writes := writes + [Elbow(ELBOW_UP)];
    }

    /** `ArmClass::initialise`, without the bus set-up and delays. */
    method Initialise()
      modifies this`writes, this`isInitialised
      ensures isInitialised
      ensures writes == old(writes) + (if old(isInitialised) then [Claw(true)] else []) + [Elbow(ELBOW_UP)]
    {
      BackToStarting();
      isInitialised := true;
    }

    /** `ArmClass::elbowPickup`, without the wait. */
    method ElbowPickup()
      modifies this`lastElbowMicroseconds, this`writes
      ensures isInitialised ==> lastElbowMicroseconds == ELBOW_UP
      ensures isInitialised ==> writes == old(writes) + ElbowWrites(Ramp(old(lastElbowMicroseconds), ELBOW_UP))
      ensures !isInitialised ==> writes == old(writes) && lastElbowMicroseconds == old(lastElbowMicroseconds)
    {
      ElbowMoveToMicroseconds(ELBOW_UP);
    }

    /** `ArmClass::elbowPutDown`, without the wait. */
    method ElbowPutDown()
      modifies this`lastElbowMicroseconds, this`writes
      ensures isInitialised ==> lastElbowMicroseconds == ELBOW_DOWN
      ensures isInitialised ==> writes == old(writes) + ElbowWrites(Ramp(old(lastElbowMicroseconds), ELBOW_DOWN))
      ensures !isInitialised ==> writes == old(writes) && lastElbowMicroseconds == old(lastElbowMicroseconds)
    {
      ElbowMoveToMicroseconds(ELBOW_DOWN);
    }
  }

  function ElbowWrites(us: seq<int>): (r: seq<ArmWrite>)
    ensures |r| == |us| && forall i :: 0 <= i < |us| ==> r[i] == Elbow(us[i])
  {
    if |us| == 0 then [] else [Elbow(us[0])] + ElbowWrites(us[1..])
  }

  /** The writes of two ramps run one after the other are the writes of
      the first followed by those of the second. */
  lemma ElbowWritesAppend(a: seq<int>, b: seq<int>)
    ensures ElbowWrites(a + b) == ElbowWrites(a) + ElbowWrites(b)
  {
  }

  /** One step of the loop: the write made, followed by the rest of the ramp,
      is the ramp from where the step started. */
  lemma RampStep(previous: int, current: int, to: int)
    requires previous != to
    requires current == (if to > previous then (if previous + ELBOW_SPEED > to then to else previous + ELBOW_SPEED)
                         else (if previous - ELBOW_SPEED < to then to else previous - ELBOW_SPEED))
    ensures [Elbow(current)] + ElbowWrites(Ramp(current, to)) == ElbowWrites(Ramp(previous, to))
  {
    assert Ramp(previous, to) == [current] + Ramp(current, to);
    ElbowWritesAppend([current], Ramp(current, to));
  }

  /** Regrouping the write log: stated apart from the loop, where proving it
      in place is far costlier for the solver. */
  lemma AppendAssociates(a: seq<ArmWrite>, b: seq<ArmWrite>, c: seq<ArmWrite>)
    ensures (a + b) + c == a + (b + c)
  {
  }

  /** Start-up leaves the elbow raised but remembered at its initial 1500,
      and the claw is not opened because the arm is not yet initialised
      while it is sent home. The first pick-up then steps the elbow from
      1501 upwards. */
  lemma StartUpThenPickup()
    ensures var pickup := ElbowWrites(Ramp(ELBOW_INITIAL, ELBOW_UP));
            |pickup| == 400 && pickup[0] == Elbow(ELBOW_INITIAL + 1) && pickup[399] == Elbow(ELBOW_UP)
  {
  }
}
