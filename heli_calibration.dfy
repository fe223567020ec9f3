// The helicopter rig's start-up calibration (calibration.c): a state
// machine run once per task pass. The height step waits until the raw ADC
// reading has settled just below the largest reading seen (the rig resting
// at its lowest point), then fixes the ADC's lower and upper calibration
// points; the yaw step arms the encoder's reference reset; then the calibration task ends.
module HeliCalibration {
  const CALIBRATION_DENOISE_ITERATIONS := 5
  const CALIBRATION_ADC_NOISE := 30
  const CALIBRATION_ADC_RANGE := 1310

  datatype CalState = Height | Yaw | Done

  /** The enum's integer value. */
  function Ord(s: CalState): (n: int)
    ensures 0 <= n <= 2
    ensures s == Height <==> n == 0
    ensures s == Done <==> n == 2
  {
    match s
    case Height => 0
    case Yaw => 1
    case Done => 2
  }

  /** The state after `calibration_state++`. */
  function Next(s: CalState): (r: CalState)
    requires s != Done
    ensures Ord(r) == Ord(s) + 1
  {
    if s == Height then Yaw else Done
  }

  /** The calibration task's locals and statics, the two exported calibration points and
      what it has signalled. */
  datatype Calibration = Calibration(
    state: CalState,
    last: int,                // last_calibration_state
    counter: int,
    lowestHeight: int,        // the largest raw reading seen; 0 before any
    adcLower: int,
    adcUpper: int,
    heightDone: bool,         // calibration_completed_height_semaphore given
    referenceResetEnabled: bool,
    yawDone: bool,            // yaw controller and buttons enabled
    deleted: bool)

  /** Task start: the height step, with `last_calibration_state` one below it. */
  const Initial := Calibration(Height, -1, 0, 0, 0, 0, false, false, false, false)

  /** Whether a reading lies strictly within the noise band below the
      recorded maximum. */
  predicate InWindow(c: Calibration, reading: int)
  {
    c.lowestHeight != 0 && reading < c.lowestHeight &&
    reading > c.lowestHeight - CALIBRATION_ADC_NOISE
  }

  /** One pass of `calibration_poll`'s loop, given the raw ADC reading. */
  function Step(c: Calibration, reading: int): (r: Calibration)
    requires !c.deleted
    // the state moves only forward, and by at most one step per pass
    ensures Ord(c.state) <= Ord(r.state) <= Ord(c.state) + 1
    // the calibration task ends on the first pass that finds the Done state new
    ensures r.deleted <==> c.state == Done && c.last != Ord(Done)
    // a reading at or above the maximum, or 30 or more below it, restarts
    // the count
    ensures c.state == Height && !InWindow(c, reading) ==> r.counter == 0 && r.state == Height
    // the recorded maximum never decreases over non-negative readings
    ensures c.lowestHeight >= 0 && reading >= 0 ==> r.lowestHeight >= c.lowestHeight
    // leaving the height step fixes the calibration points 1340 apart
    ensures c.state == Height && r.state == Yaw ==>
              r.heightDone && r.adcLower == c.lowestHeight + CALIBRATION_ADC_NOISE &&
              r.adcUpper == c.lowestHeight - CALIBRATION_ADC_RANGE &&
              r.adcLower - r.adcUpper == 1340
    ensures c.state == Yaw && !r.deleted ==> r.state == Done && r.referenceResetEnabled && r.yawDone
  {
    if c.last != Ord(c.state) && c.state == Done then c.(deleted := true)
    else
      var c := c.(last := Ord(c.state));
      match c.state
      case Height =>
        if InWindow(c, reading) then
          if c.counter > CALIBRATION_DENOISE_ITERATIONS then
            c.(counter := c.counter + 1,
               adcLower := c.lowestHeight + CALIBRATION_ADC_NOISE,
               adcUpper := c.lowestHeight - CALIBRATION_ADC_RANGE,
               heightDone := true,
               state := Yaw)
          else c.(counter := c.counter + 1)
        else
          c.(counter := 0,
             lowestHeight := if c.lowestHeight == 0 || reading > c.lowestHeight then reading
                             else c.lowestHeight)
      case Yaw =>
        c.(referenceResetEnabled := true, yawDone := true, state := Done)
      case Done => c
  }

  /** Passes over a sequence of readings, stopping once calibration has ended. */
  function Run(c: Calibration, readings: seq<int>): Calibration
    decreases |readings|
  {
    if |readings| == 0 || c.deleted then c
    else Run(Step(c, readings[0]), readings[1..])
  }

  /** Readings each strictly within 30 below `m`. */
  predicate AllInWindow(readings: seq<int>, m: int)
  {
    forall i :: 0 <= i < |readings| ==> m - CALIBRATION_ADC_NOISE < readings[i] < m
  }

  /** From a zero count with maximum m, up to six in-window readings in a row
      only count, leaving the maximum and the state alone. */
  lemma {:induction false} CountsInWindow(c: Calibration, readings: seq<int>)
    requires !c.deleted && c.state == Height && c.lowestHeight != 0
    requires c.counter + |readings| <= CALIBRATION_DENOISE_ITERATIONS + 1
    requires AllInWindow(readings, c.lowestHeight)
    ensures var r := Run(c, readings);
            r.state == Height && !r.deleted && r.counter == c.counter + |readings| &&
            r.lowestHeight == c.lowestHeight && r.adcLower == c.adcLower && r.adcUpper == c.adcUpper
    decreases |readings|
  {
    if |readings| > 0 {
      var c1 := Step(c, readings[0]);
      assert InWindow(c, readings[0]);
      assert AllInWindow(readings[1..], c1.lowestHeight) by {
        forall i | 0 <= i < |readings[1..]|
          ensures c1.lowestHeight - CALIBRATION_ADC_NOISE < readings[1..][i] < c1.lowestHeight
        {
          assert readings[1..][i] == readings[i + 1];
        }
      }
      CountsInWindow(c1, readings[1..]);
    }
  }

  /** The height step completes on the seventh consecutive in-window reading
      after a restart, with the calibration points set from the maximum. */
  lemma SeventhReadingCompletes(c: Calibration, readings: seq<int>)
    requires !c.deleted && c.state == Height && c.lowestHeight != 0 && c.counter == 0
    requires |readings| == CALIBRATION_DENOISE_ITERATIONS + 2
    requires AllInWindow(readings, c.lowestHeight)
    ensures Run(c, readings[..6]).state == Height
    ensures var r := Run(c, readings);
            r.state == Yaw && r.heightDone &&
            r.adcLower == c.lowestHeight + CALIBRATION_ADC_NOISE &&
            r.adcUpper == c.lowestHeight - CALIBRATION_ADC_RANGE
  {
    assert AllInWindow(readings[..6], c.lowestHeight) by {
      forall i | 0 <= i < 6
        ensures c.lowestHeight - CALIBRATION_ADC_NOISE < readings[..6][i] < c.lowestHeight
      {
        assert readings[..6][i] == readings[i];
      }
    }
    CountsInWindow(c, readings[..6]);
    RunSplit(c, readings[..6], readings[6..]);
    assert readings[..6] + readings[6..] == readings;
    var c6 := Run(c, readings[..6]);
    assert InWindow(c6, readings[6]);
    assert readings[6..][1..] == [];
  }

  /** Running over a concatenation runs over each part in turn. */
  lemma {:induction false} RunSplit(c: Calibration, xs: seq<int>, ys: seq<int>)
    ensures Run(c, xs + ys) == Run(Run(c, xs), ys)
    decreases |xs|
  {
    if |xs| > 0 && !c.deleted {
      assert (xs + ys)[0] == xs[0];
      assert (xs + ys)[1..] == xs[1..] + ys;
      RunSplit(Step(c, xs[0]), xs[1..], ys);
    } else if |xs| == 0 {
      assert xs + ys == ys;
    }
  }

  /** Over any run the states are visited only in the order Height, Yaw,
      Done, and Done is never left. */
  lemma {:induction false} StatesInOrder(c: Calibration, readings: seq<int>)
    ensures Ord(Run(c, readings).state) >= Ord(c.state)
    ensures c.state == Done ==> Run(c, readings).state == Done
    decreases |readings|
  {
    if |readings| > 0 && !c.deleted {
      StatesInOrder(Step(c, readings[0]), readings[1..]);
    }
  }

  /** The calibration task, holding the value above; `adcLower`/`adcUpper` are the
      exported `calibration_adc_lower`/`calibration_adc_upper`. */
  class CalibrationTask {
    var value: Calibration

    constructor ()
      ensures value == Initial
    {
      value := Initial;
    }

    /** One pass of the loop body of `calibration_poll`. */
    method Poll(reading: int)
      requires !value.deleted
      modifies this
      ensures value == Step(old(value), reading)
    {
      var c := value;
      if c.last != Ord(c.state) {
        if c.state == Done {
          value := c.(deleted := true);
          return;
        }
        c := c.(last := Ord(c.state));
      }
      match c.state {
        case Height =>
          if InWindow(c, reading) {
            var old_counter := c.counter;
            c := c.(counter := c.counter + 1);
            if old_counter > CALIBRATION_DENOISE_ITERATIONS {
              c := c.(adcLower := c.lowestHeight + CALIBRATION_ADC_NOISE,
                       adcUpper := c.lowestHeight - CALIBRATION_ADC_RANGE,
                       heightDone := true);
              c := c.(state := Next(c.state));
            }
          } else {
            c := c.(counter := 0);
            if c.lowestHeight == 0 || reading > c.lowestHeight {
              c := c.(lowestHeight := reading);
            }
          }
        case Yaw =>
          c := c.(referenceResetEnabled := true);
          c := c.(yawDone := true);
          c := c.(state := Next(c.state));
        case Done =>
      }
      value := c;
    }
  }
}
