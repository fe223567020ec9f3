// The helicopter rig's PI controllers (control.c): one generic integer PI
// step with a saturated output, used by the height task (integral preloaded
// to a hover value and floored at zero) and by the yaw task (the measured yaw
// shifted by a whole turn so that it is within half a turn of the target).
module HeliControl {
  import opened CInt

  const CONTROL_TIMESTEP := 100
  const GAIN_MULTIPLIER := 100
  const CONTROL_HOLD_PWM := 50

  const HEIGHT_P_GAIN := 50
  const HEIGHT_I_GAIN := 20
  const YAW_P_GAIN := 250
  const YAW_I_GAIN := 50
  const MIN_OUTPUT := 2
  const MAX_OUTPUT := 98

  /** The controller output before it is limited:
      `(e*p + I*i/1000) / GAIN_MULTIPLIER` with C's truncating division. */
  function RawOutput(error: int, integral: int, pGain: int, iGain: int): (r: int)
    // with non-negative gains the output never points against the error
    // and the integral together
    ensures pGain >= 0 && iGain >= 0 && error >= 0 && integral >= 0 ==> r >= 0
    ensures pGain >= 0 && iGain >= 0 && error <= 0 && integral <= 0 ==> r <= 0
  {
    CDiv(error * pGain + CDiv(integral * iGain, 1000), GAIN_MULTIPLIER)
  }

  /** The saturation at the end of `control_generic_poll`. */
  function Saturate(result: int, minValue: int, maxValue: int): (r: int)
    requires minValue <= maxValue
    ensures minValue <= r <= maxValue
    ensures minValue <= result <= maxValue ==> r == result
    ensures result < minValue ==> r == minValue
    ensures result > maxValue ==> r == maxValue
  {
    if result < minValue then minValue
    else if result > maxValue then maxValue
    else result
  }

  /** The integral after a sequence of errors, one poll each. */
  function IntegralAfter(integral: int, errors: seq<int>, timestep: int): int
    decreases |errors|
  {
    if |errors| == 0 then integral
    else IntegralAfter(integral + errors[0] * timestep, errors[1..], timestep)
  }

  function Sum(s: seq<int>): int
  {
    if |s| == 0 then 0 else s[0] + Sum(s[1..])
  }

  /** The integral term is the time-weighted sum of all errors seen. */
  lemma {:induction false} IntegralIsWeightedSum(integral: int, errors: seq<int>, timestep: int)
    ensures IntegralAfter(integral, errors, timestep) == integral + timestep * Sum(errors)
    decreases |errors|
  {
    if |errors| > 0 {
      IntegralIsWeightedSum(integral + errors[0] * timestep, errors[1..], timestep);
      calc {
        integral + errors[0] * timestep + timestep * Sum(errors[1..]);
        integral + timestep * (errors[0] + Sum(errors[1..]));
      }
    }
  }

  const INT32_MIN := -0x8000_0000
  const INT32_MAX := 0x7FFF_FFFF

  /** Whether a value fits the `int32_t` the integral and its product with
      the gain are held in. */
  predicate FitsInt32(x: int)
  {
    INT32_MIN <= x <= INT32_MAX
  }

  /** Errors bounded by `bound` keep the sum within `|s| * bound` of zero. */
  lemma {:induction false} SumBounded(s: seq<int>, bound: int)
    requires forall i :: 0 <= i < |s| ==> -bound <= s[i] <= bound
    ensures -(|s| * bound) <= Sum(s) <= |s| * bound
  {
    if |s| > 0 {
      SumBounded(s[1..], bound);
      assert |s| * bound == |s[1..]| * bound + bound;
    }
  }

  /** A run of one repeated error sums to its length times that error. */
  lemma {:induction false} SumConstant(k: nat, e: int)
    ensures Sum(seq(k, _ => e)) == k * e
  {
    if k > 0 {
      assert seq(k, _ => e)[1..] == seq(k - 1, _ => e);
      SumConstant(k - 1, e);
    }
  }

  /** The yaw task's error is within half a turn, so starting from zero the
      product `integral_carry_over * i_gain` fits in `int32_t` for 2386
      passes whatever the errors. */
  lemma YawProductFits(errors: seq<int>)
    requires |errors| <= 2386
    requires forall i :: 0 <= i < |errors| ==> -180 <= errors[i] <= 180
    ensures FitsInt32(IntegralAfter(0, errors, CONTROL_TIMESTEP))
    ensures FitsInt32(IntegralAfter(0, errors, CONTROL_TIMESTEP) * YAW_I_GAIN)
  {
    IntegralIsWeightedSum(0, errors, CONTROL_TIMESTEP);
    SumBounded(errors, 180);
    assert |errors| * 180 <= 2386 * 180;
  }

  /** A yaw error held at half a turn for 2387 passes takes that product
      past the `int32_t` range, where signed overflow is undefined in C. */
  lemma YawProductOverflows()
    ensures !FitsInt32(IntegralAfter(0, seq(2387, _ => 180), CONTROL_TIMESTEP) * YAW_I_GAIN)
  {
    IntegralIsWeightedSum(0, seq(2387, _ => 180), CONTROL_TIMESTEP);
    SumConstant(2387, 180);
  }

  /** The height task's integral after each poll: accumulated, then floored at 0. */
  function FlooredIntegralAfter(integral: int, errors: seq<int>, timestep: int): (r: int)
    ensures integral >= 0 || |errors| > 0 ==> r >= 0
    decreases |errors|
  {
    if |errors| == 0 then integral
    else
      var next := integral + errors[0] * timestep;
      FlooredIntegralAfter(if next < 0 then 0 else next, errors[1..], timestep)
  }

  /** The floor only ever raises the integral: it is at least the plain
      accumulated sum, and equals it while the sum never dips below zero. */
  lemma {:induction false} FloorOnlyRaises(integral: int, errors: seq<int>, timestep: int)
    ensures FlooredIntegralAfter(integral, errors, timestep) >= IntegralAfter(integral, errors, timestep)
    decreases |errors|
  {
    if |errors| > 0 {
      var next := integral + errors[0] * timestep;
      var floored := if next < 0 then 0 else next;
      FloorOnlyRaises(floored, errors[1..], timestep);
      IntegralShift(next, floored, errors[1..], timestep);
    }
  }

  /** A larger starting integral gives a larger plain integral by the same amount. */
  lemma {:induction false} IntegralShift(a: int, b: int, errors: seq<int>, timestep: int)
    requires a <= b
    ensures IntegralAfter(a, errors, timestep) <= IntegralAfter(b, errors, timestep)
    decreases |errors|
  {
    if |errors| > 0 {
      IntegralShift(a + errors[0] * timestep, b + errors[0] * timestep, errors[1..], timestep);
    }
  }

  /** The preload `CONTROL_HOLD_PWM * 1000 * GAIN_MULTIPLIER / i_gain`. */
  function Preload(iGain: int): (r: int)
    requires iGain > 0
    ensures r * iGain <= CONTROL_HOLD_PWM * 1000 * GAIN_MULTIPLIER < (r + 1) * iGain
  {
    CONTROL_HOLD_PWM * 1000 * GAIN_MULTIPLIER / iGain
  }

  /** With the height gains and no error, the preloaded integral alone
      drives the main rotor at its hold value. */
  lemma PreloadHolds()
    ensures Preload(HEIGHT_I_GAIN) == 250000
    ensures RawOutput(0, Preload(HEIGHT_I_GAIN), HEIGHT_P_GAIN, HEIGHT_I_GAIN) == CONTROL_HOLD_PWM
  {
  }

  /** The height task's conversion of a raw ADC reading to percent: 0 at the
      calibrated lower reading and 100 at the upper one. */
  function ActualHeight(raw: int, lower: int, upper: int): int
    requires lower != upper
  {
    CDiv((lower - raw) * 100, lower - upper)
  }

  /** With lower above upper (the ADC reads less as the rig rises), the
      height is 0 at the lower point and 100 at the upper one, never
      decreases as the raw reading falls, and lies in 0..100 between the two
      calibration points. */
  lemma ActualHeightAntitone(raw1: int, raw2: int, lower: int, upper: int)
    requires lower > upper && raw1 <= raw2
    ensures ActualHeight(lower, lower, upper) == 0
    ensures ActualHeight(upper, lower, upper) == 100
    ensures ActualHeight(raw1, lower, upper) >= ActualHeight(raw2, lower, upper)
    ensures upper <= raw1 <= lower ==> 0 <= ActualHeight(raw1, lower, upper) <= 100
  {
    var d := lower - upper;
    CDivNonNegative(d * 100, d);
    DivExact(100, d);
    CDivMonotone((lower - raw2) * 100, (lower - raw1) * 100, d);
    if upper <= raw1 <= lower {
      CDivMonotone(0, (lower - raw1) * 100, d);
      CDivMonotone((lower - raw1) * 100, d * 100, d);
    }
  }

  /** `control_yaw_poll`'s shift of the measured yaw by a whole turn. */
  function AdjustYaw(rawYaw: int, desiredYaw: int): (r: int)
    ensures r == rawYaw || r == rawYaw - 360 || r == rawYaw + 360
    ensures 0 <= rawYaw < 360 && 0 <= desiredYaw < 360 ==> -180 <= r - desiredYaw <= 180
  {
    if rawYaw - desiredYaw > 180 then rawYaw - 360
    else if rawYaw - desiredYaw < -180 then rawYaw + 360
    else rawYaw
  }

  /** The yaw shown on the display: a negative adjusted yaw is shifted back. */
  function DisplayYaw(yaw: int): (r: int)
    ensures yaw >= -360 ==> r >= 0
    ensures r == yaw || r == yaw + 360
  {
    if yaw < 0 then yaw + 360 else yaw
  }

  /** The display shows the measured yaw unchanged, except that a yaw more
      than half a turn below the target is shown a full turn higher (so 10
      degrees with a target of 200 shows as 370). */
  lemma DisplayedYaw(rawYaw: int, desiredYaw: int)
    requires 0 <= rawYaw < 360 && 0 <= desiredYaw < 360
    ensures var d := DisplayYaw(AdjustYaw(rawYaw, desiredYaw));
            d == if rawYaw - desiredYaw < -180 then rawYaw + 360 else rawYaw
    ensures DisplayYaw(AdjustYaw(10, 200)) == 370
  {
  }

  /** The `pi_controller_config_t` struct: constant gains and limits and the
      integral carried from poll to poll. */
  class PiController {
    const pGain: int
    const iGain: int
    const timestep: int
    const minValue: int
    const maxValue: int
    var integral: int

    ghost predicate Valid()
      reads this
    {
      minValue <= maxValue && iGain > 0
    }

    /** A controller with the given gains and the shared timestep and limits. */
    constructor (p: int, i: int)
      requires i > 0
      ensures Valid()
      ensures pGain == p && iGain == i && timestep == CONTROL_TIMESTEP
      ensures minValue == MIN_OUTPUT && maxValue == MAX_OUTPUT && integral == 0
    {
      pGain, iGain, timestep := p, i, CONTROL_TIMESTEP;
      minValue, maxValue := MIN_OUTPUT, MAX_OUTPUT;
      integral := 0;
    }

    /** `control_generic_poll`: accumulate the error into the integral and
        return the saturated PI output. */
    method GenericPoll(actual: int, desired: int) returns (output: int)
      requires Valid()
      modifies this`integral
      ensures integral == old(integral) + (desired - actual) * timestep
      ensures output == Saturate(RawOutput(desired - actual, integral, pGain, iGain), minValue, maxValue)
      ensures minValue <= output <= maxValue
    {
      var error := desired - actual;
      integral := integral + error * timestep;
      var result := CDiv(error * pGain + CDiv(integral * iGain, 1000), GAIN_MULTIPLIER);
      if result < minValue {
        return minValue;
      } else if result > maxValue {
        return maxValue;
      } else {
        return result;
      }
    }

    /** The height task's preload of the integral, once calibration is done. */
    method PreloadIntegral()
      requires Valid()
      modifies this`integral
      ensures integral == Preload(iGain)
    {
      integral := CONTROL_HOLD_PWM * 1000 * GAIN_MULTIPLIER / iGain;
    }
  }

  /** The height and yaw controllers, with their gains. */
  method NewControllers() returns (height: PiController, yaw: PiController)
    ensures fresh(height) && fresh(yaw) && height.Valid() && yaw.Valid()
    ensures height.pGain == HEIGHT_P_GAIN && height.iGain == HEIGHT_I_GAIN
    ensures yaw.pGain == YAW_P_GAIN && yaw.iGain == YAW_I_GAIN
    ensures height.integral == 0 && yaw.integral == 0
  {
    height := new PiController(HEIGHT_P_GAIN, HEIGHT_I_GAIN);
    yaw := new PiController(YAW_P_GAIN, YAW_I_GAIN);
  }

  /** One pass of the `control_height_poll` loop, given the raw ADC reading,
      the calibration points and the desired height: the main rotor duty
      and the height shown. */
  method HeightPoll(c: PiController, raw: int, lower: int, upper: int, desired: int)
    returns (mainPwm: int, actual: int)
    requires c.Valid() && lower != upper
    modifies c`integral
    ensures actual == ActualHeight(raw, lower, upper)
    ensures c.minValue <= mainPwm <= c.maxValue
    ensures mainPwm == Saturate(RawOutput(desired - actual, old(c.integral) + (desired - actual) * c.timestep,
                                          c.pGain, c.iGain), c.minValue, c.maxValue)
    ensures var next := old(c.integral) + (desired - actual) * c.timestep;
            c.integral == (if next < 0 then 0 else next)
    ensures c.integral >= 0
  {
    actual := CDiv((lower - raw) * 100, lower - upper);
    mainPwm := c.GenericPoll(actual, desired);
    if c.integral < 0 {
      c.integral := 0;
    }
  }

  /** One pass of the `control_yaw_poll` loop, given the measured and the
      desired yaw: the tail rotor duty and the yaw shown. */
  method YawPoll(c: PiController, rawYaw: int, desiredYaw: int)
    returns (tailPwm: int, displayYaw: int)
    requires c.Valid()
    modifies c`integral
    ensures c.integral == old(c.integral) + (desiredYaw - AdjustYaw(rawYaw, desiredYaw)) * c.timestep
    ensures tailPwm == Saturate(RawOutput(desiredYaw - AdjustYaw(rawYaw, desiredYaw), c.integral, c.pGain, c.iGain),
                                c.minValue, c.maxValue)
    ensures displayYaw == DisplayYaw(AdjustYaw(rawYaw, desiredYaw))
  {
    var yaw := rawYaw;
    if yaw - desiredYaw > 180 {
      yaw := yaw - 360;
    } else if yaw - desiredYaw < -180 {
      yaw := yaw + 360;
    }
    tailPwm := c.GenericPoll(yaw, desiredYaw);
    displayYaw := if yaw < 0 then yaw + 360 else yaw;
  }
}
