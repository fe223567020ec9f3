// The pedometer's display state (display.c): which quantity is shown, in
// which units, and how a distance is split into the whole and the four
// decimal digits printed on the OLED.
module StepDisplay {
  import opened CInt

  const KILOMETRES := 0
  const MILES := 1
  const NO_OF_STEPS := 0
  const TOTAL_DISTANCE := 1

  /** Tenths of a metre per step. */
  const STEP_LENGTH := 9
  const MILES_PER_KM: real := 0.621371

  /** C's conversion of a floating value to `int32_t`: truncation toward zero. */
  function TruncateToInt(x: real): (r: int)
    ensures Abs(r) as real <= (if x < 0.0 then -x else x) < Abs(r) as real + 1.0
    // toward zero: the result keeps the sign of `x` and never passes it
    ensures x >= 0.0 ==> 0 <= r && r as real <= x < r as real + 1.0
    ensures x < 0.0 ==> r <= 0 && r as real - 1.0 < x <= r as real
  {
    if x >= 0.0 then x.Floor else -((-x).Floor)
  }

  /** `displayFormatSteps`: distance in units of 1/10000 of the display unit.
      Miles are rounded to nearest via `(2 * x + 1) / 2`. */
  function FormatSteps(stepCount: int, units: U8): (distance: int)
    ensures units == KILOMETRES ==> distance == stepCount * STEP_LENGTH
    ensures units != KILOMETRES && stepCount >= 0 ==>
              0 <= distance <= stepCount * STEP_LENGTH
    // miles: the nearest integer to the exact value, halves rounded up
    ensures units != KILOMETRES && stepCount >= 0 ==>
              MilesExact(stepCount) - 0.5 < distance as real <= MilesExact(stepCount) + 0.5
  {
    if units == KILOMETRES then stepCount * STEP_LENGTH
    else
      var exact := MilesExact(stepCount);
      var halfUp := (2.0 * exact + 1.0) / 2.0;
      assert halfUp == exact + 0.5;
      TruncateToInt(halfUp)
  }

  /** The exact distance in miles, in units of 1/10000 of a mile. */
  function MilesExact(stepCount: int): real
  {
    (stepCount * STEP_LENGTH) as real * MILES_PER_KM
  }

  /** `intPart`/`decPart` of `displayUpdate`: C's truncating `/` and `%` by
      10000. */
  function Split(distance: int): (r: (int, int))
    ensures r.0 * 10000 + r.1 == distance
    ensures distance >= 0 ==> 0 <= r.1 < 10000 && r.0 >= 0
    ensures distance < 0 ==> -10000 < r.1 <= 0
  {
    (CDiv(distance, 10000), CMod(distance, 10000))
  }

  /** `displayModeToggle` on the mode value. */
  function ModeToggled(mode: U8): (r: U8)
    ensures mode <= TOTAL_DISTANCE ==> r <= TOTAL_DISTANCE && r != mode
  {
    if mode == NO_OF_STEPS then TOTAL_DISTANCE else NO_OF_STEPS
  }

  /** Toggling the mode twice restores it. */
  lemma ModeToggledTwice(mode: U8)
    requires mode <= TOTAL_DISTANCE
    ensures ModeToggled(ModeToggled(mode)) == mode
  {
  }

  /** `displayUnitsToggle` on the mode and units values: whether the units
      were toggled, and the new units. */
  function UnitsToggled(mode: U8, units: U8): (r: (bool, U8))
    ensures r.0 <==> mode == TOTAL_DISTANCE
    ensures !r.0 ==> r.1 == units
    ensures r.0 && units <= MILES ==> r.1 <= MILES && r.1 != units
  {
    if mode == TOTAL_DISTANCE then
      (true, if units == KILOMETRES then MILES else KILOMETRES)
    else (false, units)
  }

  /** In distance mode, toggling the units twice restores them. */
  lemma UnitsToggledTwice(units: U8)
    requires units <= MILES
    ensures UnitsToggled(TOTAL_DISTANCE, UnitsToggled(TOTAL_DISTANCE, units).1).1 == units
  {
  }

  /** The display module's statics. */
  class Display {
    var dispUnits: U8
    var dispMode: U8
    var intPart: int
    var decPart: int
    var distance: int

    ghost predicate Valid()
      reads this
    {
      dispUnits <= MILES && dispMode <= TOTAL_DISTANCE
    }

    /** The static initial values: step count shown, kilometres selected. */
    constructor ()
      ensures Valid() && dispUnits == KILOMETRES && dispMode == NO_OF_STEPS
      ensures intPart == 0 && decPart == 0 && distance == 0
    {
      dispUnits, dispMode := KILOMETRES, NO_OF_STEPS;
      intPart, decPart, distance := 0, 0, 0;
    }

    /** `displayUnitsToggle`: only in distance mode are the units flipped,
        and the result tells whether they were. */
    method DisplayUnitsToggle() returns (toggled: bool)
      requires Valid()
      modifies this`dispUnits
      ensures Valid()
      ensures (toggled, dispUnits) == UnitsToggled(dispMode, old(dispUnits))
    {
      if dispMode == TOTAL_DISTANCE {
        if dispUnits == KILOMETRES {
          dispUnits := MILES;
        } else {
          dispUnits := KILOMETRES;
        }
        return true;
      }
      return false;
    }

    /** `displayModeToggle`. */
    method DisplayModeToggle()
      requires Valid()
      modifies this`dispMode
      ensures Valid() && dispMode == ModeToggled(old(dispMode))
    {
      if dispMode == NO_OF_STEPS {
        dispMode := TOTAL_DISTANCE;
      } else {
        dispMode := NO_OF_STEPS;
      }
    }

    /** `displayUpdate` without the drawing: in distance mode the distance is
        recomputed and split; in step mode nothing is stored. */
    method DisplayUpdate(stepCount: int)
      requires Valid()
      modifies this`distance, this`intPart, this`decPart
      ensures Valid()
      ensures dispMode == NO_OF_STEPS ==>
                distance == old(distance) && intPart == old(intPart) && decPart == old(decPart)
      ensures dispMode == TOTAL_DISTANCE ==>
                distance == FormatSteps(stepCount, dispUnits) && (intPart, decPart) == Split(distance)
    {
      if dispMode != NO_OF_STEPS {
        distance := FormatSteps(stepCount, dispUnits);
        intPart := CDiv(distance, 10000);
        decPart := CMod(distance, 10000);
      }
    }
  }
}
