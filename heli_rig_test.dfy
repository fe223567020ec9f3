// The rig test program (heli_rig_test_v2.c): its own copy of the encoder
// interrupt, counting from zero, and the fixed mapping of the raw ADC height
// reading to percent.
module HeliRigTest {
  import opened CInt
  import HeliInputs

  const ADC_LOW := 1800
  const ADC_HIGH := 2300

  /** `adc_get_height` after the read: clamp the reading to [1800, 2300],
      then scale so that 2300 (resting) is 0 and 1800 is 100 percent. */
  function AdcHeight(raw: U32): (h: int)
    ensures 0 <= h <= 100
    ensures raw <= ADC_LOW ==> h == 100
    ensures raw >= ADC_HIGH ==> h == 0
    ensures ADC_LOW <= raw <= ADC_HIGH ==> h == (ADC_HIGH - raw) / 5
  {
    var height := if raw > ADC_HIGH then ADC_HIGH else raw;
    var height := if height < ADC_LOW then ADC_LOW else height;
    (ADC_HIGH - height) / 5
  }

  /** A larger raw reading never gives a greater height. */
  lemma AdcHeightAntitone(raw1: U32, raw2: U32)
    requires raw1 <= raw2
    ensures AdcHeight(raw1) >= AdcHeight(raw2)
  {
    if ADC_LOW <= raw1 && raw2 <= ADC_HIGH {
      DivMonotone(ADC_HIGH - raw2, ADC_HIGH - raw1, 5);
    }
  }

  /** The test program's encoder statics. */
  class RigQuad {
    var position: int
    var aDash: bool
    var bDash: bool

    ghost predicate Valid()
      reads this
    {
      0 <= position < HeliInputs.ENCODER_COUNTS
    }

    /** `quad_postition` starts at zero, both phases low. */
    constructor ()
      ensures Valid() && position == 0 && !aDash && !bDash
    {
      position := 0;
      aDash, bDash := false, false;
    }

    /** `quad_interrupt`, given the phase levels read from the pins: the
        same counting rule as the main program's encoder. */
    method QuadInterrupt(a: bool, b: bool)
      requires Valid()
      modifies this
      ensures Valid()
      ensures position == HeliInputs.QuadStep(old(position), old(aDash), old(bDash), a, b)
      ensures aDash == a && bDash == b
    {
      if bDash != a {
        position := position + 1;
        if position >= HeliInputs.ENCODER_COUNTS {
          position := position - HeliInputs.ENCODER_COUNTS;
        }
      } else if aDash != b {
        position := position - 1;
        if position < 0 {
          position := position + HeliInputs.ENCODER_COUNTS;
        }
      }
      aDash := a;
      bDash := b;
    }
  }
}
