// The helicopter rig's yaw input (inputs.c): a quadrature-encoder position
// counted modulo the 448 counts of one revolution, read out in degrees, and
// zeroed by the reference (index) interrupt.
module HeliInputs {
  const ENCODER_COUNTS := 448

  /** The counter after one encoder interrupt with new phase levels `a`, `b`
      and previous levels `aDash`, `bDash`: forward when `bDash ^ a`, else
      backward when `aDash ^ b`, else unchanged; wrapping into [0, 448). */
  function QuadStep(position: int, aDash: bool, bDash: bool, a: bool, b: bool): (r: int)
    requires 0 <= position < ENCODER_COUNTS
    ensures 0 <= r < ENCODER_COUNTS
    ensures (bDash != a) ==> r == (position + 1) % ENCODER_COUNTS
    ensures (bDash == a) && (aDash != b) ==> r == (position - 1) % ENCODER_COUNTS
    ensures (bDash == a) && (aDash == b) ==> r == position
  {
    if bDash != a then
      var p := position + 1;
      if p >= ENCODER_COUNTS then p - ENCODER_COUNTS else p
    else if aDash != b then
      var p := position - 1;
      if p < 0 then p + ENCODER_COUNTS else p
    else position
  }

  /** A forward step undone by a backward step returns to the same count
      (turning one edge forward and back over the wrap point included). */
  lemma QuadForwardThenBack(position: int)
    requires 0 <= position < ENCODER_COUNTS
    ensures QuadStep(QuadStep(position, false, false, true, false), true, false, false, false) == position
  {
  }

  /** One full quadrature cycle in the forward sense (A leading B:
      00, 10, 11, 01, 00) advances the count by four. */
  lemma QuadFullCycle(position: int)
    requires 0 <= position < ENCODER_COUNTS
    ensures var p1 := QuadStep(position, false, false, true, false);
            var p2 := QuadStep(p1, true, false, true, true);
            var p3 := QuadStep(p2, true, true, false, true);
            QuadStep(p3, false, true, false, false) == (position + 4) % ENCODER_COUNTS
  {
  }

  /** `inputs_quad_get`: the position in whole degrees. */
  function Degrees(position: int): (deg: int)
    requires 0 <= position < ENCODER_COUNTS
    ensures 0 <= deg < 360
  {
    position * 360 / ENCODER_COUNTS
  }

  /** Degrees never decrease as the count increases. */
  lemma DegreesMonotone(p: int, q: int)
    requires 0 <= p <= q < ENCODER_COUNTS
    ensures Degrees(p) <= Degrees(q)
  {
    assert p * 360 <= q * 360;
  }

  /** The encoder statics: the position and the phase levels seen at the
      previous interrupt. */
  class QuadEncoder {
    var position: int
    var aDash: bool
    var bDash: bool

    ghost predicate Valid()
      reads this
    {
      0 <= position < ENCODER_COUNTS
    }

    /** Start-up values: a quarter turn (90 degrees), both phases low. */
    constructor ()
      ensures Valid() && position == ENCODER_COUNTS / 4 && !aDash && !bDash
      ensures Degrees(position) == 90
    {
      position := ENCODER_COUNTS / 4;
      aDash, bDash := false, false;
    }

    /** `inputs_quad_interrupt`, given the phase levels read from the pins. */
    method QuadInterrupt(a: bool, b: bool)
      requires Valid()
      modifies this
      ensures Valid()
      ensures position == QuadStep(old(position), old(aDash), old(bDash), a, b)
      ensures aDash == a && bDash == b
    {
      if bDash != a {
        position := position + 1;
        if position >= ENCODER_COUNTS {
          position := position - ENCODER_COUNTS;
        }
      } else if aDash != b {
        position := position - 1;
        if position < 0 {
          position := position + ENCODER_COUNTS;
        }
      }
      aDash := a;
      bDash := b;
    }

    /** `inputs_quad_get`. */
    method QuadGet() returns (deg: int)
      requires Valid()
      ensures deg == Degrees(position) && 0 <= deg < 360
    {
      deg := position * 360 / ENCODER_COUNTS;
    }

    /** `reset_reference_interrupt`: the index mark zeroes the count. */
    method ResetReference()
      modifies this`position
      ensures Valid() && position == 0
    {
      position := 0;
    }
  }
}
