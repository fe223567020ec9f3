// The hand-held controller's joystick: two 12-bit ADC readings scaled to
// 0..100 and mixed into left and right motor commands.
module HatJoystick {
  import opened CInt
  import opened RacerCore
  import opened RacerComms

  /** `scale_value`: the reading clamped to [400, 3600] and mapped onto 0..100. */
  function ScaleValue(raw: int): (r: U8)
    requires 0 <= raw < 0x1_0000
    ensures 0 <= r <= 100
    ensures raw <= 400 ==> r == 0
    ensures raw >= 3600 ==> r == 100
  {
    (LimitInt(400, 3600, raw) - 400) * 50 / 1600
  }

  /** Scaling never reverses the order of two readings. */
  lemma ScaleValueMonotone(a: int, b: int)
    requires 0 <= a <= b < 0x1_0000
    ensures ScaleValue(a) <= ScaleValue(b)
  {
    LimitIntMonotone(400, 3600, a, b);
    var la, lb := LimitInt(400, 3600, a) - 400, LimitInt(400, 3600, b) - 400;
    assert la * 50 <= lb * 50;
  }

  /** `joystick_read` on the two raw ADC readings: tank-style mixing of the
      scaled readings, forward on y and turning on x, each side clamped to
      0..100. The deploy flag is never set from the joystick. */
  function JoystickRead(xRaw: int, yRaw: int): (p: Payload)
    requires 0 <= xRaw < 0x1_0000 && 0 <= yRaw < 0x1_0000
    ensures p.motorLeft == LimitInt(0, 100, ScaleValue(yRaw) + ScaleValue(xRaw) - 50)
    ensures p.motorRight == LimitInt(0, 100, ScaleValue(yRaw) - ScaleValue(xRaw) + 50)
    ensures p.motorLeft <= 100 && p.motorRight <= 100
    ensures !p.shouldDeployString
  {
    var x: int := ScaleValue(xRaw);
    var y: int := ScaleValue(yRaw);
    Payload(LimitInt(0, 100, 50 + (y - 50) + (x - 50)),
            LimitInt(0, 100, 50 + (y - 50) - (x - 50)),
            false)
  }

  /** A centred stick (both readings at mid-scale 2000) commands both motors
      to the neutral 50. */
  lemma CentredStickIsNeutral()
    ensures JoystickRead(2000, 2000) == Payload(50, 50, false)
  {
  }

  /** Pushing the stick sideways trades one side against the other: the two
      commands sum to twice the forward command while neither is clamped. */
  lemma MixBalanced(xRaw: int, yRaw: int)
    requires 0 <= xRaw < 0x1_0000 && 0 <= yRaw < 0x1_0000
    requires 0 <= ScaleValue(yRaw) + ScaleValue(xRaw) - 50 <= 100
    requires 0 <= ScaleValue(yRaw) - ScaleValue(xRaw) + 50 <= 100
    ensures JoystickRead(xRaw, yRaw).motorLeft + JoystickRead(xRaw, yRaw).motorRight
            == 2 * ScaleValue(yRaw)
  {
  }
}
