// The racer's motor driver: each received command byte is turned into a
// direction pin and a PWM duty, reprogramming a motor only when its command
// changed; plus the string-deploying servo that toggles between two duties.
module RacerMotors {
  import opened CInt
  import opened RacerComms

  /** The value `(uint8_t) -1` the caches are set to. */
  const NO_VALUE: U8 := 255
  const SERVO_DUTY_CAN_OFF := 945
  const SERVO_DUTY_CAN_ON := 905

  datatype Motor = Left | Right

  /** One write to the motor hardware. */
  datatype Command =
    | SetMode(motor: Motor, high: bool)
    | SetDuty(motor: Motor, ppt: int)
    | PwmStop(motor: Motor)
    | PwmStart(motor: Motor)
    | SetServoDuty(ppt: int)

  /** Duty in parts per thousand for a command byte: 50..100 runs with the
      mode pin high, 0..49 with it low. */
  function Duty(v: U8): (d: int)
    ensures v <= 100 ==> 0 <= d <= 1000
    ensures d % 20 == 0
  {
    if v >= 50 then (100 - v) * 20 else (50 - v) * 20
  }

  /** Within each mode a larger command byte gives a smaller duty: 50 and 0
      give the full 1000, 100 and 49 the least. */
  lemma DutyDecreasingWithinMode(a: U8, b: U8)
    requires a < b && (a >= 50 || b < 50)
    ensures Duty(a) > Duty(b)
  {
  }

  /** The writes that program one motor for command byte `v`. */
  function Program(m: Motor, v: U8): (cs: seq<Command>)
    ensures |cs| == 2 && cs[0] == SetMode(m, v >= 50) && cs[1] == SetDuty(m, Duty(v))
  {
    [SetMode(m, v >= 50), SetDuty(m, Duty(v))]
  }

  /** The writes one `motors_poll` makes, given the cached commands. */
  function PollCommands(oldLeft: U8, oldRight: U8, p: Payload): (cs: seq<Command>)
    // a motor is reprogrammed exactly when its command differs from the cache
    ensures |cs| == (if p.motorLeft != oldLeft then 2 else 0) + (if p.motorRight != oldRight then 2 else 0)
    ensures p.motorLeft != oldLeft ==> cs[..2] == Program(Left, p.motorLeft)
    ensures p.motorRight != oldRight ==> cs[|cs| - 2..] == Program(Right, p.motorRight)
  {
    (if p.motorLeft != oldLeft then Program(Left, p.motorLeft) else [])
    + (if p.motorRight != oldRight then Program(Right, p.motorRight) else [])
  }

  /** Repeating a command that has just been applied writes nothing. */
  lemma PollTwiceWritesOnce(oldLeft: U8, oldRight: U8, p: Payload)
    ensures PollCommands(p.motorLeft, p.motorRight, p) == []
  {
  }

  /** After `motors_start` both caches hold 255, so the next poll rewrites
      both motors unless a command byte is itself 255. */
  lemma StartForcesRewrite(p: Payload)
    requires p.motorLeft != NO_VALUE && p.motorRight != NO_VALUE
    ensures PollCommands(NO_VALUE, NO_VALUE, p) ==
              Program(Left, p.motorLeft) + Program(Right, p.motorRight)
  {
  }

  /** A command byte of 255 right after `motors_start` is taken for the
      cached value and not written. */
  lemma SentinelCollides(p: Payload)
    requires p.motorLeft == NO_VALUE && p.motorRight == NO_VALUE
    ensures PollCommands(NO_VALUE, NO_VALUE, p) == []
  {
  }

  /** The motor driver's module state and the writes it has made. */
  class Motors {
    var oldLeftValue: U8
    var oldRightValue: U8
    var isCanOn: bool
    var log: seq<Command>

    /** Static initial values: caches at `(uint8_t) -1`, the can off. */
    constructor ()
      ensures oldLeftValue == NO_VALUE && oldRightValue == NO_VALUE
      ensures !isCanOn && log == []
    {
      oldLeftValue, oldRightValue := NO_VALUE, NO_VALUE;
      isCanOn := false;
      log := [];
    }

    /** `motors_poll`. */
    method Poll(p: Payload)
      modifies this
      ensures log == old(log) + PollCommands(old(oldLeftValue), old(oldRightValue), p)
      ensures oldLeftValue == p.motorLeft && oldRightValue == p.motorRight
      ensures isCanOn == old(isCanOn)
    {
      if p.motorLeft != oldLeftValue {
        if p.motorLeft >= 50 {
          log := log + [SetMode(Left, true), SetDuty(Left, (100 - p.motorLeft) * 20)];
        } else {
          log := log + [SetMode(Left, false), SetDuty(Left, (50 - p.motorLeft) * 20)];
        }
        oldLeftValue := p.motorLeft;
      }
      if p.motorRight != oldRightValue {
        if p.motorRight >= 50 {
          log := log + [SetMode(Right, true), SetDuty(Right, (100 - p.motorRight) * 20)];
        } else {
          log := log + [SetMode(Right, false), SetDuty(Right, (50 - p.motorRight) * 20)];
        }
        oldRightValue := p.motorRight;
      }
    }

    /** `motors_stop`: both motors low at zero duty, then both PWMs stopped.
        The caches are left as they were. */
    method Stop()
      modifies this
      ensures log == old(log) + [SetMode(Left, false), SetDuty(Left, 0),
                                 SetMode(Right, false), SetDuty(Right, 0),
                                 PwmStop(Left), PwmStop(Right)]
      ensures oldLeftValue == old(oldLeftValue) && oldRightValue == old(oldRightValue)
      ensures isCanOn == old(isCanOn)
    {
      log := log + [SetMode(Left, false), SetDuty(Left, 0)];
      log := log + [SetMode(Right, false), SetDuty(Right, 0)];
      log := log + [PwmStop(Left), PwmStop(Right)];
    }

    /** `motors_start`: invalidate both caches and restart both PWMs. */
    method Start()
      modifies this
      ensures oldLeftValue == NO_VALUE && oldRightValue == NO_VALUE
      ensures log == old(log) + [PwmStart(Left), PwmStart(Right)]
      ensures isCanOn == old(isCanOn)
    {
      oldLeftValue := NO_VALUE;
      oldRightValue := NO_VALUE;
      log := log + [PwmStart(Left), PwmStart(Right)];
    }

    /** `servo_get_canOn`. */
    function CanOn(): bool
      reads this
    {
      isCanOn
    }

    /** `servo_toggle`: flips the can state and drives the servo to the
        matching duty. */
    method ServoToggle()
      modifies this
      ensures isCanOn == !old(isCanOn)
      ensures log == old(log) + [SetServoDuty(if isCanOn then SERVO_DUTY_CAN_ON else SERVO_DUTY_CAN_OFF)]
      ensures oldLeftValue == old(oldLeftValue) && oldRightValue == old(oldRightValue)
    {
      if isCanOn {
        log := log + [SetServoDuty(SERVO_DUTY_CAN_OFF)];
        isCanOn := false;
      } else {
        log := log + [SetServoDuty(SERVO_DUTY_CAN_ON)];
        isCanOn := true;
      }
    }
  }
}
