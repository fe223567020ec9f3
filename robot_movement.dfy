// The robot's drive (Movement.cpp): two continuous-rotation servos driven by
// pulse widths around a 1500 microsecond stop value, with configurable
// swapping of the motors and of each motor's polarity, and three speed
// steps. The C enums are kept as their integer values, because the source
// does arithmetic on them.
module RobotMovement {
  import opened CInt

  const STOP_SPEED := 1500
  const DEFAULT_SPEED_SLOW := 200
  const DEFAULT_SPEED_MEDIUM := 300
  const DEFAULT_SPEED_FAST := 500

  /** `enum Speed`. */
  const SPEED_UNINITIALISED := 0
  const STOPPED := 1
  const SLOW := 2
  const MEDIUM := 3
  const FAST := 4

  /** `enum Direction`. */
  const DIRECTION_UNINITIALISED := 0
  const FORWARD := 1
  const REVERSE := -1

  datatype Motor = LeftMotor | RightMotor
  datatype Side = Left | Right

  /** `Movement::decreaseSpeed`: one step slower, STOPPED staying put. */
  function DecreaseSpeed(speed: int): (r: int)
    ensures speed == STOPPED ==> r == STOPPED
    ensures speed != STOPPED ==> r == speed - 1
    ensures STOPPED <= speed <= FAST ==> STOPPED <= r <= speed
  {
    if speed == STOPPED then speed else speed - 1
  }

  /** The static speed configuration set by `initialise`. */
  datatype Config = Config(
    initialised: bool,
    swapMotors: bool,
    swapLeftPolarity: bool,
    swapRightPolarity: bool,
    speedSlow: int,
    speedMedium: int,
    speedFast: int)

  /** The statics before `initialise`: all zero. */
  const Uninitialised := Config(false, false, false, false, 0, 0, 0)

  /** The pulse offset a speed step maps to. */
  function RawSpeed(cfg: Config, speed: int): int
  {
    if speed == SLOW then cfg.speedSlow
    else if speed == MEDIUM then cfg.speedMedium
    else if speed == FAST then cfg.speedFast
    else 0
  }

  /** Speeds that grow with the step, as the defaults do. */
  predicate Ordered(cfg: Config)
  {
    0 <= cfg.speedSlow <= cfg.speedMedium <= cfg.speedFast
  }

  /** With ordered speeds, a slower step never drives faster. */
  lemma DecreaseSpeedSlows(cfg: Config, speed: int)
    requires Ordered(cfg) && STOPPED <= speed <= FAST
    ensures 0 <= RawSpeed(cfg, DecreaseSpeed(speed)) <= RawSpeed(cfg, speed)
    ensures 0 <= RawSpeed(cfg, DecreaseSpeed(DecreaseSpeed(speed))) <= RawSpeed(cfg, DecreaseSpeed(speed))
  {
  }

  /** What `moveMotor` writes: None when it returns early, otherwise
      whether the first servo is driven and the pulse width. */
  function MotorWrite(cfg: Config, motor: Motor, speed: int, direction: int): (w: Option<(bool, int)>)
    // before initialise only a STOPPED command drives a servo
    ensures w.None? <==> !cfg.initialised && speed != STOPPED
    // the left motor drives the first servo unless the motors are swapped
    ensures w.Some? ==> w.value.0 == ((motor == LeftMotor) != cfg.swapMotors)
    // the pulse is the stop value offset by the signed speed
    ensures w.Some? ==>
              var swap := if motor == LeftMotor then cfg.swapLeftPolarity else cfg.swapRightPolarity;
              w.value.1 - STOP_SPEED == (if swap then -direction else direction) * RawSpeed(cfg, speed)
  {
    if !cfg.initialised && speed != STOPPED then None
    else
      var direction := if (if motor == LeftMotor then cfg.swapLeftPolarity else cfg.swapRightPolarity)
                       then -direction else direction;
      var speedValue := STOP_SPEED + direction * RawSpeed(cfg, speed);
      Some(((motor == LeftMotor) != cfg.swapMotors, speedValue))
  }

  /** STOPPED writes the stop value whatever the direction, and a swapped
      polarity mirrors the pulse about the stop value. */
  lemma MotorWriteStopAndPolarity(cfg: Config, motor: Motor, speed: int, direction: int)
    requires cfg.initialised
    ensures MotorWrite(cfg, motor, STOPPED, direction).value.1 == STOP_SPEED
    ensures var flipped := if motor == LeftMotor then cfg.(swapLeftPolarity := !cfg.swapLeftPolarity)
                           else cfg.(swapRightPolarity := !cfg.swapRightPolarity);
            MotorWrite(flipped, motor, speed, direction).value.1 - STOP_SPEED ==
              -(MotorWrite(cfg, motor, speed, direction).value.1 - STOP_SPEED)
  {
  }

  /** The two servos' last written pulse widths. */
  datatype Servos = Servos(first: Option<int>, second: Option<int>)

  function ApplyWrite(s: Servos, w: Option<(bool, int)>): Servos
  {
    match w
    case None => s
    case Some((first, value)) => if first then s.(first := Some(value)) else s.(second := Some(value))
  }

  /** `moveMotors(leftSpeed, leftDirection, rightSpeed, rightDirection)`. */
  function MoveMotors(cfg: Config, s: Servos, leftSpeed: int, leftDirection: int,
                      rightSpeed: int, rightDirection: int): Servos
  {
    var s := ApplyWrite(s, MotorWrite(cfg, LeftMotor, leftSpeed, leftDirection));
    ApplyWrite(s, MotorWrite(cfg, RightMotor, rightSpeed, rightDirection))
  }

  /** The pulse a motor's servo holds. */
  function PulseOf(cfg: Config, s: Servos, motor: Motor): Option<int>
  {
    if (motor == LeftMotor) != cfg.swapMotors then s.first else s.second
  }

  /** Once initialised, both motors are written: each servo holds its own
      motor's pulse, whichever way round the motors are wired. */
  lemma MoveMotorsWritesBoth(cfg: Config, s: Servos, ls: int, ld: int, rs: int, rd: int)
    requires cfg.initialised
    ensures PulseOf(cfg, MoveMotors(cfg, s, ls, ld, rs, rd), LeftMotor) ==
              Some(MotorWrite(cfg, LeftMotor, ls, ld).value.1)
    ensures PulseOf(cfg, MoveMotors(cfg, s, ls, ld, rs, rd), RightMotor) ==
              Some(MotorWrite(cfg, RightMotor, rs, rd).value.1)
  {
  }

  /** `spin` drives the motors at the same speed in opposite directions: with
      equal polarity the two pulses are mirrored about the stop value. */
  lemma SpinOpposite(cfg: Config, s: Servos, speed: int, side: Side)
    requires cfg.initialised && cfg.swapLeftPolarity == cfg.swapRightPolarity
    ensures var r := MoveMotors(cfg, s, speed, if side == Left then REVERSE else FORWARD,
                                speed, if side == Right then REVERSE else FORWARD);
            PulseOf(cfg, r, LeftMotor).value - STOP_SPEED == -(PulseOf(cfg, r, RightMotor).value - STOP_SPEED)
  {
    MoveMotorsWritesBoth(cfg, s, speed, if side == Left then REVERSE else FORWARD,
                         speed, if side == Right then REVERSE else FORWARD);
  }

  /** A forward turn runs the motor on the turn side slower (one step
      slower for a slight turn, two for a large one) than the other motor,
      which keeps the asked speed. */
  lemma TurnSlowsTurnSide(cfg: Config, s: Servos, speed: int, side: Side, steps: nat)
    requires cfg.initialised && !cfg.swapLeftPolarity && !cfg.swapRightPolarity
    requires Ordered(cfg) && STOPPED <= speed <= FAST && 1 <= steps <= 2
    ensures var slow := if steps == 1 then DecreaseSpeed(speed) else DecreaseSpeed(DecreaseSpeed(speed));
            var r := MoveMotors(cfg, s, if side == Left then slow else speed, FORWARD,
                                if side == Right then slow else speed, FORWARD);
            var turn := if side == Left then LeftMotor else RightMotor;
            var other := if side == Left then RightMotor else LeftMotor;
            STOP_SPEED <= PulseOf(cfg, r, turn).value <= PulseOf(cfg, r, other).value == STOP_SPEED + RawSpeed(cfg, speed)
  {
    var slow := if steps == 1 then DecreaseSpeed(speed) else DecreaseSpeed(DecreaseSpeed(speed));
    DecreaseSpeedSlows(cfg, speed);
    MoveMotorsWritesBoth(cfg, s, if side == Left then slow else speed, FORWARD,
                         if side == Right then slow else speed, FORWARD);
  }

  /** The module's statics: the configuration and the two servos. */
  class Movement {
    var cfg: Config
    var servos: Servos

    /** Static initialisation: nothing configured, nothing written. */
    constructor ()
      ensures cfg == Uninitialised && servos == Servos(None, None)
    {
      cfg := Uninitialised;
      servos := Servos(None, None);
    }

    /** `Movement::moveMotor`. */
    method MoveMotor(motor: Motor, speed: int, direction: int)
      modifies this`servos
      ensures servos == ApplyWrite(old(servos), MotorWrite(cfg, motor, speed, direction))
    {
      if !cfg.initialised && speed != STOPPED {
        return;
      }
      var direction := direction;
      var swapPolarity := if motor == LeftMotor then cfg.swapLeftPolarity else cfg.swapRightPolarity;
      if swapPolarity {
        direction := -direction;
      }
      var rawSpeed;
      if speed == SLOW {
        rawSpeed := cfg.speedSlow;
      } else if speed == MEDIUM {
        rawSpeed := cfg.speedMedium;
      } else if speed == FAST {
        rawSpeed := cfg.speedFast;
      } else {
        rawSpeed := 0;
      }
      var speedValue := STOP_SPEED + direction * rawSpeed;
      if (motor == LeftMotor) != cfg.swapMotors {
        servos := servos.(first := Some(speedValue));
      } else {
        servos := servos.(second := Some(speedValue));
      }
    }

    /** `moveMotors(leftSpeed, leftDirection, rightSpeed, rightDirection)`. */
    method MoveMotors4(leftSpeed: int, leftDirection: int, rightSpeed: int, rightDirection: int)
      modifies this`servos
      ensures servos == MoveMotors(cfg, old(servos), leftSpeed, leftDirection, rightSpeed, rightDirection)
    {
      MoveMotor(LeftMotor, leftSpeed, leftDirection);
      MoveMotor(RightMotor, rightSpeed, rightDirection);
    }

    /** `moveMotors(Command)`: a command whose right half is unset drives
        both motors with the left half. */
    method MoveCommand(leftSpeed: int, leftDirection: int, rightSpeed: int, rightDirection: int)
      modifies this`servos
      ensures rightDirection == DIRECTION_UNINITIALISED || rightSpeed == SPEED_UNINITIALISED ==>
                servos == MoveMotors(cfg, old(servos), leftSpeed, leftDirection, leftSpeed, leftDirection)
      ensures rightDirection != DIRECTION_UNINITIALISED && rightSpeed != SPEED_UNINITIALISED ==>
                servos == MoveMotors(cfg, old(servos), leftSpeed, leftDirection, rightSpeed, rightDirection)
    {
      if rightDirection == DIRECTION_UNINITIALISED || rightSpeed == SPEED_UNINITIALISED {
        MoveMotors4(leftSpeed, leftDirection, leftSpeed, leftDirection);
      } else {
        MoveMotors4(leftSpeed, leftDirection, rightSpeed, rightDirection);
      }
    }

    /** `Movement::together`. */
    method Together(speed: int, direction: int)
      modifies this`servos
      ensures servos == MoveMotors(cfg, old(servos), speed, direction, speed, direction)
    {
      MoveMotors4(speed, direction, speed, direction);
    }

    /** `Movement::slightTurn`. */
    method SlightTurn(speed: int, direction: int, side: Side)
      modifies this`servos
      ensures var slow := DecreaseSpeed(speed);
              servos == MoveMotors(cfg, old(servos), if side == Left then slow else speed, direction,
                                   if side == Right then slow else speed, direction)
    {
      var slowSpeed := DecreaseSpeed(speed);
      MoveMotors4(if side == Left then slowSpeed else speed, direction,
                  if side == Right then slowSpeed else speed, direction);
    }

    /** `Movement::largeTurn`. */
    method LargeTurn(speed: int, direction: int, side: Side)
      modifies this`servos
      ensures var slow := DecreaseSpeed(DecreaseSpeed(speed));
              servos == MoveMotors(cfg, old(servos), if side == Left then slow else speed, direction,
                                   if side == Right then slow else speed, direction)
    {
      var slowSpeed := DecreaseSpeed(DecreaseSpeed(speed));
      MoveMotors4(if side == Left then slowSpeed else speed, direction,
                  if side == Right then slowSpeed else speed, direction);
    }

    /** `Movement::spin`. */
    method Spin(speed: int, side: Side)
      modifies this`servos
      ensures servos == MoveMotors(cfg, old(servos), speed, if side == Left then REVERSE else FORWARD,
                                   speed, if side == Right then REVERSE else FORWARD)
    {
      MoveMotors4(speed, if side == Left then REVERSE else FORWARD,
                  speed, if side == Right then REVERSE else FORWARD);
    }

    /** `Movement::stop`: both servos at the stop value, configured or not. */
    method Stop()
      modifies this`servos
      ensures servos == MoveMotors(cfg, old(servos), STOPPED, FORWARD, STOPPED, FORWARD)
      ensures PulseOf(cfg, servos, LeftMotor) == Some(STOP_SPEED)
      ensures PulseOf(cfg, servos, RightMotor) == Some(STOP_SPEED)
    {
      MoveMotors4(STOPPED, FORWARD, STOPPED, FORWARD);
    }

    /** `Movement::initialise` with explicit speeds: store the configuration,
        then stop. */
    method Initialise(swapMotors: bool, swapLeftPolarity: bool, swapRightPolarity: bool,
                      speedSlow: int, speedMedium: int, speedFast: int)
      modifies this
      ensures cfg == Config(true, swapMotors, swapLeftPolarity, swapRightPolarity, speedSlow, speedMedium, speedFast)
      ensures PulseOf(cfg, servos, LeftMotor) == Some(STOP_SPEED)
      ensures PulseOf(cfg, servos, RightMotor) == Some(STOP_SPEED)
    {
      cfg := Config(true, swapMotors, swapLeftPolarity, swapRightPolarity, speedSlow, speedMedium, speedFast);
      Stop();
    }

    /** `Movement::initialise` with the default speeds 200, 300 and 500. */
    method InitialiseDefault(swapMotors: bool, swapLeftPolarity: bool, swapRightPolarity: bool)
      modifies this
      ensures cfg == Config(true, swapMotors, swapLeftPolarity, swapRightPolarity,
                            DEFAULT_SPEED_SLOW, DEFAULT_SPEED_MEDIUM, DEFAULT_SPEED_FAST)
      ensures Ordered(cfg)
      ensures PulseOf(cfg, servos, LeftMotor) == Some(STOP_SPEED)
      ensures PulseOf(cfg, servos, RightMotor) == Some(STOP_SPEED)
    {
      Initialise(swapMotors, swapLeftPolarity, swapRightPolarity,
                 DEFAULT_SPEED_SLOW, DEFAULT_SPEED_MEDIUM, DEFAULT_SPEED_FAST);
    }
  }
}
