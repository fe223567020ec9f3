# Verified models of the uni_archive embedded and utility cores

This project models, in Dafny, the small self-contained cores of a
collection of university projects and proves what each of them promises.

- **Capture the flag** (ence260_group314): the one-byte infra-red message
  two players exchange (flag bit, position code in the sender's frame,
  the control codes 70 and 71), the game rules applied after every move
  (taking the flag, tagging, crossing, scoring, resets) and the
  navigation-switch movement over the two-screen board.
- **Wacky racers** (wacky-racers): clamping, the DIP-switch value, the
  sleep-button release wait, the 3-byte radio payload in its 32-byte
  frame and its channel, the joystick scaling and tank mixing, and the
  racer's motor driver with its command caches and deploy servo.
- **Pedometer** (ence361_assignment1): the five-button debouncer with
  short and long presses, the step detection on the averaged
  acceleration norm and the step count, and the display's mode, units,
  distance formatting and whole/decimal split.
- **Helicopter rig** (ence464_assignment1): the three-poll button
  debouncer and the height and yaw set points, the integer PI controller
  with saturation, the height integral's preload and floor and the yaw
  wrap, the quadrature-encoder counter in [0, 448), the start-up
  calibration state machine, and the rig test's encoder and height
  mapping; also `LengthRoundUp` of the AES-CBC example, the length rounded
  up to the 16-byte AES block of FIPS 197 in 32-bit arithmetic.
- **RoboCup robot** (robocup): the infra-red sensor ring buffer, its
  average, median and distance conversion, the vision helpers over the
  four readings, the drive servos' speed steps and turns, the elbow
  stepping loop and claw, and the behaviour state machine with its
  watchdogs and transition scan.
- **Utilities**: `score_array` (the ranks of an array from its argsort),
  the auction server's `parseText`/`parseTextArray` and category lookups.
- **3-D Jacobi stencil** (ence464_project2_group14): which cells each loop
  nest of `process_block` writes, from which neighbours, and the copy-back
  after each iteration; and the padded neighbour-pointer map of
  `test_single_threaded`.

Code that changes state in place is modelled by classes whose methods
tie the new state to a pure function of the old one; the properties are
proved as lemmas about those functions. Hardware reads (pins, ADC,
navigation switch, clock) are parameters; hardware writes (PWM, servos,
pins) are recorded as the last value written or as a log of writes.
`CInt` gives C's truncating division and the unsigned 8- and 32-bit
wrap-around the other modules use.

## Model

| member | source | states |
|---|---|---|
| CtfIrComs.SetFlagBit | ence260_group314/ctf_ir_coms.c:79-82 | setting bit 7 gives a byte of at least 128 whose low seven bits are unchanged |
| CtfIrComs.ClearFlagBit | ence260_group314/ctf_ir_coms.c:34 | clearing bit 7 gives a byte below 128 that is the input or the input less 128 |
| CtfIrComs.PositionCode | ence260_group314/ctf_ir_coms.c:76-77 | an on-board cell's code `(col-1)*7 + (row-1)` lies in 0..69, differs from both control codes 70 and 71, and its quotient and remainder by 7 give back column and row |
| CtfIrComs.PlayerToChar | ence260_group314/ctf_ir_coms.c:63-84 | bit 7 is set when the player holds the flag; without bit 7 the byte is DISPLAY_SCORE_CHAR when showing the score, else RESET_GAME_CHAR when triggering a reset, else the position code |
| CtfIrComs.FromChar | ence260_group314/ctf_ir_coms.c:31-53 | the flag comes from bit 7 and the score is kept; a control code sets `displaying_score` or `trigger_game_reset` and keeps the position; any other byte sets column `11 - (c/7 + 1)`, row `7 - c%7` and clears `displaying_score`, the row always on the board and the column on it for codes below 70 and left of it from 72 up |
| CtfIrComs.FlagBitIffHasFlag | ence260_group314/ctf_ir_coms.c:33-82 | an on-board player's byte has bit 7 set exactly when the player holds the flag |
| CtfIrComs.MirroredRoundTrip | ence260_group314/ctf_ir_coms.c:46-77 | decoding an encoded on-board position gives the mirrored cell `(11-col, 8-row)`, still on the board, with the flag intact |
| CtfIrComs.MirrorTwice | ence260_group314/ctf_ir_coms.c:46-77 | passing a position on twice returns it to the sender's own cell |
| CtfIrComs.ControlCodeKeepsPosition | ence260_group314/ctf_ir_coms.c:35-42 | decoding a control code leaves the opponent's row and column unchanged |
| CtfIrComs.DecodeIgnoresFlagBit | ence260_group314/ctf_ir_coms.c:33-34 | apart from the flag, a byte and its flag-cleared copy decode to the same record |
| CtfIrComs.UpdateOpponentFromChar | ence260_group314/ctf_ir_coms.c:31-53 | the opponent record held in place becomes FromChar of its old value |
| CtfGamehost.ResetPosition | ence260_group314/ctf_gamehost.c:47-52 | back at (PLAYER_START_ROW, PLAYER_START_COL) without the flag; score and the display and reset flags kept |
| CtfGamehost.ResetWithDisadvantage | ence260_group314/ctf_gamehost.c:55-60 | back at (PLAYER_START_ROW, PLAYER_START_COL_DISADVANTAGE) without the flag; score and other flags kept |
| CtfGamehost.EventUpdated | ence260_group314/ctf_gamehost.c:17-44 | the reset flag is kept, the score rises by at most one (as a uint8), and an on-board player stays on the board |
| CtfGamehost.TakeFlag | ence260_group314/ctf_gamehost.c:20-21 | standing on the opponent's flag cell, with the opponent elsewhere on the far half, sets `has_flag` and changes nothing else |
| CtfGamehost.Tagged | ence260_group314/ctf_gamehost.c:24-60 | sharing a cell while col > 5 sends me to (4, 1) without the flag |
| CtfGamehost.CrossingResolved | ence260_group314/ctf_gamehost.c:31-35 | on the far half without the flag, with the opponent on mine, my column is set to 5 and nothing else changes |
| CtfGamehost.CrossingWithFlagScores | ence260_group314/ctf_gamehost.c:20-42 | grabbing the flag while the opponent is on my half scores a point at once and shows the score |
| CtfGamehost.Scores | ence260_group314/ctf_gamehost.c:36-42 | holding the flag with col <= 5 raises the score by exactly one, sets `displaying_score` and restarts me at (4, 1) without the flag |
| CtfGamehost.QuietOnOwnHalf | ence260_group314/ctf_gamehost.c:17-44 | on my own half without the flag the update changes nothing |
| CtfGamehost.ScoreChangeShowsScore | ence260_group314/ctf_gamehost.c:36-42 | whenever the score changes, the score is shown, the flag is dropped and I am on the disadvantage column |
| CtfGamehost.GameEventUpdate | ence260_group314/ctf_gamehost.c:17-44 | my record held in place becomes EventUpdated of its old value against the opponent |
| CtfGamehost.ResetMyPlayer | ence260_group314/ctf_gamehost.c:47-52 | my record becomes ResetPosition of its old value |
| CtfGamehost.ResetMyPlayerWithDisadvantage | ence260_group314/ctf_gamehost.c:55-60 | my record becomes ResetWithDisadvantage of its old value |
| CtfGamehost.ResetGame | ence260_group314/ctf_gamehost.c:63-72 | my player is reset with score 0 and no reset trigger; the opponent's score is 0 and its flag, display and reset flags are cleared; its position is kept |
| CtfPlayer.ToInt8 | ence260_group314/ctf_player.c:13-16 | a uint8 argument stored in an int8 field lies in -128..127 and is congruent to it modulo 256 |
| CtfPlayer.Spawn | ence260_group314/ctf_player.c:13-17 | the new player has the given row and column, no flag, score 0 and both display flags clear |
| CtfPlayer.Moved | ence260_group314/ctf_player.c:20-44 | only the position changes; the row stays in 1..7 and moves by at most one; the column never drops below 1 nor exceeds 10; with the opponent on my side the column cannot pass 5; with no switch pushed nothing moves |
| CtfPlayer.Player.constructor | ence260_group314/ctf_player.c:13-17 | a player object starts as Spawn(row, col) |
| CtfPlayer.Player.Update | ence260_group314/ctf_player.c:20-44 | the player held in place moves exactly as Moved prescribes: the row becomes MovedRow and the column MovedCol of the old position, and the flag, score and display fields are unchanged |
| RacerCore.LimitInt | wacky-racers/src/apps/core/core.c:9-12 | with `min <= max` the result lies in `[min, max]`, and a value already in range comes back unchanged |
| RacerCore.LimitIntIdempotent | wacky-racers/src/apps/core/core.c:9-12 | limiting twice is limiting once |
| RacerCore.LimitIntMonotone | wacky-racers/src/apps/core/core.c:9-12 | limiting preserves order |
| RacerCore.DipValue | wacky-racers/src/apps/core/core.c:81-84 | the value lies in 0..15 and its bits, most significant first, are DIP 0 to DIP 3 |
| RacerCore.DipValueInjective | wacky-racers/src/apps/core/core.c:81-84 | two switch settings with the same value are the same setting |
| RacerCore.TrailingHighAtLeast | wacky-racers/src/apps/core/core.c:47-63 | the counter (the run of high reads at the end) is at least m exactly when the last m reads were high |
| RacerCore.ReleasedAtIff | wacky-racers/src/apps/core/core.c:47-63 | the loop's exit condition `counter >= 10` after k reads holds exactly when reads k-10..k-1 were all high |
| RacerCore.WaitForSleepButtonRelease | wacky-racers/src/apps/core/core.c:47-63 | given the pin's successive levels, the loop stops after the first read that completes ten consecutive high reads, and not earlier; when the reads run out it reports no release |
| RacerComms.DecodePayload | wacky-racers/src/apps/core/comms.c:50-57 | left and right motor bytes are bytes 0 and 1; the string flag is true exactly when byte 2 is non-zero |
| RacerComms.EncodePayload | wacky-racers/src/apps/core/comms.c:59-64 | decoding the encoded buffer gives back the payload, byte 2 is 0 or 1, and bytes from 3 on are untouched |
| RacerComms.SendFrame | wacky-racers/src/apps/core/comms.c:71-80 | the 32-byte zeroed frame that is sent decodes to the payload and holds zeros after byte 2 |
| RacerComms.Channel | wacky-racers/src/apps/core/comms.c:33 | the radio channel `dip % 8 + 100` lies in 100..107 |
| RacerComms.ChannelFromSwitches | wacky-racers/src/apps/core/comms.c:33 | DIP 0 (bit 3) does not affect the channel, and DIP 1..3 alone determine it |
| HatJoystick.ScaleValue | wacky-racers/src/apps/hat/joystick.c:47-50 | the scaled reading lies in 0..100, is 0 at or below 400 and 100 at or above 3600 |
| HatJoystick.ScaleValueMonotone | wacky-racers/src/apps/hat/joystick.c:47-50 | a larger raw reading never scales lower |
| HatJoystick.JoystickRead | wacky-racers/src/apps/hat/joystick.c:52-66 | left is `limit(0,100, y + x - 50)` and right `limit(0,100, y - x + 50)` of the scaled readings, both at most 100; the string is never deployed |
| HatJoystick.CentredStickIsNeutral | wacky-racers/src/apps/hat/joystick.c:47-66 | a centred stick (2000, 2000) commands both motors to the neutral 50 |
| HatJoystick.MixBalanced | wacky-racers/src/apps/hat/joystick.c:58-63 | while neither side is clamped the two commands sum to twice the forward reading |
| RacerMotors.Duty | wacky-racers/src/apps/racer/motors.c:88-95 | for a command byte up to 100 the duty lies in 0..1000 parts per thousand, always a multiple of 20 |
| RacerMotors.DutyDecreasingWithinMode | wacky-racers/src/apps/racer/motors.c:88-95 | within each mode (50..100 high, 0..49 low) a larger command gives a strictly smaller duty |
| RacerMotors.PollCommands | wacky-racers/src/apps/racer/motors.c:85-111 | a motor is reprogrammed (mode pin, then duty) exactly when its command differs from its cached value, left before right |
| RacerMotors.PollTwiceWritesOnce | wacky-racers/src/apps/racer/motors.c:85-111 | polling again with the commands just applied writes nothing |
| RacerMotors.StartForcesRewrite | wacky-racers/src/apps/racer/motors.c:85-132 | after `motors_start` the next poll reprograms both motors, unless a command byte is 255 |
| RacerMotors.SentinelCollides | wacky-racers/src/apps/racer/motors.c:82-129 | a command byte of 255 right after start equals the sentinel and is not written |
| RacerMotors.Motors.constructor | wacky-racers/src/apps/racer/motors.c:82-134 | both caches start at 255 and the can is off |
| RacerMotors.Motors.Poll | wacky-racers/src/apps/racer/motors.c:85-111 | the writes are PollCommands of the old caches, and the caches become the new commands |
| RacerMotors.Motors.Stop | wacky-racers/src/apps/racer/motors.c:114-125 | both mode pins low, both duties 0, both PWMs stopped, in that order; the caches are kept |
| RacerMotors.Motors.Start | wacky-racers/src/apps/racer/motors.c:127-132 | both caches become 255 and both PWMs are started |
| RacerMotors.Motors.ServoToggle | wacky-racers/src/apps/racer/motors.c:141-149 | the can state flips, and the servo duty written is 905 when it turns on and 945 when it turns off |
| StepButtons.Debounce | ence361_assignment1/buttons5.c:136-170 | one poll of one button: the value follows the pin; a level away from normal counts presses and clears the release count, a normal level counts releases and clears the press count; the short and long press states and flags are raised at 3 and 50 presses (flags only on the first crossing), and the press states are dropped only after 5 releases |
| StepButtons.Repeat | ence361_assignment1/buttons5.c:132-172 | a series of n identical pin levels has length n and holds that level at every position |
| StepButtons.HoldRun | ence361_assignment1/buttons5.c:145-159 | holding a released button for n polls gives a press count of n, and the short (long) flag and state are set exactly when n reaches 3 (50) |
| StepButtons.RepeatSnoc | ence361_assignment1/buttons5.c:132-172 | one more identical poll extends a held series by one |
| StepButtons.RunSnoc | ence361_assignment1/buttons5.c:132-172 | the state after polls followed by one more poll is that poll's debounce of the earlier state |
| StepButtons.ReleaseRun | ence361_assignment1/buttons5.c:160-169 | after n released polls the release count is n, each press state survives while n is below 5 and is cleared from then on, and the flags are untouched |
| StepButtons.TakeFlag | ence361_assignment1/buttons5.c:178-205 | the answer is the short (long) flag of the button and that flag alone is cleared |
| StepButtons.TakeFlagTwice | ence361_assignment1/buttons5.c:178-205 | asking again at once answers false and changes nothing further |
| StepButtons.Buttons.constructor | ence361_assignment1/buttons5.c:64-70 | the zero-initialised per-button statics |
| StepButtons.Buttons.InitButtons | ence361_assignment1/buttons5.c:77-121 | each button records its released level, and its value, counts and flags are cleared |
| StepButtons.Buttons.UpdateButtons | ence361_assignment1/buttons5.c:132-172 | every button's new state is the debounce of its old state by its own pin level |
| StepButtons.Buttons.WasButtonPress | ence361_assignment1/buttons5.c:178-205 | the queried button's flag is reported and cleared and every other button is unchanged |
| StepButtons.IsButtonDownMeaning | ence361_assignment1/buttons5.c:212-215 | the raw level means "pressed" for UP, DOWN and SWITCH1, and "released" for the active-low LEFT and RIGHT |
| StepCounter.AverageIsRoundedMean | ence361_assignment1/stepCounter.c:77-88 | the buffer average is the mean of the five samples rounded to nearest: within 2 of the sum after scaling by five |
| StepCounter.StepEdge | ence361_assignment1/stepCounter.c:152-168 | a step is counted exactly when the previous average was at or below the threshold and the new one is above it; the flag records whether the new one is at or below |
| StepCounter.RisingEdges | ence361_assignment1/stepCounter.c:152-168 | the number of below-to-above crossings in a series never exceeds its length |
| StepCounter.StepsAreRisingEdges | ence361_assignment1/stepCounter.c:152-168 | over any series of averages the steps counted equal the rising edges of the series |
| StepCounter.StayingAboveCountsOnce | ence361_assignment1/stepCounter.c:160-167 | a series that stays above the threshold adds one step if it started below and none otherwise |
| StepCounter.ChangedCount | ence361_assignment1/stepCounter.c:177-191 | the count moves by the amount and saturates at zero, so a non-negative count stays non-negative |
| StepCounter.StepCounterState.constructor | ence361_assignment1/stepCounter.c:212-216 | a zeroed five-sample buffer, no steps, and a first reading treated as following a below-threshold one |
| StepCounter.StepCounterState.GetAverageOfCircBuf | ence361_assignment1/stepCounter.c:77-88 | the average of the buffer's contents; because the samples are unsigned it equals the value with C's truncating division and is the mean rounded to nearest, within 2 of the sum after scaling by five |
| StepCounter.StepCounterState.CheckForStep | ence361_assignment1/stepCounter.c:152-168 | the unsigned sample is written at the write index, which advances modulo five, and the count and flag follow the edge rule on the new average |
| StepCounter.StepCounterState.ChangeStepCount | ence361_assignment1/stepCounter.c:177-191 | the count becomes the saturating change of the old count |
| StepCounter.StepCounterState.ResetStepCount | ence361_assignment1/stepCounter.c:204-207 | the count becomes zero |
| StepDisplay.TruncateToInt | ence361_assignment1/display.c:92 | conversion of the double to an integer truncates toward zero: the result has the sign of the input, never passes it and lies within one of it |
| StepDisplay.FormatSteps | ence361_assignment1/display.c:84-94 | in kilometres the distance is 9 per step; in miles, for a non-negative step count, it is the integer nearest to 9 * 0.621371 per step (halves rounded up), within 0 and 9 per step |
| StepDisplay.Split | ence361_assignment1/display.c:162-163 | integer and decimal parts recombine to the distance, the decimal part lies in [0,10000) for a non-negative distance and in (-10000,0] for a negative one |
| StepDisplay.ModeToggled | ence361_assignment1/display.c:135-145 | a valid mode goes to the other valid mode |
| StepDisplay.ModeToggledTwice | ence361_assignment1/display.c:135-145 | toggling the mode twice restores it |
| StepDisplay.UnitsToggled | ence361_assignment1/display.c:115-130 | the units are toggled exactly in distance mode, to the other valid unit, and left alone otherwise |
| StepDisplay.UnitsToggledTwice | ence361_assignment1/display.c:115-130 | in distance mode toggling the units twice restores them |
| StepDisplay.Display.constructor | ence361_assignment1/display.c:25-30 | step-count mode, kilometres, and zero distance parts |
| StepDisplay.Display.DisplayUnitsToggle | ence361_assignment1/display.c:115-130 | result and new units are those of UnitsToggled on the current mode |
| StepDisplay.Display.DisplayModeToggle | ence361_assignment1/display.c:135-145 | the mode becomes the toggled mode |
| StepDisplay.Display.DisplayUpdate | ence361_assignment1/display.c:151-168 | in step mode nothing stored changes; in distance mode the distance is the formatted step count and the parts are its split |
| HeliInputs.QuadStep | ence464_assignment1/apps/MARK_ME_master/inputs.c:58-87 | the position stays in 0..447; it advances by one (mod 448) when the previous B differs from the new A, otherwise goes back by one when the previous A differs from the new B, and otherwise stays |
| HeliInputs.QuadForwardThenBack | ence464_assignment1/apps/MARK_ME_master/inputs.c:69-83 | a forward edge followed by the reverse edge restores the position |
| HeliInputs.QuadFullCycle | ence464_assignment1/apps/MARK_ME_master/inputs.c:69-83 | one full forward quadrature cycle of four edges advances the position by four, modulo 448 |
| HeliInputs.Degrees | ence464_assignment1/apps/MARK_ME_master/inputs.c:47-51 | the position read in whole degrees lies in 0..359 |
| HeliInputs.DegreesMonotone | ence464_assignment1/apps/MARK_ME_master/inputs.c:47-51 | the degree reading does not decrease as the position grows |
| HeliInputs.QuadEncoder.constructor | ence464_assignment1/apps/MARK_ME_master/inputs.c:37 | the position starts at a quarter of a revolution, which reads 90 degrees |
| HeliInputs.QuadEncoder.QuadInterrupt | ence464_assignment1/apps/MARK_ME_master/inputs.c:58-87 | the position moves by QuadStep and the phase levels are remembered for the next edge |
| HeliInputs.QuadEncoder.QuadGet | ence464_assignment1/apps/MARK_ME_master/inputs.c:47-51 | the result is the position in degrees, in 0..359 |
| HeliInputs.QuadEncoder.ResetReference | ence464_assignment1/apps/MARK_ME_master/inputs.c:110-118 | the index interrupt zeroes the position |
| HeliButtons.Debounce | ence464_assignment1/apps/MARK_ME_master/buttons.c:194-208 | a poll agreeing with the state clears the count; a differing poll counts up, and on the third consecutive one the state flips, the flag is raised and the count clears |
| HeliButtons.FlipsOnThirdPoll | ence464_assignment1/apps/MARK_ME_master/buttons.c:194-208 | from a settled button two differing polls do not change the state, the third flips it with the flag raised, and an agreeing poll in between restarts the count |
| HeliButtons.Check | ence464_assignment1/apps/MARK_ME_master/buttons.c:216-227 | with no flag the answer is NO_CHANGE and nothing changes; with the flag it is cleared and the answer is RELEASED exactly when the state is the normal level and PUSHED exactly when it is not |
| HeliButtons.CheckTwice | ence464_assignment1/apps/MARK_ME_master/buttons.c:216-227 | a second check straight after the first answers NO_CHANGE |
| HeliButtons.HeightAfter | ence464_assignment1/apps/MARK_ME_master/buttons.c:87-107 | a height set point in 0..100 on the 10 grid stays in 0..100 on the grid |
| HeliButtons.YawAfter | ence464_assignment1/apps/MARK_ME_master/buttons.c:109-129 | a yaw set point in 0..359 on the 15 grid stays so; a lone LEFT or RIGHT moves it by 15 degrees modulo 360 |
| HeliButtons.YawLeftRightRestores | ence464_assignment1/apps/MARK_ME_master/buttons.c:109-129 | LEFT and RIGHT together, or one after the other, leave the yaw set point where it was |
| HeliButtons.HeightUpDownRestores | ence464_assignment1/apps/MARK_ME_master/buttons.c:87-107 | below the top, UP and DOWN together, or UP then DOWN, leave the height set point where it was |
| HeliButtons.Buttons.constructor | ence464_assignment1/apps/MARK_ME_master/buttons.c:141-176 | set points start at height 20 and yaw 0, and every button is settled at its normal level with no count and no flag |
| HeliButtons.Buttons.Update | ence464_assignment1/apps/MARK_ME_master/buttons.c:182-209 | every button is debounced by its own pin level |
| HeliButtons.Buttons.CheckButton | ence464_assignment1/apps/MARK_ME_master/buttons.c:216-227 | the queried button is checked as Check says and no other button changes |
| HeliButtons.Buttons.Poll | ence464_assignment1/apps/MARK_ME_master/buttons.c:83-133 | one task pass: each button is debounced then checked, the set points step by the PUSHED answers, and valid set points stay valid |
| HeliButtons.Buttons.PollHeight | ence464_assignment1/apps/MARK_ME_master/buttons.c:87-107 | UP and DOWN are checked in that order and the height steps by their PUSHED answers; LEFT and RIGHT are untouched |
| HeliButtons.Buttons.PollYaw | ence464_assignment1/apps/MARK_ME_master/buttons.c:109-129 | LEFT and RIGHT are checked in that order and the yaw steps by their PUSHED answers; UP and DOWN are untouched |
| HeliControl.RawOutput | ence464_assignment1/apps/MARK_ME_master/control.c:86 | with non-negative gains the unlimited output has the sign of the error and the integral when they agree |
| HeliControl.Saturate | ence464_assignment1/apps/MARK_ME_master/control.c:88-99 | the output lies within the limits, equals the value when it is already within them, and is the nearer limit otherwise |
| HeliControl.IntegralIsWeightedSum | ence464_assignment1/apps/MARK_ME_master/control.c:85 | after a run of polls the integral is its start plus the timestep times the sum of the errors |
| HeliControl.YawProductFits | ence464_assignment1/apps/MARK_ME_master/control.c:85-86 | starting from zero with yaw errors within half a turn, the integral and its product with the yaw gain fit in `int32_t` for 2386 passes |
| HeliControl.YawProductOverflows | ence464_assignment1/apps/MARK_ME_master/control.c:85-86 | a yaw error held at 180 for 2387 passes takes the product of the integral and the yaw gain past the `int32_t` range |
| HeliControl.FlooredIntegralAfter | ence464_assignment1/apps/MARK_ME_master/control.c:132-135 | with the height task's floor the integral is never negative after a poll |
| HeliControl.FloorOnlyRaises | ence464_assignment1/apps/MARK_ME_master/control.c:132-135 | the floored integral is never below the plain accumulated one |
| HeliControl.IntegralShift | ence464_assignment1/apps/MARK_ME_master/control.c:85 | the accumulated integral is monotone in its starting value |
| HeliControl.Preload | ence464_assignment1/apps/MARK_ME_master/control.c:125 | the preload is the quotient of 50 * 1000 * 100 by the integral gain |
| HeliControl.PreloadHolds | ence464_assignment1/apps/MARK_ME_master/control.c:125 | for the height gain the preload is 250000, and with zero error it makes the controller output exactly the hold duty of 50 |
| HeliControl.ActualHeightAntitone | ence464_assignment1/apps/MARK_ME_master/control.c:130 | the height is 0 at the lower calibration reading and 100 at the upper one, does not decrease as the raw reading falls, and lies in 0..100 between them |
| HeliControl.AdjustYaw | ence464_assignment1/apps/MARK_ME_master/control.c:173-181 | the measured yaw is shifted by at most one turn, and for readings in 0..359 it ends within 180 degrees of the target |
| HeliControl.DisplayYaw | ence464_assignment1/apps/MARK_ME_master/control.c:188 | the shown yaw is the yaw or one turn more, and is non-negative from -360 up |
| HeliControl.DisplayedYaw | ence464_assignment1/apps/MARK_ME_master/control.c:173-189 | the shown yaw is the reading, except a reading more than 180 below the target is shown a turn higher (10 against a target of 200 shows 370) |
| HeliControl.PiController.constructor | ence464_assignment1/apps/MARK_ME_master/control.c:35-72 | the given gains, a 100 ms timestep, limits 2 and 98, and a zero integral |
| HeliControl.PiController.GenericPoll | ence464_assignment1/apps/MARK_ME_master/control.c:82-100 | the error times the timestep is added to the integral and the output is the saturated PI output on the new integral, within the limits |
| HeliControl.PiController.PreloadIntegral | ence464_assignment1/apps/MARK_ME_master/control.c:125 | the integral becomes the preload for the controller's gain |
| HeliControl.NewControllers | ence464_assignment1/apps/MARK_ME_master/control.c:55-72 | the height controller has gains 50 and 20, the yaw controller 250 and 50, both with zero integrals |
| HeliControl.HeightPoll | ence464_assignment1/apps/MARK_ME_master/control.c:129-136 | the height is converted from the raw reading, the duty is the saturated PI output on the accumulated integral, and the integral is then floored at 0 |
| HeliControl.YawPoll | ence464_assignment1/apps/MARK_ME_master/control.c:170-189 | the yaw is adjusted to within half a turn of the target, the duty is the PI output on it, and the shown yaw is its display form |
| HeliCalibration.Ord | ence464_assignment1/apps/MARK_ME_master/calibration.c:24-28 | the enum values 0, 1 and 2 of Height, Yaw and Done |
| HeliCalibration.Next | ence464_assignment1/apps/MARK_ME_master/calibration.c:100-124 | `calibration_state++` moves to the state whose value is one higher |
| HeliCalibration.Step | ence464_assignment1/apps/MARK_ME_master/calibration.c:65-131 | one loop pass: the state moves forward by at most one; the calibration task ends exactly on the first pass that finds Done new; a reading outside the noise band below the maximum restarts the count; the maximum never falls; leaving the height step fixes the points 30 above and 1310 below the maximum; the yaw step enables the reference reset and the controllers and moves to Done |
| HeliCalibration.CountsInWindow | ence464_assignment1/apps/MARK_ME_master/calibration.c:89-101 | from the height step, up to six consecutive in-band readings only raise the count, keeping the maximum and the state |
| HeliCalibration.SeventhReadingCompletes | ence464_assignment1/apps/MARK_ME_master/calibration.c:89-101 | because the count is compared before it is incremented, six in-band readings leave the height step running and the seventh completes it with the points set 30 above and 1310 below the maximum |
| HeliCalibration.RunSplit | ence464_assignment1/apps/MARK_ME_master/calibration.c:65-132 | running the loop over two batches of readings is running it over their concatenation |
| HeliCalibration.StatesInOrder | ence464_assignment1/apps/MARK_ME_master/calibration.c:65-132 | over any run the state never moves backwards, and Done is final |
| HeliCalibration.CalibrationTask.constructor | ence464_assignment1/apps/MARK_ME_master/calibration.c:62-63 | the height step with the last state one below it and nothing calibrated |
| HeliCalibration.CalibrationTask.Poll | ence464_assignment1/apps/MARK_ME_master/calibration.c:65-131 | one pass changes the calibration state as Step says |
| HeliRigTest.AdcHeight | ence464_assignment1/apps/heli_rig_test_v2/heli_rig_test_v2.c:200-204 | the height lies in 0..100: 100 at or below 1800, 0 at or above 2300, and (2300 - raw) / 5 between |
| HeliRigTest.AdcHeightAntitone | ence464_assignment1/apps/heli_rig_test_v2/heli_rig_test_v2.c:200-204 | a larger raw reading never gives a greater height |
| HeliRigTest.RigQuad.constructor | ence464_assignment1/apps/heli_rig_test_v2/heli_rig_test_v2.c:55-63 | the position starts at zero with both phases low |
| HeliRigTest.RigQuad.QuadInterrupt | ence464_assignment1/apps/heli_rig_test_v2/heli_rig_test_v2.c:60-82 | the position moves exactly as the main program's encoder step and the phases are remembered |
| RobotSensor.CountValid | robocup/arduino_code/32_tune_arm/Sensor.cpp:8-16 | the number of used entries never exceeds the buffer length |
| RobotSensor.AverageBetween | robocup/arduino_code/32_tune_arm/Sensor.cpp:4-18 | when every used entry lies in [lo, hi] with lo non-negative, so does the truncated average |
| RobotSensor.SumValidBounds | robocup/arduino_code/32_tune_arm/Sensor.cpp:8-16 | the sum of the used entries lies between their count times the lowest and times the highest bound |
| RobotSensor.NoMarkerAveragesAll | robocup/arduino_code/32_tune_arm/Sensor.cpp:8-16 | with no entry at the -1 marker every entry is counted and summed |
| RobotSensor.GetAverageOfBuffer | robocup/arduino_code/32_tune_arm/Sensor.cpp:4-18 | the loop returns the truncated mean of the entries other than -1 |
| RobotSensor.Insert | robocup/arduino_code/32_tune_arm/Sensor.cpp:20-24 | inserting keeps every entry and adds the new one |
| RobotSensor.SortDesc | robocup/arduino_code/32_tune_arm/Sensor.cpp:32 | the sorted buffer is a permutation of the buffer |
| RobotSensor.InsertDescending | robocup/arduino_code/32_tune_arm/Sensor.cpp:20-24 | inserting into a descending sequence keeps it descending |
| RobotSensor.SortDescending | robocup/arduino_code/32_tune_arm/Sensor.cpp:20-32 | the sorted buffer is in descending order, the order the comparator gives |
| RobotSensor.CountAtLeast | robocup/arduino_code/32_tune_arm/Sensor.cpp:33 | a count of entries never exceeds the length |
| RobotSensor.CountAtMost | robocup/arduino_code/32_tune_arm/Sensor.cpp:33 | a count of entries never exceeds the length |
| RobotSensor.InsertCounts | robocup/arduino_code/32_tune_arm/Sensor.cpp:20-24 | inserting adds one to the count of entries at least (at most) m exactly when the new entry is |
| RobotSensor.SortCounts | robocup/arduino_code/32_tune_arm/Sensor.cpp:32 | sorting changes no count of entries at least or at most a value |
| RobotSensor.PrefixAtLeast | robocup/arduino_code/32_tune_arm/Sensor.cpp:33 | k leading entries at least m give at least k such entries |
| RobotSensor.SuffixAtMost | robocup/arduino_code/32_tune_arm/Sensor.cpp:33 | k trailing entries at most m give at least k such entries |
| RobotSensor.MedianIsMedian | robocup/arduino_code/32_tune_arm/Sensor.cpp:26-34 | the middle entry of the sorted copy is one of the five entries, with at least three entries at or above it and three at or below it |
| RobotSensor.GetMedianOfBuffer | robocup/arduino_code/32_tune_arm/Sensor.cpp:26-34 | the copy is sorted and its middle entry returned, leaving the caller's buffer as it was |
| RobotSensor.Classify | robocup/arduino_code/32_tune_arm/Sensor.cpp:67-92 | the raw and averaged values are kept; a medium sensor finds an object exactly for averages in 80..600 and a long one for 80..490; a found object has a positive distance and no object has distance 0 |
| RobotSensor.ClassifyDistanceAntitone | robocup/arduino_code/32_tune_arm/Sensor.cpp:77-84 | a larger average (a nearer object) never gives a larger distance |
| RobotSensor.DivAntitone | robocup/arduino_code/32_tune_arm/Sensor.cpp:77-84 | dividing a non-negative constant by a larger positive divisor never gives more |
| RobotSensor.FoundCloserMonotone | robocup/arduino_code/32_tune_arm/Sensor.cpp:103-105 | an object found within one cut-off is found within any larger one, and is found at all |
| RobotSensor.Sensor.constructor | robocup/arduino_code/32_tune_arm/Sensor.cpp:36-49 | the pin and type are recorded and the buffer is filled with 0 |
| RobotSensor.Sensor.GetReading | robocup/arduino_code/32_tune_arm/Sensor.cpp:51-94 | a proximity sensor reports an object exactly when the pin is low and leaves the buffer alone; the others store the reading at the index, advance it modulo five, and classify the new average |
| RobotSensor.ValidAfterWrite | robocup/arduino_code/32_tune_arm/Sensor.cpp:61-67 | once a reading is stored the buffer has a used entry, so the average divides by a positive count |
| RobotVision.GetGenericReadings | robocup/arduino_code/31_rewire_and_imu/Vision.cpp:4-28 | the short sensors are the bottom pair and the tall ones the top pair; for LEFT the same-side readings are the left ones, for any other side the right ones |
| RobotVision.GenericReadingsMirror | robocup/arduino_code/31_rewire_and_imu/Vision.cpp:22-27 | asking from the right swaps the same-side and opposite-side readings of asking from the left, and NEITHER is arranged as RIGHT |
| RobotVision.GetClosestSide | robocup/arduino_code/31_rewire_and_imu/Vision.cpp:30-42 | LEFT exactly when the left sensor sees an object strictly nearer than any on the right, RIGHT exactly when the right one sees one no farther than any on the left, NEITHER exactly when neither sees one |
| RobotVision.ClosestSideSwap | robocup/arduino_code/31_rewire_and_imu/Vision.cpp:30-42 | swapping the left and right sensors swaps the answer, except on a tie |
| RobotVision.FoundOnBothSides | robocup/arduino_code/31_rewire_and_imu/Vision.cpp:44-51 | true exactly when both sensors at the height see an object |
| RobotVision.FoundOnBothSidesWithin | robocup/arduino_code/31_rewire_and_imu/Vision.cpp:53-62 | true exactly when both see an object and their distances differ by at most the threshold |
| RobotVision.BothSidesThresholdNarrows | robocup/arduino_code/31_rewire_and_imu/Vision.cpp:44-62 | passing with a threshold implies passing with any larger one and passing the check without threshold |
| RobotVision.FoundAt | robocup/arduino_code/31_rewire_and_imu/Vision.cpp:64-74 | true exactly when the sensor on the side sees an object within the threshold of the target distance |
| RobotVision.Found | robocup/arduino_code/31_rewire_and_imu/Vision.cpp:80-82 | true exactly when the sensor at the height on the side (the right one for any side but LEFT) sees an object |
| RobotVision.FoundOverloadsNested | robocup/arduino_code/31_rewire_and_imu/Vision.cpp:64-82 | near the target implies within target plus threshold, which implies found |
| RobotMovement.DecreaseSpeed | robocup/arduino_code/07_motor_tuner/Movement.cpp:158-168 | one step slower, with STOPPED staying STOPPED, so a valid speed stays valid and never grows |
| RobotMovement.DecreaseSpeedSlows | robocup/arduino_code/07_motor_tuner/Movement.cpp:129-168 | with speeds ordered as the defaults are, one or two steps slower never gives a larger pulse offset |
| RobotMovement.MotorWrite | robocup/arduino_code/07_motor_tuner/Movement.cpp:118-156 | nothing is written exactly when the drive is uninitialised and the speed is not STOPPED; the left motor drives the first servo unless the motors are swapped; the pulse is 1500 plus the polarity-corrected direction times the speed's offset |
| RobotMovement.MotorWriteStopAndPolarity | robocup/arduino_code/07_motor_tuner/Movement.cpp:123-146 | STOPPED writes 1500 whatever the direction, and swapping a motor's polarity mirrors its pulse about 1500 |
| RobotMovement.MoveMotorsWritesBoth | robocup/arduino_code/07_motor_tuner/Movement.cpp:112-155 | once initialised each servo holds its own motor's pulse, whichever way round the motors are wired |
| RobotMovement.SpinOpposite | robocup/arduino_code/07_motor_tuner/Movement.cpp:60-63 | with equal polarities, spinning drives the two motors' pulses mirrored about 1500 |
| RobotMovement.TurnSlowsTurnSide | robocup/arduino_code/07_motor_tuner/Movement.cpp:46-58 | a forward turn runs the motor on the turn side no faster than the other, which keeps the asked speed |
| RobotMovement.Movement.constructor | robocup/arduino_code/07_motor_tuner/Movement.cpp:11-19 | nothing configured and nothing written |
| RobotMovement.Movement.MoveMotor | robocup/arduino_code/07_motor_tuner/Movement.cpp:118-156 | the servos change exactly by the write MotorWrite describes |
| RobotMovement.Movement.MoveMotors4 | robocup/arduino_code/07_motor_tuner/Movement.cpp:112-116 | the left motor then the right motor is moved |
| RobotMovement.Movement.MoveCommand | robocup/arduino_code/07_motor_tuner/Movement.cpp:96-107 | a command whose right half is unset drives both motors with its left half, otherwise each motor with its own half |
| RobotMovement.Movement.Together | robocup/arduino_code/07_motor_tuner/Movement.cpp:41-44 | both motors get the same speed and direction |
| RobotMovement.Movement.SlightTurn | robocup/arduino_code/07_motor_tuner/Movement.cpp:46-51 | the motor on the turn side runs one step slower, the other at the speed |
| RobotMovement.Movement.LargeTurn | robocup/arduino_code/07_motor_tuner/Movement.cpp:53-58 | the motor on the turn side runs two steps slower, the other at the speed |
| RobotMovement.Movement.Spin | robocup/arduino_code/07_motor_tuner/Movement.cpp:60-63 | the motor on the spin side runs in reverse and the other forward, at the same speed |
| RobotMovement.Movement.Stop | robocup/arduino_code/07_motor_tuner/Movement.cpp:65-68 | both servos hold 1500, configured or not |
| RobotMovement.Movement.Initialise | robocup/arduino_code/07_motor_tuner/Movement.cpp:21-34 | the configuration is stored, marked initialised, and both servos hold 1500 |
| RobotMovement.Movement.InitialiseDefault | robocup/arduino_code/07_motor_tuner/Movement.cpp:36-39 | the configuration uses speeds 200, 300 and 500, which are ordered, and both servos hold 1500 |
| RobotArm.Ramp | robocup/arduino_code/31_rewire_and_imu/Arm.cpp:111-121 | the pulses written on the way to the target: as many as the distance, each past the start and not beyond the target, one step apart, the first one step from the start, and the last the target |
| RobotArm.Arm.constructor | robocup/arduino_code/31_rewire_and_imu/Arm.cpp:24-106 | not initialised, the elbow remembered at 1500, nothing written |
| RobotArm.Arm.ElbowMoveToMicroseconds | robocup/arduino_code/31_rewire_and_imu/Arm.cpp:104-124 | before initialisation or at the target nothing happens; otherwise the ramp to the target is written and the target remembered |
| RobotArm.Arm.ClawOpenNoDelay | robocup/arduino_code/31_rewire_and_imu/Arm.cpp:49-57 | the claw is opened only once initialised |
| RobotArm.Arm.ClawClose | robocup/arduino_code/31_rewire_and_imu/Arm.cpp:59-68 | the claw is closed only once initialised |
| RobotArm.Arm.BackToStarting | robocup/arduino_code/31_rewire_and_imu/Arm.cpp:82-86 | the claw is opened if initialised, then the elbow is written raised |
| RobotArm.Arm.Initialise | robocup/arduino_code/31_rewire_and_imu/Arm.cpp:28-41 | the arm is sent home and then marked initialised, so on the first call the claw is not opened |
| RobotArm.Arm.ElbowPickup | robocup/arduino_code/31_rewire_and_imu/Arm.cpp:70-74 | once initialised the elbow ramps up to 1900, which is remembered |
| RobotArm.Arm.ElbowPutDown | robocup/arduino_code/31_rewire_and_imu/Arm.cpp:76-80 | once initialised the elbow ramps down to 510, which is remembered |
| RobotArm.ElbowWrites | robocup/arduino_code/31_rewire_and_imu/Arm.cpp:119 | one elbow write per pulse, in order |
| RobotArm.ElbowWritesAppend | robocup/arduino_code/31_rewire_and_imu/Arm.cpp:114-121 | the writes of two ramps in a row are the writes of each in turn |
| RobotArm.RampStep | robocup/arduino_code/31_rewire_and_imu/Arm.cpp:114-119 | one loop pass writes the next pulse, and the rest of the ramp follows from it |
| RobotArm.StartUpThenPickup | robocup/arduino_code/31_rewire_and_imu/Arm.cpp:28-124 | start-up writes the raised pulse but leaves 1500 remembered, so the first pick-up writes 400 pulses from 1501 up to 1900 |
| RobotBrain.StateRecord.Initialise | robocup/arduino_code/32_tune_arm/Brain.cpp:487-493 | the state gets the action, the check and the success count and is marked initialised; its flags and watchdog are kept |
| RobotBrain.StateRecord.SetResetSensorsPost | robocup/arduino_code/32_tune_arm/Brain.cpp:495-497 | only the flush flag is set |
| RobotBrain.StateRecord.SetAutomaticTransision | robocup/arduino_code/32_tune_arm/Brain.cpp:499-501 | only the automatic-transition flag is set |
| RobotBrain.StateRecord.AddWatchdog | robocup/arduino_code/32_tune_arm/Brain.cpp:503-507 | the watchdog's target and timeout are set and enabled, nothing else changes |
| RobotBrain.AfterStateChange | robocup/arduino_code/32_tune_arm/Brain.cpp:595-659 | a change into an uninitialised state stops the program with nothing else changed; otherwise the last state is the old current one, the current one is the target, the time is stamped, the sensors are flushed when the old state asks for it, and the target's entry action runs |
| RobotBrain.FirstFiring | robocup/arduino_code/32_tune_arm/Brain.cpp:585-592 | the first state in declaration order, other than the current one, whose check exists and passes, or none when there is no such state |
| RobotBrain.AfterScanExpiry | robocup/arduino_code/32_tune_arm/Brain.cpp:573-578 | a scanning state's temporary scan time, once run out, sends the robot back to driving forward with the scan time cleared, and nothing changes otherwise |
| RobotBrain.AfterConditional | robocup/arduino_code/32_tune_arm/Brain.cpp:581-592 | the check scan keeps the state table and every index valid |
| RobotBrain.AfterStateTick | robocup/arduino_code/32_tune_arm/Brain.cpp:568-593 | a tick keeps the state table and every index valid |
| RobotBrain.WatchdogPriority | robocup/arduino_code/32_tune_arm/Brain.cpp:569-572 | an expired watchdog decides the tick whatever the checks answer: the robot moves to the watchdog's target |
| RobotBrain.AutomaticSkipsScan | robocup/arduino_code/32_tune_arm/Brain.cpp:581-583 | a state that moves on by itself, without a watchdog, is never left by a check |
| RobotBrain.ConditionalPicksFirst | robocup/arduino_code/32_tune_arm/Brain.cpp:585-592 | without a watchdog the tick moves to state i exactly when i is the first passing candidate, and stays put when no check passes |
| RobotBrain.ScanExpiryThenConditional | robocup/arduino_code/32_tune_arm/Brain.cpp:573-592 | the scan expiry does not end the tick, so driving forward is entered and left again for the first passing check in the same tick |
| RobotBrain.Run | robocup/arduino_code/32_tune_arm/Brain.cpp:522-593 | a run of ticks keeps every index valid |
| RobotBrain.ConfiguredNeverHalts | robocup/arduino_code/32_tune_arm/Brain.cpp:609-620 | with the table the set-up builds no watchdog or check leads into an uninitialised state, so the program never stops and the table never changes |
| RobotBrain.Brain.constructor | robocup/arduino_code/32_tune_arm/Brain.cpp:37-39 | fourteen blank states and everything else zero |
| RobotBrain.Brain.StateChange | robocup/arduino_code/32_tune_arm/Brain.cpp:595-659 | the brain changes as AfterStateChange says |
| RobotBrain.Brain.StateTick | robocup/arduino_code/32_tune_arm/Brain.cpp:568-593 | the brain changes as AfterStateTick says |
| RobotBrain.Brain.ScanExpiry | robocup/arduino_code/32_tune_arm/Brain.cpp:573-578 | the brain changes as AfterScanExpiry says |
| RobotBrain.Brain.ConditionalScan | robocup/arduino_code/32_tune_arm/Brain.cpp:581-592 | the brain changes as AfterConditional says |
| RobotBrain.Brain.InitialiseUnchecked | robocup/arduino_code/32_tune_arm/Brain.cpp:453-457 | the five driving and scanning states get an entry action and no check |
| RobotBrain.Brain.InitialiseChecked | robocup/arduino_code/32_tune_arm/Brain.cpp:458-466 | the nine approach, pick-up and avoidance states get an entry action and a check |
| RobotBrain.Brain.AddWatchdogs | robocup/arduino_code/32_tune_arm/Brain.cpp:468-474 | the six watchdogs of the configured table are added and no other state changes |
| RobotBrain.Brain.SetFlushes | robocup/arduino_code/32_tune_arm/Brain.cpp:476-480 | the five flushing states are flagged and no other state changes |
| RobotBrain.Brain.InitialiseStates | robocup/arduino_code/32_tune_arm/Brain.cpp:452-485 | the table becomes the configured one and a forced change enters driving forward, with its entry action run once |
| ParticleUtils.ScoreArray | enmt482-assignment-1/final_abc/part_b/utils.py:73-92 | given the argsort of the array, each element's score is its rank: the scores are a permutation of 0..n-1 that undoes the argsort, and a smaller element gets a smaller score |
| ParticleUtils.InverseIsPermutation | enmt482-assignment-1/final_abc/part_b/utils.py:88-92 | an array that undoes a permutation is itself a permutation, and the permutation undoes it in turn |
| ParticleUtils.InverseOrdersElements | enmt482-assignment-1/final_abc/part_b/utils.py:88-92 | inverting the sorting permutation orders the elements: a smaller element has a smaller score |
| ParticleUtils.DocumentedExample | enmt482-assignment-1/final_abc/part_b/utils.py:80-86 | the docstring's example: the argsort of (2, 5, 3, 1) is (3, 0, 2, 1) and the scores are (1, 3, 2, 0) |
| JsUtils.DigitChar | seng365_assignment1/app/utils/utils.js:11 | the character of a decimal digit denotes that digit |
| JsUtils.Digits | seng365_assignment1/app/utils/utils.js:11 | a natural number is written as a non-empty string of decimal digits |
| JsUtils.DigitsRoundTrip | seng365_assignment1/app/utils/utils.js:11 | reading the digits back gives the number |
| JsUtils.NumberToString | seng365_assignment1/app/utils/utils.js:11 | for a number below 10^21 in magnitude, a non-negative one is its digits and a negative one is a minus sign before the digits of its magnitude |
| JsUtils.NumberRoundTrip | seng365_assignment1/app/utils/utils.js:11 | reading a number's text back gives the number |
| JsUtils.ParseText | seng365_assignment1/app/utils/utils.js:1-13 | a string comes back unchanged, a number as its decimal text, a boolean as true or false, a plain object as `[object Object]`, a one-element array as its element's text; the result is empty exactly for undefined, null, the empty string, the empty array and a one-element array whose element gives the empty string |
| JsUtils.ElementTextsAt | seng365_assignment1/app/utils/utils.js:11 | an array's `toString` writes element i as `parseText` writes element i |
| JsUtils.ParseTextIdempotent | seng365_assignment1/app/utils/utils.js:1-13 | parsing the text of a parsed value changes nothing |
| JsUtils.ParseTextArray | seng365_assignment1/app/utils/utils.js:15-21 | a new array of the same length holding the parsed text of each element in order, which joined with commas is the text of the whole array |
| CategoryModel.FindById | seng365_assignment1/app/models/category.model.js:19-26 | the index of the first category with the id, and none exactly when no category has it |
| CategoryModel.FindByName | seng365_assignment1/app/models/category.model.js:28-35 | the index of the first category with the name, and none exactly when no category has it |
| CategoryModel.GetCategoryName | seng365_assignment1/app/models/category.model.js:19-26 | null exactly when no category has the id, otherwise the name of the first category with that id |
| CategoryModel.GetCategoryId | seng365_assignment1/app/models/category.model.js:28-35 | -1 when no category has the name; when one has, the id of the first category with that name; any answer other than -1 is the id of a category with that name |
| CategoryModel.LookupsRoundTrip | seng365_assignment1/app/models/category.model.js:19-35 | with unique ids and names, looking up a name by id and then the id by that name gives the id back, and the other way round |
| CategoryModel.MissingIdAmbiguous | seng365_assignment1/app/models/category.model.js:28-35 | a category whose id is -1 gives the same answer as a missing name |
| AesLength.LengthRoundUp | ence464_assignment1/SW-TM4C-2.2.0.295/examples/boards/dk-tm4c129x/aes_cbc_encrypt/aes_cbc_encrypt.c:144-158 | the result is a multiple of 16, and a length already a multiple of 16 comes back unchanged |
| AesLength.RoundsUpToNextBlock | ence464_assignment1/SW-TM4C-2.2.0.295/examples/boards/dk-tm4c129x/aes_cbc_encrypt/aes_cbc_encrypt.c:144-158 | below the last block boundary under 2^32 the result is the least multiple of 16 at or above the length |
| AesLength.RoundUpIdempotent | ence464_assignment1/SW-TM4C-2.2.0.295/examples/boards/dk-tm4c129x/aes_cbc_encrypt/aes_cbc_encrypt.c:144-158 | rounding twice is rounding once |
| AesLength.LargeLengthWrapsToZero | ence464_assignment1/SW-TM4C-2.2.0.295/examples/boards/dk-tm4c129x/aes_cbc_encrypt/aes_cbc_encrypt.c:156 | in 32-bit arithmetic any length above the last block boundary below 2^32 rounds up to 0 |
| StencilBlock.IdxCoordinates | ence464_project2_group14/src/block.c:137-139 | the flat index (z*n + y)*n + x of a cell in the block lies in the block and gives back its x, y and z |
| StencilBlock.CoordinatesIdx | ence464_project2_group14/src/block.c:137-139 | every flat index of the block is the index of exactly the cell whose coordinates it decodes to |
| StencilBlock.IdxShifts | ence464_project2_group14/src/block.c:141-149 | the neighbours one step along x, y and z sit at flat offsets 1, n and n*n |
| StencilBlock.NeighboursInBlock | ence464_project2_group14/src/block.c:25-152 | every neighbour a written cell reads is inside the block or inside the face array it uses, so no access goes out of bounds |
| StencilBlock.Sweep | ence464_project2_group14/src/block.c:21-152 | one sweep yields a block of n*n*n values |
| StencilBlock.Iterate | ence464_project2_group14/src/block.c:19-154 | after at least one iteration the current and next blocks hold the same values, as the closing copy makes them |
| StencilBlock.FaceStep | ence464_project2_group14/src/block.c:25-121 | storing the two face cells of one loop step extends the face pass's progress by one step and leaves every other cell as it was |
| StencilBlock.FaceRowDone | ence464_project2_group14/src/block.c:25-121 | finishing the inner loop over a face moves the progress on to the next row |
| StencilBlock.XFaceCells | ence464_project2_group14/src/block.c:25-55 | one step of the x-face loop stores the update of the cells at x = n-1 and x = 0 of row (y, z), and changes nothing else, computed with the intended coefficient 1/6 where the source writes the integer `1 / 6` (first row of Findings) |
| StencilBlock.XFaceCell | ence464_project2_group14/src/block.c:28-53 | on an x face, the update takes the missing neighbour from the x face array and the other five from the block |
| StencilBlock.YFaceCells | ence464_project2_group14/src/block.c:57-88 | one step of the y-face loop stores the update of the cells at y = n-1 and y = 0 of column (x, z), and changes nothing else, computed with the intended coefficient 1/6 where the source writes the integer `1 / 6` (first row of Findings) |
| StencilBlock.YFaceCell | ence464_project2_group14/src/block.c:60-86 | on a y face, the update takes the missing neighbour from the y face array and the other five from the block |
| StencilBlock.ZFaceCells | ence464_project2_group14/src/block.c:90-121 | one step of the z-face loop stores the update of the cells at z = n-1 and z = 0 of column (x, y), and changes nothing else, computed with the intended coefficient 1/6 where the source writes the integer `1 / 6` (first row of Findings) |
| StencilBlock.ZFaceCell | ence464_project2_group14/src/block.c:93-119 | on a z face, the update takes the missing neighbour from the z face array and the other five from the block |
| StencilBlock.FaceRow | ence464_project2_group14/src/block.c:25-121 | the inner loop of a face pass updates that row's two face cells and keeps the progress invariant |
| StencilBlock.FacePass | ence464_project2_group14/src/block.c:25-121 | a face pass stores the update of exactly the cells on its two faces, apart from edges and corners, and leaves every other cell of next unchanged, computed with the intended coefficient 1/6 where the source writes the integer `1 / 6` (first row of Findings) |
| StencilBlock.InteriorStep | ence464_project2_group14/src/block.c:134-152 | storing one interior cell extends the interior pass's progress by one cell and leaves every other cell as it was |
| StencilBlock.InteriorCell | ence464_project2_group14/src/block.c:137-149 | one step of the interior loop, with its offset z_and_y_offset, stores the update of cell (x, y, z) and changes nothing else, computed with the intended coefficient 1/6 where the source writes the integer `1 / 6` (first row of Findings) |
| StencilBlock.InteriorRow | ence464_project2_group14/src/block.c:138-150 | the x loop of the interior updates the interior cells of row (y, z) |
| StencilBlock.InteriorPlane | ence464_project2_group14/src/block.c:136-151 | the y loop of the interior updates the interior cells of plane z |
| StencilBlock.InteriorPass | ence464_project2_group14/src/block.c:134-152 | the interior pass stores the update of exactly the cells off every face and leaves the rest of next unchanged, computed with the intended coefficient 1/6 where the source writes the integer `1 / 6` (first row of Findings) |
| StencilBlock.SweepBlock | ence464_project2_group14/src/block.c:21-152 | the three face passes and the interior pass together store in next exactly one sweep of the block, with edges and corners unchanged, computed with the intended coefficient 1/6 where the source writes the integer `1 / 6` (first row of Findings) |
| StencilBlock.ProcessBlock | ence464_project2_group14/src/block.c:8-155 | after the requested number of iterations, each a sweep followed by the copy of next over current, both blocks are what the iteration function gives, computed with the intended coefficient 1/6 where the source writes the integer `1 / 6` (first row of Findings) |
| StencilBlock.WrittenExactlyOffEdges | ence464_project2_group14/src/block.c:25-152 | a cell is written exactly when it does not lie on two boundary planes at once, so edges and corners are left alone |
| StencilBlock.WrittenOnce | ence464_project2_group14/src/block.c:25-152 | the x-face, y-face, z-face and interior loops update disjoint sets of cells, so every written cell is written once per sweep |
| StencilBlock.FixedPointsAreSolutions | ence464_project2_group14/src/block.c:141-149 | with the coefficient 1/6, a block is unchanged by a sweep if and only if every written cell satisfies the discrete Poisson equation (neighbour sum minus six times the cell equals the source) |
| StencilBlock.SolutionStays | ence464_project2_group14/src/block.c:19-154 | a block that solves the equation stays unchanged for any number of iterations |
| StencilBlock.AsWrittenSweepZeroes | ence464_project2_group14/src/block.c:141 | with the coefficient written as the integer quotient 1 / 6, which is 0, every written cell of a sweep becomes 0 |
| StencilBlock.ConstantSolves | ence464_project2_group14/src/block.c:141-149 | a constant block with constant faces and a zero source solves the equation |
| StencilBlock.AsWrittenBreaksSolution | ence464_project2_group14/src/block.c:141 | for n >= 3, a constant non-zero solution is kept by the intended sweep, but the sweep as written sets its centre cell to 0 |
| StencilMap.Reference | ence464_project2_group14/src/test.c:15-47 | a padded slot points somewhere exactly when its z lies in the block and it is not an x-y corner; the middle points at its own cell and the x and y pads at the mirrored cell one step inside the block |
| StencilMap.ReferenceMap | ence464_project2_group14/src/test.c:13 | the intended map has one slot for each cell of the (n+2)^3 padded block |
| StencilMap.MiddleStep | ence464_project2_group14/src/test.c:19-21 | mapping one middle slot extends the middle pass's progress and leaves every other slot as it was |
| StencilMap.MapMiddleRow | ence464_project2_group14/src/test.c:18-22 | the x loop maps row (y, z) of the middle |
| StencilMap.MapMiddlePlane | ence464_project2_group14/src/test.c:17-23 | the y loop maps plane z of the middle |
| StencilMap.MapMiddle | ence464_project2_group14/src/test.c:16-24 | slot (x+1, y+1, z+1) points at cell (x, y, z) for every cell of the block, and every other slot is unchanged |
| StencilMap.PadStep | ence464_project2_group14/src/test.c:28-47 | filling the two slots of one pad loop step extends the pad pass's progress and leaves every other slot as it was |
| StencilMap.PadRowDone | ence464_project2_group14/src/test.c:28-47 | finishing the inner loop of a pad pass moves the progress on to the next z |
| StencilMap.YPadArithmetic | ence464_project2_group14/src/test.c:42-45 | the y pad's slot and target expressions are the flat indices of the padded slot and the block cell they denote |
| StencilMap.XPadCells | ence464_project2_group14/src/test.c:30-34 | one step of the x-pad loop points slot (0, y+1, z+1) at cell (1, y, z) and slot (n+1, y+1, z+1) at cell (n-2, y, z), and changes nothing else |
| StencilMap.YPadCellsAsWritten | ence464_project2_group14/src/test.c:41-45 | one step of the y-pad loop as written fills the slots at padded x = x rather than x+1, pointing them at rows 1 and n-1 |
| StencilMap.YPadCells | ence464_project2_group14/src/test.c:41-45 | the intended y-pad step points slot (x+1, 0, z+1) at cell (x, 1, z) and slot (x+1, n+1, z+1) at cell (x, n-2, z), and changes nothing else |
| StencilMap.MapPadRow | ence464_project2_group14/src/test.c:29-35 | the inner loop of a pad pass fills both pads of one z |
| StencilMap.MapPads | ence464_project2_group14/src/test.c:28-47 | a pad pass points exactly its pad slots at their targets and leaves every other slot unchanged |
| StencilMap.MapPointers | ence464_project2_group14/src/test.c:5-47 | the pointer table built from calloc's NULLs, the middle, the x pads and the corrected y pads is exactly the intended map |
| StencilMap.MapYPadsAsWritten | ence464_project2_group14/src/test.c:39-47 | the y-pad pass as written fills the shifted slots with rows 1 and n-1 and leaves every other slot unchanged |
| StencilMap.MapInBounds | ence464_project2_group14/src/test.c:15-47 | every pointer of the intended map points inside the n*n*n block |
| StencilMap.MiddleMapsEachCell | ence464_project2_group14/src/test.c:16-24 | each block cell is the target of its middle slot, and distinct cells have distinct targets |
| StencilMap.PadsMirror | ence464_project2_group14/src/test.c:28-47 | each x and y pad holds the same pointer as the slot two steps inward, the mirror image across the boundary cell |
| StencilMap.ZPadsNull | ence464_project2_group14/src/test.c:49-58 | the z pads stay NULL, as the z loop is commented out |
| StencilMap.AsWrittenYPadsShifted | ence464_project2_group14/src/test.c:42 | as written, the y pass fills the x-y corner slot (0, 0, 1), which should stay NULL, and misses slot (n, 0, 1), which should be filled |
| StencilMap.AsWrittenPositiveYPadRow | ence464_project2_group14/src/test.c:45 | as written, the positive y pad points at row n-1, but the mirror image is row n-2 |

## Left out

- Peripheral I/O is not modelled: GPIO set-up, ADC and QEI drivers, PWM and servo hardware, serial and OLED output, `printf`, delays and the FreeRTOS tasks, queues and semaphores around the helicopter code; reads are parameters and writes are recorded values.
- The capture-the-flag handshake, scorecard display and main loop, and the racer's and hat's main programs and radio set-up are I/O loops and are left out; only the payload codec and the channel number are modelled.
- Header files are not part of this model (among them `ctf_gamehost.h`, `buttons5.h`, `Sensor.h`, `Brain.h` and the racer's pin maps); constants they hold are taken from the values the source files and their comments use.
- Floating point: the stencil's `double` values are modelled as exact reals, so rounding is not modelled; the pedometer's miles conversion is computed on reals before the truncation to `int32_t`; the rig test's display of the yaw in degrees (heli_rig_test_v2.c:228) is left out.
- The `int16_t` fields of the helicopter controller's configuration and the `int8_t` counter of the calibration task are modelled as unbounded integers; the ranges the rig produces keep them far from overflow.
- HeliControl.PiController.GenericPoll: the `int32_t` integral and its product with the integral gain (control.c:85-86) are modelled as unbounded integers. Signed overflow is undefined in C, so no wrap-around is modelled. The yaw integral has no floor: YawProductFits and YawProductOverflows show that the product stays in range for 2386 passes and can leave it after 2387 (about four minutes at 10 Hz with the error held at half a turn).
- StepCounter.StepCounterState.GetAverageOfCircBuf: the source adds the `uint32_t` samples into an `int32_t` sum (stepCounter.c:79-86); the model adds them without bound. The sum exceeds the `int32_t` range only for samples above about 4.3 * 10^8, far beyond the squared norm of the accelerometer's ±2 g readings. The circular buffer module itself is not part of this model; its five slots are modelled by an array and a write index.
- StepDisplay.FormatSteps: the miles value is stated as rounded to nearest for non-negative step counts only; the step count never goes below zero (ChangedCount), and for a negative count C's truncation would round toward zero instead.
- JsUtils.NumberToString: only numbers below 10^21 in magnitude are modelled (the `PlainInteger` type); larger ones, which JavaScript writes in exponent form such as `1e+21`, are not.
- JsUtils.ParseText: non-integral numbers (written as `1.5`, with JavaScript's shortest round-trip digits), `NaN` and `Infinity` are not modelled, and neither is an object with its own `toString` property (which a request body can carry and on which the call throws); plain objects and arrays are modelled.
- StencilBlock.ProcessBlock: `process_block` takes `block_size_minus_1`, `block_size_squared` and `block_size_bytes` as parameters independent of `block_size` (block.c:14-17); the model derives all three from the block size, so a caller passing inconsistent values is not modelled.
- StencilBlock.SweepBlock: the loop methods compute with the intended coefficient 1/6; the as-written integer `1 / 6` enters the model only through the reference functions Sweep and Iterate, whose as-written behaviour AsWrittenSweepZeroes and AsWrittenBreaksSolution state.
- The stencil's `unsigned int` index arithmetic is modelled as unbounded integers; for the block sizes the loops admit no index wraps.
- The edge and corner cells of a block, marked as a TODO in `process_block`, are never written; the model states exactly that.
- `process_block` does not compile as written (a trailing comma after its last parameter); the model follows the evident signature without it.
- `test_single_threaded` allocates a `dest` block it never uses, prints the padded map and falls off its end without returning a value; those parts are left out.
- StencilMap.MapPointers: requires a block size of at least 2, because the positive x pad refers to cell n-2, which for n = 1 would be an unsigned wrap to an address outside the block.
- RobotSensor.GetAverageOfBuffer: requires at least one used entry, because with every entry at the unused marker -1 the source divides by zero.
- `Movement::test` (Movement.cpp:70-94) is a timed demonstration sequence of delays and serial output; it is left out.
- `ArmClass::clawOpen` (Arm.cpp:43-47) and `ArmClass::clawDelayAndStopOnError` (Arm.cpp:88-102) wait on the clock and read a feedback pin in a timed loop; they are left out.
- The brain's state entry actions and transition checks are C++ function pointers; the model keeps only whether each is present and, for a tick, which checks pass, given as a parameter. The sensor tick and logging called from the main loop are left out.
- `millis()` is a parameter of the brain's methods; its wrap-around is modelled by 32-bit unsigned subtraction.
- The ranking utility is given the argsort of its array as a parameter, since `np.argsort` belongs to numpy; its defining property (a permutation that orders the array) is stated as a predicate.
- The category model's database queries that load the list are left out; the lookups take the list as a parameter.

## Findings

| source | as written | input that shows it | evidently intended | confidence | as-written member | corrected member |
|---|---|---|---|---|---|---|
| ence464_project2_group14/src/block.c:141 | the coefficient `1 / 6` is integer division, so every written cell becomes 0 (likewise at lines 32, 44, 65, 77, 98 and 110) | any block; a constant solution c != 0 with zero source and n = 3 loses its centre cell | the real coefficient 1/6, under which a block is a fixed point exactly when it solves the discrete Poisson equation | not executed | StencilBlock.AsWrittenBreaksSolution | StencilBlock.FixedPointsAreSolutions |
| ence464_project2_group14/src/test.c:42 | the y pads are stored at padded x = x, without the +1 offset the middle and the x pads use | n = 2: slot (0, 0, 1), an x-y corner, is filled and slot (2, 0, 1) stays NULL | slot (x+1, 0, z+1) and slot (x+1, n+1, z+1) | not executed | StencilMap.AsWrittenYPadsShifted | StencilMap.MapPointers |
| ence464_project2_group14/src/test.c:45 | the positive y pad points at row n-1, the boundary row itself | n = 3, x = 0, z = 0: the slot points at row 2 instead of row 1 | row n-2, the mirror image, as the positive x pad does | not executed | StencilMap.AsWrittenPositiveYPadRow | StencilMap.PadsMirror |
