# ADClock clock firmware — a Dafny model

ADClock is a wall of clocks. Each clock is driven by an Arduino with two stepper
motors, one per hand, and a hall sensor per hand that sees a magnet on the dial.
The controllers form a daisy chain. Each one receives four-bit instructions
on a clock and data bus, keeps the first instruction of a burst for itself,
and forwards the rest to the next clock.

This project models the firmware's core and proves properties of the model:

- `Machine` (machine.dfy): the integer widths of the AVR target. `size_t` is
  16 bits; `unsigned long` and `long` are 32 bits. Unsigned differences of
  `micros()` time stamps wrap, and an `unsigned long` read as a `long` can be
  negative.
- `Config` (config.dfy): the constants of src/Config.h for the default build.
- `RingMath` (ring_math.dfy): the position math of both copies of the utility
  functions, for any ring size. The C++ computes in `size_t`.
  - `LibUtils` (lib_utils.dfy) instantiates it for lib/Utils/Utils.cpp
    (1705 steps), with the repository's unit-test cases as lemmas.
  - `Utils` (utils.dfy) instantiates it for src/Utils.cpp (MAX_STEPS of the
    default build, 3414).
- `MotorSpec` / `Motors` (motor_spec.dfy, motor.dfy): one stepper motor. It
  covers planned steps, the rate-limited `tryStep`, the four coil levels,
  homing's origin reset, and the soft drift correction `recalibrate`.
- `CalibrationSpec` / `Calibrations` (calibration_spec.dfy,
  calibration.dfy): a hand's homing state machine `calibrate()` and the drift
  check run after every step, `checkForCalibrationAfterStep()`.
- `CommunicationSpec` / `Communication` (communication_spec.dfy,
  communication.dfy): the bus relay. It covers the interrupt handler
  `processDataInput()`, the main-loop `tick()`, the outbound pin levels and
  the `OwnInstruction` mailbox.
- `DriverSpec` / `Driver` (driver_spec.dfy, driver.dfy): src/main.cpp. It
  covers the globals, `calibrateMotors()` with its capped do-while loop,
  `setup()`, and one pass of `loop()`.

Each source file with state is modelled twice:

- A `...Spec` module gives the behaviour as functions on values: the
  datatypes `MotorState`, `CalibrationRecord`, `RelayState`, `Hands` and
  `Node`. The lemmas about the firmware are stated and proved there.
- A class module holds the same fields as mutable state. Each method is
  proved to take the fields to the value the matching function gives:
  `ensures State() == MotorSpec.TryStep(old(State()), now).motor`, and so on.

The loop of `calibrateMotors()` is a `while` loop over a `size_t` counter. Its
invariant ties the hands to `HomingBoth(start, magnet1, magnet2, counter)`,
meaning both hands after `counter` homing calls each. It ties the loop's
outcome to the function `CalibrateMotorsFrom`.

How the outside world enters the model:

- The hall sensor is an ideal sensor during homing. `Magnet(start, width)`
  reads "in field" exactly at the `width` positions from `start` on, counted
  forward and wrapping past position 0: at `pos` when
  `(pos - start) % MAX_STEPS < width`. A field may straddle the origin, as
  it does for a hand that has already homed (`HomedField`).
- In the main loop, the sensor readings after a step are the parameters
  `inField1` and `inField2`.
- `micros()` is the parameter `now`.
- The inbound data pins are parameters. The outbound pins and the coil pins
  are fields.

Points where the model follows the code rather than its comments or an
intuitive reading:

- The code's ring size in the default build is 3414 steps (src/Config.h).
  1705 is only the ring size of the library copy in lib/Utils/Utils.cpp.
  The same goes for the comment example `diff(1650, 1660, false) == 1695` in
  src/Utils.cpp:11: it holds for 1705 steps, not for 3414.
- `coil_state` cycles through 1..4 even though MAX_COIL_STATE is 8.
- A backward step leaves two coils energised: `writeNewCoilState` switches
  off only the coil behind the new state. `MotorSpec.StepBackwardLeavesTwoCoils`
  states this. A forward step keeps exactly one coil energised.
- `tryStep()` switches the coils off at once when nothing is planned. There
  is no standstill delay.
- `tryStep()` reads the elapsed time as a `long`. The comment at
  src/Motor.cpp:140 calls it always positive, but after an idle time of
  2^31 microseconds (about 36 minutes) or more it is negative, and a motor
  with steps planned does not step until the 32-bit counter comes round
  again (`MotorSpec.TryStepStallsAfterLongIdle`).
- When the relay leaves pass-on mode, `tick()` clears only the flag. The
  outbound data lines keep their last levels.
- A Calibration's fields are statically zero-initialised. The first
  enumerator of its state enum in src/Calibration.h is the leave-magnet
  state, so a fresh Calibration starts in `LeaveMagnet`. `setup()` always
  calls `startCalibration()` before using it.

## Model

| member | source | states |
|---|---|---|
| Machine.WrapSize | src/Calibration.cpp:59 | a `size_t` result equals the mathematical value when that fits, and differs from it by a multiple of 2^16 otherwise |
| Machine.Elapsed | src/Motor.cpp:140 | `now - since` on `unsigned long`: adding it to `since` gives `now` modulo 2^32, and it is the plain difference when no overflow happened |
| Machine.ToLong | src/Motor.cpp:140 | the `long` read of an `unsigned long` lies in [-2^31, 2^31), agrees with it modulo 2^32, and is non-negative exactly below 2^31 |
| RingMath.Diff | src/Utils.cpp:19-35 | zero steps from a position to itself; fewer than a revolution between two ring positions |
| RingMath.DiffIsModular | src/Utils.cpp:5-35 | the forward distance is `to - from` modulo the ring size, and the backward distance is `from - to` modulo the ring size |
| RingMath.DiffRoundTrip | src/Utils.cpp:19-35 | walking the forward (backward) distance from `from` reaches `to`, modulo one revolution |
| RingMath.DiffMirror | src/Utils.cpp:19-35 | the backward distance from a to b is the forward distance from b to a |
| RingMath.DiffComplement | src/Utils.cpp:19-35 | for distinct positions, the forward and backward distances add up to one revolution |
| RingMath.FieldLeavePosition | src/Utils.cpp:37-47 | forward: half the width; backward: one revolution minus half the width; a ring position for any width of at least 2 whose half is below one revolution |
| RingMath.FieldLeavePositionsSymmetric | src/Utils.cpp:37-47 | the forward and the backward leave positions both lie half the field width from position 0, on opposite sides |
| RingMath.ShortestDirection | src/Utils.cpp:57-60 | the same position gives backward |
| RingMath.ShortestDirectionIsShortest | src/Utils.cpp:49-60 | the chosen direction is never longer than the other, is at most half a revolution, and is forward exactly when forward is strictly shorter |
| RingMath.ShortestDirectionTie | src/Utils.cpp:57-60 | a tie happens only at exactly half a revolution, and a tie goes backward |
| LibUtils.Diff | lib/Utils/Utils.cpp:20-37 | zero from a position to itself; a ring position congruent to the signed difference in the walking direction |
| LibUtils.CalculateFieldLeavePosition | lib/Utils/Utils.cpp:46-49 | half the width forward; 1705 minus half the width backward; a ring position for widths of at least 2 whose half is below 1705 |
| LibUtils.GetShortestDirection | lib/Utils/Utils.cpp:59-62 | forward iff the forward distance is strictly shorter; the chosen distance is at most half a revolution |
| LibUtils.ForwardDiffExamples | test/test_utils.cpp:4-9 | the forward-distance unit-test cases, plus the documented backward example 1695 |
| LibUtils.BackwardDiffExamples | test/test_utils.cpp:11-16 | the backward-distance unit-test cases |
| LibUtils.FieldLeavePositionExamples | test/test_utils.cpp:18-24 | the leave-position unit-test cases for widths 200 and 201 in both directions |
| LibUtils.ShortestDirectionExamples | test/test_utils.cpp:26-32 | the shortest-direction unit-test cases, including both wrap-around cases |
| LibUtils.NoTieOnOddRing | lib/Utils/Utils.cpp:59-62 | on the odd 1705-step ring, the two distances between distinct positions are never equal |
| Utils.Diff | src/Utils.cpp:19-35 | zero from a position to itself; a ring position congruent to the signed difference in the walking direction |
| Utils.CalculateFieldLeavePosition | src/Utils.cpp:44-47 | half the width forward; MAX_STEPS minus half the width backward (MAX_STEPS itself for widths below 2) |
| Utils.GetShortestDirection | src/Utils.cpp:57-60 | forward iff the forward distance is strictly shorter; the chosen distance is at most half a revolution |
| Utils.DiffMirrorAndComplement | src/Utils.cpp:19-35 | the backward distance mirrors the forward one, and for distinct positions the two add up to MAX_STEPS |
| Utils.HalfRevolutionTie | src/Utils.cpp:57-60 | at 1707 steps, half of 3414, both ways are equally long and the tie goes backward |
| MotorSpec.WriteNewCoilStateDrives | src/Motor.cpp:113-134 | state k raises coil k mod 4, lowers coil k - 1, and leaves the other two coils as they were; other states write nothing |
| MotorSpec.PlanStepForward | src/Motor.cpp:53-56 | the plan grows by one and nothing else changes |
| MotorSpec.PlanStepBackward | src/Motor.cpp:58-61 | the plan shrinks by one and nothing else changes |
| MotorSpec.PlanStepsCancel | src/Motor.cpp:53-61 | planning forward and then backward, in either order, restores the motor |
| MotorSpec.StepForward | src/Motor.cpp:63-86 | a forward step keeps the position on the ring and the commutation index in 1..4 |
| MotorSpec.StepBackward | src/Motor.cpp:88-111 | a backward step keeps the position on the ring and the commutation index in 1..4 |
| MotorSpec.StepForwardMoves | src/Motor.cpp:63-86 | position +1 modulo MAX_STEPS, commutation index advanced cyclically, its coils written, direction forward, plan -1, time stamp kept |
| MotorSpec.StepBackwardMoves | src/Motor.cpp:88-111 | position -1 modulo MAX_STEPS, commutation index moved back cyclically, its coils written, direction backward, plan +1, time stamp kept |
| MotorSpec.Step | src/Motor.cpp:144-151 | a step in either direction keeps the motor valid |
| MotorSpec.StepForwardThenBackward | src/Motor.cpp:63-111 | a forward step followed by a backward step restores position, commutation index and plan |
| MotorSpec.StepBackwardThenForward | src/Motor.cpp:63-111 | a backward step followed by a forward step restores position, commutation index and plan |
| MotorSpec.StepForwardKeepsSingleCoil | src/Motor.cpp:63-134 | from exactly one energised coil, a forward step again leaves exactly the coil of the new state energised |
| MotorSpec.StepBackwardLeavesTwoCoils | src/Motor.cpp:88-134 | from exactly one energised coil, a backward step leaves two coils energised: the old state's coil and the new state's coil |
| MotorSpec.Steps | src/Motor.cpp:136-162 | any number of steps keeps the motor valid |
| MotorSpec.StepsMove | src/Motor.cpp:63-111 | n steps move the position by n modulo MAX_STEPS in their direction, and pay n steps off the plan |
| MotorSpec.TryStep | src/Motor.cpp:136-162 | steps iff something is planned and the elapsed time, read as a `long`, exceeds MIN_STEP_DELAY; then one step in the plan's sign, stamped `now`; with nothing planned, coils off and nothing else changed; otherwise unchanged |
| MotorSpec.TryStepDrainsPlan | src/Motor.cpp:136-162 | an executed step moves the plan one toward zero, in the plan's direction; no step, no plan change |
| MotorSpec.TryStepStallsAfterLongIdle | src/Motor.cpp:138-155 | with steps planned, once 2^31 microseconds or more have passed since the last step the signed elapsed time is negative and no step happens, the motor unchanged |
| MotorSpec.TryStepStallExample | src/Motor.cpp:138-155 | last step at 0, one step planned, now 2^31: no step |
| MotorSpec.TryStepRateLimited | src/Motor.cpp:136-162 | two consecutive executed steps are more than MIN_STEP_DELAY microseconds apart, across a timer overflow too |
| MotorSpec.DisableAllCoils | src/Motor.cpp:171-177 | all four coil pins low and nothing else changes |
| MotorSpec.Reset | src/Motor.cpp:164-169 | position, time stamp and plan are zero and nothing else changes |
| MotorSpec.Recalibrate | src/Motor.cpp:189-201 | the plan grows (shrinks) by `steps_off` in the correction direction, and the position becomes `steps_off` before (after) the target modulo MAX_STEPS; nothing else changes |
| MotorSpec.RecalibrateConverges | src/Motor.cpp:189-201 | executing the `steps_off` planned correction steps lands exactly on the target position, with the plan back to its value before the correction |
| MotorSpec.StepsReach | src/Motor.cpp:189-201 | n steps from a position `offset` before the target reach the target and pay `offset` off the plan |
| Motors.Motor.constructor | src/Motor.cpp:39-51 | coil state 1, all coils off, position, time stamp and plan zero |
| Motors.Motor.PlanStepForward | src/Motor.cpp:53-56 | the new fields are `MotorSpec.PlanStepForward` of the old ones |
| Motors.Motor.PlanStepBackward | src/Motor.cpp:58-61 | the new fields are `MotorSpec.PlanStepBackward` of the old ones |
| Motors.Motor.StepForward | src/Motor.cpp:63-86 | the new fields are `MotorSpec.StepForward` of the old ones; the motor stays valid |
| Motors.Motor.StepBackward | src/Motor.cpp:88-111 | the new fields are `MotorSpec.StepBackward` of the old ones; the motor stays valid |
| Motors.Motor.WriteNewCoilState | src/Motor.cpp:113-134 | only the coil levels change, to `MotorSpec.WriteNewCoilState` of the old levels |
| Motors.Motor.TryStep | src/Motor.cpp:136-162 | result and new fields are those of `MotorSpec.TryStep` |
| Motors.Motor.Reset | src/Motor.cpp:164-169 | the new fields are `MotorSpec.Reset` of the old ones |
| Motors.Motor.DisableAllCoils | src/Motor.cpp:171-177 | the new fields are `MotorSpec.DisableAllCoils` of the old ones |
| Motors.Motor.GetCurrentPosition | src/Motor.cpp:179-182 | returns the position, which is a ring position |
| Motors.Motor.IsRotatingForwards | src/Motor.cpp:184-187 | returns the direction of the last step |
| Motors.Motor.Recalibrate | src/Motor.cpp:189-201 | the new fields are `MotorSpec.Recalibrate` of the old ones, with the `size_t` wrap of the C++ sums |
| CalibrationSpec.StartCalibration | src/Calibration.cpp:15-19 | looking for the magnet with no steps counted; nothing else changes |
| CalibrationSpec.Calibrate | src/Calibration.cpp:36-111 | reports done exactly in CALIBRATED, and then changes nothing; the motor stays valid |
| CalibrationSpec.CalibrateFrame | src/Calibration.cpp:36-111 | one call moves the motor by at most one step, or resets its origin on entering CALIBRATED; it changes only state, step count and, on CENTERING to CALIBRATED, the ignore flag; CALIBRATED is never left |
| CalibrationSpec.Homing | src/Calibration.cpp:21-35 | k homing calls against an ideal sensor keep the motor valid |
| CalibrationSpec.HomingSplit | src/main.cpp:49-63 | i + j homing calls are i calls followed by j calls |
| CalibrationSpec.HomingSplitAt | src/main.cpp:49-63 | the same split, for a total count given as its own value |
| CalibrationSpec.Offset | src/Calibration.cpp:119-122 | how far a position lies past the field start, walking forward: always a ring position |
| CalibrationSpec.OffsetForward | src/Motor.cpp:63-86 | a forward step moves one position further past the field start, from the last position back to 0 |
| CalibrationSpec.OffsetBackward | src/Motor.cpp:88-111 | a backward step moves one position less past the field start, from 0 to the last position |
| CalibrationSpec.OffsetPosition | src/Calibration.cpp:119-122 | a ring position is the field start advanced by its offset, modulo MAX_STEPS |
| CalibrationSpec.FindPhase | src/Calibration.cpp:45-61 | outside the field, FIND_MAGNET walks forward one step per call, counting, and reaches the field start exactly when the walk completes a revolution of offsets |
| CalibrationSpec.InFieldPhase | src/Calibration.cpp:79-90 | inside the field, INFIELD walks forward one step per call, counting each one |
| CalibrationSpec.CenteringPhase | src/Calibration.cpp:92-104 | CENTERING walks back one step per remaining count, down to zero, whatever the sensor reads |
| CalibrationSpec.BackOutPhase | src/Calibration.cpp:63-71 | inside the field, LEAVE_MAGNET walks back one step per call without counting, leaving the field behind its start |
| CalibrationSpec.LeaveCountPhase | src/Calibration.cpp:63-77 | outside the field, LEAVE_MAGNET walks back one step per call, counting down |
| CalibrationSpec.CrossAndCentre | src/Calibration.cpp:55-104 | reaching the field start after more than MIN_STEPS_OUTSIDE_FIELD steps, homing crosses the field, counting its width, and walks back half of it: it ends in CENTERING with nothing left, half the width (rounded up) into the field |
| CalibrationSpec.LeavePath | src/Calibration.cpp:45-104 | started inside the field, LEAVE_MAGNET backs out of it and MIN_STEPS_OUTSIDE_FIELD + 1 steps further, FIND_MAGNET walks back to the field start, and homing centres as from outside; the number of calls is given exactly |
| CalibrationSpec.HomingFindsCentre | src/Calibration.cpp:21-104 | from any position, for a field of width 1 .. MAX_STEPS/4 anywhere on the ring (wrapping too), homing ends in CENTERING with nothing left within one revolution plus half the width plus 2 calls, parked half the width (rounded up) into the field, so that the forward exit is exactly `calculateFieldLeavePosition(width, forward)` ahead |
| CalibrationSpec.HomedField | src/Calibration.cpp:92-98 | the field as a homed hand sees it: a hand at the new origin lies half the width (rounded up) into it |
| CalibrationSpec.HomedFieldIsTheField | src/Motor.cpp:164-169 | with the origin moved to where homing parks, every position of the hand reads `HomedField` exactly as it read the original field |
| CalibrationSpec.RehomingParksAtOrigin | src/main.cpp:189-192 | homing again against the field as a homed hand sees it parks at position 0 from any start, so a recalibration keeps the origin |
| CalibrationSpec.ParkingResetsOrigin | src/Calibration.cpp:92-98 | the final CENTERING call marks the hand calibrated, resets the motor's origin, arms the ignore flag, and still reports not done |
| CalibrationSpec.HomingOnce | src/Calibration.cpp:36-111 | one homing call is `Homing` with count 1 |
| CalibrationSpec.Correction | src/Calibration.cpp:173-184 | the soft correction keeps the motor valid |
| CalibrationSpec.CheckForCalibrationAfterStep | src/Calibration.cpp:131-186 | entering a field records position and direction; no change while the reading stays the same; leaving ends tracking, records the leave position when measured, consumes or sets the ignore flag; the motor changes only when a correction is due |
| CalibrationSpec.CorrectionConverges | src/Calibration.cpp:173-185 | a due correction targets a ring position and plans between MIN_STEPS_OFF/2 and a quarter revolution of steps; executing them lands exactly on the target with the plan restored |
| CalibrationSpec.ForwardCrossingHalvesDrift | src/Calibration.cpp:155-185 | a forward crossing measures the true field width; a drift below MIN_STEPS_OFF is left alone; a larger drift is halved (truncated toward zero), with the other half planned as correction steps |
| CalibrationSpec.ForwardCrossingGeometry | src/Calibration.cpp:155-175 | a forward crossing with drift d measures the true width, targets half the width, is |d| steps off, and corrects against the sign of d |
| CalibrationSpec.TruncatedHalf | src/Calibration.cpp:173-184 | the net effect on a signed drift of halving the unsigned `steps_off` and correcting against the drift's sign: twice the result is within one of the drift, with the drift's sign and no larger magnitude |
| CalibrationSpec.ExactBackwardCrossingNotCorrected | src/Calibration.cpp:155-180 | a backward crossing by an undrifted hand measures the true width, is only one or two steps off, and is not corrected |
| Calibrations.Calibration.constructor | src/Calibration.cpp:6-9 | binds the motor; all other fields take their zero-initialised values |
| Calibrations.Calibration.StartCalibration | src/Calibration.cpp:15-19 | the new fields are `CalibrationSpec.StartCalibration` of the old ones |
| Calibrations.Calibration.Calibrate | src/Calibration.cpp:36-111 | the result, the new fields and the motor's new fields are those of `CalibrationSpec.Calibrate` |
| Calibrations.Calibration.CheckForCalibrationAfterStep | src/Calibration.cpp:131-186 | the new fields and the motor's new fields are those of `CalibrationSpec.CheckForCalibrationAfterStep` |
| CommunicationSpec.AsInstruction | src/ClockCommunication.cpp:67-72 | DATA1..DATA4 are read as hour backward, hour forward, minute backward and minute forward |
| CommunicationSpec.ProcessDataInput | src/ClockCommunication.cpp:53-65 | not relaying: the mailbox gets the instruction, pending, and the outbound lines are untouched; relaying: the lines are forwarded bit for bit, the clock line rises, the mailbox is untouched; either way relaying afterwards, with the read time stamped |
| CommunicationSpec.Tick | src/ClockCommunication.cpp:26-47 | idle: nothing changes; clock high: lowered once high for more than MIN_OUT_CLOCK_HIGH; clock low: relaying ends once the line has been idle for more than DELAY_BETWEEN_INSTRUCTIONS |
| CommunicationSpec.TickKeepsDataAndTimes | src/ClockCommunication.cpp:26-47 | a tick never changes the outbound data or the time stamps, and ends relaying only with the clock low |
| CommunicationSpec.RelayingForwardsEveryEdge | src/ClockCommunication.cpp:53-86 | while relaying without an idle gap, the mailbox stays untouched and the outbound lines hold the data of the last edge |
| CommunicationSpec.BurstConsumesOnlyTheFirstEdge | src/ClockCommunication.cpp:53-75 | the first edge after an idle line is the only edge of its burst written to the mailbox; every later edge is forwarded |
| CommunicationSpec.IdleLineEndsBurst | src/ClockCommunication.cpp:38-45 | after more than DELAY_BETWEEN_INSTRUCTIONS of silence, one tick ends the burst and the next edge is consumed as an own instruction |
| CommunicationSpec.ForwardedClockPulseEnds | src/ClockCommunication.cpp:28-37 | a forwarded edge raises the outbound clock, and the first tick more than MIN_OUT_CLOCK_HIGH later lowers it again |
| Communication.Mailbox.constructor | src/main.cpp:12 | the zero-initialised mailbox: nothing pending |
| Communication.ClockCommunication.constructor | src/ClockCommunication.cpp:6-13 | binds the mailbox; not relaying, zero time stamps, outbound lines low |
| Communication.ClockCommunication.Tick | src/ClockCommunication.cpp:26-47 | the new fields are `CommunicationSpec.Tick` of the old ones |
| Communication.ClockCommunication.ProcessDataInput | src/ClockCommunication.cpp:53-65 | the new fields and mailbox are `CommunicationSpec.ProcessDataInput` of the old ones |
| Communication.ClockCommunication.UpdateOwnInstruction | src/ClockCommunication.cpp:67-75 | the mailbox holds the four lines, pending, and relaying starts |
| Communication.ClockCommunication.PassOnInstruction | src/ClockCommunication.cpp:77-86 | the outbound lines copy the inbound ones, the clock line rises, and the send time is stamped |
| DriverSpec.HandDelta | src/main.cpp:196-203 | the plan change is -1 exactly when backward is set, +1 exactly when only forward is set, else 0 |
| DriverSpec.Decode | src/main.cpp:189-214 | recalibrate exactly when a hand has both flags set; otherwise each hand moves by the delta of its own flags |
| DriverSpec.DecodeEncode | src/main.cpp:189-214 | every command with deltas in -1..1 is decoded back from its encoding |
| DriverSpec.EncodeDecode | src/main.cpp:189-214 | an instruction without a both-flags hand is re-encoded to itself |
| DriverSpec.PlanHand | src/main.cpp:196-213 | a hand's plan changes by its delta and nothing else changes |
| DriverSpec.StartBoth | src/main.cpp:44-45 | both hands look for their magnet; the motors are untouched |
| DriverSpec.HomingBoth | src/main.cpp:49-53 | both hands after k homing calls each stay valid |
| DriverSpec.CalibrateMotors | src/main.cpp:42-66 | `calibrateMotors()` keeps both motors valid |
| DriverSpec.CalibrationRound | src/main.cpp:49-63 | one round of the do-while loop: past the cap it fails; with both hands done it succeeds; otherwise the outcome is the next round's |
| DriverSpec.CalibrateMotorsFromBounded | src/main.cpp:49-63 | at least one and at most 2 * MAX_STEPS + 1 rounds; success exactly in the first round after which both hands are done, within the cap; failure only after the full 2 * MAX_STEPS + 1 rounds |
| DriverSpec.HomingStep | src/main.cpp:51-52 | the k-th homing call continues from the hand after k - 1 calls |
| DriverSpec.CalibratedStays | src/Calibration.cpp:38-39 | once calibrated, a hand stays calibrated through any further homing calls |
| DriverSpec.HandHomes | src/Calibration.cpp:21-111 | a hand started anywhere, with a field of width 1 .. MAX_STEPS/4 anywhere on the ring, is calibrated at position 0 after a round count below the loop's cap |
| DriverSpec.CalibrateMotorsSucceeds | src/main.cpp:30-66 | with fields of width 1 .. MAX_STEPS/4, wherever the hands and fields are, `calibrateMotors()` returns true with both hands calibrated at position 0 |
| DriverSpec.BothHandsHome | src/main.cpp:49-63 | under the same conditions, some round below the cap has both hands calibrated |
| DriverSpec.HomingKeepsParked | src/Calibration.cpp:92-98 | any run of homing calls keeps a calibrated hand at position 0 with nothing planned |
| DriverSpec.CalibrateMotorsParks | src/main.cpp:42-66 | whatever the outcome, each hand that `calibrateMotors()` leaves calibrated is at position 0 with nothing planned |
| DriverSpec.HandleInstruction | src/main.cpp:186-216 | afterwards nothing is pending, the relay and the instruction data are unchanged, and without a pending instruction the hands are unchanged |
| DriverSpec.HandTick | src/main.cpp:220-227 | without an executed step, only `tryStep`'s effect on the motor; the drift check runs only after a step |
| DriverSpec.Loop | src/main.cpp:183-228 | a loop pass keeps both motors valid |
| DriverSpec.MoveOnlyPlans | src/main.cpp:193-215 | a move instruction changes only the two plans, each by its decoded delta, and is consumed |
| DriverSpec.IdleLoopOnlyTicks | src/main.cpp:183-228 | with nothing pending, a pass leaves the mailbox alone, ticks the relay, and runs each hand's step attempt |
| DriverSpec.MoveExecutedInSamePass | src/main.cpp:186-227 | a single-step instruction for a resting hand, outside its field, with a step due, is executed in the same pass: one step in the requested direction, plan back to 0, stamped `now` |
| DriverSpec.RecalibrateOnlyHomes | src/main.cpp:189-192 | a recalibration instruction makes both hands exactly what `calibrateMotors()` leaves, consumes the instruction, and leaves the relay alone |
| DriverSpec.RecalibrationInstructionHomesBoth | src/main.cpp:189-192 | a recalibration instruction, with fields of width 1 .. MAX_STEPS/4 and the hands anywhere (at their homed origin too), leaves both hands calibrated at position 0 with nothing planned and their coils off |
| Driver.ClockNode.constructor | src/main.cpp:6-14 | the globals: two fresh motors, their calibrations, an empty mailbox and an idle relay bound to it |
| Driver.ClockNode.CalibrateMotors | src/main.cpp:42-66 | the result and both hands are those of `DriverSpec.CalibrateMotors` |
| Driver.ClockNode.CalibrationRounds | src/main.cpp:46-65 | the do-while loop returns `CalibrateMotorsFrom`'s outcome and leaves the hands after that many rounds |
| Driver.ClockNode.CalibrationRound | src/main.cpp:49-53 | one round: each hand reports whether it was done before its call, both hands advance by one homing call, and the counter grows by one |
| Driver.ClockNode.Setup | src/main.cpp:158-181 | both hands are as `DriverSpec.CalibrateMotors` leaves them |
| Driver.ClockNode.Loop | src/main.cpp:183-228 | all globals are `DriverSpec.Loop` of the old ones |
| Driver.ClockNode.HandleInstruction | src/main.cpp:186-216 | all globals are `DriverSpec.HandleInstruction` of the old ones |
| Driver.CalibrateHand | src/main.cpp:51-52 | the i-th homing call of a hand reports whether it was done after i calls, and advances the hand to i + 1 calls |
| Driver.TickHand | src/main.cpp:220-227 | the hand is `DriverSpec.HandTick` of the old hand |

## Left out

- Pins and hardware access are not calls. FastGPIO `quickWrite`, `pinMode`,
  `digitalRead`, `micros()` and `attachInterrupt` are left out. Coil and
  outbound pin levels are fields; time, sensor readings and inbound data
  lines are parameters.
- Concurrency: `processDataInput()` runs from an interrupt. The model treats
  it and `tick()` as atomic calls in sequence. An edge arriving in the
  middle of a `loop()` pass, or during `calibrateMotors()`, is not modelled.
- Driver.ClockNode.Loop: the several `micros()` reads of one pass are one
  value `now`.
- MotorSpec.TryStep: the `micros()` read for the elapsed time
  (src/Motor.cpp:140) and the one stored as the last step time
  (src/Motor.cpp:152) are one value `now`.
- Motors.Motor.TryStep: the same single `now`.
- CommunicationSpec.ProcessDataInput: the `micros()` read that stamps the
  edge (src/ClockCommunication.cpp:64) and the one that stamps a forwarded
  instruction (src/ClockCommunication.cpp:85) are one value `now`.
- Communication.ClockCommunication.ProcessDataInput: the same single `now`.
- Motors.Motor.PlanStepForward: `planned_steps` is a 16-bit `int` in the C++.
  The model keeps it unbounded, so signed overflow (undefined behaviour in
  C++) is not modelled.
- Motors.Motor.PlanStepBackward: the same unbounded `planned_steps`.
- `delay(3)` in `calibrateMotors()`, `delayMicroseconds`, Serial and DEBUG
  output are timing or I/O only.
- `testCommunication`, `testCommunicationWithInstruction` and
  `testMotorSpeed` are bench scaffolding that `setup()` does not call.
- `ClockCommunication::sendTestInstruction` is not part of this model. Only
  the test scaffolding calls it.
- The COIL_MODE_SINGLE build: only the default build's constants are used.
  `Config.MAX_STEPS_SINGLE_COIL` records that build's ring size.
- MIN_OUT_CLOCK_HIGH is used but never defined in the source. It is the
  constructor parameter `minOutClockHigh` of the relay.
- MIN_STANDSTILL_DELAY and CLOCK_OUT_HIGH are never read by the code and
  are not modelled.
- Header-only fields that the code never uses are not modelled:
  `recal_steps`, `coils_active`, `previous_coil_state` and the
  `RecalibrationState` enum.
- Pin numbers and wiring (`hall_pin`, motor pins, bus pins) are not modelled.
- DriverSpec.CalibrateMotorsSucceeds: success is proved for an ideal sensor
  and for fields 1 .. MAX_STEPS/4 steps wide. Sensor noise and hysteresis
  are not modelled. Wider fields are covered only by the general contracts
  of `Calibrate` and `CalibrateMotors`.
- DriverSpec.RecalibrationInstructionHomesBoth: the same ideal sensor and
  field widths as `CalibrateMotorsSucceeds`.
- DriverSpec.HandHomes: the same ideal sensor and field widths.
- CalibrationSpec.HomingFindsCentre: the same ideal sensor and field widths.
- The split of `calibrateMotors()` and `loop()` into `CalibrationRounds`,
  `CalibrationRound`, `CalibrateHand`, `HandleInstruction` and `TickHand` is
  a decomposition of the same code for the proof. Each part corresponds to
  the cited lines.
