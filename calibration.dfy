/**
 * src/Calibration.cpp: homing of one hand on its hall sensor and the drift
 * correction done after every executed step. The sensor reading
 * (`isInField()`, a `digitalRead` of the hall pin) is the parameter
 * `inField`. Every method is proved to take the Calibration's fields and its
 * Motor's fields to the values the matching function of `CalibrationSpec`
 * gives.
 */
module Calibrations {
  import opened Machine
  import Config
  import Utils
  import MotorSpec
  import Motors
  import opened CalibrationSpec

  class Calibration {
    /** The motor this calibration drives (a reference in the C++). */
    const motor: Motors.Motor

    var state: CalibrationState
    var steps: SizeT
    var recalInField: bool
    var recalEnterDirection: bool
    var recalEnterPos: SizeT
    var recalLeavePos: SizeT
    var recalIgnoreNextField: bool

    /** The fields of this Calibration as one value. */
    function Record(): CalibrationRecord
      reads this
    {
      CalibrationRecord(state, steps, recalInField, recalEnterDirection, recalEnterPos, recalLeavePos, recalIgnoreNextField)
    }

    ghost predicate Valid()
      reads this, motor
    {
      motor.Valid()
    }

    /** Binds the motor; all other fields start zero-initialised. */
    constructor (m: Motors.Motor)
      requires m.Valid()
      ensures motor == m && Valid()
      ensures Record() == CalibrationSpec.INITIAL
    {
      motor := m;
      state := LeaveMagnet;
      steps := 0;
      recalInField, recalEnterDirection := false, false;
      recalEnterPos, recalLeavePos := 0, 0;
      recalIgnoreNextField := false;
    }

    method StartCalibration()
      modifies this
      ensures Record() == CalibrationSpec.StartCalibration(old(Record()))
    {
      steps := 0;
      state := FindMagnet;
    }

    /** One homing transition; returns true once calibrated. */
    method Calibrate(inField: bool) returns (done: bool)
      requires Valid()
      modifies this, motor
      ensures Valid()
      ensures var r := CalibrationSpec.Calibrate(old(Record()), old(motor.State()), inField);
        done == r.done && Record() == r.cal && motor.State() == r.motor
    {
      if state == Calibrated {
        return true;
      }

      match state {
        case FindMagnet =>
          if inField && steps <= Config.MIN_STEPS_OUTSIDE_FIELD {
            steps := Config.MIN_STEPS_OUTSIDE_FIELD + 1;
            state := LeaveMagnet;
          } else if inField && steps > Config.MIN_STEPS_OUTSIDE_FIELD {
            steps := 0;
            state := InField;
          } else {
            motor.StepForward();
            steps := WrapSize(steps + 1);
          }
        case LeaveMagnet =>
          if steps == 0 {
            state := FindMagnet;
          } else if inField {
            motor.StepBackward();
          } else {
            motor.StepBackward();
            steps := steps - 1;
          }
        case InField =>
          if !inField {
            state := Centering;
            steps := steps / 2;
          } else {
            motor.StepForward();
            steps := WrapSize(steps + 1);
          }
        case Centering =>
          if steps == 0 {
            state := Calibrated;
            motor.Reset();
            recalIgnoreNextField := true;
          } else {
            steps := steps - 1;
            motor.StepBackward();
          }
      }

      return false;
    }

    /** Tracks field crossings and softly corrects the motor's position after one. */
    method CheckForCalibrationAfterStep(inField: bool)
      requires Valid()
      modifies this, motor
      ensures Valid()
      ensures var r := CalibrationSpec.CheckForCalibrationAfterStep(old(Record()), old(motor.State()), inField);
        Record() == r.cal && motor.State() == r.motor
    {
      if !recalInField && inField {
        recalInField := true;
        recalEnterPos := motor.GetCurrentPosition();
        recalEnterDirection := motor.IsRotatingForwards();
      } else if recalInField && !inField {
        recalInField := false;

        var forward := motor.IsRotatingForwards();
        if recalEnterDirection != forward {
          return;
        }

        if recalIgnoreNextField {
          recalIgnoreNextField := false;
          return;
        }

        recalLeavePos := motor.GetCurrentPosition();

        var fieldWidth := Utils.Diff(recalEnterPos, recalLeavePos, recalEnterDirection);

        if fieldWidth < Config.MIN_WIDTH_FOR_RECALIBRATION {
          return;
        }

        var targetLeavePos := Utils.CalculateFieldLeavePosition(fieldWidth, recalEnterDirection);
        var pos := motor.GetCurrentPosition();
        var correctionDirection := Utils.GetShortestDirection(pos, targetLeavePos);
        pos := motor.GetCurrentPosition();
        var stepsOff := Utils.Diff(pos, targetLeavePos, correctionDirection);

        if stepsOff < Config.MIN_STEPS_OFF_FOR_RECALIBRATION {
          return;
        }

        stepsOff := stepsOff / 2;

        motor.Recalibrate(targetLeavePos, stepsOff, correctionDirection);
        recalIgnoreNextField := true;
      }
    }
  }
}
