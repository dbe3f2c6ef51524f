/**
 * src/Motor.cpp: one stepper motor. The levels of the four coil pins are the
 * field `coils`; `micros()` is the parameter `now`. Every state-changing
 * method is proved to take the fields to the value the matching function of
 * `MotorSpec` gives.
 */
module Motors {
  import opened Machine
  import Config
  import MotorSpec

  class Motor {
    var currentPos: SizeT
    var coilState: SizeT
    var plannedSteps: int
    var currentDirection: bool
    var lastStepMicros: U32
    var coils: MotorSpec.Coils

    /** The fields as one value. */
    function State(): MotorSpec.MotorState
      reads this
    {
      MotorSpec.MotorState(currentPos, coilState, plannedSteps, currentDirection, lastStepMicros, coils)
    }

    ghost predicate Valid()
      reads this
    {
      MotorSpec.ValidMotor(State())
    }

    /** Coil state 1, all coils off, origin reset (fields start zero-initialised). */
    constructor ()
      ensures Valid()
      ensures State() == MotorSpec.INITIAL
    {
      currentPos, plannedSteps, currentDirection, lastStepMicros := 0, 0, false, 0;
      coils := MotorSpec.ALL_COILS_OFF;
      coilState := 1;
      new;
      DisableAllCoils();
      Reset();
    }

    /** Plans one more step forward; nothing moves yet. */
    method PlanStepForward()
      requires Valid()
      modifies this
      ensures Valid()
      ensures State() == MotorSpec.PlanStepForward(old(State()))
    {
      plannedSteps := plannedSteps + 1;
    }

    /** Plans one more step backward; nothing moves yet. */
    method PlanStepBackward()
      requires Valid()
      modifies this
      ensures Valid()
      ensures State() == MotorSpec.PlanStepBackward(old(State()))
    {
      plannedSteps := plannedSteps - 1;
    }

    method StepForward()
      requires Valid()
      modifies this
      ensures Valid()
      ensures State() == MotorSpec.StepForward(old(State()))
    {
      coilState := coilState + 1;
      if coilState > 4 {
        coilState := 1;
      }
      WriteNewCoilState();

      if currentPos == Config.MAX_STEPS - 1 {
        currentPos := 0;
      } else {
        currentPos := currentPos + 1;
      }
      currentDirection := true;

      plannedSteps := plannedSteps - 1;
    }

    method StepBackward()
      requires Valid()
      modifies this
      ensures Valid()
      ensures State() == MotorSpec.StepBackward(old(State()))
    {
      coilState := coilState - 1;
      if coilState < 1 {
        coilState := 4;
      }
      WriteNewCoilState();

      if currentPos == 0 {
        currentPos := Config.MAX_STEPS - 1;
      } else {
        currentPos := currentPos - 1;
      }
      currentDirection := false;

      plannedSteps := plannedSteps + 1;
    }

    /** The pin writes of the current commutation state; only `coils` changes. */
    method WriteNewCoilState()
      modifies this
      ensures coils == MotorSpec.WriteNewCoilState(old(coils), coilState)
      ensures State() == old(State()).(coils := coils)
    {
      match coilState {
        case 1 =>
          coils := coils.(pin2 := true);
          coils := coils.(pin1 := false);
        case 2 =>
          coils := coils.(pin3 := true);
          coils := coils.(pin2 := false);
        case 3 =>
          coils := coils.(pin4 := true);
          coils := coils.(pin3 := false);
        case 4 =>
          coils := coils.(pin1 := true);
          coils := coils.(pin4 := false);
        case _ =>
      }
    }

    /** Executes at most one planned step, if enough time has passed; returns whether it did. */
    method TryStep(now: U32) returns (stepped: bool)
      requires Valid()
      modifies this
      ensures Valid()
      ensures stepped == MotorSpec.TryStep(old(State()), now).stepped
      ensures State() == MotorSpec.TryStep(old(State()), now).motor
    {
      if plannedSteps != 0 {
        var microsSinceLastStep := ToLong(Elapsed(now, lastStepMicros));
        if microsSinceLastStep > Config.MIN_STEP_DELAY {
          if plannedSteps < 0 {
            StepBackward();
          } else if plannedSteps > 0 {
            StepForward();
          }
          lastStepMicros := now;
          return true;
        }
      } else {
        DisableAllCoils();
      }
      return false;
    }

    method Reset()
      requires Valid()
      modifies this
      ensures Valid()
      ensures State() == MotorSpec.Reset(old(State()))
    {
      currentPos := 0;
      lastStepMicros := 0;
      plannedSteps := 0;
    }

    method DisableAllCoils()
      modifies this
      ensures State() == MotorSpec.DisableAllCoils(old(State()))
    {
      coils := MotorSpec.ALL_COILS_OFF;
    }

    method GetCurrentPosition() returns (pos: SizeT)
      requires Valid()
      ensures pos == currentPos && pos < Config.MAX_STEPS
    {
      return currentPos;
    }

    method IsRotatingForwards() returns (forward: bool)
      ensures forward == currentDirection
    {
      return currentDirection;
    }

    method Recalibrate(targetPos: SizeT, stepsOff: SizeT, correctionDirection: bool)
      requires Valid()
      modifies this
      ensures Valid()
      ensures State() == MotorSpec.Recalibrate(old(State()), targetPos, stepsOff, correctionDirection)
    {
      if correctionDirection {
        plannedSteps := plannedSteps + stepsOff;
        currentPos := WrapSize(targetPos - stepsOff + Config.MAX_STEPS) % Config.MAX_STEPS;
      } else {
        plannedSteps := plannedSteps - stepsOff;
        currentPos := WrapSize(targetPos + stepsOff) % Config.MAX_STEPS;
      }
    }
  }
}
