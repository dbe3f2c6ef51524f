/**
 * src/main.cpp as an object: the two motors, their calibrations, the
 * own-instruction mailbox and the relay, with `calibrateMotors()`, `setup()`
 * and `loop()` as methods. The hall sensors are ideal during homing (the
 * magnets `magnet1` and `magnet2`) and readings `inField1`, `inField2` after
 * a step of the main loop; `micros()` is the parameter `now`. Every method is
 * proved to take the globals to the value the matching function of
 * `DriverSpec` gives.
 */
module Driver {
  import opened Machine
  import MotorSpec
  import opened CalibrationSpec
  import CommunicationSpec
  import opened DriverSpec
  import Motors
  import Calibrations
  import Communication

  class ClockNode {
    const motor1: Motors.Motor
    const motor2: Motors.Motor
    const calibration1: Calibrations.Calibration
    const calibration2: Calibrations.Calibration
    const own: Communication.Mailbox
    const comm: Communication.ClockCommunication

    /** Each calibration drives its own motor, the relay delivers to the mailbox, and both motors are in range. */
    ghost predicate Valid()
      reads this, motor1, motor2, calibration1, calibration2, own, comm
    {
      && calibration1.motor == motor1 && calibration2.motor == motor2
      && motor1 != motor2 && calibration1 != calibration2
      && comm.own == own
      && motor1.Valid() && motor2.Valid()
    }

    /** Both hands as values. */
    function HandsNow(): Hands
      reads this, motor1, motor2, calibration1, calibration2
    {
      Hands(Snapshot(calibration1.Record(), motor1.State()), Snapshot(calibration2.Record(), motor2.State()))
    }

    /** All globals as one value. */
    function State(): Node
      reads this, motor1, motor2, calibration1, calibration2, own, comm
    {
      Node(HandsNow(), own.Value(), comm.Relay())
    }

    /** The global objects of main.cpp, constructed before `setup()`. */
    constructor (minOutClockHigh: nat)
      ensures Valid() && comm.minOutClockHigh == minOutClockHigh
      ensures State() == Node(Hands(Snapshot(CalibrationSpec.INITIAL, MotorSpec.INITIAL),
                                    Snapshot(CalibrationSpec.INITIAL, MotorSpec.INITIAL)),
                              CommunicationSpec.OwnInstruction(false, CommunicationSpec.AsInstruction(CommunicationSpec.ALL_LOW)),
                              CommunicationSpec.INITIAL)
    {
      var m1 := new Motors.Motor();
      var m2 := new Motors.Motor();
      motor1, motor2 := m1, m2;
      calibration1 := new Calibrations.Calibration(m1);
      calibration2 := new Calibrations.Calibration(m2);
      var mailbox := new Communication.Mailbox();
      own := mailbox;
      comm := new Communication.ClockCommunication(mailbox, minOutClockHigh);
    }

    /**
     * Homes both hands together: one `calibrate()` per hand and round, until
     * both report done, giving up once the round counter exceeds
     * 2 * MAX_STEPS.
     */
    method CalibrateMotors(magnet1: Magnet, magnet2: Magnet) returns (ok: bool)
      requires Valid()
      modifies motor1, motor2, calibration1, calibration2
      ensures Valid()
      ensures var r := DriverSpec.CalibrateMotors(old(HandsNow()), magnet1, magnet2);
        ok == r.0 && HandsNow() == r.1
    {
      calibration1.StartCalibration();
      calibration2.StartCalibration();
      ok := CalibrationRounds(magnet1, magnet2, HandsNow());
    }

    /** The do-while loop of `calibrateMotors()`, from the hands `start` that `startCalibration()` left. */
    method CalibrationRounds(magnet1: Magnet, magnet2: Magnet, ghost start: Hands) returns (ok: bool)
      requires Valid() && ValidHands(start) && HandsNow() == start
      modifies motor1, motor2, calibration1, calibration2
      ensures Valid()
      ensures var run := CalibrateMotorsFrom(start, magnet1, magnet2, 0);
        ok == run.ok && HandsNow() == HomingBoth(start, magnet1, magnet2, run.iterations)
    {
      ghost var run := CalibrateMotorsFrom(start, magnet1, magnet2, 0);
      var motor1Calibrated := false;
      var motor2Calibrated := false;
      var counter: SizeT := 0;
      while true
        invariant Valid() && counter <= MAX_CALIBRATION_ITERATIONS
        invariant HandsNow() == HomingBoth(start, magnet1, magnet2, counter)
        invariant CalibrateMotorsFrom(start, magnet1, magnet2, counter) == run
        decreases MAX_CALIBRATION_ITERATIONS - counter
      {
        ghost var round := counter;
        motor1Calibrated, motor2Calibrated, counter := CalibrationRound(magnet1, magnet2, start, counter);
        DriverSpec.CalibrationRound(start, magnet1, magnet2, round, counter, motor1Calibrated, motor2Calibrated);

        if counter > MAX_CALIBRATION_ITERATIONS {
          return false;
        }
        if motor1Calibrated && motor2Calibrated {
          return true;
        }
      }
    }

    /**
     * The body of the do-while loop of `calibrateMotors()` up to the exit
     * tests: both `calibrate()` calls of round `counter` of a run from
     * `start`, then the count.
     */
    method CalibrationRound(magnet1: Magnet, magnet2: Magnet, ghost start: Hands, counter: SizeT)
        returns (motor1Calibrated: bool, motor2Calibrated: bool, next: SizeT)
      requires Valid() && ValidHands(start) && counter <= MAX_CALIBRATION_ITERATIONS
      requires HandsNow() == HomingBoth(start, magnet1, magnet2, counter)
      modifies motor1, motor2, calibration1, calibration2
      ensures Valid() && next == counter + 1
      ensures HandsNow() == HomingBoth(start, magnet1, magnet2, next)
      ensures motor1Calibrated == DoneAfter(start.hand1, magnet1, counter)
      ensures motor2Calibrated == DoneAfter(start.hand2, magnet2, counter)
    {
      motor1Calibrated := CalibrateHand(calibration1, magnet1, start.hand1, counter);
      motor2Calibrated := CalibrateHand(calibration2, magnet2, start.hand2, counter);
      next := counter + 1;
    }

    /** Start-up: home both hands; the result is not used. */
    method Setup(magnet1: Magnet, magnet2: Magnet)
      requires Valid()
      modifies motor1, motor2, calibration1, calibration2
      ensures Valid()
      ensures HandsNow() == DriverSpec.CalibrateMotors(old(HandsNow()), magnet1, magnet2).1
    {
      var calibrated := CalibrateMotors(magnet1, magnet2);
    }

    /** One pass of the main loop. */
    method Loop(now: U32, magnet1: Magnet, magnet2: Magnet, inField1: bool, inField2: bool)
      requires Valid()
      modifies motor1, motor2, calibration1, calibration2, own, comm
      ensures Valid()
      ensures State() == DriverSpec.Loop(old(State()), comm.minOutClockHigh, now, magnet1, magnet2, inField1, inField2)
    {
      HandleInstruction(magnet1, magnet2);
      comm.Tick(now);
      TickHand(calibration1, now, inField1);
      TickHand(calibration2, now, inField2);
    }

    /** The first part of `loop()`: act on a pending own instruction and mark it processed. */
    method HandleInstruction(magnet1: Magnet, magnet2: Magnet)
      requires Valid()
      modifies motor1, motor2, calibration1, calibration2, own
      ensures Valid()
      ensures State() == DriverSpec.HandleInstruction(old(State()), magnet1, magnet2)
    {
      if own.pending {
        var ins := own.data;
        if (ins.hourBackward && ins.hourForward) || (ins.minuteBackward && ins.minuteForward) {
          var calibrated := CalibrateMotors(magnet1, magnet2);
        } else {
          if ins.hourBackward {
            motor1.PlanStepBackward();
          } else if ins.hourForward {
            motor1.PlanStepForward();
          }

          if ins.minuteBackward {
            motor2.PlanStepBackward();
          } else if ins.minuteForward {
            motor2.PlanStepForward();
          }
        }
        own.pending := false;
      }
    }
  }

  /**
   * One `calibrate()` of a hand whose hall sensor sees `magnet`, as the
   * `i`-th call of a homing run from `start`; returns whether it reported done.
   */
  method CalibrateHand(calibration: Calibrations.Calibration, magnet: Magnet, ghost start: Snapshot, ghost i: nat)
      returns (done: bool)
    requires calibration.Valid() && MotorSpec.ValidMotor(start.motor)
    requires Snapshot(calibration.Record(), calibration.motor.State()) == Homing(start, magnet, i)
    modifies calibration, calibration.motor
    ensures calibration.Valid()
    ensures done == DoneAfter(start, magnet, i)
    ensures Snapshot(calibration.Record(), calibration.motor.State()) == Homing(start, magnet, i + 1)
  {
    done := calibration.Calibrate(Senses(magnet, calibration.motor.currentPos));
    HomingSplit(start, magnet, i, 1);
  }

  /** `if (motor.tryStep()) calibration.checkForCalibrationAfterStep();` for one hand. */
  method TickHand(calibration: Calibrations.Calibration, now: U32, inField: bool)
    requires calibration.Valid()
    modifies calibration, calibration.motor
    ensures calibration.Valid()
    ensures Snapshot(calibration.Record(), calibration.motor.State()) ==
      HandTick(Snapshot(old(calibration.Record()), old(calibration.motor.State())), now, inField)
  {
    var stepped := calibration.motor.TryStep(now);
    if stepped {
      calibration.CheckForCalibrationAfterStep(inField);
    }
  }
}
