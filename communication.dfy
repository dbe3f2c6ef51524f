/**
 * src/ClockCommunication.cpp and the mailbox of src/Instruction.h as
 * objects. The inbound data pins are the parameters `data1`..`data4`, the
 * outbound pins are fields, and `micros()` is the parameter `now`. Every
 * method is proved to take the fields to the value the matching function of
 * `CommunicationSpec` gives.
 */
module Communication {
  import opened Machine
  import Config
  import opened CommunicationSpec

  /** The global `OwnInstruction ownInstruction`, written by the relay and read by the main loop, which resets its pending flag. */
  class Mailbox {
    var pending: bool
    var data: Instruction

    function Value(): OwnInstruction
      reads this
    {
      OwnInstruction(pending, data)
    }

    /** Statically zero-initialised: nothing pending. */
    constructor ()
      ensures Value() == OwnInstruction(false, AsInstruction(ALL_LOW))
    {
      pending := false;
      data := Instruction(false, false, false, false);
    }
  }

  class ClockCommunication {
    /** The mailbox this relay delivers to (a reference in the C++). */
    const own: Mailbox

    /** MIN_OUT_CLOCK_HIGH: how long, in microseconds, the outbound clock stays high at least. */
    const minOutClockHigh: nat

    var passOnInstructions: bool
    var lastInstructionReadMicros: U32
    var lastInstructionSendMicros: U32
    /** Level of OUT_CLOCK. */
    var outClock: bool
    /** Levels of OUT_DATA1..4. */
    var outData: DataLines

    function Relay(): RelayState
      reads this
    {
      RelayState(passOnInstructions, lastInstructionReadMicros, lastInstructionSendMicros, outClock, outData)
    }

    /** Binds the mailbox; the fields start zero-initialised and the output pins low. */
    constructor (instruction: Mailbox, minOutClockHigh: nat)
      ensures own == instruction && this.minOutClockHigh == minOutClockHigh
      ensures Relay() == CommunicationSpec.INITIAL
    {
      own := instruction;
      this.minOutClockHigh := minOutClockHigh;
      passOnInstructions := false;
      lastInstructionReadMicros, lastInstructionSendMicros := 0, 0;
      outClock := false;
      outData := ALL_LOW;
    }

    method Tick(now: U32)
      modifies this
      ensures Relay() == CommunicationSpec.Tick(old(Relay()), minOutClockHigh, now)
    {
      if passOnInstructions {
        if outClock {
          var microsSinceClockHigh := Elapsed(now, lastInstructionSendMicros);
          if microsSinceClockHigh > minOutClockHigh {
            outClock := false;
          }
        } else {
          var microsSinceLastInput := Elapsed(now, lastInstructionReadMicros);
          if microsSinceLastInput > Config.DELAY_BETWEEN_INSTRUCTIONS {
            passOnInstructions := false;
          }
        }
      }
    }

    /** The interrupt handler for a rising edge on the input clock line. */
    method ProcessDataInput(data1: bool, data2: bool, data3: bool, data4: bool, now: U32)
      modifies this, own
      ensures Received(Relay(), own.Value()) ==
        CommunicationSpec.ProcessDataInput(old(Relay()), old(own.Value()), DataLines(data1, data2, data3, data4), now)
    {
      if passOnInstructions {
        PassOnInstruction(data1, data2, data3, data4, now);
      } else {
        UpdateOwnInstruction(data1, data2, data3, data4);
      }

      lastInstructionReadMicros := now;
    }

    method UpdateOwnInstruction(data1: bool, data2: bool, data3: bool, data4: bool)
      modifies this, own
      ensures Received(Relay(), own.Value()) ==
        CommunicationSpec.UpdateOwnInstruction(old(Relay()), old(own.Value()), DataLines(data1, data2, data3, data4))
    {
      own.data := own.data.(hourBackward := data1);
      own.data := own.data.(hourForward := data2);
      own.data := own.data.(minuteBackward := data3);
      own.data := own.data.(minuteForward := data4);
      own.pending := true;
      passOnInstructions := true;
    }

    method PassOnInstruction(data1: bool, data2: bool, data3: bool, data4: bool, now: U32)
      modifies this
      ensures Relay() == CommunicationSpec.PassOnInstruction(old(Relay()), DataLines(data1, data2, data3, data4), now)
    {
      outData := outData.(data1 := data1);
      outData := outData.(data2 := data2);
      outData := outData.(data3 := data3);
      outData := outData.(data4 := data4);
      outClock := true;
      lastInstructionSendMicros := now;
    }
  }
}
