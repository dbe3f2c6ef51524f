/**
 * The behaviour of src/ClockCommunication.cpp as functions on values: the
 * relay state of one clock on the daisy chain, the four data lines, and the
 * OwnInstruction mailbox of src/Instruction.h. The relay consumes the first
 * instruction of a burst and forwards every later one to the next clock
 * until the input line has been idle long enough.
 */
module CommunicationSpec {
  import opened Machine
  import Config

  /** One instruction for this clock's two hands (struct Instruction). */
  datatype Instruction = Instruction(hourBackward: bool, hourForward: bool, minuteBackward: bool, minuteForward: bool)

  /** The mailbox shared with the main loop (struct OwnInstruction). */
  datatype OwnInstruction = OwnInstruction(pending: bool, data: Instruction)

  /** Levels of the four data lines DATA1..DATA4, inbound or outbound. */
  datatype DataLines = DataLines(data1: bool, data2: bool, data3: bool, data4: bool)

  const ALL_LOW: DataLines := DataLines(false, false, false, false)

  /**
   * The fields of a ClockCommunication together with the outbound pin levels
   * it drives: OUT_CLOCK and OUT_DATA1..4.
   */
  datatype RelayState = RelayState(
    passOnInstructions: bool,
    lastInstructionReadMicros: U32,
    lastInstructionSendMicros: U32,
    outClock: bool,
    outData: DataLines)

  /** Right after start-up: not relaying, zero time stamps, all outbound lines low. */
  const INITIAL: RelayState := RelayState(false, 0, 0, false, ALL_LOW)

  /** How the data lines are read as an instruction: DATA1..4 are hour back, hour forward, minute back, minute forward. */
  function AsInstruction(lines: DataLines): (ins: Instruction)
    ensures ins.hourBackward == lines.data1 && ins.hourForward == lines.data2
    ensures ins.minuteBackward == lines.data3 && ins.minuteForward == lines.data4
  {
    Instruction(lines.data1, lines.data2, lines.data3, lines.data4)
  }

  datatype Received = Received(relay: RelayState, own: OwnInstruction)

  /** `updateOwnInstruction()`: the lines go to the mailbox, and later edges will be passed on. */
  function UpdateOwnInstruction(r: RelayState, own: OwnInstruction, lines: DataLines): Received {
    Received(r.(passOnInstructions := true), OwnInstruction(true, AsInstruction(lines)))
  }

  /** `passOnInstruction()`: copy the lines to the next clock and raise its clock line. */
  function PassOnInstruction(r: RelayState, lines: DataLines, now: U32): RelayState {
    r.(outData := lines, outClock := true, lastInstructionSendMicros := now)
  }

  /**
   * The interrupt handler `processDataInput()` for one rising edge on the
   * input clock, at time `now`, with the data lines at `lines`.
   */
  function ProcessDataInput(r: RelayState, own: OwnInstruction, lines: DataLines, now: U32): (res: Received)
    // consuming: the mailbox gets the instruction, the outbound lines are untouched
    ensures !r.passOnInstructions ==>
      res.own == OwnInstruction(true, AsInstruction(lines)) &&
      res.relay.outData == r.outData && res.relay.outClock == r.outClock &&
      res.relay.lastInstructionSendMicros == r.lastInstructionSendMicros
    // relaying: the lines are forwarded bit for bit, the mailbox is untouched
    ensures r.passOnInstructions ==>
      res.own == own &&
      res.relay.outData == lines && res.relay.outClock &&
      res.relay.lastInstructionSendMicros == now
    ensures res.relay.passOnInstructions && res.relay.lastInstructionReadMicros == now
  {
    var handled :=
      if r.passOnInstructions then Received(PassOnInstruction(r, lines, now), own)
      else UpdateOwnInstruction(r, own, lines);
    Received(handled.relay.(lastInstructionReadMicros := now), handled.own)
  }

  /**
   * `tick()` from the main loop at time `now`: while relaying, first lower
   * the outbound clock once it has been high for more than `minOutClockHigh`
   * microseconds; with the clock low, leave relay mode once no edge has come
   * for more than DELAY_BETWEEN_INSTRUCTIONS. Both intervals are unsigned
   * differences, correct across a `micros()` overflow.
   */
  function Tick(r: RelayState, minOutClockHigh: nat, now: U32): (t: RelayState)
    ensures !r.passOnInstructions ==> t == r
    ensures r.passOnInstructions && r.outClock ==>
      t == r.(outClock := !(Elapsed(now, r.lastInstructionSendMicros) > minOutClockHigh))
    ensures r.passOnInstructions && !r.outClock ==>
      t == r.(passOnInstructions := !(Elapsed(now, r.lastInstructionReadMicros) > Config.DELAY_BETWEEN_INSTRUCTIONS))
  {
    if r.passOnInstructions then
      if r.outClock then
        var microsSinceClockHigh := Elapsed(now, r.lastInstructionSendMicros);
        if microsSinceClockHigh > minOutClockHigh then r.(outClock := false) else r
      else
        var microsSinceLastInput := Elapsed(now, r.lastInstructionReadMicros);
        if microsSinceLastInput > Config.DELAY_BETWEEN_INSTRUCTIONS then r.(passOnInstructions := false) else r
    else
      r
  }

  /** `tick()` never writes the mailbox (it has no access to it) nor the outbound data lines, nor the time stamps. */
  lemma TickKeepsDataAndTimes(r: RelayState, minOutClockHigh: nat, now: U32)
    ensures var t := Tick(r, minOutClockHigh, now);
      t.outData == r.outData &&
      t.lastInstructionReadMicros == r.lastInstructionReadMicros &&
      t.lastInstructionSendMicros == r.lastInstructionSendMicros
    ensures var t := Tick(r, minOutClockHigh, now);
      t.passOnInstructions != r.passOnInstructions ==> !r.outClock && !t.passOnInstructions
  {
  }

  /** What happens on the bus, in order: an input edge with its data lines, or a main-loop tick. */
  datatype Event = Edge(lines: DataLines, at: U32) | TickAt(now: U32)

  /** The relay and mailbox after the events `es`. */
  function Run(r: RelayState, own: OwnInstruction, minOutClockHigh: nat, es: seq<Event>): Received
    decreases |es|
  {
    if |es| == 0 then Received(r, own)
    else
      var next :=
        match es[0]
        case Edge(lines, at) => ProcessDataInput(r, own, lines, at)
        case TickAt(now) => Received(Tick(r, minOutClockHigh, now), own);
      Run(next.relay, next.own, minOutClockHigh, es[1..])
  }

  /** The time of the last edge among `es`, or `since` when there is none. */
  function LastEdgeTime(since: U32, es: seq<Event>): U32
    decreases |es|
  {
    if |es| == 0 then since
    else LastEdgeTime(if es[0].Edge? then es[0].at else since, es[1..])
  }

  /**
   * No tick among `es` comes more than DELAY_BETWEEN_INSTRUCTIONS after the
   * last edge before it (the last edge before `es` being at `since`).
   */
  predicate NoIdleGap(since: U32, es: seq<Event>)
    decreases |es|
  {
    |es| == 0 ||
    ((es[0].TickAt? ==> Elapsed(es[0].now, since) <= Config.DELAY_BETWEEN_INSTRUCTIONS) &&
     NoIdleGap(if es[0].Edge? then es[0].at else since, es[1..]))
  }

  /** The data lines of the last edge among `es`, or `lines` when there is none. */
  function LastEdgeLines(lines: DataLines, es: seq<Event>): DataLines
    decreases |es|
  {
    if |es| == 0 then lines
    else LastEdgeLines(if es[0].Edge? then es[0].lines else lines, es[1..])
  }

  /**
   * While relaying, a stretch of events without an idle gap leaves the
   * mailbox alone, keeps relaying, and forwards the data of every edge: the
   * outbound lines end up holding the last edge's data.
   */
  lemma {:induction false} RelayingForwardsEveryEdge(r: RelayState, own: OwnInstruction, minOutClockHigh: nat, es: seq<Event>)
    requires r.passOnInstructions
    requires NoIdleGap(r.lastInstructionReadMicros, es)
    ensures var res := Run(r, own, minOutClockHigh, es);
      res.own == own && res.relay.passOnInstructions &&
      res.relay.outData == LastEdgeLines(r.outData, es) &&
      res.relay.lastInstructionReadMicros == LastEdgeTime(r.lastInstructionReadMicros, es)
    decreases |es|
  {
    if |es| > 0 {
      var next :=
        match es[0]
        case Edge(lines, at) => ProcessDataInput(r, own, lines, at)
        case TickAt(now) => Received(Tick(r, minOutClockHigh, now), own);
      RelayingForwardsEveryEdge(next.relay, next.own, minOutClockHigh, es[1..]);
    }
  }

  /**
   * A burst: the first edge after the line went idle is this clock's own
   * instruction, and it is the only edge that writes the mailbox; every later
   * edge of the burst is forwarded to the next clock.
   */
  lemma BurstConsumesOnlyTheFirstEdge(r: RelayState, own: OwnInstruction, minOutClockHigh: nat,
                                      lines: DataLines, at: U32, rest: seq<Event>)
    requires !r.passOnInstructions
    requires NoIdleGap(at, rest)
    ensures var res := Run(r, own, minOutClockHigh, [Edge(lines, at)] + rest);
      res.own == OwnInstruction(true, AsInstruction(lines)) &&
      res.relay.passOnInstructions &&
      res.relay.outData == LastEdgeLines(r.outData, rest)
  {
    var es := [Edge(lines, at)] + rest;
    assert es[1..] == rest;
    var first := ProcessDataInput(r, own, lines, at);
    RelayingForwardsEveryEdge(first.relay, first.own, minOutClockHigh, rest);
  }

  /**
   * Once the outbound clock is low and the line has been idle for longer
   * than DELAY_BETWEEN_INSTRUCTIONS, one tick ends the burst, and the next
   * edge is consumed as this clock's own instruction.
   */
  lemma IdleLineEndsBurst(r: RelayState, own: OwnInstruction, minOutClockHigh: nat, now: U32, lines: DataLines, at: U32)
    requires r.passOnInstructions && !r.outClock
    requires Elapsed(now, r.lastInstructionReadMicros) > Config.DELAY_BETWEEN_INSTRUCTIONS
    ensures var t := Tick(r, minOutClockHigh, now);
      !t.passOnInstructions &&
      ProcessDataInput(t, own, lines, at).own == OwnInstruction(true, AsInstruction(lines))
  {
  }

  /** A forwarded edge raises the outbound clock, and the first tick more than `minOutClockHigh` later lowers it again. */
  lemma ForwardedClockPulseEnds(r: RelayState, own: OwnInstruction, minOutClockHigh: nat, lines: DataLines, at: U32, now: U32)
    requires r.passOnInstructions
    requires Elapsed(now, at) > minOutClockHigh
    ensures var sent := ProcessDataInput(r, own, lines, at).relay;
      sent.outClock && !Tick(sent, minOutClockHigh, now).outClock &&
      Tick(sent, minOutClockHigh, now).passOnInstructions
  {
  }
}
