/**
 * src/Utils.cpp: the position math used by the firmware, with the ring size
 * MAX_STEPS taken from src/Config.h (3414 in the default build).
 */
module Utils {
  import opened Machine
  import Config
  import RingMath

  const MAX_STEPS: SizeT := Config.MAX_STEPS

  /** Steps from `from` to `to` walking in direction `direction` (true = forward). */
  function Diff(from: SizeT, to: SizeT, direction: bool): (r: SizeT)
    ensures from == to ==> r == 0
    ensures from < MAX_STEPS && to < MAX_STEPS ==>
      r < MAX_STEPS &&
      RingMath.ModularRepresentative(MAX_STEPS, if direction then to - from else from - to, r)
  {
    RingMath.Diff(MAX_STEPS, from, to, direction)
  }

  /** Position at which the hand should leave a field of width `fieldWidth` in direction `direction`. */
  function CalculateFieldLeavePosition(fieldWidth: SizeT, direction: bool): (r: SizeT)
    ensures direction ==> r == fieldWidth / 2
    ensures !direction ==> r == MAX_STEPS - fieldWidth / 2 || fieldWidth / 2 > MAX_STEPS
    ensures 2 <= fieldWidth && fieldWidth / 2 < MAX_STEPS ==> r < MAX_STEPS
    ensures !direction && fieldWidth < 2 ==> r == MAX_STEPS
  {
    RingMath.FieldLeavePosition(MAX_STEPS, fieldWidth, direction)
  }

  /** `true` iff walking forward from `from` to `to` is strictly shorter than walking backward. */
  function GetShortestDirection(from: SizeT, to: SizeT): (forward: bool)
    ensures forward <==> Diff(from, to, true) < Diff(from, to, false)
    ensures from < MAX_STEPS && to < MAX_STEPS ==>
      Diff(from, to, forward) <= Diff(from, to, !forward) &&
      2 * Diff(from, to, forward) <= MAX_STEPS
  {
    RingMath.ShortestDirectionIsShortest(MAX_STEPS, from, to);
    RingMath.ShortestDirection(MAX_STEPS, from, to)
  }

  /** Walking backward from `a` to `b` is walking forward from `b` to `a`; distinct positions split the ring. */
  lemma DiffMirrorAndComplement(a: SizeT, b: SizeT)
    requires a < MAX_STEPS && b < MAX_STEPS
    ensures Diff(a, b, true) == Diff(b, a, false)
    ensures a != b ==> Diff(a, b, true) + Diff(a, b, false) == MAX_STEPS
  {
    RingMath.DiffMirror(MAX_STEPS, a, b);
    if a != b {
      RingMath.DiffComplement(MAX_STEPS, a, b);
    }
  }

  /** With 3414 steps per revolution the half-way point is an exact tie, which goes backward. */
  lemma HalfRevolutionTie()
    ensures Diff(0, 1707, true) == Diff(0, 1707, false) == 1707
    ensures !GetShortestDirection(0, 1707)
  {
  }
}
