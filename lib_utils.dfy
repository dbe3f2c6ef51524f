/**
 * lib/Utils/Utils.cpp: the library copy of the position math, with the ring
 * size hard-coded to 1705 steps per revolution. The unit tests of the
 * repository run against this copy.
 */
module LibUtils {
  import opened Machine
  import RingMath

  const MAX_STEPS: SizeT := 1705

  /** Steps from `start` to `finish` walking in direction `direction` (true = forward). */
  function Diff(start: SizeT, finish: SizeT, direction: bool): (r: SizeT)
    ensures start == finish ==> r == 0
    ensures start < MAX_STEPS && finish < MAX_STEPS ==>
      r < MAX_STEPS &&
      RingMath.ModularRepresentative(MAX_STEPS, if direction then finish - start else start - finish, r)
  {
    RingMath.Diff(MAX_STEPS, start, finish, direction)
  }

  /** Position at which the hand should leave a field of width `fieldWidth` in direction `direction`. */
  function CalculateFieldLeavePosition(fieldWidth: SizeT, direction: bool): (r: SizeT)
    ensures direction ==> r == fieldWidth / 2
    ensures !direction ==> r == MAX_STEPS - fieldWidth / 2 || fieldWidth / 2 > MAX_STEPS
    ensures 2 <= fieldWidth && fieldWidth / 2 < MAX_STEPS ==> r < MAX_STEPS
  {
    RingMath.FieldLeavePosition(MAX_STEPS, fieldWidth, direction)
  }

  /** `true` iff walking forward from `from` to `to` is strictly shorter than walking backward. */
  function GetShortestDirection(from: SizeT, to: SizeT): (forward: bool)
    ensures forward <==> Diff(from, to, true) < Diff(from, to, false)
    ensures from < MAX_STEPS && to < MAX_STEPS ==>
      (forward <==> 0 < Diff(from, to, true) && 2 * Diff(from, to, true) < MAX_STEPS)
  {
    RingMath.ShortestDirectionIsShortest(MAX_STEPS, from, to);
    RingMath.ShortestDirection(MAX_STEPS, from, to)
  }

  /** The examples in the documentation comment of `diff` and the forward-diff unit tests. */
  lemma ForwardDiffExamples()
    ensures Diff(20, 30, true) == 10
    ensures Diff(1650, 1660, true) == 10
    ensures Diff(1700, 5, true) == 10
    ensures Diff(1650, 1660, false) == 1695
  {
  }

  /** The backward-diff unit tests. */
  lemma BackwardDiffExamples()
    ensures Diff(30, 20, false) == 10
    ensures Diff(1660, 1650, false) == 10
    ensures Diff(5, 1700, false) == 10
  {
  }

  /** The leave-position unit tests: integer division truncates. */
  lemma FieldLeavePositionExamples()
    ensures CalculateFieldLeavePosition(200, true) == 100
    ensures CalculateFieldLeavePosition(200, false) == 1605
    ensures CalculateFieldLeavePosition(201, true) == 100
    ensures CalculateFieldLeavePosition(201, false) == 1605
  {
  }

  /** The shortest-direction unit tests. */
  lemma ShortestDirectionExamples()
    ensures GetShortestDirection(0, 10)
    ensures GetShortestDirection(1700, 10)
    ensures !GetShortestDirection(1600, 1500)
    ensures !GetShortestDirection(10, 1700)
  {
  }

  /** 1705 is odd, so the two ways round never tie between distinct positions. */
  lemma NoTieOnOddRing(from: SizeT, to: SizeT)
    requires from < MAX_STEPS && to < MAX_STEPS && from != to
    ensures Diff(from, to, true) != Diff(from, to, false)
  {
    RingMath.ShortestDirectionTie(MAX_STEPS, from, to);
  }
}
