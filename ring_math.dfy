/**
 * Position math on the ring of step positions of a hand, shared by the two
 * copies of the utility functions (lib/Utils/Utils.cpp and src/Utils.cpp),
 * which differ only in the ring size `maxSteps` (the MAX_STEPS macro).
 * Arguments and results are `size_t`; the lemmas hold for every ring size
 * `0 < maxSteps` that fits a `size_t`.
 */
module RingMath {
  import opened Machine

  /** Direction of travel: `true` is forward (increasing positions). */
  type Direction = bool

  /**
   * Steps needed to walk from `from` to `to` in direction `forward`, wrapping
   * around the ring of `maxSteps` positions. The C++ subtracts in `size_t`,
   * so the wrap-around branch is computed modulo 2^16.
   */
  function Diff(maxSteps: SizeT, from: SizeT, to: SizeT, forward: Direction): (r: SizeT)
    ensures from == to ==> r == 0
    ensures from < maxSteps && to < maxSteps ==> r < maxSteps
  {
    if forward then
      if to >= from then to - from else WrapSize(maxSteps - from + to)
    else
      if from >= to then from - to else WrapSize(maxSteps - to + from)
  }

  /**
   * The reference definition of ring distance: the forward walk is the
   * representative in [0, maxSteps) of `to - from` modulo the ring size, the
   * backward walk that of `from - to`.
   */
  lemma DiffIsModular(maxSteps: SizeT, from: SizeT, to: SizeT)
    requires from < maxSteps && to < maxSteps
    ensures ModularRepresentative(maxSteps, to - from, Diff(maxSteps, from, to, true))
    ensures ModularRepresentative(maxSteps, from - to, Diff(maxSteps, from, to, false))
  {
  }

  /** `r` is the value in [0, n) congruent to `x`, for -n < x < n. */
  predicate ModularRepresentative(n: int, x: int, r: int) {
    0 <= r < n && (r == x || r == x + n)
  }

  /** Walking `Diff` steps from `from` lands on `to`, in either direction, wrapping at most once. */
  lemma DiffRoundTrip(maxSteps: SizeT, from: SizeT, to: SizeT)
    requires from < maxSteps && to < maxSteps
    ensures var f := from + Diff(maxSteps, from, to, true); f == to || f == to + maxSteps
    ensures var b := from - Diff(maxSteps, from, to, false); b == to || b == to - maxSteps
  {
  }

  /** Walking backward from `a` to `b` is walking forward from `b` to `a`. */
  lemma DiffMirror(maxSteps: SizeT, a: SizeT, b: SizeT)
    ensures Diff(maxSteps, a, b, true) == Diff(maxSteps, b, a, false)
  {
  }

  /** For distinct positions the two ways round add up to one revolution. */
  lemma DiffComplement(maxSteps: SizeT, a: SizeT, b: SizeT)
    requires a < maxSteps && b < maxSteps && a != b
    ensures Diff(maxSteps, a, b, true) + Diff(maxSteps, a, b, false) == maxSteps
  {
  }

  /**
   * Where the hand should be when it leaves a field of width `fieldWidth` in
   * direction `forward`, counted from the homed zero that sits `fieldWidth / 2`
   * steps before the forward exit of the field. `size_t` arithmetic wraps.
   */
  function FieldLeavePosition(maxSteps: SizeT, fieldWidth: SizeT, forward: Direction): (r: SizeT)
    ensures forward ==> r == fieldWidth / 2
    ensures !forward && fieldWidth / 2 <= maxSteps ==> r == maxSteps - fieldWidth / 2
    ensures 2 <= fieldWidth && fieldWidth / 2 < maxSteps ==> r < maxSteps
    ensures !forward && fieldWidth < 2 ==> r == maxSteps
  {
    if forward then fieldWidth / 2 else WrapSize(maxSteps - fieldWidth / 2)
  }

  /** The forward and backward leave positions are half a field away from zero on either side. */
  lemma FieldLeavePositionsSymmetric(maxSteps: SizeT, fieldWidth: SizeT)
    requires 2 <= fieldWidth && fieldWidth / 2 < maxSteps
    ensures Diff(maxSteps, 0, FieldLeavePosition(maxSteps, fieldWidth, true), true) == fieldWidth / 2
    ensures Diff(maxSteps, 0, FieldLeavePosition(maxSteps, fieldWidth, false), false) == fieldWidth / 2
  {
  }

  /** `true` when walking forward from `from` to `to` is strictly shorter than walking backward. */
  function ShortestDirection(maxSteps: SizeT, from: SizeT, to: SizeT): (forward: Direction)
    ensures from == to ==> !forward
  {
    Diff(maxSteps, from, to, true) < Diff(maxSteps, from, to, false)
  }

  /**
   * The chosen direction is never the longer way round, so the distance it
   * gives is at most half a revolution; forward is chosen exactly when the
   * forward distance is non-zero and under half a revolution.
   */
  lemma ShortestDirectionIsShortest(maxSteps: SizeT, from: SizeT, to: SizeT)
    ensures from < maxSteps && to < maxSteps ==>
      var d := ShortestDirection(maxSteps, from, to);
      Diff(maxSteps, from, to, d) <= Diff(maxSteps, from, to, !d) &&
      2 * Diff(maxSteps, from, to, d) <= maxSteps
    ensures from < maxSteps && to < maxSteps ==>
      (ShortestDirection(maxSteps, from, to) <==>
       0 < Diff(maxSteps, from, to, true) && 2 * Diff(maxSteps, from, to, true) < maxSteps)
  {
    if from < maxSteps && to < maxSteps && from != to {
      DiffComplement(maxSteps, from, to);
    }
  }

  /** An exact tie between the two ways round exists exactly on rings of even size; ties give backward. */
  lemma ShortestDirectionTie(maxSteps: SizeT, from: SizeT, to: SizeT)
    requires from < maxSteps && to < maxSteps && from != to
    ensures Diff(maxSteps, from, to, true) == Diff(maxSteps, from, to, false) ==>
      maxSteps % 2 == 0 && !ShortestDirection(maxSteps, from, to)
    ensures maxSteps % 2 == 0 && Diff(maxSteps, from, to, true) == maxSteps / 2 ==>
      Diff(maxSteps, from, to, false) == maxSteps / 2
  {
    DiffComplement(maxSteps, from, to);
  }
}
