/**
 * The timing and calibration constants of src/Config.h for the default build
 * (COIL_MODE_SINGLE not defined). Pin assignments are wiring only and are not modelled.
 */
module Config {

  /** Length of the commutation cycle that the thresholds below are derived from. */
  const MAX_COIL_STATE: nat := 8

  /** Number of motor steps in one revolution of a hand. */
  const MAX_STEPS: nat := 3414

  /** Microseconds that must pass between two executed steps. */
  const MIN_STEP_DELAY: nat := 1100

  /** Homing: steps the hand must have walked outside the field before a field entry is trusted. */
  const MIN_STEPS_OUTSIDE_FIELD: nat := 2 * MAX_COIL_STATE

  /** Drift correction: narrower measured fields are treated as sensor noise. */
  const MIN_WIDTH_FOR_RECALIBRATION: nat := 3 * MAX_COIL_STATE

  /** Drift correction: smaller offsets are not corrected. */
  const MIN_STEPS_OFF_FOR_RECALIBRATION: nat := 3 * MAX_COIL_STATE

  /** Bus relay: microseconds of silence after which the next edge is an own instruction again. */
  const DELAY_BETWEEN_INSTRUCTIONS: nat := 300

  /** MAX_STEPS of the single-coil build (COIL_MODE_SINGLE defined). */
  const MAX_STEPS_SINGLE_COIL: nat := 1706
}
