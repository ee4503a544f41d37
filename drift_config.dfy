/**
 * The fixed configuration of the drift fix: the pre-measured bias vector,
 * the deadzones and the thresholds of the correction pipeline, as
 * `XboxDriftFix.__init__` sets them up. None of it changes during a run.
 */
module DriftConfig {
  /** Number of drift-corrected stick axes: left X, left Y, right X, right Y. */
  const StickAxes: nat := 4

  /** The rest offset measured for each stick axis (`KNOWN_DRIFT`); axis 1 carries the major drift. */
  const KnownDrift: seq<real> := [0.00002, 0.51562, 0.00002, -0.00002]

  /** The deadzone applied to every stick axis. */
  const BaseDeadzone: real := 0.05

  /** `[BASE_DEADZONE] * 4`. */
  const BaseDeadzones: seq<real> := [BaseDeadzone, BaseDeadzone, BaseDeadzone, BaseDeadzone]

  /** Magnitude of the output device's stick range. */
  const MaxAxisValue: int := 32767

  /** Top of the output device's trigger range. */
  const MaxTriggerValue: int := 255

  /** At most this many raw axes are read per frame: four sticks and two triggers. */
  const MaxRawAxes: nat := 6

  /** Capacity of each axis's sample history. */
  const HistoryCapacity: nat := 10

  /** Mean adjacent change above which the samples count as intentional movement. */
  const MotionThreshold: real := 0.1

  /** Axis 1 passes through unchanged above this raw value (when it also exceeds the bias). */
  const BypassHigh: real := 0.55

  /** Axis 1 passes through unchanged below this raw value. */
  const BypassLow: real := -0.1
}
