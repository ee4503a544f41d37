# Controller drift fix — a Dafny model

This project models the drift-correction and input-translation core of the
`XboxDriftFix` class (`Main.py`). Each tick, the class reads a raw frame from a
physical game controller. It removes the pre-measured rest bias ("drift") and
small noise from the four stick axes, and re-emits the result on a virtual
Xbox 360 controller. The model has four parts:

- **Configuration** (`drift_config.dfy`, module `DriftConfig`): the bias vector
  `KNOWN_DRIFT`, the uniform deadzone `BASE_DEADZONE`, the device ranges and
  the thresholds of the pipeline (history capacity 10, motion threshold 0.1,
  axis-1 bypass bands 0.55 and -0.1), as named constants.
- **Motion detector** (`motion_detector.dfy`, module `MotionDetector`): the
  bounded history that `detect_user_input` keeps per axis (`Observe`: append,
  then one `pop(0)` past capacity), and its verdict `IsMoving` (at least three
  samples, and a mean change between adjacent samples above 0.1). Lemmas show
  the following. A history grown from empty is exactly the last min(n, 10)
  samples, in order. A history of identical samples, or one whose every step
  is at most 0.1, never reads as movement. A history of at least three
  samples whose every step exceeds a bound above 0.1 always does.
- **Axis corrector** (`axis_corrector.dfy`, module `AxisCorrector`): the
  generic rule (`CorrectPlain`: subtract the bias, zero inside the deadzone,
  clamp) and the axis-1 rule (`CorrectAxis1`: two bypass bands, a deadzone
  gated by the motion detector through a short-circuit `and`). `CorrectAxis1`
  also returns the axis-1 history after the call, because the detector is
  consulted (and its history appended to) only when the candidate value lies
  inside the deadzone.
- **Output protocol and frame translator** (`output_protocol.dfy`, module
  `OutputProtocol`; `drift_fix.dfy`, module `DriftFix`): the button flags,
  `BUTTON_MAP` and `DPAD_MAP`, the truncating scaling of sticks to ±32767 and
  of triggers to 0..255, and the virtual controller as a class `Gamepad`
  whose fields the press/release/set calls update. The class
  `XboxDriftFix` holds the per-axis histories. Its methods `DetectUserInput`,
  `CorrectAxis` and `ProcessInputs` are proved against the functions above:
  each `ensures` gives the new histories and the new controller state in
  terms of those functions and the old state.

Analog values are exact `real`s standing in for the source's floats. Python's
`int()` is modelled as truncation toward zero (`Analog.Trunc`). The physical
controller is abstracted as a `RawFrame` value. It carries every axis value
`get_axis` reports, every button state `get_button` reports, and hat 0 when
the device has a hat. The virtual controller is abstracted as the set of
held button flags plus four stick integers and two trigger integers. The
flags are the single bits of the 16-bit XInput gamepad button word
(D-pad up 0x0001, down 0x0002, left 0x0004, right 0x0008, and so on). The
library that defines them (vgamepad) is not part of this model.

Three behaviours of the code that a reader of its comments might not expect, modelled as written:

- On axis 1 the code applies the deadzone test to the corrected value on
  every path, including the bypass bands, and not only off them. With the
  configured deadzone 0.05 a bypassed value (|raw| > 0.1) never falls inside
  it. `CorrectAxis1` states the pass-through for any deadzone up to 0.1 and
  models the test on every path.
- Trigger values are not clamped by the code. `(raw + 1) / 2` stays in
  [0, 1], and the emitted byte in 0..255, only when the raw axis value lies
  in [-1, 1]. `ProcessInputs` states the trigger range under that condition
  only (`AxesInRange`).
- Of all the detector's calls, only those from axis 1 inside its deadzone
  ever grow a history. The histories of axes 0, 2 and 3 stay empty.

## Model

| member | source | states |
|---|---|---|
| `Analog.Clamp` | Main.py:118 | the result lies in [-1, 1], equals the input inside that range, and is 1 above it and -1 below it |
| `Analog.Trunc` | Main.py:143-154 | `int()` gives an integer of the input's sign, with \|n\| <= \|x\| < \|n\| + 1 (truncation toward zero) |
| `Analog.TruncOdd` | Main.py:143-154 | truncating a negated value gives the negated truncation |
| `MotionDetector.Observe` | Main.py:83-85 | the updated history ends with the new sample; from a history within capacity it grows by one up to 10 and then stays at 10 |
| `MotionDetector.ObserveWindow` | Main.py:83-85 | observing a sample turns the last-10 window of the samples seen so far into the last-10 window of those samples plus the new one |
| `MotionDetector.FeedWindow` | Main.py:83-85 | observing a whole sequence from the window of earlier samples yields the window of all samples |
| `MotionDetector.FeedFromEmpty` | Main.py:83-85 | a history grown from empty is the last min(n, 10) samples fed to it, in order, and never longer than 10 |
| `MotionDetector.SumChanges` | Main.py:89-91 | the summed adjacent absolute changes are never negative |
| `MotionDetector.IsMoving` | Main.py:88-94 | defines the detector's verdict: more than two samples, and a mean adjacent change (the sum over the number of changes) above 0.1 |
| `MotionDetector.ConstantHistoryStill` | Main.py:88-94 | a history of identical samples has no change at all and is never classified as movement |
| `MotionDetector.SumChangesAtLeast` | Main.py:89-91 | when every adjacent change is at least d, the sum of changes is at least d times their count |
| `MotionDetector.SumChangesAtMost` | Main.py:89-91 | when every adjacent change is at most d, the sum of changes is at most d times their count |
| `MotionDetector.SteadyChangeIsMoving` | Main.py:88-92 | three or more samples whose every step exceeds a bound above 0.1 are classified as movement |
| `MotionDetector.QuietHistoryStill` | Main.py:88-94 | samples whose every step is at most 0.1 are never classified as movement, however many there are |
| `AxisCorrector.CorrectPlain` | Main.py:111-118 | for axes 0, 2 and 3: the result lies in [-1, 1]; it is 0 when \|raw - bias\| is below the deadzone and clamp(raw - bias) otherwise; it never exceeds \|raw - bias\| in magnitude and has its sign |
| `AxisCorrector.Axis1Candidate` | Main.py:100-106 | defines the axis-1 value before the deadzone: the raw value on either bypass band, raw minus the bias otherwise |
| `AxisCorrector.CorrectAxis1` | Main.py:98-118 | for axis 1: the result lies in [-1, 1]; raw > 0.55 and raw > bias gives clamp(raw) with the history untouched; raw < -0.1 gives clamp(raw) with the history untouched; off both bands the result is 0 when \|raw - bias\| is below the deadzone and the detector sees no movement, and clamp(raw - bias) otherwise; the history is appended to exactly when the candidate value lies inside the deadzone; a raw value at the bias gives 0 |
| `AxisCorrector.StableHistoryRepeats` | Main.py:81-110 | once the axis-1 history holds ten copies of one sample, correcting that sample leaves the history unchanged and ignores the detector, so repeated calls give the same output |
| `OutputProtocol.ButtonMapInjective` | Main.py:35-58 | no two physical buttons drive the same flag, and no physical button drives a direction flag |
| `OutputProtocol.DpadMask` | Main.py:49-58 | the mask is non-zero exactly on the eight non-centre positions with coordinates in {-1, 0, 1}; up is set iff y = 1, down iff y = -1, left iff x = -1, right iff x = 1; no other bit is ever set |
| `OutputProtocol.ScaleStick` | Main.py:143-150 | a stick value in [-1, 1] becomes an integer in [-32767, 32767]; 1 gives 32767 and 0 gives 0 |
| `OutputProtocol.ScaleStickOdd` | Main.py:128-150 | inverting a Y value before scaling inverts the emitted integer exactly |
| `OutputProtocol.TriggerLevel` | Main.py:134-135 | the rescaled level lies in [0, 1] exactly when the raw value lies in [-1, 1], and 2t - 1 recovers the raw value |
| `OutputProtocol.ScaleTrigger` | Main.py:153-154 | a level in [0, 1] becomes an integer in [0, 255]; 0 gives 0 and 1 gives 255 |
| `OutputProtocol.Gamepad.constructor` | Main.py:77 | a new virtual controller holds no flag and has every stick and trigger at 0 |
| `OutputProtocol.Gamepad.PressButton` | Main.py:161 | pressing adds the flag to the held set; sticks and triggers are untouched |
| `OutputProtocol.Gamepad.ReleaseButton` | Main.py:163 | releasing removes the flag from the held set; sticks and triggers are untouched |
| `OutputProtocol.Gamepad.LeftJoystick` | Main.py:143-146 | sets the left stick's x and y to the given integers and nothing else |
| `OutputProtocol.Gamepad.RightJoystick` | Main.py:147-150 | sets the right stick's x and y to the given integers and nothing else |
| `OutputProtocol.Gamepad.SetLeftTrigger` | Main.py:153 | sets the left trigger to the given integer and nothing else |
| `OutputProtocol.Gamepad.SetRightTrigger` | Main.py:154 | sets the right trigger to the given integer and nothing else |
| `DriftFix.AxisCount` | Main.py:124 | at most six raw axes are read, and fewer only when the device has fewer |
| `DriftFix.ButtonCount` | Main.py:157 | at most ten buttons are forwarded, and fewer only when the device has fewer |
| `DriftFix.HatState` | Main.py:138-140 | defines the hat a frame is translated with: hat 0 when the device has one, the centre (0, 0) otherwise |
| `DriftFix.NoHatReleasesDirections` | Main.py:138-140 | a device without a hat is translated as a centred hat, so all four direction flags are released |
| `DriftFix.DirectionHeld` | Main.py:165-193 | defines each direction flag's state after a frame: released at the centre, unchanged at a position off the map, held iff the position's mask has its bit otherwise |
| `DriftFix.DiagonalHoldsTwo` | Main.py:166-187 | after hat (1, 1) exactly the up and right direction flags are held |
| `DriftFix.XboxDriftFix.constructor` | Main.py:24-32 | every axis history starts empty; the bias vector and deadzones are the fixed constants |
| `DriftFix.XboxDriftFix.DetectUserInput` | Main.py:81-94 | the axis's history becomes `Observe` of its old history and the sample, no other history changes, and the result is `IsMoving` of the new history |
| `DriftFix.XboxDriftFix.CorrectAxis` | Main.py:96-118 | axes 0, 2 and 3 return `CorrectPlain` and change no history; axis 1 returns `CorrectAxis1`'s value and changes only the axis-1 history, to `CorrectAxis1`'s history |
| `DriftFix.XboxDriftFix.CorrectSticks` | Main.py:127-131 | the four stick values are the corrected axes 0 to 3, with axes 1 and 3 negated, and 0 for an axis the frame lacks |
| `DriftFix.XboxDriftFix.EmitAnalog` | Main.py:124-154 | the virtual controller's sticks are the scaled corrected (Y: inverted) values and its triggers the scaled rescaled axes 4 and 5, each 0 when absent; sticks lie in [-32767, 32767], and triggers in [0, 255] for raw values in [-1, 1] |
| `DriftFix.XboxDriftFix.SetButton` | Main.py:160-163 | a held physical button adds its flag to the held set, a released one removes it |
| `DriftFix.XboxDriftFix.ForwardButtons` | Main.py:156-163 | for each index below min(buttons, 10) the mapped flag is held iff that button is; every other flag is left as it was |
| `DriftFix.XboxDriftFix.ApplyHat` | Main.py:165-193 | the centre releases all four direction flags; a mapped position holds exactly the flags its mask has and releases the others; an unmapped position leaves them as they were; no other flag changes |
| `DriftFix.XboxDriftFix.ProcessInputs` | Main.py:120-195 | the whole frame: the stick, trigger and history results of `EmitAnalog`, the button results of `ForwardButtons` and the direction results of `ApplyHat`; flags not driven by either keep their state |

## Left out

- Device setup: `pygame.init`, joystick enumeration, `init_controllers` and its `sys.exit(1)` when no controller is found (Main.py:11-12, 70-79) are device I/O. The raw frame is a parameter instead.
- `pygame.event.pump()` (Main.py:121) is event-queue I/O.
- The virtual controller's library calls: the model keeps only their effects on held flags, sticks and triggers. The library's own argument range checks and its 16-bit button word are not modelled (a set of single-bit flags stands for the word). `update()` (Main.py:195), `reset()`, `close()` and `cleanup` (Main.py:197-203) are library calls and teardown.
- The polling loop `run` (Main.py:205-218), with its `time.time()`/`time.sleep` pacing at 120 Hz (`POLL_RATE`, Main.py:19, which only `run` reads) and its exception handling, is timing and lifecycle plumbing.
- The administrator check through `ctypes` and every `print` (Main.py:64-68, 72, 79, 222-226) are platform and console output.
- IEEE-754 rounding: all arithmetic is over exact reals. Only the explicit `int()` truncation is modelled.
- The fields that no code reads (`DRIFT_SAMPLES`, `DRIFT_THRESHOLD`, `DRIFT_ADAPT_RATE`, `calibration_data`, `calibrated`, `last_values`; Main.py:15, 17, 20, 29-31) are not modelled. `stick_drift` and `active_deadzones` are never mutated, so they are constant fields.
