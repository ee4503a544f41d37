/**
 * The axis corrector behind `correct_axis`: bias subtraction, deadzone and
 * clamp, with the two bypass bands and the motion-gated deadzone of axis 1.
 */
module AxisCorrector {
  import opened DriftConfig
  import opened Analog
  import opened MotionDetector

  /** What correcting one axis-1 sample yields: the corrected value and the axis-1 history afterwards. */
  datatype Correction = Correction(value: real, history: seq<real>)

  /** The generic rule of axes 0, 2 and 3: subtract the bias, zero inside the deadzone, clamp. */
  function CorrectPlain(raw: real, bias: real, deadzone: real): (r: real)
    ensures -1.0 <= r <= 1.0
    ensures Abs(raw - bias) < deadzone ==> r == 0.0
    ensures Abs(raw - bias) >= deadzone ==> r == Clamp(raw - bias)
    ensures Abs(r) <= Abs(raw - bias)
    ensures raw >= bias ==> r >= 0.0
    ensures raw <= bias ==> r <= 0.0
  {
    var corrected := raw - bias;
    Clamp(if Abs(corrected) < deadzone then 0.0 else corrected)
  }

  /** The user pushes axis 1 past the drift zone in the positive direction. */
  predicate PositiveBypass(raw: real, bias: real)
  {
    raw > BypassHigh && raw > bias
  }

  /** The user pushes axis 1 in the negative direction, where the positive bias does not apply. */
  predicate NegativeBypass(raw: real)
  {
    raw < BypassLow
  }

  /** The axis-1 value before the deadzone: the raw value on a bypass band, the bias-corrected one otherwise. */
  function Axis1Candidate(raw: real, bias: real): real
  {
    if PositiveBypass(raw, bias) then raw
    else if NegativeBypass(raw) then raw
    else raw - bias
  }

  /**
   * The special rule of axis 1, given its history `h` before the call. The
   * detector is consulted (and the history appended to) only when the
   * candidate lies inside the deadzone, as the short-circuit `and` does.
   */
  function CorrectAxis1(raw: real, bias: real, deadzone: real, h: seq<real>): (r: Correction)
    ensures -1.0 <= r.value <= 1.0
    ensures r.history == if Abs(Axis1Candidate(raw, bias)) < deadzone then Observe(h, raw) else h
    ensures deadzone <= -BypassLow && PositiveBypass(raw, bias) ==> r == Correction(Clamp(raw), h)
    ensures deadzone <= -BypassLow && NegativeBypass(raw) ==> r == Correction(Clamp(raw), h)
    ensures !PositiveBypass(raw, bias) && !NegativeBypass(raw) ==>
      r.value == if Abs(raw - bias) < deadzone && !IsMoving(Observe(h, raw)) then 0.0 else Clamp(raw - bias)
    ensures raw == bias && !PositiveBypass(raw, bias) && !NegativeBypass(raw) && deadzone > 0.0 ==> r.value == 0.0
  {
    var corrected := Axis1Candidate(raw, bias);
    if Abs(corrected) < deadzone then
      var h' := Observe(h, raw);
      Correction(Clamp(if IsMoving(h') then corrected else 0.0), h')
    else
      Correction(Clamp(corrected), h)
  }

  /**
   * Once the axis-1 history is full of one repeated sample, correcting that
   * sample again leaves the history as it was and ignores the detector, so
   * every further call gives the same output.
   */
  lemma StableHistoryRepeats(raw: real, bias: real, deadzone: real, h: seq<real>)
    requires |h| == HistoryCapacity
    requires forall i :: 0 <= i < |h| ==> h[i] == raw
    ensures CorrectAxis1(raw, bias, deadzone, h).history == h
    ensures CorrectAxis1(raw, bias, deadzone, h).value ==
      Clamp(if Abs(Axis1Candidate(raw, bias)) < deadzone then 0.0 else Axis1Candidate(raw, bias))
  {
    var h' := Observe(h, raw);
    assert h' == h;
    ConstantHistoryStill(h);
  }
}
