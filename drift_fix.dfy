/**
 * The drift fix itself (`XboxDriftFix`): per-axis sample histories, the
 * stateful `detect_user_input` and `correct_axis`, and `process_inputs`,
 * which translates one raw frame of the physical controller into calls on
 * the virtual controller.
 */
module DriftFix {
  import opened Wrappers
  import opened DriftConfig
  import opened Analog
  import opened MotionDetector
  import opened AxisCorrector
  import opened OutputProtocol

  /** A hat position `(x, y)`; the physical device reports each coordinate in {-1, 0, 1}. */
  type Hat = (int, int)

  /**
   * What the physical controller reports in one tick: every axis value its
   * `get_axis` gives, every button state `get_button` gives, and hat 0 when
   * the device has a hat.
   */
  datatype RawFrame = RawFrame(axes: seq<real>, buttons: seq<bool>, hat: Option<Hat>)

  /** Every axis value of the frame lies in the device's nominal range [-1, 1]. */
  predicate AxesInRange(frame: RawFrame)
  {
    forall i :: 0 <= i < |frame.axes| ==> -1.0 <= frame.axes[i] <= 1.0
  }

  /** `min(6, get_numaxes())`. */
  function AxisCount(frame: RawFrame): (n: nat)
    ensures n <= MaxRawAxes && n <= |frame.axes|
    ensures n == MaxRawAxes || n == |frame.axes|
  {
    if |frame.axes| < MaxRawAxes then |frame.axes| else MaxRawAxes
  }

  /** `min(get_numbuttons(), len(BUTTON_MAP))`. */
  function ButtonCount(frame: RawFrame): (n: nat)
    ensures n <= |ButtonMap| && n <= |frame.buttons|
    ensures n == |ButtonMap| || n == |frame.buttons|
  {
    if |frame.buttons| < |ButtonMap| then |frame.buttons| else |ButtonMap|
  }

  /** The hat the frame is translated with: hat 0, or the centre when the device has none. */
  function HatState(frame: RawFrame): Hat
  {
    match frame.hat
    case None => (0, 0)
    case Some(h) => h
  }

  /**
   * Whether direction flag `f` is held after translating hat `hat`, given
   * whether it was held before: the centre releases it, a position off the
   * map leaves it alone, a mapped position holds it iff its mask has the bit.
   */
  predicate DirectionHeld(hat: Hat, f: Button, before: bool)
  {
    if hat == (0, 0) then false
    else if DpadMask(hat) == 0 then before
    else DpadMask(hat) & f != 0
  }

  /** A device without a hat is translated as a centred hat: all four direction flags are released. */
  lemma NoHatReleasesDirections(frame: RawFrame, before: set<Button>)
    requires frame.hat.None?
    ensures forall f :: f in DpadFlags ==> !DirectionHeld(HatState(frame), f, f in before)
  {
  }

  /** Direction flags after hat (1, 1): up and right held, down and left released. */
  lemma DiagonalHoldsTwo(before: set<Button>)
    ensures forall f :: f in DpadFlags ==> (DirectionHeld((1, 1), f, f in before) <==> f == DpadUp || f == DpadRight)
  {
  }

  class XboxDriftFix {
    /** `input_history`: the raw samples each stick axis has recently shown the motion detector. */
    var inputHistory: seq<seq<real>>
    /** `stick_drift`, copied from `KNOWN_DRIFT` and never changed. */
    const stickDrift: seq<real> := KnownDrift
    /** `active_deadzones`, `[BASE_DEADZONE] * 4` and never changed. */
    const activeDeadzones: seq<real> := BaseDeadzones
    /** `virtual_ctrl`. */
    const virtualCtrl: Gamepad

    ghost predicate Valid()
      reads this
    {
      |inputHistory| == StickAxes &&
      forall a :: 0 <= a < StickAxes ==> |inputHistory[a]| <= HistoryCapacity
    }

    constructor (virtualCtrl: Gamepad)
      ensures Valid()
      ensures this.virtualCtrl == virtualCtrl
      ensures inputHistory == [[], [], [], []]
    {
      this.virtualCtrl := virtualCtrl;
      inputHistory := [[], [], [], []];
    }

    /**
     * `detect_user_input`: records `value` in the axis's history, then
     * reports whether the history now shows intentional movement.
     */
    method DetectUserInput(axis: nat, value: real) returns (moving: bool)
      requires Valid() && axis < StickAxes
      modifies this`inputHistory
      ensures Valid()
      ensures inputHistory == old(inputHistory)[axis := Observe(old(inputHistory)[axis], value)]
      ensures moving == IsMoving(inputHistory[axis])
    {
      var h := inputHistory[axis] + [value];
      if |h| > HistoryCapacity {
        h := h[1..];
      }
      inputHistory := inputHistory[axis := h];
      if |h| > 2 {
        var total := 0.0;
        var i := 1;
        while i < |h|
          invariant 1 <= i <= |h|
          invariant total == SumChanges(h[..i])
        {
          assert h[..i + 1][..i] == h[..i];
          total := total + Abs(h[i] - h[i - 1]);
          i := i + 1;
        }
        assert h[..|h|] == h;
        moving := total / ((|h| - 1) as real) > MotionThreshold;
      } else {
        moving := false;
      }
    }

    /** `correct_axis`: the corrected value of one stick sample; only axis 1 touches a history. */
    method CorrectAxis(axis: nat, raw: real) returns (c: real)
      requires Valid() && axis < StickAxes
      modifies this`inputHistory
      ensures Valid()
      ensures axis != 1 ==>
        c == CorrectPlain(raw, stickDrift[axis], activeDeadzones[axis]) && inputHistory == old(inputHistory)
      ensures axis == 1 ==>
        var r := CorrectAxis1(raw, stickDrift[1], activeDeadzones[1], old(inputHistory)[1]);
        c == r.value && inputHistory == old(inputHistory)[1 := r.history]
    {
      var corrected := raw - stickDrift[axis];
      if axis == 1 {
        if raw > BypassHigh && raw > stickDrift[axis] {
          corrected := raw;
        } else if raw < BypassLow {
          corrected := raw;
        }
        if Abs(corrected) < activeDeadzones[axis] {
          var moving := DetectUserInput(axis, raw);
          if !moving {
            corrected := 0.0;
          }
        }
      } else {
        if Abs(corrected) < activeDeadzones[axis] {
          corrected := 0.0;
        }
      }
      c := Clamp(corrected);
    }

    /**
     * The stick part of `process_inputs`: axes 0 to 3 through `correct_axis`,
     * the Y axes 1 and 3 inverted, an axis the frame lacks read as 0.
     */
    method CorrectSticks(rawAxes: seq<real>) returns (leftX: real, leftY: real, rightX: real, rightY: real)
      requires Valid()
      modifies this`inputHistory
      ensures Valid()
      ensures leftX == if |rawAxes| > 0 then CorrectPlain(rawAxes[0], stickDrift[0], activeDeadzones[0]) else 0.0
      ensures |rawAxes| > 1 ==>
        var r := CorrectAxis1(rawAxes[1], stickDrift[1], activeDeadzones[1], old(inputHistory)[1]);
        leftY == -r.value && inputHistory == old(inputHistory)[1 := r.history]
      ensures |rawAxes| <= 1 ==> leftY == 0.0 && inputHistory == old(inputHistory)
      ensures rightX == if |rawAxes| > 2 then CorrectPlain(rawAxes[2], stickDrift[2], activeDeadzones[2]) else 0.0
      ensures rightY == if |rawAxes| > 3 then -CorrectPlain(rawAxes[3], stickDrift[3], activeDeadzones[3]) else 0.0
    {
      leftX, leftY, rightX, rightY := 0.0, 0.0, 0.0, 0.0;
      if |rawAxes| > 0 {
        leftX := CorrectAxis(0, rawAxes[0]);
      }
      if |rawAxes| > 1 {
        var c := CorrectAxis(1, rawAxes[1]);
        leftY := -c;
      }
      if |rawAxes| > 2 {
        rightX := CorrectAxis(2, rawAxes[2]);
      }
      if |rawAxes| > 3 {
        var c := CorrectAxis(3, rawAxes[3]);
        rightY := -c;
      }
    }

    /** Holds `b` on the virtual controller when `held`, releases it otherwise. */
    method SetButton(b: Button, held: bool)
      modifies virtualCtrl`pressed
      ensures virtualCtrl.pressed == if held then old(virtualCtrl.pressed) + {b} else old(virtualCtrl.pressed) - {b}
    {
      if held {
        virtualCtrl.PressButton(b);
      } else {
        virtualCtrl.ReleaseButton(b);
      }
    }

    /** The button loop of `process_inputs`: physical button `i` drives `ButtonMap[i]`, for every index both tables have. */
    method ForwardButtons(buttons: seq<bool>)
      modifies virtualCtrl`pressed
      ensures forall i :: 0 <= i < |buttons| && i < |ButtonMap| ==> (ButtonMap[i] in virtualCtrl.pressed <==> buttons[i])
      ensures forall b :: b !in ButtonMap[..if |buttons| < |ButtonMap| then |buttons| else |ButtonMap|] ==>
        (b in virtualCtrl.pressed <==> b in old(virtualCtrl.pressed))
    {
      ButtonMapInjective();
      var buttonCount := if |buttons| < |ButtonMap| then |buttons| else |ButtonMap|;
      for i := 0 to buttonCount
        invariant forall j :: 0 <= j < i ==> (ButtonMap[j] in virtualCtrl.pressed <==> buttons[j])
        invariant forall b :: b !in ButtonMap[..i] ==> (b in virtualCtrl.pressed <==> b in old(virtualCtrl.pressed))
      {
        assert ButtonMap[..i + 1] == ButtonMap[..i] + [ButtonMap[i]];
        SetButton(ButtonMap[i], buttons[i]);
      }
    }

    /** The D-pad part of `process_inputs`: press/release calls on the four direction flags for hat position `hat`. */
    method ApplyHat(hat: Hat)
      modifies virtualCtrl`pressed
      ensures forall f :: f in DpadFlags ==>
        (f in virtualCtrl.pressed <==> DirectionHeld(hat, f, f in old(virtualCtrl.pressed)))
      ensures forall b :: b !in DpadFlags ==> (b in virtualCtrl.pressed <==> b in old(virtualCtrl.pressed))
    {
      if hat != (0, 0) {
        var dpadButtons := DpadMask(hat);
        if dpadButtons != 0 {
          SetButton(DpadUp, dpadButtons & DpadUp != 0);
          SetButton(DpadDown, dpadButtons & DpadDown != 0);
          SetButton(DpadLeft, dpadButtons & DpadLeft != 0);
          SetButton(DpadRight, dpadButtons & DpadRight != 0);
        }
      } else {
        virtualCtrl.ReleaseButton(DpadUp);
        virtualCtrl.ReleaseButton(DpadDown);
        virtualCtrl.ReleaseButton(DpadLeft);
        virtualCtrl.ReleaseButton(DpadRight);
      }
    }

    /** The analog part of `process_inputs`: the corrected sticks and rescaled triggers, set on the virtual controller. */
    method EmitAnalog(frame: RawFrame)
      requires Valid()
      modifies this`inputHistory, virtualCtrl`leftX, virtualCtrl`leftY, virtualCtrl`rightX, virtualCtrl`rightY,
        virtualCtrl`leftTrigger, virtualCtrl`rightTrigger
      ensures Valid()
      // sticks: axes 0 and 2 corrected, axes 1 and 3 corrected and inverted, absent axes 0
      ensures virtualCtrl.leftX ==
        if AxisCount(frame) > 0 then ScaleStick(CorrectPlain(frame.axes[0], stickDrift[0], activeDeadzones[0])) else 0
      ensures AxisCount(frame) > 1 ==>
        var r := CorrectAxis1(frame.axes[1], stickDrift[1], activeDeadzones[1], old(inputHistory)[1]);
        virtualCtrl.leftY == ScaleStick(-r.value) && inputHistory == old(inputHistory)[1 := r.history]
      ensures AxisCount(frame) <= 1 ==> virtualCtrl.leftY == 0 && inputHistory == old(inputHistory)
      ensures virtualCtrl.rightX ==
        if AxisCount(frame) > 2 then ScaleStick(CorrectPlain(frame.axes[2], stickDrift[2], activeDeadzones[2])) else 0
      ensures virtualCtrl.rightY ==
        if AxisCount(frame) > 3 then ScaleStick(-CorrectPlain(frame.axes[3], stickDrift[3], activeDeadzones[3])) else 0
      ensures -MaxAxisValue <= virtualCtrl.leftX <= MaxAxisValue && -MaxAxisValue <= virtualCtrl.leftY <= MaxAxisValue
      ensures -MaxAxisValue <= virtualCtrl.rightX <= MaxAxisValue && -MaxAxisValue <= virtualCtrl.rightY <= MaxAxisValue
      // triggers: raw axes 4 and 5 rescaled, absent triggers 0
      ensures virtualCtrl.leftTrigger == if AxisCount(frame) > 4 then ScaleTrigger(TriggerLevel(frame.axes[4])) else 0
      ensures virtualCtrl.rightTrigger == if AxisCount(frame) > 5 then ScaleTrigger(TriggerLevel(frame.axes[5])) else 0
      ensures AxesInRange(frame) ==>
        0 <= virtualCtrl.leftTrigger <= MaxTriggerValue && 0 <= virtualCtrl.rightTrigger <= MaxTriggerValue
    {
      var numAxes := AxisCount(frame);
      var rawAxes := frame.axes[..numAxes];

      var leftX, leftY, rightX, rightY := CorrectSticks(rawAxes);

      var leftTrigger := if numAxes > 4 then TriggerLevel(rawAxes[4]) else 0.0;
      var rightTrigger := if numAxes > 5 then TriggerLevel(rawAxes[5]) else 0.0;

      virtualCtrl.LeftJoystick(ScaleStick(leftX), ScaleStick(leftY));
      virtualCtrl.RightJoystick(ScaleStick(rightX), ScaleStick(rightY));
      virtualCtrl.SetLeftTrigger(ScaleTrigger(leftTrigger));
      virtualCtrl.SetRightTrigger(ScaleTrigger(rightTrigger));
    }

    /**
     * `process_inputs`: corrects the sticks, rescales the triggers, forwards
     * the mapped buttons and resolves the hat into the four direction flags.
     */
    method ProcessInputs(frame: RawFrame)
      requires Valid()
      modifies this`inputHistory, virtualCtrl
      ensures Valid()
      // sticks: axes 0 and 2 corrected, axes 1 and 3 corrected and inverted, absent axes 0
      ensures virtualCtrl.leftX ==
        if AxisCount(frame) > 0 then ScaleStick(CorrectPlain(frame.axes[0], stickDrift[0], activeDeadzones[0])) else 0
      ensures AxisCount(frame) > 1 ==>
        var r := CorrectAxis1(frame.axes[1], stickDrift[1], activeDeadzones[1], old(inputHistory)[1]);
        virtualCtrl.leftY == ScaleStick(-r.value) && inputHistory == old(inputHistory)[1 := r.history]
      ensures AxisCount(frame) <= 1 ==> virtualCtrl.leftY == 0 && inputHistory == old(inputHistory)
      ensures virtualCtrl.rightX ==
        if AxisCount(frame) > 2 then ScaleStick(CorrectPlain(frame.axes[2], stickDrift[2], activeDeadzones[2])) else 0
      ensures virtualCtrl.rightY ==
        if AxisCount(frame) > 3 then ScaleStick(-CorrectPlain(frame.axes[3], stickDrift[3], activeDeadzones[3])) else 0
      ensures -MaxAxisValue <= virtualCtrl.leftX <= MaxAxisValue && -MaxAxisValue <= virtualCtrl.leftY <= MaxAxisValue
      ensures -MaxAxisValue <= virtualCtrl.rightX <= MaxAxisValue && -MaxAxisValue <= virtualCtrl.rightY <= MaxAxisValue
      // triggers: raw axes 4 and 5 rescaled, absent triggers 0
      ensures virtualCtrl.leftTrigger == if AxisCount(frame) > 4 then ScaleTrigger(TriggerLevel(frame.axes[4])) else 0
      ensures virtualCtrl.rightTrigger == if AxisCount(frame) > 5 then ScaleTrigger(TriggerLevel(frame.axes[5])) else 0
      ensures AxesInRange(frame) ==>
        0 <= virtualCtrl.leftTrigger <= MaxTriggerValue && 0 <= virtualCtrl.rightTrigger <= MaxTriggerValue
      // buttons: the first ButtonCount physical buttons are forwarded through ButtonMap
      ensures forall i :: 0 <= i < ButtonCount(frame) ==> (ButtonMap[i] in virtualCtrl.pressed <==> frame.buttons[i])
      // direction flags follow the hat
      ensures forall f :: f in DpadFlags ==>
        (f in virtualCtrl.pressed <==> DirectionHeld(HatState(frame), f, f in old(virtualCtrl.pressed)))
      // every other flag is left as it was
      ensures forall b :: b !in DpadFlags && b !in ButtonMap[..ButtonCount(frame)] ==>
        (b in virtualCtrl.pressed <==> b in old(virtualCtrl.pressed))
    {
      EmitAnalog(frame);
      ButtonMapInjective();
      var buttonCount := ButtonCount(frame);
      assert forall f :: f in DpadFlags ==> f !in ButtonMap[..buttonCount];
      ForwardButtons(frame.buttons);
      ApplyHat(HatState(frame));
    }
  }
}
