/**
 * The output side of the translator: the virtual controller's button
 * flags, the physical-button and D-pad tables, the scaling of sticks and
 * triggers to the device's integer ranges, and the virtual controller
 * itself as an object whose state the press/release/set calls update.
 */
module OutputProtocol {
  import opened DriftConfig
  import opened Analog

  /** A digital capability of the virtual controller: one bit of its 16-bit button word. */
  type Button = bv16

  const DpadUp: Button := 0x0001
  const DpadDown: Button := 0x0002
  const DpadLeft: Button := 0x0004
  const DpadRight: Button := 0x0008
  const Start: Button := 0x0010
  const Back: Button := 0x0020
  const LeftThumb: Button := 0x0040
  const RightThumb: Button := 0x0080
  const LeftShoulder: Button := 0x0100
  const RightShoulder: Button := 0x0200
  const ButtonA: Button := 0x1000
  const ButtonB: Button := 0x2000
  const ButtonX: Button := 0x4000
  const ButtonY: Button := 0x8000

  /** The four direction flags, each a single distinct bit. */
  const DpadFlags: set<Button> := {DpadUp, DpadDown, DpadLeft, DpadRight}

  /** `BUTTON_MAP`: physical button `i` drives `ButtonMap[i]`. */
  const ButtonMap: seq<Button> := [ButtonA, ButtonB, ButtonX, ButtonY, LeftShoulder, RightShoulder,
                                   Back, Start, LeftThumb, RightThumb]

  /** `DPAD_MAP`: each non-centre hat position to the direction flags it holds; diagonals hold two. */
  const DpadMap: map<(int, int), Button> := map[
    (0, 1) := DpadUp,
    (0, -1) := DpadDown,
    (-1, 0) := DpadLeft,
    (1, 0) := DpadRight,
    (1, 1) := DpadUp | DpadRight,
    (-1, 1) := DpadUp | DpadLeft,
    (1, -1) := DpadDown | DpadRight,
    (-1, -1) := DpadDown | DpadLeft
  ]

  /** No two physical buttons drive the same flag, and no physical button drives a direction flag. */
  lemma ButtonMapInjective()
    ensures forall i, j :: 0 <= i < |ButtonMap| && 0 <= j < |ButtonMap| && ButtonMap[i] == ButtonMap[j] ==> i == j
    ensures forall f :: f in DpadFlags ==> f !in ButtonMap
    ensures forall i :: 0 <= i < |ButtonMap| ==> ButtonMap[i] !in DpadFlags
  {
  }

  /**
   * `DPAD_MAP.get(hat, 0)`: zero exactly off the map, and otherwise each
   * direction bit set exactly when the hat points that way.
   */
  function DpadMask(hat: (int, int)): (m: Button)
    ensures hat in DpadMap <==> -1 <= hat.0 <= 1 && -1 <= hat.1 <= 1 && hat != (0, 0)
    ensures m != 0 <==> hat in DpadMap
    ensures m & DpadUp != 0 <==> hat in DpadMap && hat.1 == 1
    ensures m & DpadDown != 0 <==> hat in DpadMap && hat.1 == -1
    ensures m & DpadLeft != 0 <==> hat in DpadMap && hat.0 == -1
    ensures m & DpadRight != 0 <==> hat in DpadMap && hat.0 == 1
    ensures m & !(DpadUp | DpadDown | DpadLeft | DpadRight) == 0
  {
    if hat in DpadMap then DpadMap[hat] else 0
  }

  /** `int(v * MAX_AXIS_VALUE)`: a stick value on the device's signed 16-bit scale. */
  function ScaleStick(v: real): (n: int)
    ensures -1.0 <= v <= 1.0 ==> -MaxAxisValue <= n <= MaxAxisValue
    ensures v == 1.0 ==> n == MaxAxisValue
    ensures v == 0.0 ==> n == 0
  {
    Trunc(v * MaxAxisValue as real)
  }

  /** Inverting a Y axis before scaling inverts the emitted integer exactly. */
  lemma ScaleStickOdd(v: real)
    ensures ScaleStick(-v) == -ScaleStick(v)
  {
  }

  /** `(raw + 1) / 2`: a trigger's raw travel [-1, 1] onto [0, 1]. */
  function TriggerLevel(raw: real): (t: real)
    ensures -1.0 <= raw <= 1.0 <==> 0.0 <= t <= 1.0
    ensures 2.0 * t - 1.0 == raw
  {
    (raw + 1.0) / 2.0
  }

  /** `int(t * 255)`: a trigger level on the device's unsigned 8-bit scale. */
  function ScaleTrigger(t: real): (n: int)
    ensures 0.0 <= t <= 1.0 ==> 0 <= n <= MaxTriggerValue
    ensures t == 0.0 ==> n == 0
    ensures t == 1.0 ==> n == MaxTriggerValue
  {
    Trunc(t * MaxTriggerValue as real)
  }

  /** The virtual controller: which flags are held, and the last stick and trigger values set. */
  class Gamepad {
    var pressed: set<Button>
    var leftX: int
    var leftY: int
    var rightX: int
    var rightY: int
    var leftTrigger: int
    var rightTrigger: int

    constructor ()
      ensures pressed == {}
      ensures leftX == 0 && leftY == 0 && rightX == 0 && rightY == 0
      ensures leftTrigger == 0 && rightTrigger == 0
    {
      pressed := {};
      leftX, leftY, rightX, rightY := 0, 0, 0, 0;
      leftTrigger, rightTrigger := 0, 0;
    }

    method PressButton(b: Button)
      modifies this`pressed
      ensures pressed == old(pressed) + {b}
    {
      pressed := pressed + {b};
    }

    method ReleaseButton(b: Button)
      modifies this`pressed
      ensures pressed == old(pressed) - {b}
    {
      pressed := pressed - {b};
    }

    method LeftJoystick(x: int, y: int)
      modifies this`leftX, this`leftY
      ensures leftX == x && leftY == y
    {
      leftX, leftY := x, y;
    }

    method RightJoystick(x: int, y: int)
      modifies this`rightX, this`rightY
      ensures rightX == x && rightY == y
    {
      rightX, rightY := x, y;
    }

    method SetLeftTrigger(value: int)
      modifies this`leftTrigger
      ensures leftTrigger == value
    {
      leftTrigger := value;
    }

    method SetRightTrigger(value: int)
      modifies this`rightTrigger
      ensures rightTrigger == value
    {
      rightTrigger := value;
    }
  }
}
