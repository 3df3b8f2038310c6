/**
 * The taxi's per-frame controller. The held-key map is read once per frame;
 * forward and backward move the taxi along its heading by a fixed step,
 * left and right turn it by a fixed angle, and all four compose within one
 * frame. The trigonometric functions are parameters: nothing proved here
 * depends on their values.
 */
module Vehicle {

  const Speed: real := 0.2
  const TurnSpeed: real := 0.03

  /** Position and heading (radians, about the vertical axis). */
  datatype Pose = Pose(x: real, y: real, z: real, yaw: real)

  /** The held/not-held state of each key, by key name; a key never pressed is absent. */
  type Keys = map<string, bool>

  /** A key counts as held only if its entry is present and true. */
  predicate Held(keys: Keys, key: string)
  {
    key in keys && keys[key]
  }

  /** 1 for a held key, 0 otherwise. */
  function Press(keys: Keys, key: string): real
  {
    if Held(keys, key) then 1.0 else 0.0
  }

  /** One frame of the controller, in the source's order: ArrowUp, ArrowDown
      (both reading the heading as it is at the start of the frame), then
      ArrowLeft, then ArrowRight. */
  function Step(p: Pose, keys: Keys, sin: real -> real, cos: real -> real): Pose
  {
    var afterUp :=
      if Held(keys, "ArrowUp")
      then p.(x := p.x - sin(p.yaw) * Speed, z := p.z - cos(p.yaw) * Speed)
      else p;
    var afterDown :=
      if Held(keys, "ArrowDown")
      then afterUp.(x := afterUp.x + sin(afterUp.yaw) * Speed, z := afterUp.z + cos(afterUp.yaw) * Speed)
      else afterUp;
    var afterLeft :=
      if Held(keys, "ArrowLeft") then afterDown.(yaw := afterDown.yaw + TurnSpeed) else afterDown;
    if Held(keys, "ArrowRight") then afterLeft.(yaw := afterLeft.yaw - TurnSpeed) else afterLeft
  }

  /** The loaded taxi: its transform, which `animate` updates in place. */
  class Taxi {
    var x: real
    var y: real
    var z: real
    var yaw: real
    const scale: real

    /** The taxi as the loader callback places it: at (0, 0, 230), half size. */
    constructor Load()
      ensures State() == Pose(0.0, 0.0, 230.0, 0.0) && scale == 0.5
    {
      x, y, z, yaw := 0.0, 0.0, 230.0, 0.0;
      scale := 0.5;
    }

    function State(): Pose
      reads this
    {
      Pose(x, y, z, yaw)
    }

    /** The taxi-control block of `animate`. */
    method Drive(keys: Keys, sin: real -> real, cos: real -> real)
      modifies this
      ensures State() == Step(old(State()), keys, sin, cos)
    {
      if Held(keys, "ArrowUp") {
        x := x - sin(yaw) * Speed;
        z := z - cos(yaw) * Speed;
      }
      if Held(keys, "ArrowDown") {
        x := x + sin(yaw) * Speed;
        z := z + cos(yaw) * Speed;
      }
      if Held(keys, "ArrowLeft") {
        yaw := yaw + TurnSpeed;
      }
      if Held(keys, "ArrowRight") {
        yaw := yaw - TurnSpeed;
      }
    }
  }

  /** An independent statement of one frame: the taxi moves along the heading
      it had at the start of the frame by Speed times (backward - forward),
      turns by TurnSpeed times (left - right), and never changes height. */
  lemma StepClosedForm(p: Pose, keys: Keys, sin: real -> real, cos: real -> real)
    ensures Step(p, keys, sin, cos) == Pose(
      p.x + (Press(keys, "ArrowDown") - Press(keys, "ArrowUp")) * Speed * sin(p.yaw),
      p.y,
      p.z + (Press(keys, "ArrowDown") - Press(keys, "ArrowUp")) * Speed * cos(p.yaw),
      p.yaw + (Press(keys, "ArrowLeft") - Press(keys, "ArrowRight")) * TurnSpeed)
  {
  }

  /** With no arrow key held, nothing changes. */
  lemma IdleStep(p: Pose, keys: Keys, sin: real -> real, cos: real -> real)
    requires !Held(keys, "ArrowUp") && !Held(keys, "ArrowDown")
    requires !Held(keys, "ArrowLeft") && !Held(keys, "ArrowRight")
    ensures Step(p, keys, sin, cos) == p
  {
  }

  /** Turning alone changes only the heading, never the position. */
  lemma TurnOnlyChangesYaw(p: Pose, keys: Keys, sin: real -> real, cos: real -> real)
    requires !Held(keys, "ArrowUp") && !Held(keys, "ArrowDown")
    ensures Step(p, keys, sin, cos).(yaw := p.yaw) == p
    ensures Step(p, keys, sin, cos).yaw == p.yaw + (Press(keys, "ArrowLeft") - Press(keys, "ArrowRight")) * TurnSpeed
  {
  }

  /** Holding left and right together leaves the heading as it was. */
  lemma LeftRightCancel(p: Pose, keys: Keys, sin: real -> real, cos: real -> real)
    requires Held(keys, "ArrowLeft") && Held(keys, "ArrowRight")
    ensures Step(p, keys, sin, cos).yaw == p.yaw
  {
  }

  /** Holding forward and backward together leaves the position as it was,
      because both moves use the heading of the start of the frame. */
  lemma UpDownCancel(p: Pose, keys: Keys, sin: real -> real, cos: real -> real)
    requires Held(keys, "ArrowUp") && Held(keys, "ArrowDown")
    ensures Step(p, keys, sin, cos).x == p.x
    ensures Step(p, keys, sin, cos).y == p.y
    ensures Step(p, keys, sin, cos).z == p.z
  {
  }

  /** Forward at heading 0 (where sin is 0 and cos is 1) lowers z by Speed and
      keeps x, whatever turn key is also held. */
  lemma ForwardAtZeroHeading(p: Pose, keys: Keys, sin: real -> real, cos: real -> real)
    requires sin(0.0) == 0.0 && cos(0.0) == 1.0
    requires p.yaw == 0.0
    requires Held(keys, "ArrowUp") && !Held(keys, "ArrowDown")
    ensures Step(p, keys, sin, cos).x == p.x
    ensures Step(p, keys, sin, cos).z == p.z - Speed
  {
  }

  /** n frames with the same keys held. */
  function Run(p: Pose, keys: Keys, sin: real -> real, cos: real -> real, n: nat): Pose
  {
    if n == 0 then p else Step(Run(p, keys, sin, cos, n - 1), keys, sin, cos)
  }

  lemma OneMoreStep(k: real, d: real)
    ensures (k + 1.0) * d == k * d + d
  {
  }

  /** Holding only forward for n frames drives the taxi n * Speed along its
      heading in a straight line. */
  lemma {:induction false} DriveStraight(p: Pose, keys: Keys, sin: real -> real, cos: real -> real, n: nat)
    requires Held(keys, "ArrowUp") && !Held(keys, "ArrowDown")
    requires !Held(keys, "ArrowLeft") && !Held(keys, "ArrowRight")
    ensures Run(p, keys, sin, cos, n) == Pose(
      p.x - n as real * (Speed * sin(p.yaw)), p.y, p.z - n as real * (Speed * cos(p.yaw)), p.yaw)
  {
    if n > 0 {
      var q := Run(p, keys, sin, cos, n - 1);
      DriveStraight(p, keys, sin, cos, n - 1);
      StepClosedForm(q, keys, sin, cos);
      assert Press(keys, "ArrowDown") - Press(keys, "ArrowUp") == -1.0;
      assert Press(keys, "ArrowLeft") - Press(keys, "ArrowRight") == 0.0;
      OneMoreStep((n - 1) as real, Speed * sin(p.yaw));
      OneMoreStep((n - 1) as real, Speed * cos(p.yaw));
    }
  }

  /** Holding only turn keys for n frames spins the taxi in place. */
  lemma {:induction false} SpinInPlace(p: Pose, keys: Keys, sin: real -> real, cos: real -> real, n: nat)
    requires !Held(keys, "ArrowUp") && !Held(keys, "ArrowDown")
    ensures Run(p, keys, sin, cos, n) == Pose(
      p.x, p.y, p.z, p.yaw + n as real * (Press(keys, "ArrowLeft") - Press(keys, "ArrowRight")) * TurnSpeed)
  {
    if n > 0 {
      SpinInPlace(p, keys, sin, cos, n - 1);
    }
  }
}
