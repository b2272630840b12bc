/** The `WASDControls` class: a first-person rig of a yaw object (turns about
    the vertical axis and carries the position) holding a pitch object (tilts
    the camera). Keys W, A, S, D set movement flags, mouse motion turns and
    tilts, and every frame damps the velocity, adds the held keys' impulse and
    moves the rig along its own axes. Everything is ignored while the
    controls are disabled (pointer not captured).

    Turning a local vector by the yaw angle needs trigonometry, so the
    rotation is a parameter `Turn`. */
module WASD {

  import opened Options
  import opened Geometry

  /** Key codes of W, A, S and D. */
  const KEY_W: int := 87
  const KEY_A: int := 65
  const KEY_S: int := 83
  const KEY_D: int := 68

  /** Radians of turn per pixel of mouse movement. */
  const LOOK_FACTOR: real := 0.002

  /** Velocity damping rate, per second. */
  const DAMPING: real := 10.0

  /** Velocity gained per second while a movement key is held. */
  const ACCELERATION: real := 400.0

  /** The double closest to pi, and the pitch limit pi / 2. */
  const PI: real := 3.141592653589793
  const PI_2: real := PI / 2.0

  /** The four movement directions. */
  datatype Direction = Forward | Backward | Left | Right

  /** The controls' state: the capture flag, the four movement flags, the
      velocity (in the rig's own frame), the yaw and pitch angles and the
      rig's position. */
  datatype Controls = Controls(
    enabled: bool,
    moveForward: bool,
    moveBackward: bool,
    moveLeft: bool,
    moveRight: bool,
    velocity: Vec3,
    yaw: real,
    pitch: real,
    position: Vec3)

  /** `translateX`/`translateZ` need a vector in the rig's frame turned by
      the yaw angle into the world frame. */
  type Turn = (real, Vec3) -> Vec3

  /** A freshly built rig: disabled, no key held, velocity (1, 1, 1), no
      turn or tilt, ten units above the origin. */
  function NewControls(): (c: Controls)
    ensures !c.enabled
    ensures forall d: Direction :: !Moving(c, d)
    ensures c.velocity == Vec3(1.0, 1.0, 1.0)
    ensures c.yaw == 0.0 && c.pitch == 0.0
    ensures c.position == Vec3(0.0, 10.0, 0.0)
  {
    Controls(false, false, false, false, false, Vec3(1.0, 1.0, 1.0), 0.0, 0.0, Vec3(0.0, 10.0, 0.0))
  }

  /** Whether the flag of direction `d` is set. */
  predicate Moving(c: Controls, d: Direction)
  {
    match d
    case Forward => c.moveForward
    case Backward => c.moveBackward
    case Left => c.moveLeft
    case Right => c.moveRight
  }

  /** The direction a key code steers, if any. */
  function KeyDirection(keyCode: int): (d: Option<Direction>)
    ensures d == Some(Forward) <==> keyCode == KEY_W
    ensures d == Some(Backward) <==> keyCode == KEY_S
    ensures d == Some(Left) <==> keyCode == KEY_A
    ensures d == Some(Right) <==> keyCode == KEY_D
  {
    if keyCode == KEY_W then Some(Forward)
    else if keyCode == KEY_A then Some(Left)
    else if keyCode == KEY_S then Some(Backward)
    else if keyCode == KEY_D then Some(Right)
    else None
  }

  /** `setMove(keyCode, value)` (keydown passes true, keyup false): while
      enabled, the key's own flag becomes `value`; every other flag, and
      everything else, is kept. Disabled controls and other keys change
      nothing. */
  function SetMove(c: Controls, keyCode: int, value: bool): (r: Controls)
    ensures forall d: Direction ::
      (Moving(r, d) == if c.enabled && KeyDirection(keyCode) == Some(d) then value else Moving(c, d))
    ensures r.enabled == c.enabled && r.velocity == c.velocity && r.yaw == c.yaw
      && r.pitch == c.pitch && r.position == c.position
    ensures !c.enabled || KeyDirection(keyCode).None? ==> r == c
  {
    if !c.enabled then c
    else match KeyDirection(keyCode)
      case None => c
      case Some(Forward) => c.(moveForward := value)
      case Some(Left) => c.(moveLeft := value)
      case Some(Backward) => c.(moveBackward := value)
      case Some(Right) => c.(moveRight := value)
  }

  /** A mouse-move event: the standard and the two vendor-prefixed movement
      fields, each absent (`undefined`) or a number. */
  datatype MouseEvent = MouseEvent(
    movementX: Option<real>, mozMovementX: Option<real>, webkitMovementX: Option<real>,
    movementY: Option<real>, mozMovementY: Option<real>, webkitMovementY: Option<real>)

  /** JavaScript truthiness of an optional number: present and non-zero. */
  predicate Truthy(v: Option<real>)
  {
    v.Some? && v.value != 0.0
  }

  /** `a || b || c || 0`: the first truthy field, else 0. A field that holds
      0 falls through to the next one just like a missing one. */
  function Movement(a: Option<real>, b: Option<real>, c: Option<real>): (m: real)
    ensures m != 0.0 ==> (Truthy(a) && m == a.value) || (Truthy(b) && m == b.value) || (Truthy(c) && m == c.value)
    ensures Truthy(a) ==> m == a.value
    ensures !Truthy(a) && Truthy(b) ==> m == b.value
    ensures !Truthy(a) && !Truthy(b) && Truthy(c) ==> m == c.value
    ensures !Truthy(a) && !Truthy(b) && !Truthy(c) ==> m == 0.0
  {
    if Truthy(a) then a.value
    else if Truthy(b) then b.value
    else if Truthy(c) then c.value
    else 0.0
  }

  /** `Math.max(-PI_2, Math.min(PI_2, x))`: the point of [-pi/2, pi/2]
      closest to `x`. */
  function ClampPitch(x: real): (p: real)
    ensures -PI_2 <= p <= PI_2
    ensures -PI_2 <= x <= PI_2 ==> p == x
    ensures x > PI_2 ==> p == PI_2
    ensures x < -PI_2 ==> p == -PI_2
  {
    var upper := if PI_2 < x then PI_2 else x;
    if -PI_2 > upper then -PI_2 else upper
  }

  /** `onMouseMove`: while enabled, moving right turns right (yaw decreases by
      0.002 per pixel) and moving down tilts down, with the tilt clamped to
      [-pi/2, pi/2]; flags, velocity and position are kept. Disabled
      controls change nothing. */
  function OnMouseMove(c: Controls, ev: MouseEvent): (r: Controls)
    ensures !c.enabled ==> r == c
    ensures c.enabled ==>
      && r.yaw == c.yaw - Movement(ev.movementX, ev.mozMovementX, ev.webkitMovementX) * LOOK_FACTOR
      && r.pitch == ClampPitch(c.pitch - Movement(ev.movementY, ev.mozMovementY, ev.webkitMovementY) * LOOK_FACTOR)
    ensures c.enabled ==> -PI_2 <= r.pitch <= PI_2
    ensures r.(yaw := c.yaw, pitch := c.pitch) == c
  {
    if !c.enabled then c
    else
      var movementX := Movement(ev.movementX, ev.mozMovementX, ev.webkitMovementX);
      var movementY := Movement(ev.movementY, ev.mozMovementY, ev.webkitMovementY);
      c.(yaw := c.yaw - movementX * LOOK_FACTOR,
         pitch := ClampPitch(c.pitch - movementY * LOOK_FACTOR))
  }

  /** The impulse one frame of `delta` seconds adds along an axis: minus for
      the negative key, plus for the positive key, nothing (net) for both. */
  function Impulse(negative: bool, positive: bool, delta: real): (i: real)
    ensures negative == positive ==> i == 0.0
    ensures negative && !positive ==> i == -(ACCELERATION * delta)
    ensures positive && !negative ==> i == ACCELERATION * delta
  {
    (if negative then -ACCELERATION * delta else 0.0) + (if positive then ACCELERATION * delta else 0.0)
  }

  /** The velocity after one frame of `delta` seconds: every component
      loses the fraction `10 delta` of itself, then W/S push z down/up and
      A/D push x down/up by `400 delta`; nothing pushes y. */
  function Accelerate(c: Controls, delta: real): (v: Vec3)
    ensures v.x == c.velocity.x * (1.0 - DAMPING * delta) + Impulse(c.moveLeft, c.moveRight, delta)
    ensures v.y == c.velocity.y * (1.0 - DAMPING * delta)
    ensures v.z == c.velocity.z * (1.0 - DAMPING * delta) + Impulse(c.moveForward, c.moveBackward, delta)
  {
    var factor := DAMPING * delta;
    var damped := Vec3(c.velocity.x - c.velocity.x * factor,
                       c.velocity.y - c.velocity.y * factor,
                       c.velocity.z - c.velocity.z * factor);
    assert damped.x == c.velocity.x * (1.0 - factor);
    assert damped.y == c.velocity.y * (1.0 - factor);
    assert damped.z == c.velocity.z * (1.0 - factor);
    var step := ACCELERATION * delta;
    var vz1 := if c.moveForward then damped.z - step else damped.z;
    var vz := if c.moveBackward then vz1 + step else vz1;
    var vx1 := if c.moveLeft then damped.x - step else damped.x;
    var vx := if c.moveRight then vx1 + step else vx1;
    Vec3(vx, damped.y, vz)
  }

  /** `update(delta)`: while enabled, the velocity is damped and pushed as
      `Accelerate` says, and the rig moves by `velocity.x * delta` along its
      own x axis and then `velocity.z * delta` along its own z axis; flags
      and angles are kept. Disabled controls change nothing. */
  function Update(c: Controls, delta: real, turn: Turn): (r: Controls)
    ensures !c.enabled ==> r == c
    ensures c.enabled ==> r.velocity == Accelerate(c, delta)
    ensures c.enabled ==>
      (r.position == Add(Add(c.position, turn(c.yaw, Vec3(Accelerate(c, delta).x * delta, 0.0, 0.0))),
                         turn(c.yaw, Vec3(0.0, 0.0, Accelerate(c, delta).z * delta))))
    ensures r.(velocity := c.velocity, position := c.position) == c
  {
    if !c.enabled then c
    else
      c.(velocity := Accelerate(c, delta),
         position := Add(Add(c.position, turn(c.yaw, Vec3(Accelerate(c, delta).x * delta, 0.0, 0.0))),
                         turn(c.yaw, Vec3(0.0, 0.0, Accelerate(c, delta).z * delta))))
  }

  /** What reaches the controls: key presses and releases, mouse motion,
      a frame of `delta` seconds, and pointer capture gained or lost (which
      sets `enabled`). */
  datatype Input =
    | KeyDown(keyCode: int)
    | KeyUp(keyCode: int)
    | MouseMove(event: MouseEvent)
    | Tick(delta: real)
    | Capture(locked: bool)

  /** One input applied to the controls. */
  function Apply(c: Controls, input: Input, turn: Turn): Controls
  {
    match input
    case KeyDown(k) => SetMove(c, k, true)
    case KeyUp(k) => SetMove(c, k, false)
    case MouseMove(ev) => OnMouseMove(c, ev)
    case Tick(delta) => Update(c, delta, turn)
    case Capture(locked) => c.(enabled := locked)
  }

  /** A sequence of inputs applied in order. */
  function Run(c: Controls, inputs: seq<Input>, turn: Turn): Controls
    decreases |inputs|
  {
    if |inputs| == 0 then c else Run(Apply(c, inputs[0], turn), inputs[1..], turn)
  }

  /** While the pointer is not captured, every input except a capture change
      leaves the controls exactly as they were. */
  lemma DisabledIgnoresInput(c: Controls, input: Input, turn: Turn)
    requires !c.enabled && !input.Capture?
    ensures Apply(c, input, turn) == c
  {
  }

  /** Only mouse motion turns or tilts the rig. */
  lemma OnlyMouseTurns(c: Controls, input: Input, turn: Turn)
    requires !input.MouseMove?
    ensures Apply(c, input, turn).yaw == c.yaw && Apply(c, input, turn).pitch == c.pitch
  {
  }

  /** The pitch stays in [-pi/2, pi/2] through any sequence of inputs that
      starts inside it. */
  lemma {:induction false} PitchStaysInRange(c: Controls, inputs: seq<Input>, turn: Turn)
    requires -PI_2 <= c.pitch <= PI_2
    ensures -PI_2 <= Run(c, inputs, turn).pitch <= PI_2
    decreases |inputs|
  {
    if |inputs| > 0 {
      var c1 := Apply(c, inputs[0], turn);
      assert -PI_2 <= c1.pitch <= PI_2;
      PitchStaysInRange(c1, inputs[1..], turn);
    }
  }

  /** However far the mouse moves up, the camera stops looking straight up. */
  lemma PitchSaturates(c: Controls, ev: MouseEvent)
    requires c.enabled && -PI_2 <= c.pitch <= PI_2
    requires Truthy(ev.movementY) && ev.movementY.value <= -2000.0
    ensures OnMouseMove(c, ev).pitch == PI_2
  {
    assert ev.movementY.value * LOOK_FACTOR <= -4.0;
  }

  /** Pressing a movement key and releasing it again, while enabled, leaves
      that key's direction unset. */
  lemma PressThenRelease(c: Controls, keyCode: int, turn: Turn)
    requires c.enabled && KeyDirection(keyCode).Some?
    ensures !Moving(Run(c, [KeyDown(keyCode), KeyUp(keyCode)], turn), KeyDirection(keyCode).value)
    ensures Run(c, [KeyDown(keyCode), KeyUp(keyCode)], turn).velocity == c.velocity
  {
    var c1 := SetMove(c, keyCode, true);
    var c2 := SetMove(c1, keyCode, false);
    assert Run(c, [KeyDown(keyCode), KeyUp(keyCode)], turn) == Run(c1, [KeyUp(keyCode)], turn);
    assert Run(c1, [KeyUp(keyCode)], turn) == Run(c2, [], turn);
  }

  /** A key held while the pointer is released, let go while it is released,
      and the pointer captured again: the release was ignored, so the rig
      still moves forward. */
  lemma HeldKeySurvivesCaptureLoss(c: Controls, turn: Turn)
    requires c.enabled && !c.moveForward
    ensures Run(c, [KeyDown(KEY_W), Capture(false), KeyUp(KEY_W), Capture(true)], turn).moveForward
  {
    var inputs := [KeyDown(KEY_W), Capture(false), KeyUp(KEY_W), Capture(true)];
    var c1 := SetMove(c, KEY_W, true);
    var c2 := c1.(enabled := false);
    var c3 := SetMove(c2, KEY_W, false);
    assert c3 == c2;
    var c4 := c3.(enabled := true);
    assert Run(c, inputs, turn) == Run(c1, [Capture(false), KeyUp(KEY_W), Capture(true)], turn);
    assert Run(c1, [Capture(false), KeyUp(KEY_W), Capture(true)], turn) == Run(c2, [KeyUp(KEY_W), Capture(true)], turn);
    assert Run(c2, [KeyUp(KEY_W), Capture(true)], turn) == Run(c3, [Capture(true)], turn);
    assert Run(c3, [Capture(true)], turn) == Run(c4, [], turn);
  }

  /** With no key held and a frame shorter than a tenth of a second, every
      velocity component shrinks towards 0 without changing sign. */
  lemma DampingShrinks(c: Controls, delta: real, turn: Turn)
    requires c.enabled && !c.moveForward && !c.moveBackward && !c.moveLeft && !c.moveRight
    requires 0.0 <= DAMPING * delta <= 1.0
    ensures var v := Update(c, delta, turn).velocity;
      && (0.0 <= c.velocity.x ==> 0.0 <= v.x <= c.velocity.x)
      && (c.velocity.x <= 0.0 ==> c.velocity.x <= v.x <= 0.0)
      && (0.0 <= c.velocity.y ==> 0.0 <= v.y <= c.velocity.y)
      && (c.velocity.y <= 0.0 ==> c.velocity.y <= v.y <= 0.0)
      && (0.0 <= c.velocity.z ==> 0.0 <= v.z <= c.velocity.z)
      && (c.velocity.z <= 0.0 ==> c.velocity.z <= v.z <= 0.0)
  {
    var k := 1.0 - DAMPING * delta;
    ShrinkBy(c.velocity.x, k);
    ShrinkBy(c.velocity.y, k);
    ShrinkBy(c.velocity.z, k);
  }

  /** Scaling by a factor in [0, 1] moves a number towards 0. */
  lemma ShrinkBy(x: real, k: real)
    requires 0.0 <= k <= 1.0
    ensures 0.0 <= x ==> 0.0 <= x * k <= x
    ensures x <= 0.0 ==> x <= x * k <= 0.0
  {
    if 0.0 <= x {
      assert x * k <= x * 1.0;
    } else {
      assert x * 1.0 <= x * k;
    }
  }

  /** `x` to the power `n`. */
  function Pow(x: real, n: nat): real
  {
    if n == 0 then 1.0 else x * Pow(x, n - 1)
  }

  /** `x` multiplied by `k`, `n` times over. */
  function Decay(k: real, n: nat, x: real): real
  {
    if n == 0 then x else Decay(k, n - 1, k * x)
  }

  /** Peeling the first round off `Decay`. */
  lemma DecayStep(k: real, n: nat, x: real, y: real)
    requires n > 0 && y == k * x
    ensures Decay(k, n, x) == Decay(k, n - 1, y)
  {
  }

  /** Repeated damping is geometric: `n` rounds multiply by `k^n`. */
  lemma {:induction false} DecayIsPow(k: real, n: nat, x: real)
    ensures Decay(k, n, x) == Pow(k, n) * x
  {
    if n > 0 {
      DecayIsPow(k, n - 1, k * x);
      var p := Pow(k, n - 1);
      assert p * (k * x) == (k * p) * x;
    }
  }

  /** One frame holding W alone multiplies the distance from -40 by
      `1 - 10 delta`. */
  lemma ForwardStep(c: Controls, delta: real, n: nat, turn: Turn)
    requires c.enabled && c.moveForward && !c.moveBackward && n > 0
    ensures Update(c, delta, turn).velocity.z + 40.0 == (1.0 - DAMPING * delta) * (c.velocity.z + 40.0)
    ensures Decay(1.0 - DAMPING * delta, n, c.velocity.z + 40.0)
      == Decay(1.0 - DAMPING * delta, n - 1, Update(c, delta, turn).velocity.z + 40.0)
  {
    var k := 1.0 - DAMPING * delta;
    var vz := c.velocity.z;
    assert Accelerate(c, delta).z == vz * k - ACCELERATION * delta;
    assert k * (vz + 40.0) == vz * k + 40.0 * k;
    assert 40.0 * k == 40.0 - ACCELERATION * delta;
    DecayStep(k, n, vz + 40.0, Update(c, delta, turn).velocity.z + 40.0);
  }

  /** The same input `n` times. */
  function Repeat(input: Input, n: nat): (s: seq<Input>)
    ensures |s| == n && forall i :: 0 <= i < n ==> s[i] == input
  {
    if n == 0 then [] else [input] + Repeat(input, n - 1)
  }

  /** The first of `n` frames, taken on its own. */
  lemma RunTick(c: Controls, delta: real, n: nat, turn: Turn)
    requires n > 0
    ensures Run(c, Repeat(Tick(delta), n), turn) == Run(Update(c, delta, turn), Repeat(Tick(delta), n - 1), turn)
  {
    var ticks := Repeat(Tick(delta), n);
    assert ticks[0] == Tick(delta) && ticks[1..] == Repeat(Tick(delta), n - 1);
  }

  /** Holding W alone, every frame multiplies the forward velocity's
      distance from -40 (that is, 400 / 10) by `1 - 10 delta`; with
      `DecayIsPow`, after `n` frames the velocity is
      `-40 + (1 - 10 delta)^n (v0 + 40)`, which approaches -40 whenever
      `0 < 10 delta < 2`. */
  lemma {:induction false} ForwardDecay(c: Controls, delta: real, n: nat, turn: Turn)
    requires c.enabled && c.moveForward && !c.moveBackward
    ensures Run(c, Repeat(Tick(delta), n), turn).velocity.z + 40.0
      == Decay(1.0 - DAMPING * delta, n, c.velocity.z + 40.0)
    decreases n
  {
    if n > 0 {
      RunTick(c, delta, n, turn);
      ForwardStep(c, delta, n, turn);
      ForwardDecay(Update(c, delta, turn), delta, n - 1, turn);
    }
  }
}
