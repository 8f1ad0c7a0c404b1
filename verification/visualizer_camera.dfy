/**
 * The shared camera of the lighting chapters and of the chapter viewer
 * (python/visualizer/camera.py): a stateful free-fly camera that sums every pressed key,
 * clamps pitch and field of view, and is switched off when `move_mode` equals the integer
 * value of the GUI mode.
 */
module VisualizerCamera {
  import opened Vectors
  import opened Keyboard
  import opened Outcomes

  // Default camera values.
  const YAW := -90.0
  const PITCH := 0.0
  const SPEED := 2.5
  const SENSITIVITY := 0.1
  const ZOOM := 45.0

  const PITCH_LIMIT := 89.0
  const FOV_MIN := 1.0
  const FOV_MAX := 45.0

  /** The `MOVEMODE` enum. */
  datatype MoveMode = Gui | Keyboard

  /** `MOVEMODE.<member>.value`. */
  function ModeNumber(mode: MoveMode): int
  {
    match mode
    case Gui => 0
    case Keyboard => 1
  }

  /**
   * What `move_mode` may hold: an enum member, or a plain integer. In Python an enum
   * member is never equal to an integer.
   */
  datatype ModeValue = Member(mode: MoveMode) | Plain(number: int)

  datatype Camera = Camera(
    position: Vec3,
    front: Vec3,
    up: Vec3,
    right: Vec3,
    worldUp: Vec3,
    yaw: real,
    pitch: real,
    moveSpeed: real,
    moveSense: real,
    fov: real,
    firstMouse: bool,
    lastX: real,
    lastY: real,
    deltaTime: real,
    lastFrame: real,
    moveMode: ModeValue)

  /** The test `self.move_mode == MOVEMODE.GUI.value` that makes an input handler return at once. */
  predicate Gated(c: Camera)
  {
    c.moveMode == Plain(ModeNumber(Gui))
  }

  /** front, right and up are the ones derived from the current yaw, pitch and world up. */
  ghost predicate BasisConsistent(m: MathLib, c: Camera)
  {
    && c.front == m.normalize(FrontDirection(m, c.yaw, c.pitch))
    && c.right == m.normalize(m.cross(c.front, c.worldUp))
    && c.up == m.normalize(m.cross(c.right, c.front))
  }

  /** The clamps the input handlers keep. */
  ghost predicate InBounds(c: Camera)
  {
    -PITCH_LIMIT <= c.pitch <= PITCH_LIMIT && FOV_MIN <= c.fov <= FOV_MAX
  }

  /** `_update_camera_vectors`: re-derives front, right and up; nothing else changes. */
  function UpdateCameraVectors(m: MathLib, c: Camera): (r: Camera)
    ensures BasisConsistent(m, r)
    ensures r.(front := c.front, right := c.right, up := c.up) == c
  {
    var front := m.normalize(FrontDirection(m, c.yaw, c.pitch));
    var right := m.normalize(m.cross(front, c.worldUp));
    c.(front := front, right := right, up := m.normalize(m.cross(right, front)))
  }

  /** The derived basis does not depend on the basis it replaces. */
  lemma UpdateCameraVectorsIdempotent(m: MathLib, c: Camera)
    ensures UpdateCameraVectors(m, UpdateCameraVectors(m, c)) == UpdateCameraVectors(m, c)
  {
  }

  /** `Camera.__init__`. */
  function Init(m: MathLib, windowWidth: real, windowHeight: real,
                position: Vec3, up: Vec3, yaw: real, pitch: real): (r: Camera)
    ensures BasisConsistent(m, r)
    ensures r.position == position && r.worldUp == up
    ensures r.yaw == yaw && r.pitch == pitch
    ensures r.moveSpeed == SPEED && r.moveSense == SENSITIVITY && r.fov == ZOOM
    ensures r.firstMouse && r.lastX == windowWidth / 2.0 && r.lastY == windowHeight / 2.0
    ensures r.deltaTime == 0.0 && r.lastFrame == 0.0
    ensures r.moveMode == Member(Gui)
    ensures !Gated(r)
  {
    var c := Camera(position, Vec3(0.0, 0.0, -1.0), Zero, Zero, up, yaw, pitch,
                    SPEED, SENSITIVITY, ZOOM, true, windowWidth / 2.0, windowHeight / 2.0,
                    0.0, 0.0, Member(Gui));
    UpdateCameraVectors(m, c)
  }

  /** The constructor with every default argument. */
  function Default(m: MathLib, windowWidth: real, windowHeight: real): (r: Camera)
    ensures InBounds(r) && BasisConsistent(m, r) && !Gated(r)
    ensures r.position == Zero && r.yaw == -90.0 && r.pitch == 0.0 && r.fov == 45.0
  {
    Init(m, windowWidth, windowHeight, Zero, Vec3(0.0, 1.0, 0.0), YAW, PITCH)
  }

  /**
   * With the textbook values of the math library at -90 and 0 degrees, the default camera
   * looks down -Z with right = +X and up = +Y.
   */
  lemma DefaultLooksDownNegativeZ(m: MathLib, windowWidth: real, windowHeight: real)
    requires m.cos(m.radians(-90.0)) == 0.0 && m.sin(m.radians(-90.0)) == -1.0
    requires m.cos(m.radians(0.0)) == 1.0 && m.sin(m.radians(0.0)) == 0.0
    requires m.normalize(Vec3(0.0, 0.0, -1.0)) == Vec3(0.0, 0.0, -1.0)
    requires m.cross(Vec3(0.0, 0.0, -1.0), Vec3(0.0, 1.0, 0.0)) == Vec3(1.0, 0.0, 0.0)
    requires m.normalize(Vec3(1.0, 0.0, 0.0)) == Vec3(1.0, 0.0, 0.0)
    requires m.cross(Vec3(1.0, 0.0, 0.0), Vec3(0.0, 0.0, -1.0)) == Vec3(0.0, 1.0, 0.0)
    requires m.normalize(Vec3(0.0, 1.0, 0.0)) == Vec3(0.0, 1.0, 0.0)
    ensures Default(m, windowWidth, windowHeight).front == Vec3(0.0, 0.0, -1.0)
    ensures Default(m, windowWidth, windowHeight).right == Vec3(1.0, 0.0, 0.0)
    ensures Default(m, windowWidth, windowHeight).up == Vec3(0.0, 1.0, 0.0)
  {
  }

  /** `get_view_matrix`: looks from the position one front vector ahead, with the up vector. */
  function GetViewMatrix(m: MathLib, c: Camera): Mat4
  {
    m.lookAt(c.position, Add(c.position, c.front), c.up)
  }

  /**
   * `translate`: one displacement per pressed key, W and S along front, A and D along
   * right, each of length move_speed * delta_time.
   */
  function Translate(c: Camera, keys: Keys): (r: Camera)
    ensures Gated(c) ==> r == c
    ensures r.(position := c.position) == c
    ensures !Gated(c) ==> r.position == NetPosition(c, keys)
  {
    if Gated(c) then c
    else
      var velocity := c.moveSpeed * c.deltaTime;
      NetDisplacement(c.position, c.front, c.right, velocity, keys);
      c.(position := KeyByKey(c.position, c.front, c.right, velocity, keys))
  }

  /**
   * The body of `translate`: the four `if` tests in order W, S, A, D, each adding or
   * subtracting one step; W and S move along front, A and D along right.
   */
  function KeyByKey(p0: Vec3, front: Vec3, right: Vec3, velocity: real, keys: Keys): Vec3
  {
    MinusThenPlus(PlusThenMinus(p0, front, velocity, keys.w, keys.s), right, velocity, keys.a, keys.d)
  }

  /** Two `if` tests along one direction: the adding key polled first. */
  function PlusThenMinus(p: Vec3, dir: Vec3, v: real, plus: bool, minus: bool): Vec3
  {
    var q := if plus then Add(p, Scale(dir, v)) else p;
    if minus then Sub(q, Scale(dir, v)) else q
  }

  /** Two `if` tests along one direction: the subtracting key polled first. */
  function MinusThenPlus(p: Vec3, dir: Vec3, v: real, minus: bool, plus: bool): Vec3
  {
    var q := if minus then Sub(p, Scale(dir, v)) else p;
    if plus then Add(q, Scale(dir, v)) else q
  }

  /**
   * The independent reading of `translate`: the net displacement is front times
   * (W - S) plus right times (D - A), scaled by move_speed * delta_time.
   */
  function NetPosition(c: Camera, keys: Keys): Vec3
  {
    Net(c.position, c.front, c.right, c.moveSpeed * c.deltaTime, keys)
  }

  function Net(p: Vec3, front: Vec3, right: Vec3, v: real, keys: Keys): Vec3
  {
    Add(Add(p, Scale(front, v * (Count(keys.w) - Count(keys.s)))),
        Scale(right, v * (Count(keys.d) - Count(keys.a))))
  }

  /** A pair of opposed keys, the adding one polled first, nets to one signed step. */
  lemma PairNet(p: Vec3, dir: Vec3, v: real, plus: bool, minus: bool)
    ensures PlusThenMinus(p, dir, v, plus, minus) == Add(p, Scale(dir, v * (Count(plus) - Count(minus))))
  {
    if plus && minus {
    } else if plus {
    } else if minus {
    } else {
    }
  }

  /** The same with the subtracting key polled first. */
  lemma PairNetReversed(p: Vec3, dir: Vec3, v: real, minus: bool, plus: bool)
    ensures MinusThenPlus(p, dir, v, minus, plus) == Add(p, Scale(dir, v * (Count(plus) - Count(minus))))
  {
    if plus && minus {
    } else if plus {
    } else if minus {
    } else {
    }
  }

  /** The four polled keys net to the displacement front * (W - S) + right * (D - A). */
  lemma NetDisplacement(p: Vec3, front: Vec3, right: Vec3, v: real, keys: Keys)
    ensures KeyByKey(p, front, right, v, keys) == Net(p, front, right, v, keys)
  {
    PairNet(p, front, v, keys.w, keys.s);
    PairNetReversed(PlusThenMinus(p, front, v, keys.w, keys.s), right, v, keys.a, keys.d);
  }

  /** Holding W with S, and A with D, leaves the camera where it was. */
  lemma OpposingKeysCancel(c: Camera, keys: Keys)
    requires keys.w == keys.s && keys.a == keys.d
    ensures Translate(c, keys) == c
  {
  }

  /** `rotate(x_offset, y_offset, contrain_pitch)`. */
  function Rotate(m: MathLib, c: Camera, xOffset: real, yOffset: real, constrainPitch: bool): (r: Camera)
    ensures Gated(c) ==> r == c
    ensures !Gated(c) ==> r.yaw == c.yaw + xOffset * c.moveSense
    ensures !Gated(c) && constrainPitch ==>
      && -PITCH_LIMIT <= r.pitch <= PITCH_LIMIT
      && r.pitch == Clamp(c.pitch + yOffset * c.moveSense, -PITCH_LIMIT, PITCH_LIMIT)
    ensures !Gated(c) && !constrainPitch ==> r.pitch == c.pitch + yOffset * c.moveSense
    ensures !Gated(c) ==> r == UpdateCameraVectors(m, c.(yaw := r.yaw, pitch := r.pitch))
  {
    if Gated(c) then c
    else
      var yaw := c.yaw + xOffset * c.moveSense;
      var pitch := c.pitch + yOffset * c.moveSense;
      var pitch' := if constrainPitch then Clamp(pitch, -PITCH_LIMIT, PITCH_LIMIT) else pitch;
      UpdateCameraVectors(m, c.(yaw := yaw, pitch := pitch'))
  }

  /** Without the constraint a large vertical offset carries pitch past the pole. */
  lemma UnconstrainedRotateLeavesRange(m: MathLib, c: Camera)
    requires !Gated(c) && c.pitch == 0.0 && c.moveSense == SENSITIVITY
    ensures Rotate(m, c, 0.0, 1000.0, false).pitch == 100.0
    ensures Rotate(m, c, 0.0, 1000.0, true).pitch == 89.0
  {
  }

  /** `zoom(window, x_offset, y_offset)`: the scroll callback. */
  function Zoom(c: Camera, xOffset: real, yOffset: real): (r: Camera)
    ensures Gated(c) ==> r == c
    ensures !Gated(c) ==> FOV_MIN <= r.fov <= FOV_MAX
    ensures !Gated(c) ==> r.fov == Clamp(c.fov - yOffset, FOV_MIN, FOV_MAX)
    ensures r.(fov := c.fov) == c
  {
    if Gated(c) then c
    else c.(fov := Clamp(c.fov - yOffset, FOV_MIN, FOV_MAX))
  }

  /** The horizontal scroll offset plays no part in zooming. */
  lemma ZoomIgnoresX(c: Camera, x1: real, x2: real, yOffset: real)
    ensures Zoom(c, x1, yOffset) == Zoom(c, x2, yOffset)
  {
  }

  /** Zooming never moves or turns the camera. */
  lemma ZoomKeepsView(m: MathLib, c: Camera, xOffset: real, yOffset: real)
    ensures GetViewMatrix(m, Zoom(c, xOffset, yOffset)) == GetViewMatrix(m, c)
  {
  }

  /** `mouse_callback(window, x_pos, y_pos)`; `rightHeld` is the state of the right button. */
  function MouseCallback(m: MathLib, c: Camera, rightHeld: bool, xPos: real, yPos: real): (r: Camera)
    ensures !rightHeld ==> r == c.(firstMouse := true)
    ensures rightHeld ==> !r.firstMouse && r.lastX == xPos && r.lastY == yPos
    ensures rightHeld && c.firstMouse ==>
      r == Rotate(m, c.(firstMouse := false, lastX := xPos, lastY := yPos), 0.0, 0.0, true)
    ensures rightHeld && !c.firstMouse ==>
      r == Rotate(m, c.(lastX := xPos, lastY := yPos), xPos - c.lastX, c.lastY - yPos, true)
  {
    if rightHeld then
      var c1 := if c.firstMouse then c.(lastX := xPos, lastY := yPos, firstMouse := false) else c;
      var xOffset := xPos - c1.lastX;
      var yOffset := c1.lastY - yPos;
      Rotate(m, c1.(lastX := xPos, lastY := yPos), xOffset, yOffset, true)
    else
      c.(firstMouse := true)
  }

  /**
   * The first sample after the right button is pressed again is a baseline: it turns the
   * camera by nothing, so yaw is unchanged and a pitch within the limits stays put.
   */
  lemma FirstSampleIsBaseline(m: MathLib, c: Camera, xPos: real, yPos: real)
    requires c.firstMouse && -PITCH_LIMIT <= c.pitch <= PITCH_LIMIT
    ensures MouseCallback(m, c, true, xPos, yPos).yaw == c.yaw
    ensures MouseCallback(m, c, true, xPos, yPos).pitch == c.pitch
  {
  }

  /** Moving the cursor up (smaller y) raises the pitch: the y offset is last_y - y_pos. */
  lemma CursorUpRaisesPitch(m: MathLib, c: Camera, xPos: real, yPos: real)
    requires !c.firstMouse && !Gated(c) && c.moveSense > 0.0
    requires -PITCH_LIMIT <= c.pitch < PITCH_LIMIT && yPos < c.lastY
    ensures MouseCallback(m, c, true, xPos, yPos).pitch > c.pitch
  {
    var c1 := c.(lastX := xPos, lastY := yPos);
    var yOffset := c.lastY - yPos;
    assert yOffset * c.moveSense > 0.0;
    assert MouseCallback(m, c, true, xPos, yPos) == Rotate(m, c1, xPos - c.lastX, yOffset, true);
    assert Rotate(m, c1, xPos - c.lastX, yOffset, true).pitch
        == Clamp(c.pitch + yOffset * c.moveSense, -PITCH_LIMIT, PITCH_LIMIT);
  }

  /** `set_rotation(rotation)`: yaw from rotation[1], pitch from rotation[0], unclamped. */
  function SetRotation(m: MathLib, c: Camera, rotation: seq<real>): (r: Result<Camera>)
    ensures r.Err? <==> |rotation| < 2
    ensures r.Err? ==> r.error == IndexError
    ensures r.Ok? ==> r.value.yaw == rotation[1] && r.value.pitch == rotation[0]
    ensures r.Ok? ==> r.value == UpdateCameraVectors(m, c.(yaw := r.value.yaw, pitch := r.value.pitch))
  {
    if |rotation| < 2 then Err(IndexError)
    else Ok(UpdateCameraVectors(m, c.(yaw := rotation[1], pitch := rotation[0])))
  }

  /** set_rotation is not bound by the pitch limit: [100, 0] gives a pitch of 100. */
  lemma SetRotationIgnoresPitchLimit(m: MathLib, c: Camera)
    ensures SetRotation(m, c, [100.0, 0.0]).Ok?
    ensures SetRotation(m, c, [100.0, 0.0]).value.pitch == 100.0
    ensures SetRotation(m, c, [100.0, 0.0]).value.yaw == 0.0
    ensures !InBounds(SetRotation(m, c, [100.0, 0.0]).value)
  {
  }

  /** The input events the camera reacts to, in the order the frame loop delivers them. */
  datatype Event =
    | Frame(now: real, keys: Keys)                        // per-frame timing update, then translate
    | Scroll(xOffset: real, yOffset: real)                // scroll callback
    | Cursor(rightHeld: bool, xPos: real, yPos: real)     // cursor-position callback

  /**
   * One event. A frame first sets delta_time to the time since the previous frame and
   * records the frame time, as the chapters' render loops do, then polls the keys.
   */
  function Step(m: MathLib, c: Camera, e: Event): Camera
  {
    match e
    case Frame(now, keys) => Translate(c.(deltaTime := now - c.lastFrame, lastFrame := now), keys)
    case Scroll(x, y) => Zoom(c, x, y)
    case Cursor(held, x, y) => MouseCallback(m, c, held, x, y)
  }

  function Run(m: MathLib, c: Camera, events: seq<Event>): Camera
    decreases |events|
  {
    if |events| == 0 then c else Run(m, Step(m, c, events[0]), events[1..])
  }

  /** Every event keeps the pitch and field-of-view limits and a consistent basis. */
  lemma StepPreservesInvariants(m: MathLib, c: Camera, e: Event)
    requires InBounds(c) && BasisConsistent(m, c)
    ensures InBounds(Step(m, c, e)) && BasisConsistent(m, Step(m, c, e))
  {
  }

  /** From construction on, no sequence of input events breaks the limits or the basis. */
  lemma {:induction false} RunPreservesInvariants(m: MathLib, c: Camera, events: seq<Event>)
    requires InBounds(c) && BasisConsistent(m, c)
    ensures InBounds(Run(m, c, events)) && BasisConsistent(m, Run(m, c, events))
    decreases |events|
  {
    if |events| > 0 {
      StepPreservesInvariants(m, c, events[0]);
      RunPreservesInvariants(m, Step(m, c, events[0]), events[1..]);
    }
  }

  /** While the gate is closed, no input event moves, turns or zooms the camera. */
  lemma {:induction false} GatedRunKeepsPose(m: MathLib, c: Camera, events: seq<Event>)
    requires Gated(c)
    ensures Run(m, c, events).position == c.position
    ensures Run(m, c, events).yaw == c.yaw && Run(m, c, events).pitch == c.pitch
    ensures Run(m, c, events).fov == c.fov
    ensures Gated(Run(m, c, events))
    decreases |events|
  {
    if |events| > 0 {
      GatedRunKeepsPose(m, Step(m, c, events[0]), events[1..]);
    }
  }
}
