/**
 * The camera of the camera chapter (class `Camera` in
 * python/01_getting_started/07_camera/content.py). It does not own a position: `translate`
 * returns a new one, the first pressed key wins, and `rotate` returns the new front vector.
 */
module TutorialCamera {
  import opened Vectors
  import opened Keyboard

  /** camera_speed per second; the mouse sensitivity. */
  const SPEED := 2.5
  const SENSITIVITY := 0.1

  const PITCH_LIMIT := 89.0
  const FOV_MIN := 1.0
  const FOV_MAX := 45.0

  datatype Camera = Camera(
    firstMouse: bool,
    lastX: real,
    lastY: real,
    yaw: real,
    pitch: real,
    fov: real)

  /** `Camera.__init__`; the window size stands for `glfw.get_window_size(window)`. */
  function Init(windowWidth: int, windowHeight: int): (r: Camera)
    ensures r.firstMouse
    ensures r.lastX == windowWidth as real / 2.0 && r.lastY == windowHeight as real / 2.0
    ensures r.yaw == -90.0 && r.pitch == 0.0 && r.fov == 45.0
  {
    Camera(true, windowWidth as real / 2.0, windowHeight as real / 2.0, -90.0, 0.0, 45.0)
  }

  /** The unit step of each key: along normalize(front), or along normalize(cross(front, up)). */
  function Forward(m: MathLib, front: Vec3): Vec3
  {
    m.normalize(front)
  }

  function Sideways(m: MathLib, front: Vec3, up: Vec3): Vec3
  {
    m.normalize(m.cross(front, up))
  }

  /**
   * `translate(camera_pos, camera_front, camera_up, delta_time)`: the first pressed key
   * of W, S, A, D (in that order) moves the position one step of 2.5 * delta_time.
   */
  function Translate(m: MathLib, keys: Keys, pos: Vec3, front: Vec3, up: Vec3, deltaTime: real): (r: Vec3)
    ensures keys == NoKeys ==> r == pos
    ensures keys.w ==> r == Add(pos, Scale(Forward(m, front), SPEED * deltaTime))
    ensures !keys.w && keys.s ==> r == Sub(pos, Scale(Forward(m, front), SPEED * deltaTime))
    ensures !keys.w && !keys.s && keys.a ==> r == Sub(pos, Scale(Sideways(m, front, up), SPEED * deltaTime))
    ensures !keys.w && !keys.s && !keys.a && keys.d ==> r == Add(pos, Scale(Sideways(m, front, up), SPEED * deltaTime))
  {
    var cameraSpeed := SPEED * deltaTime;
    if keys.w then Add(pos, Scale(m.normalize(front), cameraSpeed))
    else if keys.s then Sub(pos, Scale(m.normalize(front), cameraSpeed))
    else if keys.a then Sub(pos, Scale(m.normalize(m.cross(front, up)), cameraSpeed))
    else if keys.d then Add(pos, Scale(m.normalize(m.cross(front, up)), cameraSpeed))
    else pos
  }

  /** The keys with everything below the first pressed one released. */
  function FirstPressed(keys: Keys): (r: Keys)
    ensures r == NoKeys || r == Keys(true, false, false, false) || r == Keys(false, true, false, false)
         || r == Keys(false, false, true, false) || r == Keys(false, false, false, true)
    ensures r.w <==> keys.w
    ensures r.s <==> keys.s && !keys.w
    ensures r.a <==> keys.a && !keys.w && !keys.s
    ensures r.d <==> keys.d && !keys.w && !keys.s && !keys.a
    ensures r == NoKeys <==> keys == NoKeys
  {
    if keys.w then Keys(true, false, false, false)
    else if keys.s then Keys(false, true, false, false)
    else if keys.a then Keys(false, false, true, false)
    else if keys.d then Keys(false, false, false, true)
    else NoKeys
  }

  /** First key wins: only the highest-priority pressed key matters. */
  lemma TranslateFirstKeyWins(m: MathLib, keys: Keys, pos: Vec3, front: Vec3, up: Vec3, deltaTime: real)
    ensures Translate(m, keys, pos, front, up, deltaTime)
         == Translate(m, FirstPressed(keys), pos, front, up, deltaTime)
  {
  }

  /** At most one displacement: the result is the position, or one signed step away from it. */
  lemma TranslateAtMostOneStep(m: MathLib, keys: Keys, pos: Vec3, front: Vec3, up: Vec3, deltaTime: real)
    ensures var r := Translate(m, keys, pos, front, up, deltaTime);
            var v := SPEED * deltaTime;
            r == pos
            || r == Add(pos, Scale(Forward(m, front), v)) || r == Sub(pos, Scale(Forward(m, front), v))
            || r == Add(pos, Scale(Sideways(m, front, up), v)) || r == Sub(pos, Scale(Sideways(m, front, up), v))
  {
  }

  /** Unlike the shared camera, holding W and S together still moves forward. */
  lemma ForwardAndBackwardMovesForward(m: MathLib, pos: Vec3, front: Vec3, up: Vec3, deltaTime: real)
    ensures Translate(m, Keys(true, true, false, false), pos, front, up, deltaTime)
         == Add(pos, Scale(m.normalize(front), SPEED * deltaTime))
  {
  }

  /**
   * `rotate(mouse_x, mouse_y)`: returns the updated camera and the new normalised front
   * vector. The first sample only sets the baseline; pitch is always clipped to [-89, 89].
   */
  function Rotate(m: MathLib, c: Camera, mouseX: real, mouseY: real): (r: (Camera, Vec3))
    ensures !r.0.firstMouse && r.0.lastX == mouseX && r.0.lastY == mouseY
    ensures c.firstMouse ==> r.0.yaw == c.yaw
    ensures !c.firstMouse ==> r.0.yaw == c.yaw + SENSITIVITY * (mouseX - c.lastX)
    ensures -PITCH_LIMIT <= r.0.pitch <= PITCH_LIMIT
    ensures !c.firstMouse ==>
      r.0.pitch == Clamp(c.pitch + SENSITIVITY * (c.lastY - mouseY), -PITCH_LIMIT, PITCH_LIMIT)
    ensures c.firstMouse ==> r.0.pitch == Clamp(c.pitch, -PITCH_LIMIT, PITCH_LIMIT)
    ensures r.0.fov == c.fov
    ensures r.1 == m.normalize(FrontDirection(m, r.0.yaw, r.0.pitch))
  {
    var c1 := if c.firstMouse then c.(lastX := mouseX, lastY := mouseY, firstMouse := false) else c;
    var xOffset := mouseX - c1.lastX;
    var yOffset := c1.lastY - mouseY;
    var c2 := c1.(lastX := mouseX, lastY := mouseY);
    var yaw := c2.yaw + SENSITIVITY * xOffset;
    var pitch := Clamp(c2.pitch + SENSITIVITY * yOffset, -PITCH_LIMIT, PITCH_LIMIT);
    var c3 := c2.(yaw := yaw, pitch := pitch);
    (c3, m.normalize(FrontDirection(m, yaw, pitch)))
  }

  /** `get_fov(window, x_offset, y_offset)`: scrolls the field of view and returns it. */
  function GetFov(c: Camera, xOffset: real, yOffset: real): (r: (Camera, real))
    ensures FOV_MIN <= r.1 <= FOV_MAX
    ensures r.1 == r.0.fov
    ensures r.1 == Clamp(c.fov - yOffset, FOV_MIN, FOV_MAX)
    ensures r.0 == c.(fov := r.1)
  {
    var fov := Clamp(c.fov - yOffset, FOV_MIN, FOV_MAX);
    (c.(fov := fov), fov)
  }

  /** Rotating never changes the field of view, and scrolling never changes the orientation. */
  lemma RotateAndScrollIndependent(m: MathLib, c: Camera, mouseX: real, mouseY: real, yOffset: real)
    ensures Rotate(m, GetFov(c, 0.0, yOffset).0, mouseX, mouseY).0
         == GetFov(Rotate(m, c, mouseX, mouseY).0, 0.0, yOffset).0
  {
  }
}
