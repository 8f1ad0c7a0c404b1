/**
 * The camera of the getting-started helpers (class `Camera` in
 * python/01_getting_started/utils.py). It behaves like the camera chapter's camera, but
 * has no field of view, writes its pitch limit as two `if` tests, and its `get_fov` reads
 * a local variable before assigning it, so every call raises.
 */
module GettingStartedCamera {
  import opened Vectors
  import opened Keyboard
  import opened Outcomes
  import TutorialCamera

  const SPEED := 2.5
  const SENSITIVITY := 0.1
  const PITCH_LIMIT := 89.0

  /** No `fov` attribute: the constructor sets only these (and the window handle). */
  datatype Camera = Camera(
    firstMouse: bool,
    lastX: real,
    lastY: real,
    yaw: real,
    pitch: real)

  function Init(windowWidth: int, windowHeight: int): (r: Camera)
    ensures r.firstMouse
    ensures r.lastX == windowWidth as real / 2.0 && r.lastY == windowHeight as real / 2.0
    ensures r.yaw == -90.0 && r.pitch == 0.0
  {
    Camera(true, windowWidth as real / 2.0, windowHeight as real / 2.0, -90.0, 0.0)
  }

  /** `translate`: the same first-key-wins step as the camera chapter's camera. */
  function Translate(m: MathLib, keys: Keys, pos: Vec3, front: Vec3, up: Vec3, deltaTime: real): (r: Vec3)
    ensures r == TutorialCamera.Translate(m, keys, pos, front, up, deltaTime)
    ensures !keys.w && !keys.s && !keys.a && !keys.d ==> r == pos
  {
    var cameraSpeed := SPEED * deltaTime;
    if keys.w then Add(pos, Scale(m.normalize(front), cameraSpeed))
    else if keys.s then Sub(pos, Scale(m.normalize(front), cameraSpeed))
    else if keys.a then Sub(pos, Scale(m.normalize(m.cross(front, up)), cameraSpeed))
    else if keys.d then Add(pos, Scale(m.normalize(m.cross(front, up)), cameraSpeed))
    else pos
  }

  /** `rotate(mouse_x, mouse_y)`: returns the updated camera and the new front vector. */
  function Rotate(m: MathLib, c: Camera, mouseX: real, mouseY: real): (r: (Camera, Vec3))
    ensures !r.0.firstMouse && r.0.lastX == mouseX && r.0.lastY == mouseY
    ensures -PITCH_LIMIT <= r.0.pitch <= PITCH_LIMIT
    ensures c.firstMouse ==> r.0.yaw == c.yaw
    ensures r.1 == m.normalize(FrontDirection(m, r.0.yaw, r.0.pitch))
  {
    var c1 := if c.firstMouse then c.(lastX := mouseX, lastY := mouseY, firstMouse := false) else c;
    var xOffset := mouseX - c1.lastX;
    var yOffset := c1.lastY - mouseY;
    var c2 := c1.(lastX := mouseX, lastY := mouseY);
    var yaw := c2.yaw + SENSITIVITY * xOffset;
    var pitch := ClampByIfs(c2.pitch + SENSITIVITY * yOffset, -PITCH_LIMIT, PITCH_LIMIT);
    (c2.(yaw := yaw, pitch := pitch), m.normalize(FrontDirection(m, yaw, pitch)))
  }

  /** The camera state this variant shares with the camera chapter's camera. */
  function AsTutorial(c: Camera, fov: real): TutorialCamera.Camera
  {
    TutorialCamera.Camera(c.firstMouse, c.lastX, c.lastY, c.yaw, c.pitch, fov)
  }

  /**
   * The two `if` tests act as the chapter camera's clip: both cameras turn alike and
   * return the same front vector, whatever field of view the chapter camera holds.
   */
  lemma RotateMatchesTutorial(m: MathLib, c: Camera, fov: real, mouseX: real, mouseY: real)
    ensures var (g, gFront) := Rotate(m, c, mouseX, mouseY);
            var (t, tFront) := TutorialCamera.Rotate(m, AsTutorial(c, fov), mouseX, mouseY);
            AsTutorial(g, fov) == t && gFront == tFront
  {
  }

  /** `get_fov(x_offset, y_offset)`: `fov` is read before it is assigned, so it always raises. */
  function GetFov(c: Camera, xOffset: real, yOffset: real): (r: Result<real>)
    ensures r == Err(UnboundLocalError)
  {
    Err(UnboundLocalError)
  }
}
