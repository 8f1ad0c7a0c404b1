/**
 * The camera of the CLAF viewer (CLAF/camera.py): driven by one move command at a time,
 * with an optional pitch constraint. Its constructor never derives the basis, so `right`
 * starts as the zero vector, and its front vector reads cos(yaw) where cos(pitch) is meant.
 */
module ClafCamera {
  import opened Vectors

  const PITCH_LIMIT := 89.0
  const FOV_MIN := 1.0
  const FOV_MAX := 45.0

  /** The `CAMERA_MOVE` enum. */
  datatype CameraMove = Forward | Backward | Left | Right

  /** The command that undoes a move. */
  function Opposite(move: CameraMove): CameraMove
  {
    match move
    case Forward => Backward
    case Backward => Forward
    case Left => Right
    case Right => Left
  }

  datatype Camera = Camera(
    position: Vec3,
    front: Vec3,
    up: Vec3,
    right: Vec3,
    worldUp: Vec3,
    yaw: real,
    pitch: real,
    speed: real,
    sensitivity: real,
    fov: real)

  /** `Camera.__init__`: stores its arguments; the basis is not derived. */
  function Init(position: Vec3, up: Vec3, front: Vec3, yaw: real, pitch: real,
                movementSpeed: real, mouseSensitivity: real, fov: real): (r: Camera)
    ensures r.right == Zero
    ensures r.position == position && r.front == front && r.up == up && r.worldUp == up
    ensures r.yaw == yaw && r.pitch == pitch && r.fov == fov
    ensures r.speed == movementSpeed && r.sensitivity == mouseSensitivity
  {
    Camera(position, front, up, Zero, up, yaw, pitch, movementSpeed, mouseSensitivity, fov)
  }

  /** The constructor with every default argument. */
  function Default(): (r: Camera)
    ensures r.position == Zero && r.front == Vec3(0.0, 0.0, -1.0) && r.right == Zero
    ensures r.up == Vec3(0.0, 1.0, 0.0) && r.worldUp == r.up
    ensures r.yaw == -90.0 && r.pitch == 0.0 && r.fov == 45.0
    ensures r.speed == 2.5 && r.sensitivity == 0.1
  {
    Init(Zero, Vec3(0.0, 1.0, 0.0), Vec3(0.0, 0.0, -1.0), -90.0, 0.0, 2.5, 0.1, 45.0)
  }

  /** The unnormalised front vector as this file writes it: x is cos(yaw) * cos(yaw). */
  function ClafFrontDirection(m: MathLib, yaw: real, pitch: real): Vec3
  {
    Vec3(m.cos(m.radians(yaw)) * m.cos(m.radians(yaw)),
         m.sin(m.radians(pitch)),
         m.sin(m.radians(yaw)) * m.cos(m.radians(pitch)))
  }

  /** `update_camera_vectors`, as written. */
  function UpdateCameraVectors(m: MathLib, c: Camera): (r: Camera)
    ensures r.front == m.normalize(ClafFrontDirection(m, c.yaw, c.pitch))
    ensures r.right == m.normalize(m.cross(r.front, c.worldUp))
    ensures r.up == m.normalize(m.cross(r.right, r.front))
    ensures r.(front := c.front, right := c.right, up := c.up) == c
  {
    var front := m.normalize(ClafFrontDirection(m, c.yaw, c.pitch));
    var right := m.normalize(m.cross(front, c.worldUp));
    c.(front := front, right := right, up := m.normalize(m.cross(right, front)))
  }

  /**
   * `update_camera_vectors` with cos(pitch) in the x component, as every other camera of
   * the repository computes it.
   */
  function UpdateCameraVectorsIntended(m: MathLib, c: Camera): (r: Camera)
    ensures r.front == m.normalize(FrontDirection(m, c.yaw, c.pitch))
    ensures r.right == m.normalize(m.cross(r.front, c.worldUp))
    ensures r.up == m.normalize(m.cross(r.right, r.front))
    ensures r.(front := c.front, right := c.right, up := c.up) == c
  {
    var front := m.normalize(FrontDirection(m, c.yaw, c.pitch));
    var right := m.normalize(m.cross(front, c.worldUp));
    c.(front := front, right := right, up := m.normalize(m.cross(right, front)))
  }

  /**
   * The two front formulas differ whenever cos(yaw) is neither 0 nor cos(pitch): at
   * yaw 0 and pitch 60, with cos 0 = 1 and cos 60 degrees = 1/2, x is 1 instead of 1/2.
   */
  lemma ClafFrontDiffers(m: MathLib, yaw: real, pitch: real)
    requires m.cos(m.radians(yaw)) != 0.0
    requires m.cos(m.radians(yaw)) != m.cos(m.radians(pitch))
    ensures ClafFrontDirection(m, yaw, pitch) != FrontDirection(m, yaw, pitch)
  {
  }

  /** The concrete witness: yaw 0, pitch 60. */
  lemma ClafFrontAtYaw0Pitch60(m: MathLib)
    requires m.cos(m.radians(0.0)) == 1.0 && m.cos(m.radians(60.0)) == 0.5
    ensures ClafFrontDirection(m, 0.0, 60.0).x == 1.0
    ensures FrontDirection(m, 0.0, 60.0).x == 0.5
  {
  }

  /**
   * Where cos(yaw) is 0, as at the default yaw of -90 degrees, the defect is invisible:
   * both formulas give the same vector.
   */
  lemma ClafFrontAgreesWhenCosYawIsZero(m: MathLib, yaw: real, pitch: real)
    requires m.cos(m.radians(yaw)) == 0.0
    ensures ClafFrontDirection(m, yaw, pitch) == FrontDirection(m, yaw, pitch)
  {
  }

  /** `get_view_mat`. */
  function GetViewMat(m: MathLib, c: Camera): Mat4
  {
    m.lookAt(c.position, Add(c.position, c.front), c.up)
  }

  /** `move(camera_move, delta_time)`: one step of speed * delta_time; only the position changes. */
  function Move(c: Camera, move: CameraMove, deltaTime: real): (r: Camera)
    ensures r.(position := c.position) == c
    ensures move == Forward ==> r.position == Add(c.position, Scale(c.front, c.speed * deltaTime))
    ensures move == Backward ==> r.position == Sub(c.position, Scale(c.front, c.speed * deltaTime))
    ensures move == Left ==> r.position == Sub(c.position, Scale(c.right, c.speed * deltaTime))
    ensures move == Right ==> r.position == Add(c.position, Scale(c.right, c.speed * deltaTime))
  {
    var velocity := c.speed * deltaTime;
    match move
    case Forward => c.(position := Add(c.position, Scale(c.front, velocity)))
    case Backward => c.(position := Sub(c.position, Scale(c.front, velocity)))
    case Left => c.(position := Sub(c.position, Scale(c.right, velocity)))
    case Right => c.(position := Add(c.position, Scale(c.right, velocity)))
  }

  /** A move followed by its opposite over the same time restores the camera exactly. */
  lemma MoveThenOppositeRestores(c: Camera, move: CameraMove, deltaTime: real)
    ensures Move(Move(c, move, deltaTime), Opposite(move), deltaTime) == c
  {
    match move
    case Forward =>
    case Backward =>
    case Left =>
    case Right =>
  }

  /** Before any rotate, right is zero, so LEFT and RIGHT do not move the camera. */
  lemma SidewaysIsStillBeforeRotate(position: Vec3, up: Vec3, front: Vec3, yaw: real, pitch: real,
                                    speed: real, sensitivity: real, fov: real, deltaTime: real)
    ensures var c := Init(position, up, front, yaw, pitch, speed, sensitivity, fov);
            Move(c, Left, deltaTime) == c && Move(c, Right, deltaTime) == c
  {
  }

  /** A sequence of moves, all over the same frame time. */
  function MoveAll(c: Camera, moves: seq<CameraMove>, deltaTime: real): (r: Camera)
    ensures r.(position := c.position) == c
    decreases |moves|
  {
    if |moves| == 0 then c else MoveAll(Move(c, moves[0], deltaTime), moves[1..], deltaTime)
  }

  /** The opposite of every command, in reverse order. */
  function Undo(moves: seq<CameraMove>): (r: seq<CameraMove>)
    ensures |r| == |moves|
    ensures forall i :: 0 <= i < |moves| ==> r[i] == Opposite(moves[|moves| - 1 - i])
    decreases |moves|
  {
    if |moves| == 0 then [] else Undo(moves[1..]) + [Opposite(moves[0])]
  }

  lemma {:induction false} MoveAllAppend(c: Camera, a: seq<CameraMove>, b: seq<CameraMove>, deltaTime: real)
    ensures MoveAll(c, a + b, deltaTime) == MoveAll(MoveAll(c, a, deltaTime), b, deltaTime)
    decreases |a|
  {
    if |a| == 0 {
      assert a + b == b;
    } else {
      assert (a + b)[1..] == a[1..] + b;
      MoveAllAppend(Move(c, a[0], deltaTime), a[1..], b, deltaTime);
    }
  }

  /**
   * With no rotate in between, replaying the opposite commands in reverse order brings
   * the camera back to where it started.
   */
  lemma {:induction false} UndoRestores(c: Camera, moves: seq<CameraMove>, deltaTime: real)
    ensures MoveAll(MoveAll(c, moves, deltaTime), Undo(moves), deltaTime) == c
    decreases |moves|
  {
    if |moves| > 0 {
      var c1 := Move(c, moves[0], deltaTime);
      var mid := MoveAll(c1, moves[1..], deltaTime);
      assert MoveAll(c, moves, deltaTime) == mid;
      MoveAllAppend(mid, Undo(moves[1..]), [Opposite(moves[0])], deltaTime);
      UndoRestores(c1, moves[1..], deltaTime);
      MoveThenOppositeRestores(c, moves[0], deltaTime);
      assert MoveAll(c1, [Opposite(moves[0])], deltaTime) == Move(c1, Opposite(moves[0]), deltaTime);
    }
  }

  /** `rotate(x_offset, y_offset, constrain_pitch)`: turns, then derives the basis as written. */
  function Rotate(m: MathLib, c: Camera, xOffset: real, yOffset: real, constrainPitch: bool): (r: Camera)
    ensures r.yaw == c.yaw + xOffset * c.sensitivity
    ensures constrainPitch ==>
      && -PITCH_LIMIT <= r.pitch <= PITCH_LIMIT
      && r.pitch == Clamp(c.pitch + yOffset * c.sensitivity, -PITCH_LIMIT, PITCH_LIMIT)
    ensures !constrainPitch ==> r.pitch == c.pitch + yOffset * c.sensitivity
    ensures r == UpdateCameraVectors(m, c.(yaw := r.yaw, pitch := r.pitch))
  {
    var yaw := c.yaw + xOffset * c.sensitivity;
    var pitch := c.pitch + yOffset * c.sensitivity;
    var pitch' := if constrainPitch then Clamp(pitch, -PITCH_LIMIT, PITCH_LIMIT) else pitch;
    UpdateCameraVectors(m, c.(yaw := yaw, pitch := pitch'))
  }

  /** `rotate` over the corrected basis derivation. */
  function RotateIntended(m: MathLib, c: Camera, xOffset: real, yOffset: real, constrainPitch: bool): (r: Camera)
    ensures r.front == m.normalize(FrontDirection(m, r.yaw, r.pitch))
    ensures r == UpdateCameraVectorsIntended(m, c.(yaw := r.yaw, pitch := r.pitch))
  {
    var turned := Rotate(m, c, xOffset, yOffset, constrainPitch);
    UpdateCameraVectorsIntended(m, c.(yaw := turned.yaw, pitch := turned.pitch))
  }

  /** The correction changes only the derived basis: the angles and everything else agree. */
  lemma RotateIntendedKeepsAngles(m: MathLib, c: Camera, xOffset: real, yOffset: real, constrainPitch: bool)
    ensures var r, w := RotateIntended(m, c, xOffset, yOffset, constrainPitch), Rotate(m, c, xOffset, yOffset, constrainPitch);
            r.(front := w.front, right := w.right, up := w.up) == w
  {
  }

  /** `zoom(y_offset)`. */
  function Zoom(c: Camera, yOffset: real): (r: Camera)
    ensures FOV_MIN <= r.fov <= FOV_MAX
    ensures r.fov == Clamp(c.fov - yOffset, FOV_MIN, FOV_MAX)
    ensures r.(fov := c.fov) == c
  {
    c.(fov := Clamp(c.fov - yOffset, FOV_MIN, FOV_MAX))
  }

  /** Scrolling 10 from 45 gives 35; scrolling 50 from 45 stops at 1. */
  lemma ZoomExamples(c: Camera)
    requires c.fov == 45.0
    ensures Zoom(c, 10.0).fov == 35.0
    ensures Zoom(c, 50.0).fov == 1.0
  {
  }

  /**
   * A move only shifts the viewpoint: the view looks from the new position along the
   * unchanged front vector with the unchanged up vector, and yaw, pitch and fov are kept.
   */
  lemma MoveShiftsView(m: MathLib, c: Camera, move: CameraMove, deltaTime: real)
    ensures var r := Move(c, move, deltaTime);
            && GetViewMat(m, r) == m.lookAt(r.position, Add(r.position, c.front), c.up)
            && r.yaw == c.yaw && r.pitch == c.pitch && r.fov == c.fov
  {
  }

  /** Zooming never moves or turns the camera. */
  lemma ZoomKeepsViewMat(m: MathLib, c: Camera, yOffset: real)
    ensures GetViewMat(m, Zoom(c, yOffset)) == GetViewMat(m, c)
  {
  }
}
