# Free-fly cameras, primitive tables and chapter lists of LearnOpenGLStudy

This project models the logic parts of a collection of Python OpenGL tutorial chapters
and of the viewer that browses them. Everything else there is OpenGL, GLFW or imgui call
sequences.

- **Four free-fly cameras.** Each turns key, cursor and scroll input into a position, a
  yaw/pitch orientation with its derived front/right/up basis, and a field of view:
  - the shared camera of the lighting chapters and the viewer (`VisualizerCamera`);
  - the CLAF viewer's command-driven camera (`ClafCamera`);
  - the camera chapter's camera (`TutorialCamera`);
  - the getting-started helpers' camera (`GettingStartedCamera`).

  `CameraVariants` relates them: where they agree, and where they observably differ.
- **The CLAF primitive tables** (`Primitives`). These are the triangle, rectangle and box
  vertex tables at stride 5 (position x, y, z and texture u, v), plus the rectangle's
  index list, behind a numeric selector.
- **The viewer's name derivations** (`TutorialFiles`):
  - the chapter directories and "folder/chapter" labels built from the matched
    `content.py` paths;
  - the texture menu built from the matched images, headed by "None".

How things are modelled:
- Cameras are immutable datatypes over `real`, and every Python method is a pure
  transition function.
- glm's, numpy's and Python `math`'s `sin`, `cos`, `radians`, `normalize`, `cross` and `lookAt` are the
  fields of a `MathLib` record passed in as a parameter. Nothing is assumed about them.
- Key state (`Keys`), cursor positions, scroll offsets and the frame time are parameters.
- The glob results and `os.path.abspath` are parameters of the list builders.
- Python exceptions the code can raise become `Result` values: `IndexError` for a short
  list or path, and `UnboundLocalError` for the getting-started `get_fov`.

Behaviour of the code that the model keeps as written:
- **Pitch range.** Pitch is clamped to the closed range [-89, 89]
  (python/visualizer/camera.py:85, CLAF/camera.py:63), and the model proves the closed
  range.
- **Key handling.** The shared camera polls all four keys and adds one step per pressed
  key (python/visualizer/camera.py:66-73). The two chapter cameras return after the first
  pressed key (python/01_getting_started/07_camera/content.py:249-258,
  python/01_getting_started/utils.py:33-42). Only the CLAF
  camera takes a direction command (CLAF/camera.py:44-53).
- **CLAF front vector.** CLAF's `update_camera_vectors` computes cos yaw cos yaw for the
  x component (CLAF/camera.py:32), where every other camera uses cos yaw cos pitch. The
  model keeps that as written and also gives the corrected form (see Findings).
- **Input gate.** Besides the mouse-button test of `mouse_callback`, the shared camera
  makes `translate`, `rotate` and `zoom` return at once when
  `move_mode == MOVEMODE.GUI.value` (python/visualizer/camera.py:63, 76, 90). The
  constructor stores the enum member `MOVEMODE.GUI` (line 41), and no code reassigns
  `move_mode`. An enum member never equals the integer 0, so the gate is open from
  construction on. The model keeps `move_mode` as either an enum member or a plain
  integer and closes the gate only on the integer 0.
- **Constructor basis.** The CLAF constructor never derives the basis
  (CLAF/camera.py:12-27), so `right` is the zero vector until the first `rotate`.

## Model

| member | source | states |
|---|---|---|
| VisualizerCamera.UpdateCameraVectors | python/visualizer/camera.py:46-56 | front is normalize of (cos yaw cos pitch, sin pitch, sin yaw cos pitch), right = normalize(front x world_up), up = normalize(right x front); no other field changes |
| VisualizerCamera.UpdateCameraVectorsIdempotent | python/visualizer/camera.py:46-56 | re-deriving the basis a second time changes nothing: the basis depends only on yaw, pitch and world up |
| VisualizerCamera.Init | python/visualizer/camera.py:16-43 | the constructor stores its arguments and the defaults (speed 2.5, sensitivity 0.1, fov 45, cursor at the window centre, zero frame times, the enum member GUI), derives a consistent basis, and leaves the input gate open |
| VisualizerCamera.Default | python/visualizer/camera.py:6-10 | with every default argument the camera is at the origin, yaw -90, pitch 0, fov 45, within the pitch and fov limits, gate open |
| VisualizerCamera.DefaultLooksDownNegativeZ | python/visualizer/camera.py:6-10 | given the textbook trig values at -90 and 0 degrees, the default camera has front (0, 0, -1), right (1, 0, 0) and up (0, 1, 0) |
| VisualizerCamera.Translate | python/visualizer/camera.py:62-73 | with the gate closed nothing changes; otherwise only the position changes, to position + front * (W - S) * v + right * (D - A) * v with v = move_speed * delta_time |
| VisualizerCamera.PairNet | python/visualizer/camera.py:66-69 | the W test then the S test add front * (W - S) * v: one signed step, none when both or neither are held |
| VisualizerCamera.PairNetReversed | python/visualizer/camera.py:70-73 | the A test then the D test add right * (D - A) * v |
| VisualizerCamera.NetDisplacement | python/visualizer/camera.py:65-73 | the four polled key tests together equal the net-displacement reading of translate |
| VisualizerCamera.OpposingKeysCancel | python/visualizer/camera.py:65-73 | holding W with S and A with D leaves the camera exactly where it was |
| VisualizerCamera.Rotate | python/visualizer/camera.py:75-87 | with the gate closed nothing changes; otherwise yaw' = yaw + x * sense unclamped, pitch' = clamp(pitch + y * sense, -89, 89) when constrained and unclamped otherwise, then the basis is re-derived from the new angles |
| VisualizerCamera.UnconstrainedRotateLeavesRange | python/visualizer/camera.py:84-85 | from pitch 0 a y offset of 1000 gives pitch 100 without the constraint and 89 with it |
| VisualizerCamera.Zoom | python/visualizer/camera.py:89-93 | with the gate closed nothing changes; otherwise fov' = clamp(fov - y, 1, 45), so fov is in [1, 45], and only fov changes |
| VisualizerCamera.ZoomIgnoresX | python/visualizer/camera.py:89-93 | the horizontal scroll offset has no effect |
| VisualizerCamera.ZoomKeepsView | python/visualizer/camera.py:59-60 | zooming leaves the view matrix unchanged |
| VisualizerCamera.MouseCallback | python/visualizer/camera.py:95-114 | without the right button only first_mouse is set; with it the cursor becomes the last position and the camera rotates, constrained, by (x - last_x, last_y - y), the first sample after a release using itself as baseline |
| VisualizerCamera.FirstSampleIsBaseline | python/visualizer/camera.py:100-112 | the first sample turns the camera by zero: yaw and an in-range pitch are unchanged |
| VisualizerCamera.CursorUpRaisesPitch | python/visualizer/camera.py:105-112 | moving the cursor up (smaller y) below the pitch limit strictly raises pitch: the y offset is inverted |
| VisualizerCamera.SetRotation | python/visualizer/camera.py:116-120 | yaw := rotation[1], pitch := rotation[0], not clamped, then the basis is re-derived; a list shorter than two raises IndexError |
| VisualizerCamera.SetRotationIgnoresPitchLimit | python/visualizer/camera.py:116-120 | set_rotation([100, 0]) gives pitch 100 and yaw 0, outside the limits the input handlers keep |
| VisualizerCamera.StepPreservesInvariants | python/02_lighting/01_colors/content.py:146-149 | a frame (time update then translate), a scroll or a cursor event keeps pitch in [-89, 89], fov in [1, 45] and a consistent basis |
| VisualizerCamera.RunPreservesInvariants | python/02_lighting/01_colors/content.py:146-149 | any sequence of input events keeps those limits and the basis |
| VisualizerCamera.GatedRunKeepsPose | python/visualizer/camera.py:63-90 | with the gate closed no sequence of events moves, turns or zooms the camera, and the gate stays closed |
| ClafCamera.Init | CLAF/camera.py:11-27 | the constructor stores its arguments, sets world_up to up, and leaves right as the zero vector |
| ClafCamera.Default | CLAF/camera.py:12-13 | the default arguments: origin, front (0, 0, -1), up (0, 1, 0), yaw -90, pitch 0, speed 2.5, sensitivity 0.1, fov 45 |
| ClafCamera.UpdateCameraVectors | CLAF/camera.py:30-38 | as written: front is normalize of (cos yaw cos yaw, sin pitch, sin yaw cos pitch), then right and up as in the other cameras; nothing else changes |
| ClafCamera.UpdateCameraVectorsIntended | CLAF/camera.py:30-38 | the corrected derivation, with cos yaw cos pitch in x |
| ClafCamera.ClafFrontDiffers | CLAF/camera.py:32 | the as-written front differs from the intended one whenever cos yaw is neither 0 nor cos pitch |
| ClafCamera.ClafFrontAtYaw0Pitch60 | CLAF/camera.py:32 | at yaw 0 and pitch 60 the as-written x component is 1 where the intended one is 1/2 |
| ClafCamera.ClafFrontAgreesWhenCosYawIsZero | CLAF/camera.py:32 | at a yaw whose cosine is 0, such as the default -90, both formulas agree |
| ClafCamera.Move | CLAF/camera.py:44-53 | only the position changes: FORWARD adds front * speed * dt, BACKWARD subtracts it, LEFT subtracts right * speed * dt, RIGHT adds it |
| ClafCamera.MoveThenOppositeRestores | CLAF/camera.py:44-53 | a move followed by the opposite move over the same time restores the camera exactly |
| ClafCamera.MoveShiftsView | CLAF/camera.py:41-53 | after a move, get_view_mat looks from the new position along the unchanged front with the unchanged up; yaw, pitch and fov are kept |
| ClafCamera.ZoomKeepsViewMat | CLAF/camera.py:41-42 | zooming leaves get_view_mat unchanged |
| ClafCamera.SidewaysIsStillBeforeRotate | CLAF/camera.py:17 | right starts as zero, so LEFT and RIGHT do not move a freshly built camera |
| ClafCamera.MoveAll | CLAF/camera.py:44-53 | a sequence of moves changes only the position |
| ClafCamera.Undo | CLAF/camera.py:4-8 | the undo sequence has the same length and holds the opposite of each command in reverse order |
| ClafCamera.MoveAllAppend | CLAF/camera.py:44-53 | running a + b is running a then b |
| ClafCamera.UndoRestores | CLAF/camera.py:44-53 | running the moves and then their undo sequence brings the camera back to where it started |
| ClafCamera.Rotate | CLAF/camera.py:55-65 | yaw' = yaw + x * sensitivity; pitch' = clamp(pitch + y * sensitivity, -89, 89) when constrained, unclamped otherwise; then the as-written basis derivation |
| ClafCamera.RotateIntended | CLAF/camera.py:55-65 | rotate over the corrected derivation: the front is the normalised front of the new angles |
| ClafCamera.RotateIntendedKeepsAngles | CLAF/camera.py:55-65 | the correction changes only front, right and up; the angles and every other field agree with rotate as written |
| ClafCamera.Zoom | CLAF/camera.py:67-70 | fov' = clamp(fov - y, 1, 45), in [1, 45]; nothing else changes |
| ClafCamera.ZoomExamples | CLAF/camera.py:67-70 | from 45, scrolling 10 gives 35 and scrolling 50 stops at 1 |
| TutorialCamera.Init | python/01_getting_started/07_camera/content.py:234-244 | first_mouse set, cursor at the window centre, yaw -90, pitch 0, fov 45 |
| TutorialCamera.Translate | python/01_getting_started/07_camera/content.py:246-258 | no key gives the position back; otherwise the first pressed key of W, S, A, D moves it one step of 2.5 * dt along normalize(front) or normalize(front x up) |
| TutorialCamera.FirstPressed | python/01_getting_started/07_camera/content.py:249-256 | keeps only the highest-priority pressed key: W if held, else S, else A, else D, and no key exactly when none is held |
| TutorialCamera.TranslateFirstKeyWins | python/01_getting_started/07_camera/content.py:249-256 | translate depends only on the first pressed key |
| TutorialCamera.TranslateAtMostOneStep | python/01_getting_started/07_camera/content.py:246-258 | the result is the position or exactly one signed step away from it |
| TutorialCamera.ForwardAndBackwardMovesForward | python/01_getting_started/07_camera/content.py:249-252 | W and S held together still move forward |
| TutorialCamera.Rotate | python/01_getting_started/07_camera/content.py:260-284 | the cursor becomes the last position and first_mouse is cleared; the first sample turns by nothing; yaw' = yaw + 0.1 * dx; pitch is always clipped to [-89, 89]; fov is untouched; the returned front is the normalised front of the new angles |
| TutorialCamera.GetFov | python/01_getting_started/07_camera/content.py:286-291 | fov' = clip(fov - y, 1, 45), stored and returned; nothing else changes |
| TutorialCamera.RotateAndScrollIndependent | python/01_getting_started/07_camera/content.py:260-291 | rotating and scrolling commute: neither touches the other's state |
| GettingStartedCamera.Init | python/01_getting_started/utils.py:19-28 | first_mouse set, cursor at the window centre, yaw -90, pitch 0, and no fov attribute |
| GettingStartedCamera.Translate | python/01_getting_started/utils.py:30-42 | the same first-key-wins step as the camera chapter's translate |
| GettingStartedCamera.Rotate | python/01_getting_started/utils.py:44-72 | the cursor becomes the last position, first_mouse is cleared, the two if tests keep pitch in [-89, 89], and the returned front is the normalised front of the new angles |
| GettingStartedCamera.RotateMatchesTutorial | python/01_getting_started/utils.py:62-65 | the two if tests behave as the camera chapter's clip: both cameras reach the same state and return the same front |
| GettingStartedCamera.GetFov | python/01_getting_started/utils.py:74-81 | every call raises UnboundLocalError, because fov is read before it is assigned |
| CameraVariants.SingleKeyTranslationsAgree | python/visualizer/camera.py:62-73 | with one key down, the same speed and the same unit front and right, the shared camera and the camera chapter's camera move to the same place |
| CameraVariants.ForwardBackwardDiffers | python/01_getting_started/07_camera/content.py:249-252 | with W and S down the shared camera stays put while the chapter camera moves forward |
| CameraVariants.IntendedClafBasisMatchesVisualizer | CLAF/camera.py:30-38 | the corrected CLAF basis is the shared camera's basis for the same angles and world up |
| CameraVariants.RotationsAgree | CLAF/camera.py:55-65 | from the same angles, offsets and sensitivity the CLAF camera and the shared camera reach the same yaw and pitch, and with the corrected front formula the same basis |
| Primitives.Flatten | CLAF/primitives.py:19-23 | the flat float list holds five floats per vertex line |
| Primitives.FlattenAt | CLAF/primitives.py:19-23 | float j of vertex k is at position 5k + j of the flat list |
| Primitives.GetTriangle | CLAF/primitives.py:18-26 | three vertices, 15 floats, valid at stride 5, and no indices |
| Primitives.GetRectangle | CLAF/primitives.py:28-41 | four vertices, 20 floats, valid at stride 5, and the indices [0, 1, 3, 1, 2, 3], whole triangles below 4 |
| Primitives.GetBox | CLAF/primitives.py:43-90 | 36 vertices, 180 floats, valid at stride 5, and no indices |
| Primitives.GetPrimitive | CLAF/primitives.py:7-15 | 0, 1 and 2 give a vertex table of whole vertices; only 1 gives indices; any other selector gives (None, None) |
| Primitives.PrimitiveShapes | CLAF/primitives.py:7-90 | the triangle has 15 floats and no indices, the rectangle 20 floats and indices [0, 1, 3, 1, 2, 3], the box 180 floats and no indices |
| Primitives.TablesValid | CLAF/primitives.py:19-86 | every vertex line of every table has position components in {-0.5, 0, 0.5} and texture coordinates in [0, 1] |
| Primitives.FlattenValid | CLAF/primitives.py:24 | a table of valid vertex lines flattens to a float list that is valid read at stride 5 |
| Primitives.PrimitivesWellFormed | CLAF/primitives.py:7-90 | every table the selector returns is valid at stride 5, and the rectangle's indices form whole triangles below its vertex count |
| Primitives.BoxFacesArePlanar | CLAF/primitives.py:44-86 | the box has 36 vertices, and in each six-vertex face block one position axis is fixed at -0.5 or 0.5 |
| Primitives.BoxFacesShareDiagonal | CLAF/primitives.py:45-85 | each face block is two triangles over one shared diagonal |
| TutorialFiles.Split | python/visualizer/utils.py:59-60 | str.split on "/" gives at least one piece and no piece contains "/" |
| TutorialFiles.JoinSplit | python/visualizer/utils.py:59-60 | joining the pieces with "/" gives back the string |
| TutorialFiles.SplitJoin | python/visualizer/utils.py:63 | splitting a join of separator-free pieces gives back the pieces |
| TutorialFiles.SplitNoSeparator | python/visualizer/utils.py:63 | a separator-free string splits into itself |
| TutorialFiles.SplitAtFirst | python/visualizer/utils.py:63 | splitting stops at the first separator |
| TutorialFiles.FromEnd | python/visualizer/utils.py:59-60 | segments[-n] is the n-th segment from the end, or IndexError when there are fewer than n |
| TutorialFiles.LastSegment | python/visualizer/utils.py:74 | the file name contains no "/" |
| TutorialFiles.JoinEndsWithLast | python/visualizer/utils.py:74 | the joined string ends with its last piece, right after a separator when there is more than one |
| TutorialFiles.LastSegmentIsFileName | python/visualizer/utils.py:74 | the file name is the tail of the path after its last "/", or the whole path when there is none |
| TutorialFiles.PrefixBefore | python/visualizer/utils.py:62 | split("content.py")[0] is the prefix of the path before the first occurrence of "content.py", or the whole path when it has none |
| TutorialFiles.Label | python/visualizer/utils.py:59-63 | the label exists exactly when the path has at least three segments; otherwise IndexError |
| TutorialFiles.LabelRoundTrip | python/visualizer/tutorial_visualizer.py:150-153 | splitting folder + "/" + chapter on "/" gives back exactly [folder, chapter] |
| TutorialFiles.LabelSplitsBack | python/visualizer/tutorial_visualizer.py:150-153 | splitting a path's label on "/" gives back exactly the path's segments [-3] and [-2] |
| TutorialFiles.GetTutorialFileList | python/visualizer/utils.py:51-65 | one directory and one label per match, in match order: directory k is abspath of the text before "content.py" and label k is the label of match k; IndexError exactly when some match has fewer than three segments |
| TutorialFiles.GetImgList | python/visualizer/utils.py:68-76 | the paths are the .jpg matches then the .png matches; the names are "None" then the file name of each path, so menu entry k >= 1 names path k - 1 |
| Vectors.Clamp | python/visualizer/camera.py:85 | glm.clamp: the result is in [lo, hi], it is x inside the range and the nearer bound outside |
| Vectors.ClampIsNearest | python/visualizer/camera.py:85 | the clamp is the nearest point of the range |
| Vectors.ClampIdempotent | python/visualizer/camera.py:85 | clamping twice is clamping once |
| Vectors.ClampByIfs | python/01_getting_started/utils.py:62-65 | the two if tests compute the clamp |

## Left out

- Windowing, input polling, drawing, shaders, textures and the GUI are not modelled; they
  are OpenGL, GLFW and imgui calls. Key states, cursor positions, scroll offsets and frame
  times enter as parameters.
- The glob calls and `os.path.join`/`os.path.abspath` are not modelled. The matches are
  parameters in glob's order, and abspath is an uninterpreted function parameter.
- The trigonometry, `normalize`, `cross` and `lookAt` are uninterpreted. The basis is
  therefore never shown to be orthonormal, only to be derived by the stated formulas from
  the current angles.
- Floating-point rounding is not modelled: values are exact reals, so "W and S cancel"
  and "a move and its opposite restore the position" hold exactly here. In float32 or
  float64 arithmetic they hold only up to rounding.
- Aliasing of mutable glm vectors is not modelled: the shared default `position` argument,
  and callers that keep a reference to `camera.position`. Cameras here are values.
- `ClafCamera.Move` is defined only on the four `CAMERA_MOVE` members. The Python
  method silently does nothing for any other argument.
- The CLAF constructor's default `up` is a tuple, not a glm vector. The model treats it
  as a vector.
- `VisualizerCamera.GetViewMatrix` and `ClafCamera.GetViewMat` carry no contract of their
  own: each is one call of the uninterpreted `lookAt`. What they promise is stated by
  `VisualizerCamera.ZoomKeepsView` for the shared camera, and by
  `ClafCamera.ZoomKeepsViewMat` and `ClafCamera.MoveShiftsView` for the CLAF camera.
- `VisualizerCamera.StepPreservesInvariants` covers translate, zoom and the mouse
  callback. `set_rotation` is excluded because it deliberately escapes the pitch limit
  (see `VisualizerCamera.SetRotationIgnoresPitchLimit`).
- The viewer calls a `set_position` method on the camera that the camera class does not
  define. No such operation is modelled.
- The constructors of the camera chapter's camera and of the getting-started camera read
  the window size through GLFW (python/01_getting_started/07_camera/content.py:239-240,
  python/01_getting_started/utils.py:24-25). `TutorialCamera.Init` and
  `GettingStartedCamera.Init` take the width and height as integer parameters instead.

## Findings

| source | as written | input that shows it | evidently intended | confidence | as-written member | corrected member |
|---|---|---|---|---|---|---|
| CLAF/camera.py:32 | front.x = cos(yaw) * cos(yaw) | yaw 0, pitch 60: x is 1 where it should be 1/2, so the camera looks too far sideways when pitched | front.x = cos(yaw) * cos(pitch), as in every other camera of the repository | high; not executed | ClafCamera.ClafFrontAtYaw0Pitch60 | ClafCamera.RotateIntended |
