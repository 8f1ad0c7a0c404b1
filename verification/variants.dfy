/**
 * How the four cameras relate: where they agree, and where they observably differ.
 */
module CameraVariants {
  import opened Vectors
  import opened Keyboard
  import VisualizerCamera
  import ClafCamera
  import TutorialCamera

  /** Exactly one of the four movement keys is down. */
  predicate SingleKey(keys: Keys)
  {
    || keys == Keys(true, false, false, false)
    || keys == Keys(false, true, false, false)
    || keys == Keys(false, false, true, false)
    || keys == Keys(false, false, false, true)
  }

  /**
   * With one key down, the shared camera and the chapter camera move to the same place,
   * given the same speed and the same unit front and right vectors.
   */
  lemma SingleKeyTranslationsAgree(m: MathLib, c: VisualizerCamera.Camera, keys: Keys, front: Vec3, up: Vec3)
    requires !VisualizerCamera.Gated(c) && SingleKey(keys)
    requires c.moveSpeed == TutorialCamera.SPEED
    requires c.front == m.normalize(front) && c.right == m.normalize(m.cross(front, up))
    ensures VisualizerCamera.Translate(c, keys).position
         == TutorialCamera.Translate(m, keys, c.position, front, up, c.deltaTime)
  {
  }

  /** With W and S both down, the shared camera stays put while the chapter camera moves. */
  lemma ForwardBackwardDiffers(m: MathLib, c: VisualizerCamera.Camera, front: Vec3, up: Vec3)
    requires !VisualizerCamera.Gated(c)
    ensures VisualizerCamera.Translate(c, Keys(true, true, false, false)).position == c.position
    ensures TutorialCamera.Translate(m, Keys(true, true, false, false), c.position, front, up, c.deltaTime)
         == Add(c.position, Scale(m.normalize(front), TutorialCamera.SPEED * c.deltaTime))
  {
  }

  /**
   * The corrected CLAF basis is the shared camera's basis for the same yaw, pitch and
   * world up.
   */
  lemma IntendedClafBasisMatchesVisualizer(m: MathLib, c: ClafCamera.Camera, v: VisualizerCamera.Camera)
    requires c.yaw == v.yaw && c.pitch == v.pitch && c.worldUp == v.worldUp
    ensures var r := ClafCamera.UpdateCameraVectorsIntended(m, c);
            var s := VisualizerCamera.UpdateCameraVectors(m, v);
            r.front == s.front && r.right == s.right && r.up == s.up
  {
  }

  /**
   * Rotating the CLAF camera and the shared camera by the same offsets, from the same
   * angles and sensitivity, gives the same yaw and pitch, and with the corrected front
   * formula the same basis: the typo is the only difference.
   */
  lemma RotationsAgree(m: MathLib, c: ClafCamera.Camera, v: VisualizerCamera.Camera,
                       xOffset: real, yOffset: real, constrainPitch: bool)
    requires !VisualizerCamera.Gated(v)
    requires c.yaw == v.yaw && c.pitch == v.pitch && c.sensitivity == v.moveSense
    requires c.worldUp == v.worldUp
    ensures var r := ClafCamera.RotateIntended(m, c, xOffset, yOffset, constrainPitch);
            var s := VisualizerCamera.Rotate(m, v, xOffset, yOffset, constrainPitch);
            && ClafCamera.Rotate(m, c, xOffset, yOffset, constrainPitch).yaw == s.yaw
            && ClafCamera.Rotate(m, c, xOffset, yOffset, constrainPitch).pitch == s.pitch
            && r.front == s.front && r.right == s.right && r.up == s.up
  {
  }
}
