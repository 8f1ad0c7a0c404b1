/**
 * The slice of glm (and numpy) the cameras use. Vector arithmetic is exact over `real`;
 * the trigonometry, `normalize`, `cross` and `lookAt` are left uninterpreted: every camera
 * operation receives them as a `MathLib` value and the model assumes nothing about them.
 */
module Vectors {

  datatype Vec3 = Vec3(x: real, y: real, z: real)

  /** `glm.vec3()`: the zero vector. */
  const Zero := Vec3(0.0, 0.0, 0.0)

  function Add(a: Vec3, b: Vec3): Vec3
  {
    Vec3(a.x + b.x, a.y + b.y, a.z + b.z)
  }

  function Sub(a: Vec3, b: Vec3): Vec3
  {
    Vec3(a.x - b.x, a.y - b.y, a.z - b.z)
  }

  /** `v * k` and `k * v` for a vec3 `v` and a scalar `k`. */
  function Scale(v: Vec3, k: real): Vec3
  {
    Vec3(v.x * k, v.y * k, v.z * k)
  }

  /** A 4x4 matrix as glm returns it, row after row. */
  datatype Mat4 = Mat4(entries: seq<real>)

  /** The numerical library: uninterpreted functions chosen by the caller. */
  datatype MathLib = MathLib(
    sin: real -> real,
    cos: real -> real,
    radians: real -> real,
    normalize: Vec3 -> Vec3,
    cross: (Vec3, Vec3) -> Vec3,
    lookAt: (Vec3, Vec3, Vec3) -> Mat4)

  /**
   * The unnormalised look direction for Euler angles in degrees, as every camera but the
   * CLAF one writes it: (cos yaw * cos pitch, sin pitch, sin yaw * cos pitch).
   */
  function FrontDirection(m: MathLib, yaw: real, pitch: real): Vec3
  {
    Vec3(m.cos(m.radians(yaw)) * m.cos(m.radians(pitch)),
         m.sin(m.radians(pitch)),
         m.sin(m.radians(yaw)) * m.cos(m.radians(pitch)))
  }

  function Abs(x: real): real
  {
    if x < 0.0 then -x else x
  }

  /** `glm.clamp(x, lo, hi)` and `np.clip(x, lo, hi)`: the point of [lo, hi] nearest to x. */
  function Clamp(x: real, lo: real, hi: real): (r: real)
    requires lo <= hi
    ensures lo <= r <= hi
    ensures lo <= x <= hi ==> r == x
    ensures x < lo ==> r == lo
    ensures hi < x ==> r == hi
  {
    if x < lo then lo else if hi < x then hi else x
  }

  /** No point of [lo, hi] is closer to x than Clamp(x, lo, hi). */
  lemma ClampIsNearest(x: real, lo: real, hi: real, y: real)
    requires lo <= hi
    requires lo <= y <= hi
    ensures Abs(Clamp(x, lo, hi) - x) <= Abs(y - x)
  {
  }

  /** Clamping is idempotent: a clamped value is its own clamp. */
  lemma ClampIdempotent(x: real, lo: real, hi: real)
    requires lo <= hi
    ensures Clamp(Clamp(x, lo, hi), lo, hi) == Clamp(x, lo, hi)
  {
  }

  /**
   * The two-`if` form `if p > hi: p = hi` then `if p < lo: p = lo`, as one of the
   * getting-started cameras writes its pitch limit.
   */
  function ClampByIfs(p: real, lo: real, hi: real): (r: real)
    requires lo <= hi
    ensures r == Clamp(p, lo, hi)
  {
    var capped := if p > hi then hi else p;
    if capped < lo then lo else capped
  }
}
