/**
 * Values shared by the lane-slide controller and the character controller:
 * an optional value, plain 2-D and 3-D vectors over the reals (the source's
 * `f32`/`Scalar` vectors without rounding) and the scalar helpers that the
 * slide step needs.
 */
module Basics {

  datatype Option<T> = None | Some(value: T)

  /** A 2-D vector, as carried by a `Move` input action. */
  datatype Vec2 = Vec2(x: real, y: real)

  /** A 3-D vector: a translation, a target or a linear velocity. */
  datatype Vec3 = Vec3(x: real, y: real, z: real)

  const Zero: Vec3 := Vec3(0.0, 0.0, 0.0)

  /** Length of a one-dimensional vector. */
  function Abs(r: real): (a: real)
    ensures a >= 0.0
    ensures a == r || a == -r
  {
    if r < 0.0 then -r else r
  }

  /**
   * `normalize_or_zero` on the real line: the unit vector pointing the same
   * way as `r`, or zero when `r` is zero.
   */
  function Sign(r: real): (s: real)
    ensures s * Abs(r) == r
    ensures Abs(s) == if r == 0.0 then 0.0 else 1.0
  {
    if r > 0.0 then 1.0 else if r < 0.0 then -1.0 else 0.0
  }

  function Max(a: real, b: real): (m: real)
    ensures m >= a && m >= b
    ensures m == a || m == b
  {
    if a >= b then a else b
  }

  function Min(a: real, b: real): (m: real)
    ensures m <= a && m <= b
    ensures m == a || m == b
  {
    if a <= b then a else b
  }
}
