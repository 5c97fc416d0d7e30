/**
 * The value types the demos share: OpenTK's `Vector3` and `Color4` structs,
 * with their single-precision components modelled as reals.
 */
module Geometry {

  /** A 3D point or displacement (OpenTK `Vector3`). */
  datatype Vec3 = Vec3(x: real, y: real, z: real)

  /** An RGBA colour (OpenTK `Color4`). */
  datatype Color4 = Color4(r: real, g: real, b: real, a: real)

  const Zero: Vec3 := Vec3(0.0, 0.0, 0.0)

  /** `Color4.CornflowerBlue`, the byte colour (100, 149, 237, 255) scaled to [0, 1]. */
  const CornflowerBlue: Color4 := Color4(100.0 / 255.0, 149.0 / 255.0, 237.0 / 255.0, 1.0)

  function Min(a: real, b: real): (m: real)
    ensures m <= a && m <= b && (m == a || m == b)
  {
    if a <= b then a else b
  }

  function Max(a: real, b: real): (m: real)
    ensures m >= a && m >= b && (m == a || m == b)
  {
    if a >= b then a else b
  }

  /** The sum of a sequence of reals. */
  function Sum(s: seq<real>): real
  {
    if s == [] then 0.0 else s[0] + Sum(s[1..])
  }
}
