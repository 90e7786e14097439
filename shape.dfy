/** Geometry shared by the player and the blocks (src/shape.rs). */
module Shapes {

  /** A pair of reals; the source uses it for a rectangle's size. */
  datatype Vec2 = Vec2(x: real, y: real)

  /** Both components equal to `v` (the source's `Vec2::splat`). */
  function Splat(v: real): (s: Vec2)
    ensures s.x == v && s.y == v
  {
    Vec2(v, v)
  }

  /**
   * An axis-aligned rectangle with its top-left corner at (x, y) and the
   * y axis pointing down (larger y is deeper). The colour the source stores
   * is presentation only and is not modelled. f32 coordinates are modelled
   * as exact reals.
   */
  datatype Shape = Shape(size: Vec2, x: real, y: real)
}
