/** The System.Numerics vector both the sprite submission and the effect parameters take. */
module Numerics {

  /** System.Numerics.Vector2, with `real` for `float`. */
  datatype Vector2 = Vector2(X: real, Y: real)
}
