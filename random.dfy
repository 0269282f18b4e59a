/** Math.random() is outside the model: each value a page draws from it is
    a parameter, constrained to the range Math.random() returns. */
module Draws {
  /** A value Math.random() can return. */
  predicate IsDraw(r: real) {
    0.0 <= r < 1.0
  }
}
