/**
 * Randomness. The generator draws from Go's math/rand. The model never
 * simulates a random source: every draw is a parameter, and every property is
 * stated for all draws.
 */
module Rand {
  /**
   * rand.Intn(n): some value in [0, n). The model receives the raw draw and
   * reduces it into range, so any natural number is a legal draw.
   */
  function Intn(draw: nat, n: int): (r: int)
    requires n > 0
    ensures 0 <= r < n
    ensures draw < n ==> r == draw
  {
    draw % n
  }

  /** rand.Float64(): a draw in [0, 1). */
  predicate IsFloat64(u: real) {
    0.0 <= u < 1.0
  }
}
