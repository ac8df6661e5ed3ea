/**
 * JavaScript's Math.floor, Math.round and Math.ceil on exact reals
 * (IEEE rounding of the operands is not modelled).
 */
module JsMath {

  /** Math.floor: the largest integer not above x. */
  function Floor(x: real): (r: int)
    ensures r as real <= x < r as real + 1.0
  {
    x.Floor
  }

  /** Math.round: the nearest integer, halves rounded up (towards +infinity). */
  function Round(x: real): (r: int)
    ensures x - 0.5 < r as real <= x + 0.5
  {
    (x + 0.5).Floor
  }

  /** Math.ceil: the smallest integer not below x. */
  function Ceil(x: real): (r: int)
    ensures x <= r as real < x + 1.0
  {
    -((-x).Floor)
  }

  function Min(a: int, b: int): int {
    if a <= b then a else b
  }
}
