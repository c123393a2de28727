/** Python's conversions from real numbers to integers. */
module Rounding {

  /** `round`: to the nearest integer, halves to the even neighbour. */
  function RoundHalfEven(r: real): int {
    var f := r.Floor;
    var d := r - f as real;
    if d < 0.5 then f else if d > 0.5 then f + 1 else if f % 2 == 0 then f else f + 1
  }

  /** No integer is nearer. */
  lemma RoundIsNearest(r: real)
    ensures -0.5 <= RoundHalfEven(r) as real - r <= 0.5
    ensures r == r.Floor as real ==> RoundHalfEven(r) as real == r
    ensures r - r.Floor as real == 0.5 ==> RoundHalfEven(r) % 2 == 0
  {
  }

  /** `-(-r // 1)` */
  function Ceil(r: real): int { -((-r).Floor) }

  lemma CeilIs(r: real)
    ensures r <= Ceil(r) as real < r + 1.0
  {
  }

  lemma CeilKeepsOrder(a: real, b: real)
    requires a <= b
    ensures Ceil(a) <= Ceil(b)
  {
  }
}
