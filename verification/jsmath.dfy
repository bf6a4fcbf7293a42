/** JavaScript's `Math.round` and `Math.ceil` on exact reals.

    `Math.round(x)` is the integer closest to `x`, ties going towards
    positive infinity (so `Math.round(-2.5) == -2`); that is exactly
    `floor(x + 0.5)`. Binary floating-point artefacts are not modelled. */
module JsMath {

  function Round(x: real): (n: int)
    ensures x - 0.5 < n as real <= x + 0.5
  {
    (x + 0.5).Floor
  }

  function Ceil(x: real): (n: int)
    ensures x <= n as real < x + 1.0
  {
    -((-x).Floor)
  }

  /** Rounding an integer-valued real gives that integer back. */
  lemma RoundOfInt(k: int)
    ensures Round(k as real) == k
  {
  }

  lemma RoundMonotone(x: real, y: real)
    requires x <= y
    ensures Round(x) <= Round(y)
  {
  }
}
