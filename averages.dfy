/** The mean sale price both engines report at the end of an auction. */
module Averages {

  /** `total / count if count else 0`, as a Python float. */
  function AveragePrice(total: int, n: nat): (r: real)
    ensures n == 0 ==> r == 0.0
    ensures n > 0 ==> r * n as real == total as real
  {
    if n > 0 then total as real / n as real else 0.0
  }
}
