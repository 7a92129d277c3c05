/** Rounding to the nearest whole number, halves away from zero. */
module Rounding {
  import opened RealAlgebra

  function Round(x: real): int {
    if x < 0.0 then -((0.5 - x).Floor) else (x + 0.5).Floor
  }

  lemma RoundIsNearest(x: real)
    ensures Abs(Round(x) as real - x) <= 0.5
    ensures 0.0 <= x ==> 0 <= Round(x)
    ensures x <= 0.0 ==> Round(x) <= 0
  {
  }

  /** Which numbers round to n: from halves on, away from zero. */
  lemma RoundExactly(x: real, n: int)
    ensures 0.0 <= x ==> (Round(x) == n <==> n as real - 0.5 <= x < n as real + 0.5)
    ensures x <= 0.0 ==> (Round(x) == n <==> n as real - 0.5 < x <= n as real + 0.5)
  {
  }

  lemma RoundOfWhole(x: real, n: int)
    requires x == n as real
    ensures Round(x) == n
  {
  }

  lemma RoundStaysInRange(x: real, n: int)
    requires 0 <= n && -(n as real) <= x <= n as real
    ensures -n <= Round(x) <= n
    ensures x == n as real ==> Round(x) == n
    ensures x == -(n as real) ==> Round(x) == -n
  {
  }
}
