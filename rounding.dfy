/** Mathf.RoundToInt over the reals: the nearest integer, with halves going to
    the even neighbour (banker's rounding, as System.Math.Round does). */
module Rounding {

  function RoundToInt(x: real): (r: int)
    ensures x - 0.5 <= r as real <= x + 0.5
    ensures r as real == x - 0.5 || r as real == x + 0.5 ==> r % 2 == 0
  {
    var f := x.Floor;
    var frac := x - f as real;
    if frac < 0.5 then f
    else if frac > 0.5 then f + 1
    else if f % 2 == 0 then f
    else f + 1
  }

  /** The two properties above fix the result: any integer within one half of
      x, and even on a tie, is RoundToInt(x). */
  lemma RoundToIntUnique(x: real, n: int)
    requires x - 0.5 <= n as real <= x + 0.5
    requires n as real == x - 0.5 || n as real == x + 0.5 ==> n % 2 == 0
    ensures n == RoundToInt(x)
  {
  }

  lemma RoundToIntOfInt(n: int)
    ensures RoundToInt(n as real) == n
  {
    RoundToIntUnique(n as real, n);
  }

  lemma RoundToIntMonotone(x: real, y: real)
    requires x <= y
    ensures RoundToInt(x) <= RoundToInt(y)
  {
  }
}
