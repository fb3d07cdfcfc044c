/**
 * Math.Round(x, 3): rounding to three decimal places, a tie going to the even
 * neighbour (.NET's default MidpointRounding.ToEven), over exact reals.
 */
module Rounding {

  /** Round half to even on the integer grid. */
  function RoundToEven(s: real): (k: int)
  {
    var n := s.Floor;
    var frac := s - n as real;
    if frac < 0.5 then n
    else if frac > 0.5 then n + 1
    else if n % 2 == 0 then n
    else n + 1
  }

  /** Math.Round(x, 3). */
  function Round3(x: real): real
  {
    RoundToEven(x * 1000.0) as real / 1000.0
  }

  /** Rounding to the nearest integer moves a value by at most one half. */
  lemma RoundToEvenError(s: real)
    ensures -0.5 <= RoundToEven(s) as real - s <= 0.5
    ensures RoundToEven(s) % 2 != 0 ==> RoundToEven(s) as real - s != 0.5 && s - RoundToEven(s) as real != 0.5
  {
  }

  /** Rounding to three decimals moves a value by at most half a thousandth. */
  lemma Round3Error(x: real)
    ensures -0.0005 <= Round3(x) - x <= 0.0005
  {
  }

  /** A value with at most three decimals is left as it is. */
  lemma Round3OnGrid(k: int)
    ensures Round3(k as real / 1000.0) == k as real / 1000.0
  {
  }

  /** So rounding twice is rounding once. */
  lemma Round3Idempotent(x: real)
    ensures Round3(Round3(x)) == Round3(x)
  {
  }

  /** For example, 1.23456 becomes 1.235 and 2.34567 becomes 2.346. */
  lemma Round3Examples()
    ensures Round3(1.23456) == 1.235
    ensures Round3(2.34567) == 2.346
  {
  }

  /** Ties go to the even neighbour: 0.0125 becomes 0.012 and 0.0135 becomes 0.014. */
  lemma Round3Ties()
    ensures Round3(0.0125) == 0.012
    ensures Round3(0.0135) == 0.014
  {
  }
}
