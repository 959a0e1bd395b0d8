/** Integer arithmetic as C++ performs it on `int`, where it differs from Dafny's. */
module CppArith {

  /** `std::abs` on an int (overflow at INT_MIN is not modelled). */
  function Abs(x: int): (r: nat)
    ensures r == x || r == -x
  {
    if x < 0 then -x else x
  }

  /**
   * C++ `a / b` for a positive divisor: the quotient is truncated toward zero,
   * so the remainder takes the sign of the dividend (Dafny's `/` is Euclidean).
   */
  function TruncDiv(a: int, b: int): (q: int)
    requires b > 0
    ensures a >= 0 ==> 0 <= a - q * b < b
    ensures a < 0 ==> -b < a - q * b <= 0
  {
    if a >= 0 then a / b else -((-a) / b)
  }
}
