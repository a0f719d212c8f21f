/**
  The parts of the C math library the model does not interpret.

  exp, tanh, log and pow(x, 0.5) are kept abstract: every routine that calls them takes
  a `Libm` value holding them as functions. A `Libm` is only required to have the sign
  facts of the real functions it stands for, which is all the proofs use. pow with a
  natural exponent is exact and is defined here.
 */
module Numerics {

  datatype MathFunctions = MathFunctions(exp: real -> real, tanh: real -> real, log: real -> real, sqrt: real -> real)

  /** exp is positive, tanh lies strictly between -1 and 1, log is negative on (0, 1), and the square root of a non-negative number is non-negative */
  ghost predicate Plausible(m: MathFunctions) {
    && (forall x: real :: m.exp(x) > 0.0)
    && (forall x: real :: -1.0 < m.tanh(x) < 1.0)
    && (forall x: real :: 0.0 < x < 1.0 ==> m.log(x) < 0.0)
    && (forall x: real :: 0.0 <= x ==> m.sqrt(x) >= 0.0)
  }

  type Libm = m: MathFunctions | Plausible(m)
    witness MathFunctions(x => 1.0, x => 0.0, x => -1.0, x => 0.0)

  /** INT_MAX of a 32-bit int, as the double the library stores it in */
  const IntMax: real := 2147483647.0

  /** b raised to a natural power */
  function Pow(b: real, t: nat): real {
    if t == 0 then 1.0 else b * Pow(b, t - 1)
  }

  /** For 0 < b < 1 and t >= 1, b^t lies strictly between 0 and 1 (so 1 - b^t is a safe divisor) */
  lemma {:induction false} PowInUnitInterval(b: real, t: nat)
    requires 0.0 < b < 1.0 && t >= 1
    ensures 0.0 < Pow(b, t) < 1.0
  {
    if t > 1 {
      PowInUnitInterval(b, t - 1);
      assert Pow(b, t) == b * Pow(b, t - 1);
      assert b * Pow(b, t - 1) < Pow(b, t - 1);
    }
  }

  lemma ProductNonNegative(a: real, b: real)
    requires a >= 0.0 && b >= 0.0
    ensures a * b >= 0.0
  {
  }

  lemma SquareNonNegative(d: real)
    ensures d * d >= 0.0
  {
    if d < 0.0 {
      assert d * d == (-d) * (-d);
    }
  }

  lemma QuotientNonNegative(a: real, b: real)
    requires a >= 0.0 && b > 0.0
    ensures a / b >= 0.0
  {
  }

  lemma ZeroQuotient(b: real)
    requires b != 0.0
    ensures 0.0 / b == 0.0
  {
  }
}
