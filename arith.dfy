/** Sign facts about products, which the solver's linear arithmetic does not
    derive on its own. */
module Arith {

  lemma MulNonNegative(a: int, b: int)
    requires a >= 0 && b >= 0
    ensures a * b >= 0
  {
  }

  lemma MulNonPositive(a: int, b: int)
    requires a >= 0 && b <= 0
    ensures a * b <= 0
  {
    MulNonNegative(a, -b);
  }

  /** The sign of a product whose first factor is positive follows the
      second factor, and the product grows by a at least once per unit. */
  lemma MulSign(a: int, b: int)
    requires a >= 1
    ensures b >= 1 ==> a * b >= a
    ensures b <= -1 ==> a * b <= -a
    ensures b == 0 ==> a * b == 0
  {
    if b >= 1 {
      MulNonNegative(a, b - 1);
    } else if b <= -1 {
      MulNonPositive(a, b + 1);
    }
  }

  /** One factor less is one copy of the other factor less. */
  lemma MulPred(a: int, b: int)
    ensures (a - 1) * b + b == a * b
    ensures b * (a - 1) + b == b * a
  {
  }
}
