/** Exact arithmetic on the discount fractions applied to prices and totals. */
module Fractions {

  /**
   * Reducing a non-negative amount by a fraction in [0, 1] keeps it between 0
   * and the amount.
   */
  lemma ReducedWithin(amount: real, fraction: real)
    ensures 0.0 <= amount && 0.0 <= fraction <= 1.0 ==> 0.0 <= amount * (1.0 - fraction) <= amount
  {
  }
}
