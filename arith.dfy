/** A fact about integer multiplication that the rate bands rely on. */
module Arith {
  /** Multiplying by the same natural number keeps the order. */
  lemma MultiplyMonotone(a: nat, c: nat, k: nat)
    requires a <= c
    ensures a * k <= c * k
  {
  }
}
