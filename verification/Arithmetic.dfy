/** Facts about products and truncating quotients. */
module Arithmetic {

  lemma MulMonotone(x: nat, y: nat, d: nat)
    requires x <= y
    ensures x * d <= y * d
  {
  }

  lemma QuotientBounds(a: nat, d: nat)
    requires d > 0
    ensures a / d * d <= a < (a / d + 1) * d
  {
  }

  lemma QuotientBelow(a: nat, d: nat, n: nat)
    requires d > 0
    ensures a / d < n <==> a < n * d
  {
    QuotientBounds(a, d);
    if a / d < n {
      MulMonotone(a / d + 1, n, d);
    } else {
      MulMonotone(n, a / d, d);
    }
  }

  lemma QuotientBetween(a: nat, d: nat, lo: nat, hi: nat)
    requires d > 0 && lo * d <= a <= hi * d
    ensures lo <= a / d <= hi
  {
    QuotientBelow(a, d, lo);
    QuotientBelow(a, d, hi + 1);
  }
}
