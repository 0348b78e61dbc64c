/** Small facts about multiplication and floor division of naturals, kept out of the solver's way. */
module Arithmetic {

  lemma MulLe(a: nat, b: nat, k: nat)
    requires a <= b
    ensures a * k <= b * k
  {
  }

  lemma MulOrder(a: nat, b: nat, k: nat)
    ensures a <= b ==> a * k <= b * k
  {
  }

  lemma MulLeCancel(a: nat, b: nat, k: nat)
    requires k > 0 && a * k <= b * k
    ensures a <= b
  {
    assert a > b ==> a * k - b * k == (a - b) * k;
  }

  /** `q <= n / d` follows from `q * d <= n`. */
  lemma DivAtLeast(q: nat, n: nat, d: nat)
    requires d > 0 && q * d <= n
    ensures q <= n / d
  {
    var r := n / d;
    assert r * d + n % d == n && n % d < d;
    assert (r + 1) * d == r * d + d;
    MulOrder(r + 1, q, d);
  }

  /** `n / d < bound` follows from `n < d * bound`. */
  lemma DivBelow(n: nat, d: nat, bound: nat)
    requires d > 0 && n < d * bound
    ensures n / d < bound
  {
    var r := n / d;
    assert r * d + n % d == n;
    MulOrder(bound, r, d);
  }

  lemma DivMonotone(x: nat, y: nat, d: nat)
    requires d > 0 && x <= y
    ensures x / d <= y / d
  {
    assert (x / d) * d <= x;
    DivAtLeast(x / d, y, d);
  }

  lemma DivExact(k: nat, d: nat)
    requires d > 0
    ensures (k * d) / d == k
  {
    DivAtLeast(k, k * d, d);
    DivBelow(k * d, d, k + 1);
  }
}
