/** Integer facts the tiling arithmetic rests on. */
module IntMath {

  function Pow2(n: nat): (r: nat)
    ensures r >= 1
  {
    if n == 0 then 1 else 2 * Pow2(n - 1)
  }

  lemma MulMonotone(m: nat, a: int, b: int)
    requires a <= b
    ensures m * a <= m * b
  {
    assert m * b - m * a == m * (b - a);
  }

  /** `k * d <= a` gives `k <= a / d`. */
  lemma DivAtLeast(a: nat, d: nat, k: int)
    requires d > 0 && k * d <= a
    ensures k <= a / d
  {
    var q, r := a / d, a % d;
    assert a == q * d + r && r < d;
    if q < k {
      MulMonotone(d, q + 1, k);
      assert false;
    }
  }

  /** `a <= k * d` gives `a / d <= k`. */
  lemma DivAtMost(a: nat, d: nat, k: int)
    requires d > 0 && a <= k * d
    ensures a / d <= k
  {
    var q, r := a / d, a % d;
    assert a == q * d + r && 0 <= r;
    if q > k {
      MulMonotone(d, k + 1, q);
      assert false;
    }
  }
}
