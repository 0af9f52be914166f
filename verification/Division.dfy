/** Quotients and remainders by a divisor that is not a constant. */
module Division {

  lemma {:induction false} ProductMonotone(a: nat, b: nat, k: nat)
    requires a <= b
    ensures a * k <= b * k
    decreases b
  {
    if a < b {
      ProductMonotone(a, b - 1, k);
      assert b * k == (b - 1) * k + k;
    }
  }

  /** Quotient and remainder are unique. */
  lemma Unique(x: nat, q: nat, r: nat, k: nat)
    requires k > 0 && x == q * k + r && r < k
    ensures x / k == q && x % k == r
  {
    var p := x / k;
    assert x == p * k + x % k;
    assert (p + 1) * k == p * k + k && (q + 1) * k == q * k + k;
    if p < q { ProductMonotone(p + 1, q, k); }
    if q < p { ProductMonotone(q + 1, p, k); }
  }

  lemma Step(x: nat, k: nat)
    requires k > 0
    ensures (x + 1) % k == if x % k == k - 1 then 0 else x % k + 1
  {
    var q := x / k;
    assert x == q * k + x % k && (q + 1) * k == q * k + k;
    if x % k == k - 1 { Unique(x + 1, q + 1, 0, k); } else { Unique(x + 1, q, x % k + 1, k); }
  }

  /** Going on by `d`, at most to the next multiple. */
  lemma Advance(x: nat, d: nat, k: nat)
    requires k > 0 && x % k + d <= k
    ensures (x + d) / k == x / k + if x % k + d == k then 1 else 0
    ensures (x + d) % k == if x % k + d == k then 0 else x % k + d
  {
    AdvanceFrom(x / k, x % k, d, k);
    assert x == x / k * k + x % k;
  }

  lemma AdvanceFrom(q: nat, r: nat, d: nat, k: nat)
    requires r < k && r + d <= k
    ensures (q * k + r + d) / k == q + if r + d == k then 1 else 0
    ensures (q * k + r + d) % k == if r + d == k then 0 else r + d
  {
    if r + d == k {
      assert q * k + r + d == (q + 1) * k + 0;
      Unique(q * k + r + d, q + 1, 0, k);
    } else {
      Unique(q * k + r + d, q, r + d, k);
    }
  }

  lemma OfProduct(j: nat, k: nat)
    requires k > 0
    ensures (j * k) / k == j && (j * k) % k == 0
  {
    ProductMonotone(0, j, k);
    Unique(j * k, j, 0, k);
  }
}
