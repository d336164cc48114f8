/**
 Share-price arithmetic of a pool holding `p` assets against `q` shares, both counted with their
 virtual offsets.  The Morpho markets, the wrapped ERC-4626 vault and the parent vault are all
 instances, so the rounding arguments are made once here.
 */
module SharePool {

  /** The price p1/q1 is at most the price p2/q2. */
  predicate PriceAtMost(p1: nat, q1: nat, p2: nat, q2: nat) {
    p1 * q2 <= p2 * q1
  }

  /** The least integer at or above the price p/q. */
  function PriceCeiling(p: nat, q: nat): (c: nat)
    requires q > 0
    ensures p <= c * q < p + q
  {
    DivBounds(p + q - 1, q);
    (p + q - 1) / q
  }

  lemma DivBounds(n: int, d: int)
    requires d > 0
    ensures n / d * d <= n < (n / d + 1) * d
  {
    assert n == n / d * d + n % d;
  }

  /** `k` is at most `n / d` as soon as its multiple fits. */
  lemma DivAtLeast(n: int, d: int, k: int)
    requires d > 0 && k * d <= n
    ensures k <= n / d
  {
    DivBounds(n, d);
  }

  lemma DivAtMost(n: int, d: int, k: int)
    requires d > 0 && n < (k + 1) * d
    ensures n / d <= k
  {
    DivBounds(n, d);
  }

  lemma DivMonotone(m: int, n: int, d: int)
    requires d > 0 && m <= n
    ensures m / d <= n / d
  {
    DivBounds(m, d);
    DivAtLeast(n, d, m / d);
  }

  lemma MulMonotone(x: int, y: int, k: int)
    requires x <= y && 0 <= k
    ensures x * k <= y * k
  {
  }

  lemma MulSum(x: int, y: int, k: int)
    ensures (x + y) * k == x * k + y * k
  {
  }

  /** A factor that divisor and dividend share cancels. */
  lemma DivCancel(n: int, d: int, k: int)
    requires d > 0 && k > 0 && d * k > 0
    ensures n * k / (d * k) == n / d
  {
    DivBounds(n, d);
    ScaledBounds(n, d, k, n / d);
    DivAtLeast(n * k, d * k, n / d);
    DivAtMost(n * k, d * k, n / d);
  }

  lemma ScaledBounds(n: int, d: int, k: int, t: int)
    requires d > 0 && k > 0 && t * d <= n < (t + 1) * d
    ensures d * k > 0 && t * (d * k) <= n * k < (t + 1) * (d * k)
  {
    MulMonotone(t * d, n, k);
    MulMonotone(n + 1, (t + 1) * d, k);
    MulSum(n, 1, k);
    MulAssociates(t, d, k);
    MulAssociates(t + 1, d, k);
    MulMonotone(1, d, k);
  }

  lemma MulCommutes(x: int, y: int)
    ensures x * y == y * x
  {
  }

  lemma MulAssociates(x: int, y: int, z: int)
    ensures x * (y * z) == x * y * z
  {
  }

  lemma MulCancel(x: int, y: int, k: int)
    requires 0 < k && x * k <= y * k
    ensures x <= y
  {
    if x > y { MulMonotone(y + 1, x, k); }
  }

  lemma PriceTransitive(p1: nat, q1: nat, p2: nat, q2: nat, p3: nat, q3: nat)
    requires q1 > 0 && q2 > 0 && q3 > 0
    requires PriceAtMost(p1, q1, p2, q2) && PriceAtMost(p2, q2, p3, q3)
    ensures PriceAtMost(p1, q1, p3, q3)
  {
    calc {
      p1 * q3 * q2;
    ==
      p1 * q2 * q3;
    <= { MulMonotone(p1 * q2, p2 * q1, q3); }
      p2 * q1 * q3;
    ==
      p2 * q3 * q1;
    <= { MulMonotone(p2 * q3, p3 * q2, q1); }
      p3 * q2 * q1;
    ==
      p3 * q1 * q2;
    }
    MulCancel(p1 * q3, p3 * q1, q2);
  }

  /** Shares minted rounding down never dilute the pool. */
  lemma DepositKeepsPrice(p: nat, q: nat, a: nat, m: nat)
    requires m * p <= a * q
    ensures PriceAtMost(p, q, p + a, q + m)
  {
    assert p * (q + m) == p * q + m * p;
    assert (p + a) * q == p * q + a * q;
  }

  /** Shares burned rounding up never dilute the pool. */
  lemma WithdrawKeepsPrice(p: nat, q: nat, a: nat, b: nat)
    requires a <= p && b <= q && a * q <= b * p
    ensures PriceAtMost(p, q, p - a, q - b)
  {
    assert p * (q - b) == p * q - b * p;
    assert (p - a) * q == p * q - a * q;
  }

  /** Fee shares `m` worth `f` assets leave the price at or above the price before the interest. */
  lemma FeeMintKeepsPrice(p: nat, q: nat, i: nat, f: nat, m: nat)
    requires f <= i && m * (p + i - f) <= f * q
    ensures PriceAtMost(p, q, p + i, q + m)
  {
    DepositKeepsPrice(p + i - f, q, f, m);
    assert (p + i - f) * (q + m) <= (p + i) * q;
    MulMonotone(p, p + i - f, q + m);
  }

  /** The same share count is never worth less at a price that has not fallen. */
  lemma ValueMonotone(s: nat, p1: nat, q1: nat, p2: nat, q2: nat)
    requires q1 > 0 && q2 > 0 && PriceAtMost(p1, q1, p2, q2)
    ensures s * p1 / q1 <= s * p2 / q2
  {
    var v := s * p1 / q1;
    DivBounds(s * p1, q1);
    assert v * q2 * q1 <= s * p2 * q1 by {
      MulMonotone(v * q1, s * p1, q2);
      MulMonotone(p1 * q2, p2 * q1, s);
      assert v * q1 * q2 == v * q2 * q1;
      assert s * p1 * q2 == (p1 * q2) * s;
      assert s * p2 * q1 == (p2 * q1) * s;
    }
    MulCancel(v * q2, s * p2, q1);
    DivAtLeast(s * p2, q2, v);
  }

  /** The new shares fall short of the assets by less than one price. */
  lemma MintShortfall(p: nat, q: nat, a: nat, m: nat, c: nat)
    requires a * q < (m + 1) * p && p <= c * q
    ensures (a - c) * (q + m) <= m * (p + a)
  {
    MulSum(m, 1, p);
    MulMonotone(q, q + m, c);
    MulSum(a - c, c, q + m);
    assert a * (q + m) == a * q + a * m;
    assert m * (p + a) == m * p + a * m;
  }

  /** A deposit costs its owner at most the ceiling of the price, whatever it held before. */
  lemma DepositLoss(s: nat, p: nat, q: nat, a: nat, m: nat)
    requires p > 0 && q > 0 && m * p <= a * q < (m + 1) * p
    ensures s * p / q + a <= (s + m) * (p + a) / (q + m) + PriceCeiling(p, q)
  {
    hide PriceAtMost, PriceCeiling;
    var v, v', c := s * p / q, s * (p + a) / (q + m), PriceCeiling(p, q);
    // The price never falls, so the old shares keep their value v.
    DepositKeepsPrice(p, q, a, m);
    ValueMonotone(s, p, q, p + a, q + m);
    DivBounds(s * (p + a), q + m);
    MulMonotone(v, v', q + m);
    MintShortfall(p, q, a, m, c);
    MulSum(v, a - c, q + m);
    MulSum(s, m, p + a);
    DivAtLeast((s + m) * (p + a), q + m, v + (a - c));
  }

  /** What the burned shares were worth exceeds the assets by less than one price. */
  lemma BurnExcess(s: nat, p: nat, q: nat, a: nat, b: nat, v: int, c: nat)
    requires b <= s && b * p < a * q + p && p <= c * q && v * q <= s * p
    ensures (v - a - c) * q <= (s - b) * p
  {
    MulSum(s - b, b, p);
    MulSum(v - a - c, a + c, q);
    MulSum(a, c, q);
  }

  /** A withdrawal costs its owner at most the ceiling of the price before it. */
  lemma WithdrawLoss(s: nat, p: nat, q: nat, a: nat, b: nat)
    requires a < p && b < q && b <= s && a * q <= b * p < a * q + p
    ensures s * p / q <= (s - b) * (p - a) / (q - b) + a + PriceCeiling(p, q)
  {
    hide PriceAtMost, PriceCeiling;
    var v, c := s * p / q, PriceCeiling(p, q);
    DivBounds(s * p, q);
    WithdrawKeepsPrice(p, q, a, b);
    ValueMonotone(s - b, p, q, p - a, q - b);
    BurnExcess(s, p, q, a, b, v, c);
    DivAtLeast((s - b) * p, q, v - a - c);
  }

  /** Pools priced at or below one stay so under deposits... */
  lemma DepositKeepsBelowOne(p: nat, q: nat, a: nat, m: nat)
    requires 0 < p <= q && a * q < (m + 1) * p
    ensures a <= m && p + a <= q + m
  {
    MulMonotone(p, q, a);
    if m < a { MulMonotone(m + 1, a, p); }
  }

  /** ... and under withdrawals. */
  lemma WithdrawKeepsBelowOne(p: nat, q: nat, a: nat, b: nat)
    requires 0 < p <= q && a <= p && b <= q && b * p < a * q + p
    ensures p - a <= q - b
  {
    // b is the ceiling of a*q/p, and q - a*q/p == (p-a)*q/p >= p - a.
    MulMonotone(p, q, p - a);
    assert (p - a) * p <= (p - a) * q;
    assert (p - a) * q == p * q - a * q;
    assert (q - b) * p == q * p - b * p;
    assert (p - a) * p < (q - b + 1) * p by { assert (q - b + 1) * p == (q - b) * p + p; }
    if q - b < p - a { MulMonotone(q - b + 1, p - a, p); }
  }
}
