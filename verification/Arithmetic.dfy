/** Products, quotients and remainders with variable operands. */
module Arithmetic {

  lemma MulMonotone(x: int, y: int, z: int)
    requires x <= y && 0 <= z
    ensures x * z <= y * z
  {
    assert (y - x) * z == y * z - x * z;
  }

  /** Fewer steps of one width cover less ground. */
  lemma FewerSteps(k: nat, n: int, width: int)
    requires 1 <= n && 0 <= n * width && k * width < n * width
    ensures k < n
  {
    if n <= k && 0 <= width {
      MulMonotone(n, k, width);
    }
  }

  /** The quotient and the remainder are determined by the division equation. */
  lemma DivModUnique(x: int, k: int, q: int, r: int)
    requires 1 <= k && 0 <= r < k && x == q * k + r
    ensures x / k == q && x % k == r
  {
    var q', r' := x / k, x % k;
    assert x == k * q' + r' && 0 <= r' < k;
    assert (q' - q) * k == r - r' by {
      assert (q' - q) * k == q' * k - q * k;
    }
    if 1 <= q' - q {
      MulMonotone(1, q' - q, k);
    } else if q' - q <= -1 {
      MulMonotone(1, q - q', k);
    }
  }

  /** Counting one further raises the quotient exactly at the multiples of `k`. */
  lemma DivStep(x: int, k: int)
    requires 1 <= k
    ensures (x + 1) / k == x / k + if (x + 1) % k == 0 then 1 else 0
  {
    var q, r := x / k, x % k;
    if r + 1 < k {
      DivModUnique(x + 1, k, q, r + 1);
    } else {
      assert (q + 1) * k == q * k + k;
      DivModUnique(x + 1, k, q + 1, 0);
    }
  }

  /** `x` leaves remainder `p` exactly when `x + k - p` is a multiple of `k`. */
  lemma ModShift(x: int, k: int, p: int)
    requires 0 <= p < k
    ensures (x + k - p) % k == 0 <==> x % k == p
  {
    var q, r := x / k, x % k;
    var d := if p <= r then r - p else r - p + k;
    var c := if p <= r then q + 1 else q;
    assert (q + 1) * k == q * k + k;
    DivModUnique(x + k - p, k, c, d);
  }

  function CeilDiv(m: nat, k: int): int
    requires 1 <= k
  {
    (m + k - 1) / k
  }

  lemma CeilDivIs(m: nat, k: int)
    requires 1 <= k
    ensures CeilDiv(m, k) == m / k + if m % k == 0 then 0 else 1
  {
    var a, b := m / k, m % k;
    assert (a + 1) * k == a * k + k;
    if b == 0 {
      DivModUnique(m + k - 1, k, a, k - 1);
    } else {
      DivModUnique(m + k - 1, k, a + 1, b - 1);
    }
  }

  /** A stretch of `m` numbers raises the quotient by `m / k`, rounded one way or the other. */
  lemma DivSpan(x: int, m: nat, k: int)
    requires 1 <= k
    ensures m / k <= (x + m) / k - x / k <= CeilDiv(m, k)
  {
    var q, r := x / k, x % k;
    var a, b := m / k, m % k;
    CeilDivIs(m, k);
    assert (q + a) * k == q * k + a * k && (q + a + 1) * k == q * k + a * k + k;
    if r + b < k {
      DivModUnique(x + m, k, q + a, r + b);
    } else {
      DivModUnique(x + m, k, q + a + 1, r + b - k);
    }
  }

  /** `n` shares between `floor` and `ceil` each, and one more. */
  lemma OneMoreShare(n: int, sum: int, share: int, floor: int, ceil: int)
    requires n * floor <= sum <= n * ceil && floor <= share <= ceil
    ensures (n + 1) * floor <= sum + share <= (n + 1) * ceil
  {
    assert (n + 1) * floor == n * floor + floor && (n + 1) * ceil == n * ceil + ceil;
  }
}
