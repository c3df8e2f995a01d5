/** Integer facts the layout computations need: monotone products, unique division, halving. */
module Arith {

  lemma {:induction false} MulMonotone(a: int, b: int, c: nat)
    requires a <= b
    ensures a * c <= b * c
    decreases b - a
  {
    if a < b {
      MulMonotone(a, b - 1, c);
      assert b * c == (b - 1) * c + c;
    }
  }

  /** Euclidean division is unique: `y * d + x` with `0 <= x < d` has quotient `y` and remainder `x`. */
  lemma DivModOf(k: nat, d: nat, x: nat, y: nat)
    requires 0 <= x < d && k == y * d + x
    ensures k % d == x && k / d == y
  {
    var q, r := k / d, k % d;
    assert k == q * d + r;
    if y > q {
      assert (q + 1) * d == q * d + d;
      MulMonotone(q + 1, y, d);
    } else if y < q {
      assert (y + 1) * d == y * d + d;
      MulMonotone(y + 1, q, d);
    }
  }

  function Pow2(k: nat): (r: nat)
    ensures r >= 1
  {
    if k == 0 then 1 else 2 * Pow2(k - 1)
  }

  /** Halving `k` times with floor division is dividing by 2^k. */
  lemma HalveStep(w: nat, k: nat)
    ensures (w / Pow2(k)) / 2 == w / Pow2(k + 1)
  {
    var p := Pow2(k);
    assert Pow2(k + 1) == 2 * p;
    HalveBy(w, p);
  }

  lemma HalveBy(w: nat, p: nat)
    requires p >= 1
    ensures (w / p) / 2 == w / (2 * p)
  {
    var q, r := w / p, w % p;
    var q2, r2 := q / 2, q % 2;
    assert w == q * p + r;
    assert q == q2 * 2 + r2;
    assert q * p == q2 * (2 * p) + r2 * p by {
      Distribute(q2 * 2, r2, p);
      assert q2 * 2 * p == q2 * (2 * p);
    }
    assert r2 * p <= p by {
      MulMonotone(r2, 1, p);
    }
    DivModOf(w, 2 * p, r2 * p + r, q2);
  }

  lemma Distribute(a: int, b: int, c: int)
    ensures (a + b) * c == a * c + b * c
  {
  }

  /** `c` columns of `(n + c - 1) / c` rows hold `n` cells. */
  lemma CeilDivCovers(n: nat, c: nat)
    requires c > 0
    ensures c * ((n + c - 1) / c) >= n
  {
    var q := (n + c - 1) / c;
    assert n + c - 1 == q * c + (n + c - 1) % c;
    assert c * q == q * c;
  }

  /** When `c * c >= n`, the row count `(n + c - 1) / c` is at most `c`. */
  lemma CeilDivAtMost(n: nat, c: nat)
    requires c > 0 && c * c >= n
    ensures (n + c - 1) / c <= c
  {
    var q := (n + c - 1) / c;
    assert n + c - 1 == q * c + (n + c - 1) % c;
    assert (c + 1) * c == c * c + c;
    if q > c {
      MulMonotone(c + 1, q, c);
    }
  }

  /** Every index below `n` has a row index below the row count. */
  lemma QuotientBelow(k: nat, n: nat, c: nat)
    requires c > 0 && k < n
    ensures k / c < (n + c - 1) / c
  {
    var d := k / c;
    var q := (n + c - 1) / c;
    assert k == d * c + k % c;
    CeilDivCovers(n, c);
    assert c * q == q * c;
    if d >= q {
      MulMonotone(q, d, c);
    }
  }

  /** Dividing by a positive number never makes a natural number larger. */
  lemma DivAtMost(w: nat, p: nat)
    requires p >= 1
    ensures w / p <= w
  {
    var q := w / p;
    assert w == q * p + w % p;
    MulMonotone(1, p, q);
  }

  /** The floor quotient times the divisor lands in the divisor-wide window ending at the dividend. */
  lemma FloorDivBetween(a: nat, c: nat)
    requires c > 0
    ensures (a / c) * c <= a < (a / c + 1) * c
  {
    var q := a / c;
    assert a == q * c + a % c;
    assert (q + 1) * c == q * c + c;
  }

  /** Floor division by a positive number, with its bound. */
  function DivBy(a: nat, p: nat): (r: nat)
    requires p >= 1
    ensures r <= a
  {
    DivAtMost(a, p);
    a / p
  }

  /** Halving a positive number at least once makes it smaller. */
  lemma HalvedIsSmaller(w: nat, k: nat)
    requires w > 0 && k > 0
    ensures w / Pow2(k) < w
  {
    var p := Pow2(k);
    assert p >= 2;
    var q := w / p;
    assert w == q * p + w % p;
    MulMonotone(2, p, q);
    if q > 0 {
      assert q * 2 > q;
    }
  }
}
