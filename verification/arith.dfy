/** Facts about Dafny's integer division used by the models. With a positive
    divisor Dafny's `/` and `%` agree with Python's `//` and `%`. */
module Arith {

  lemma MulMono(k: int, d: int)
    requires k >= 1 && d > 0
    ensures k * d >= d
  {
    assert k * d == (k - 1) * d + d;
  }

  /** Quotient and remainder are the unique pair with `a == q * d + r` and `0 <= r < d`. */
  lemma DivModUnique(a: int, d: int, q: int, r: int)
    requires d > 0 && a == q * d + r && 0 <= r < d
    ensures a / d == q && a % d == r
  {
    var q0, r0 := a / d, a % d;
    assert a == q0 * d + r0;
    if q0 < q {
      assert (q - q0) * d == r0 - r;
      MulMono(q - q0, d);
    } else if q < q0 {
      assert (q0 - q) * d == r - r0;
      MulMono(q0 - q, d);
    }
  }

  lemma ModSub(j: int, m: int)
    requires m > 0
    ensures (j - m) % m == j % m
  {
    var q, r := j / m, j % m;
    assert j - m == (q - 1) * m + r;
    DivModUnique(j - m, m, q - 1, r);
  }

  lemma ModSmall(j: int, m: int)
    requires 0 <= j < m
    ensures j % m == j && j / m == 0
  {
    DivModUnique(j, m, 0, j);
  }

  /** Flooring twice by `p` and by 2 is flooring once by `2 * p`. */
  lemma DivDiv(a: int, p: int)
    requires p > 0
    ensures (a / p) / 2 == a / (p * 2)
  {
    var q, r := a / p, a % p;
    var q2, r2 := q / 2, q % 2;
    assert a == q * p + r;
    assert q == q2 * 2 + r2;
    assert a == q2 * (p * 2) + (r2 * p + r) by {
      assert q * p == (q2 * 2 + r2) * p == q2 * (p * 2) + r2 * p;
    }
    assert 0 <= r2 * p + r < p * 2 by {
      assert r2 == 0 || r2 == 1;
    }
    DivModUnique(a, p * 2, q2, r2 * p + r);
  }

  lemma RowMajorBound(i: int, n: int, a: int, k: int)
    requires 0 <= i < k && 0 <= a < n
    ensures 0 <= i * n + a < k * n
  {
    assert i * n <= (k - 1) * n by {
      assert (k - 1) * n - i * n == (k - 1 - i) * n;
      assert (k - 1 - i) * n >= 0;
    }
    assert (k - 1) * n + n == k * n;
  }

  /** The quotient is 0 exactly below the divisor and 1 exactly from it to below twice it. */
  lemma DivIsZeroOrOne(a: int, d: int)
    requires a >= 0 && d > 0
    ensures a / d == 0 <==> a < d
    ensures a / d == 1 <==> d <= a < 2 * d
  {
    if a < d {
      DivModUnique(a, d, 0, a);
    } else if a < 2 * d {
      DivModUnique(a, d, 1, a - d);
    }
  }

  /** A row-major index below `k * n` lies in one of the first `k` rows. */
  lemma RowOfIndex(j: int, n: int, k: int)
    requires n > 0 && 0 <= j < k * n
    ensures 0 <= j / n < k && j == (j / n) * n + j % n && 0 <= j % n < n
  {
  }
}
