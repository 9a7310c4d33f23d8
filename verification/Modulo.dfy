/** The few facts about remainders that sequence numbers need. */
module Modulo {

  lemma ModOf(m: nat, q: nat, r: nat)
    requires r < m
    ensures (m * q + r) % m == r
  {
    var n := m * q + r;
    var k, t := n / m, n % m;
    assert m * q + r == m * k + t;
    if k != q {
      assert m * (q - k) == t - r by { assert m * (q - k) == m * q - m * k; }
      if k < q {
        MulAtLeast(m, q - k);
      } else {
        assert m * (k - q) == r - t by { assert m * (k - q) == m * k - m * q; }
        MulAtLeast(m, k - q);
      }
    }
  }

  lemma MulAtLeast(m: nat, k: nat)
    requires 1 <= k
    ensures m <= m * k
  {
    if 1 < k {
      MulAtLeast(m, k - 1);
      assert m * k == m * (k - 1) + m;
    }
  }

  lemma ModSmall(m: nat, i: nat)
    requires i < m
    ensures i % m == i
  {
  }

  lemma SubtractModulus(m: nat, i: nat)
    requires 0 < m <= i
    ensures i % m == (i - m) % m
  {
    var q, r := (i - m) / m, (i - m) % m;
    assert i - m == m * q + r;
    assert i == m * (q + 1) + r;
    ModOf(m, q + 1, r);
  }

  lemma {:induction false} SuccMod(m: nat, i: nat)
    requires 0 < m
    ensures (i % m + 1) % m == (i + 1) % m
  {
    if i < m {
      ModSmall(m, i);
    } else {
      SubtractModulus(m, i);
      SubtractModulus(m, i + 1);
      SuccMod(m, i - m);
    }
  }

  /** Congruent numbers less than the modulus apart are equal. */
  lemma {:induction false} CloseCongruent(m: nat, i: nat, j: nat)
    requires 0 < m && i <= j < i + m && i % m == j % m
    ensures i == j
  {
    if m <= i {
      SubtractModulus(m, i);
      SubtractModulus(m, j);
      CloseCongruent(m, i - m, j - m);
    } else if m <= j {
      SubtractModulus(m, j);
      ModSmall(m, j - m);
      ModSmall(m, i);
    }
  }
}
