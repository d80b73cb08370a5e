/** The few facts about multiplication, division and remainder that the other modules need. */
module Arith {

  lemma MulLe(n: nat, a: int, b: int)
    requires a <= b
    ensures n * a <= n * b
  {}

  /** A larger factor gives a product larger by at least the other factor. */
  lemma MulLt(n: nat, a: int, b: int)
    requires a < b
    ensures n * a + n <= n * b
  {
    MulLe(n, a + 1, b);
    assert n * (a + 1) == n * a + n;
  }

  lemma DivMod(x: nat, n: nat)
    requires n > 0
    ensures x == n * (x / n) + x % n && 0 <= x % n < n && 0 <= x / n
  {}

  lemma DivModUnique(x: nat, n: nat, q: nat, r: nat)
    requires n > 0 && r < n && x == n * q + r
    ensures x / n == q && x % n == r
  {
    DivMod(x, n);
    if q > x / n {
      MulLt(n, x / n, q);
    } else if q < x / n {
      MulLt(n, q, x / n);
    }
  }

  lemma AddMultiple(x: nat, n: nat, j: nat)
    requires n > 0
    ensures (x + n * j) / n == x / n + j && (x + n * j) % n == x % n
  {
    DivMod(x, n);
    assert n * (x / n + j) == n * (x / n) + n * j;
    DivModUnique(x + n * j, n, x / n + j, x % n);
  }

  lemma Parity(a: nat, b: nat)
    ensures (a + 2 * b) % 2 == a % 2
  {}

  /** A multiple of a product is a multiple of its factor. */
  lemma FactorDivides(p: nat, n: nat, k: nat)
    requires n > 0 && k > 0 && p % (n * k) == 0
    ensures p % n == 0
  {
    DivMod(p, n * k);
    var q := p / (n * k);
    assert n * k * q == n * (k * q);
    DivModUnique(p, n, k * q, 0);
  }

  lemma PlusMultiple(p: nat, n: nat, i: nat)
    requires n > 0 && p % n == 0
    ensures (p + i * n) % n == 0
  {
    AddMultiple(p, n, i);
    assert n * i == i * n;
  }

  /** Quotients and remainders of two numbers at most `n` apart. */
  lemma CloseQuotients(a: nat, b: nat, n: nat)
    requires n > 0 && a <= b <= a + n
    ensures b / n == a / n || b / n == a / n + 1
    ensures b / n == a / n ==> b % n - a % n == b - a
    ensures b / n == a / n + 1 ==> n + b % n - a % n == b - a
  {
    DivMod(a, n);
    DivMod(b, n);
    var x, y := a / n, b / n;
    assert n * (x + 1) == n * x + n && n * (x + 2) == n * x + 2 * n;
    if y < x {
      MulLt(n, y, x);
    } else if y > x + 1 {
      MulLe(n, x + 2, y);
    }
  }

  /** An address in the cell of size `n` that starts at the multiple `p` of `n`. */
  lemma InCell(x: nat, n: nat, p: nat)
    requires n > 0 && p % n == 0 && p <= x < p + n
    ensures x / n == p / n && x - x % n == p
  {
    DivMod(p, n);
    DivModUnique(x, n, p / n, x - p);
  }

  lemma DivDiv(x: nat, n: nat, k: nat)
    requires n > 0 && k > 0
    ensures x / (n * k) == x / n / k
  {
    DivMod(x, n);
    DivMod(x / n, k);
    var q, r := x / n / k, x / n % k;
    assert n * (k * q + r) == n * k * q + n * r;
    MulLt(n, r, k);
    DivModUnique(x, n * k, q, n * r + x % n);
  }

  lemma DivBy(x: nat, n: nat, k: nat, w: nat)
    requires n > 0 && k > 0 && w == n * k
    ensures w > 0 && x / w == x / n / k
  {
    MulLe(n, 1, k);
    DivDiv(x, n, k);
  }

  function Pow2(k: nat): (r: nat)
    ensures r >= 1
  {
    if k == 0 then 1 else 2 * Pow2(k - 1)
  }

  lemma Pow2Add(a: nat, b: nat)
    ensures Pow2(a) * Pow2(b) == Pow2(a + b)
  {
    if a > 0 {
      Pow2Add(a - 1, b);
      assert 2 * Pow2(a - 1) * Pow2(b) == 2 * (Pow2(a - 1) * Pow2(b));
    }
  }

  lemma Pow2Monotone(a: nat, b: nat)
    requires a <= b
    ensures Pow2(a) <= Pow2(b)
  {}

  lemma Pow2Literal()
    ensures Pow2(6) == 64 && Pow2(31) == 0x8000_0000 && Pow2(32) == 0x1_0000_0000
  {
    assert Pow2(8) == 0x100;
    assert Pow2(16) == 0x1_0000;
    assert Pow2(24) == 0x100_0000;
  }
}
