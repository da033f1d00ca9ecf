/** Facts about remainders with a variable modulus, which the rotation of devices is built on. */
module Modulo {

  lemma MulNonNeg(a: nat, n: nat)
    ensures 0 <= a * n
  {
  }

  lemma MulSplit(a: int, b: int, n: int)
    ensures (a + b) * n == a * n + b * n
  {
  }

  lemma QuotientUnique(x: nat, q: nat, r: nat, q': nat, r': nat, n: nat)
    requires x == q * n + r && r < n && x == q' * n + r' && r' < n
    ensures q == q' && r == r'
  {
    if q > q' {
      MulSplit(q', q - q' - 1 + 1, n);
      MulSplit(q - q' - 1, 1, n);
      MulNonNeg(q - q' - 1, n);
    }
    if q < q' {
      MulSplit(q, q' - q - 1 + 1, n);
      MulSplit(q' - q - 1, 1, n);
      MulNonNeg(q' - q - 1, n);
    }
  }

  /** r is the remainder of x when x is r more than a multiple of n. */
  lemma ModIs(x: nat, q: nat, r: nat, n: nat)
    requires x == q * n + r && r < n
    ensures x % n == r
  {
    var q', r' := x / n, x % n;
    assert x == n * q' + r';
    assert n * q' == q' * n;
    QuotientUnique(x, q, r, q', r', n);
  }

  lemma ModWrap(x: nat, n: nat)
    requires x < 2 * n
    ensures x % n == if x < n then x else x - n
  {
    if x < n { ModIs(x, 0, x, n); } else { ModIs(x, 1, x - n, n); }
  }

  lemma DivParts(x: nat, n: nat)
    requires 0 < n
    ensures x == (x / n) * n + x % n
  {
  }

  lemma AddParts(a: nat, b: nat, q: nat, m: nat, p: nat, r: nat, n: nat)
    requires a == q * n + m && m + b == p * n + r
    ensures a + b == (q + p) * n + r
  {
    MulSplit(q, p, n);
  }

  lemma ModAdd(a: nat, b: nat, n: nat)
    requires 0 < n
    ensures (a % n + b) % n == (a + b) % n
  {
    var c := a % n + b;
    DivParts(a, n);
    DivParts(c, n);
    AddParts(a, b, a / n, a % n, c / n, c % n, n);
    ModIs(a + b, a / n + c / n, c % n, n);
  }
}
