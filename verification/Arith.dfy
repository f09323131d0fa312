// Machine integers, and multiplication and division kept behind names: what is used of
// them are the laws below.

module Arith {
  /** A 64-bit unsigned value. */
  function U64(x: nat): nat {
    x % 0x1_0000_0000_0000_0000
  }

  lemma Fits64(x: nat)
    requires x < 0x1_0000_0000_0000_0000
    ensures U64(x) == x
  {
  }

  /** A 32-bit unsigned, and a 32-bit signed value. */
  function U32(x: int): nat {
    x % 0x1_0000_0000
  }

  function S32(x: int): int {
    if U32(x) < 0x8000_0000 then U32(x) else U32(x) - 0x1_0000_0000
  }

  lemma Fits32(x: nat)
    requires x < 0x1_0000_0000
    ensures U32(x) == x
  {
  }

  lemma WrapSum(rest: nat, x: nat)
    ensures U32(rest + U32(x - rest)) == U32(x)
  {
  }

  /** What wrapping means. */
  lemma Wraps(x: int)
    ensures U32(x) < 0x1_0000_0000 && (x - U32(x)) % 0x1_0000_0000 == 0
    ensures -0x8000_0000 <= S32(x) < 0x8000_0000 && (x - S32(x)) % 0x1_0000_0000 == 0
    ensures x >= 0 ==> U64(x) < 0x1_0000_0000_0000_0000 && (x - U64(x)) % 0x1_0000_0000_0000_0000 == 0
  {
  }

  lemma Small(x: int)
    requires -0x8000_0000 <= x < 0x8000_0000
    ensures S32(x) == x && (x >= 0 ==> U32(x) == x)
  {
  }

  function Product(x: nat, n: nat): nat {
    x * n
  }

  function Quot(x: nat, d: nat): nat
    requires d > 0
  {
    x / d
  }

  function Rem(x: nat, d: nat): nat
    requires d > 0
  {
    x % d
  }

  lemma Sum(a: nat, b: nat, n: nat)
    ensures Product(a + b, n) == Product(a, n) + Product(b, n) && Product(n, a + b) == Product(n, a) + Product(n, b)
  {
  }

  lemma Swap(q: nat, n: nat, d: nat)
    ensures Product(Product(q, n), d) == Product(Product(q, d), n)
  {
  }

  lemma Turn(a: nat, b: nat)
    ensures Product(a, b) == Product(b, a)
  {
  }

  lemma AtLeast(a: nat, n: nat)
    requires n > 0
    ensures Product(a, n) >= a
  {
  }

  lemma Euclid(x: nat, d: nat)
    requires d > 0
    ensures Product(Quot(x, d), d) + Rem(x, d) == x && Rem(x, d) < d
  {
  }

  lemma Monotone(a: nat, b: nat, n: nat)
    requires a <= b
    ensures Product(a, n) <= Product(b, n)
  {
  }

  lemma QuotIs(x: nat, d: nat, q: nat)
    requires d > 0 && Product(q, d) <= x < Product(q, d) + d
    ensures Quot(x, d) == q
  {
    hide Product, Quot, Rem;
    Euclid(x, d);
    var p := Quot(x, d);
    if p < q {
      Monotone(p + 1, q, d);
      Sum(p, 1, d);
      One(d);
    } else if p > q {
      Monotone(q + 1, p, d);
      Sum(q, 1, d);
      One(d);
    }
  }

  lemma One(d: nat)
    ensures Product(1, d) == d
  {
  }

  lemma Group(t: nat, c: nat, f: nat)
    ensures Product(t, Product(c, f)) == Product(Product(t, c), f)
  {
  }

  lemma Times(x: nat, f: nat)
    requires f > 0
    ensures x <= Product(x, f) && (f == 1 ==> Product(x, f) == x) && (x > 0 && f > 1 ==> x < Product(x, f))
  {
  }

  lemma Zero(n: nat)
    ensures Product(0, n) == 0
  {
  }

  lemma Nothing(w: nat, h: nat)
    requires w == 0 || h == 0
    ensures Product(w, h) == 0 && Product(0, 0) == 0
  {
  }
}
