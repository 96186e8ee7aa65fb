/**
  The 32-bit behaviour of JavaScript's bitwise operators on unbounded integers.
  A 32-bit value is kept as its bit pattern, a natural number below 2^32;
  `Signed` reads a pattern as a two's-complement integer.
*/
module Bits32 {

  const TWO31: nat := 0x8000_0000
  const TWO32: nat := 0x1_0000_0000

  function Pow2(n: nat): (r: nat)
    ensures r >= 1
  {
    if n == 0 then 1 else 2 * Pow2(n - 1)
  }

  lemma {:induction false} Pow2Add(a: nat, b: nat)
    ensures Pow2(a + b) == Pow2(a) * Pow2(b)
  {
    if b > 0 {
      Pow2Add(a, b - 1);
      calc {
        Pow2(a + b);
        2 * Pow2(a + b - 1);
        2 * (Pow2(a) * Pow2(b - 1));
        Pow2(a) * (2 * Pow2(b - 1));
      }
    }
  }

  /** One more 5-bit chunk multiplies the place value by 32. */
  lemma {:induction false} Pow2Step(n: nat)
    ensures Pow2(n + 5) == 32 * Pow2(n)
  {
    Pow2Add(n, 5);
    assert Pow2(5) == 32;
  }

  lemma {:induction false} Pow2Monotone(a: nat, b: nat)
    requires a <= b
    ensures Pow2(a) <= Pow2(b)
  {
    if a < b {
      Pow2Monotone(a, b - 1);
    }
  }

  lemma {:induction false} Pow2Of32()
    ensures Pow2(32) == TWO32
  {
    assert Pow2(2) == 4;
    assert Pow2(4) == 16 by { Pow2Add(2, 2); }
    assert Pow2(8) == 256 by { Pow2Add(4, 4); }
    assert Pow2(16) == 0x1_0000 by { Pow2Add(8, 8); }
    Pow2Add(16, 16);
  }

  /** Bitwise or of two bit patterns, one bit at a time from the lowest. */
  function BitOr(a: nat, b: nat): nat
    decreases a + b
  {
    if a == 0 then b
    else if b == 0 then a
    else (if a % 2 == 1 || b % 2 == 1 then 1 else 0) + 2 * BitOr(a / 2, b / 2)
  }

  /** Or-ing two n-bit patterns gives an n-bit pattern. */
  lemma {:induction false} BitOrBelow(a: nat, b: nat, n: nat)
    requires a < Pow2(n) && b < Pow2(n)
    ensures BitOr(a, b) < Pow2(n)
  {
    if a != 0 && b != 0 {
      assert n > 0;
      BitOrBelow(a / 2, b / 2, n - 1);
    }
  }

  /** Or-ing bits placed above every set bit of `a` is addition. */
  lemma {:induction false} BitOrDisjoint(a: nat, m: nat, n: nat)
    requires a < Pow2(n)
    ensures BitOr(a, m * Pow2(n)) == a + m * Pow2(n)
  {
    if n > 0 && a != 0 && m != 0 {
      var h := Pow2(n - 1);
      var b := m * Pow2(n);
      assert b == 2 * (m * h);
      assert b % 2 == 0 && b / 2 == m * h;
      BitOrDisjoint(a / 2, m, n - 1);
      assert BitOr(a, b) == a % 2 + 2 * BitOr(a / 2, m * h);
    }
  }

  /** The pattern of `v << shift`: the count is taken modulo 32 and the product wraps to 32 bits. */
  function ShiftLeft(v: nat, shift: nat): (r: nat)
    ensures r < TWO32
  {
    (v * Pow2(shift % 32)) % TWO32
  }

  /** The pattern of `a | b`. */
  function Or(a: nat, b: nat): (r: nat)
    requires a < TWO32 && b < TWO32
    ensures r < TWO32
  {
    Pow2Of32();
    BitOrBelow(a, b, 32);
    BitOr(a, b)
  }

  /** The value of a pattern read as a two's-complement 32-bit integer. */
  function Signed(u: nat): int
    requires u < TWO32
  {
    if u < TWO31 then u else u - TWO32
  }
}
