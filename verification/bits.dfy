/**
 Bit-level arithmetic on non-negative integers, as the driver uses it on
 Python's unbounded `int`: left and right shifts, bitwise or and bitwise and.
 Every value the driver shifts or masks is non-negative, so the model works
 on `nat` throughout.
 */
module Bits {

  /** 2 to the power n. */
  function Pow2(n: nat): (r: nat)
    ensures r >= 1
  {
    if n == 0 then 1 else 2 * Pow2(n - 1)
  }

  /** The powers of two the driver's shifts use. */
  lemma Pow2Values()
    ensures Pow2(1) == 2 && Pow2(4) == 16 && Pow2(8) == 256 && Pow2(9) == 512 && Pow2(10) == 1024
    ensures Pow2(13) == 8192 && Pow2(14) == 16384
  {
    assert Pow2(4) == 16;
    assert Pow2(9) == 512;
    assert Pow2(13) == 8192;
  }

  /** `x << n` on a non-negative integer. */
  function Shl(x: nat, n: nat): nat
  {
    x * Pow2(n)
  }

  /** `x >> n` on a non-negative integer, one bit at a time. */
  function Shr(x: nat, n: nat): nat
  {
    if n == 0 then x else Shr(x / 2, n - 1)
  }

  /** A right shift rounds down: the result times 2^n brackets the operand. */
  lemma {:induction false} ShrBounds(x: nat, n: nat)
    ensures Shr(x, n) * Pow2(n) <= x < (Shr(x, n) + 1) * Pow2(n)
  {
    if n > 0 {
      var p := Pow2(n - 1);
      var r := Shr(x, n);
      ShrBounds(x / 2, n - 1);
      assert r * p <= x / 2 < (r + 1) * p;
      MulDouble(r, p);
      MulDouble(r + 1, p);
    }
  }

  /** Shifting left and then right by the same amount gives the value back. */
  lemma {:induction false} ShrOfShl(y: nat, n: nat)
    ensures Shr(Shl(y, n), n) == y
  {
    if n > 0 {
      var p := Pow2(n - 1);
      MulDouble(y, p);
      assert Shl(y, n) / 2 == Shl(y, n - 1);
      ShrOfShl(y, n - 1);
    }
  }

  /** The quotient of a floor division brackets the dividend. */
  lemma DivBounds(x: nat, d: nat)
    requires d > 0
    ensures (x / d) * d <= x < (x / d + 1) * d
  {
    var q := x / d;
    assert x == q * d + x % d;
    assert (q + 1) * d == q * d + d;
  }

  lemma MulDouble(a: nat, p: nat)
    ensures a * (2 * p) == 2 * (a * p)
  {
  }

  /** Bitwise or, bit by bit from the least significant end. */
  function Or(a: nat, b: nat): (r: nat)
    ensures a <= r && b <= r && r <= a + b
    decreases a + b
  {
    if a == 0 then b
    else if b == 0 then a
    else 2 * Or(a / 2, b / 2) + (if a % 2 == 1 || b % 2 == 1 then 1 else 0)
  }

  /** Bitwise or does not depend on the order of its operands. */
  lemma {:induction false} OrCommutes(a: nat, b: nat)
    ensures Or(a, b) == Or(b, a)
    decreases a + b
  {
    if a != 0 && b != 0 {
      OrCommutes(a / 2, b / 2);
    }
  }

  /** Bitwise and, bit by bit from the least significant end. */
  function And(a: nat, b: nat): (r: nat)
    ensures r <= a && r <= b
    decreases a
  {
    if a == 0 || b == 0 then 0
    else 2 * And(a / 2, b / 2) + (if a % 2 == 1 && b % 2 == 1 then 1 else 0)
  }

  /**
   Or of a value below 2^n with a multiple of 2^n touches disjoint bits,
   so it is a plain sum.
   */
  lemma {:induction false} OrDisjoint(a: nat, k: nat, n: nat)
    requires a < Pow2(n)
    ensures Or(a, k * Pow2(n)) == a + k * Pow2(n)
  {
    if n == 0 {
      assert a == 0;
    } else if a == 0 {
    } else {
      var c := k * Pow2(n - 1);
      assert k * Pow2(n) == 2 * c by { MulDouble(k, Pow2(n - 1)); }
      if c != 0 {
        assert (2 * c) / 2 == c && (2 * c) % 2 == 0;
        OrDisjoint(a / 2, k, n - 1);
        assert Or(a, 2 * c) == 2 * Or(a / 2, c) + a % 2;
      }
    }
  }

  /** And with the mask 2^n - 1 keeps the n lowest bits: what is above them is shifted out. */
  lemma {:induction false} AndLowMask(x: nat, n: nat)
    ensures And(x, Pow2(n) - 1) == x - Shr(x, n) * Pow2(n)
  {
    if n > 0 {
      var p := Pow2(n - 1);
      var m := Pow2(n) - 1;
      assert m == 2 * (p - 1) + 1;
      assert m / 2 == p - 1 && m % 2 == 1;
      AndLowMask(x / 2, n - 1);
      var s := Shr(x, n);
      assert s == Shr(x / 2, n - 1);
      MulDouble(s, p);
      if x == 0 {
        assert s == 0 by { ShrBounds(x, n); }
      } else {
        assert And(x, m) == 2 * And(x / 2, p - 1) + x % 2;
      }
    }
  }

  /** And with an even mask clears the low bit. */
  lemma AndEven(x: nat, c: nat)
    ensures And(x, 2 * c) == 2 * And(x / 2, c)
  {
    if x != 0 && c != 0 {
      assert (2 * c) / 2 == c && (2 * c) % 2 == 0;
    }
  }

  /** And with a mask shifted left by n is the and of x shifted right by n, shifted back. */
  lemma {:induction false} AndShifted(x: nat, y: nat, n: nat)
    ensures And(x, Shl(y, n)) == Shl(And(Shr(x, n), y), n)
  {
    if n > 0 {
      var p := Pow2(n - 1);
      var c := y * p;
      assert Shl(y, n) == 2 * c by { MulDouble(y, p); }
      assert Shr(x, n) == Shr(x / 2, n - 1);
      var a := And(Shr(x, n), y);
      calc {
        And(x, Shl(y, n));
        And(x, 2 * c);
        { AndEven(x, c); }
        2 * And(x / 2, c);
        { AndShifted(x / 2, y, n - 1); }
        2 * (a * p);
        { MulDouble(a, p); }
        Shl(a, n);
      }
    }
  }

  /**
   A byte's high nibble, masked with 0xf0 and shifted down, and its low
   nibble, masked with 0x0f: both below 16, and 16 times the first plus the
   second is the byte.
   */
  lemma NibbleSplit(x: nat)
    requires x < 256
    ensures Shr(And(x, 0xf0), 4) < 16 && And(x, 0x0f) < 16
    ensures Shr(And(x, 0xf0), 4) * 16 + And(x, 0x0f) == x
  {
    Pow2Values();
    var high := Shr(x, 4);
    assert high * 16 <= x < (high + 1) * 16 by { ShrBounds(x, 4); }
    assert And(x, 0x0f) == x - high * 16 by { AndLowMask(x, 4); }
    assert Shr(high, 4) == 0 by { ShrBounds(high, 4); }
    assert And(high, 0x0f) == high by { AndLowMask(high, 4); }
    assert And(x, 0xf0) == Shl(high, 4) by { AndShifted(x, 15, 4); }
    ShrOfShl(high, 4);
  }
}
