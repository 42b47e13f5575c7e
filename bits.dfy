/** Python's bitwise operators on non-negative integers, defined bit by
    bit from the least significant end. */
module Bits {
  /** A byte on the bus. */
  type Byte = x: int | 0 <= x < 256

  function Pow2(k: nat): (p: nat)
    ensures p >= 1
  {
    if k == 0 then 1 else 2 * Pow2(k - 1)
  }

  lemma Pow2Values()
    ensures Pow2(2) == 4 && Pow2(4) == 16 && Pow2(5) == 32 && Pow2(6) == 64
    ensures Pow2(8) == 256 && Pow2(16) == 65536
  {
  }

  /** a << k */
  function Shl(a: nat, k: nat): nat
  {
    a * Pow2(k)
  }

  /** a >> k */
  function Shr(a: nat, k: nat): nat
  {
    if k == 0 then a else Shr(a / 2, k - 1)
  }

  /** a | b */
  function Or(a: nat, b: nat): nat
  {
    if a == 0 then b
    else if b == 0 then a
    else 2 * Or(a / 2, b / 2) + (if a % 2 == 1 || b % 2 == 1 then 1 else 0)
  }

  /** a & b */
  function And(a: nat, b: nat): nat
  {
    if a == 0 || b == 0 then 0
    else 2 * And(a / 2, b / 2) + (if a % 2 == 1 && b % 2 == 1 then 1 else 0)
  }

  /** Or-ing a value into bits that are clear adds it: a << k | b is
      a * 2^k + b when b < 2^k. */
  lemma {:induction false} OrDisjoint(a: nat, b: nat, k: nat)
    requires b < Pow2(k)
    ensures Or(Shl(a, k), b) == Shl(a, k) + b
  {
    if k > 0 && a != 0 && b != 0 {
      ShlStep(a, k);
      OrDisjoint(a, b / 2, k - 1);
    }
  }

  lemma OrDouble(x: nat, y: nat)
    ensures Or(2 * x, 2 * y) == 2 * Or(x, y)
  {
  }

  lemma ShlStep(a: nat, k: nat)
    requires k > 0
    ensures Shl(a, k) == 2 * Shl(a, k - 1)
  {
    var p := Pow2(k - 1);
    assert a * (2 * p) == 2 * (a * p);
  }

  /** Shifting both operands shifts the result: a << k | b << k is
      (a | b) << k. */
  lemma {:induction false} OrShifted(a: nat, b: nat, k: nat)
    ensures Or(Shl(a, k), Shl(b, k)) == Shl(Or(a, b), k)
  {
    if k > 0 {
      ShlStep(a, k);
      ShlStep(b, k);
      ShlStep(Or(a, b), k);
      OrShifted(a, b, k - 1);
      OrDouble(Shl(a, k - 1), Shl(b, k - 1));
    }
  }

  /** (b & 0b100) >> 2 is bit 2 of b. */
  lemma AndBitTwo(b: nat)
    ensures Shr(And(b, 4), 2) == (b / 4) % 2
  {
    assert And(b / 4, 1) == (b / 4) % 2 by {
      assert And(b / 4 / 2, 0) == 0;
    }
    if b != 0 {
      assert b / 2 / 2 == b / 4;
      if b / 2 != 0 {
        assert And(b / 2, 2) == 2 * And(b / 4, 1);
      }
    }
  }
}
