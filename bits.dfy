/** Go's bitwise `|` and `&` on `int`, modelled on unbounded two's-complement
    integers: bit 0 of `x` is `x % 2` and the remaining bits are those of
    `x / 2` (Dafny's `/` by 2 floors, which is an arithmetic shift right).
    A non-negative number has finitely many one bits, a negative number
    finitely many zero bits. */
module Bits {

  /** Bit `i` of `x` (bit 0 is the least significant). */
  predicate Bit(x: int, i: nat)
    decreases i
  {
    if i == 0 then x % 2 == 1 else Bit(x / 2, i - 1)
  }

  /** How far `x` is from all-zeros (when `x >= 0`) or all-ones (when
      `x < 0`); halving `x` halves it, which makes the operations terminate. */
  function Magnitude(x: int): (m: nat)
  {
    if x >= 0 then x else -x - 1
  }

  function Pow2(k: nat): (p: int)
  {
    if k == 0 then 1 else 2 * Pow2(k - 1)
  }

  /** Go's `a | b`. */
  function Or(a: int, b: int): (r: int)
    decreases Magnitude(a) + Magnitude(b)
  {
    if a == 0 || b == -1 then b
    else if b == 0 || a == -1 then a
    else 2 * Or(a / 2, b / 2) + (if a % 2 == 1 || b % 2 == 1 then 1 else 0)
  }

  /** Go's `a & b`. */
  function And(a: int, b: int): (r: int)
    decreases Magnitude(a) + Magnitude(b)
  {
    if a == 0 || b == -1 then a
    else if b == 0 || a == -1 then b
    else 2 * And(a / 2, b / 2) + (if a % 2 == 1 && b % 2 == 1 then 1 else 0)
  }

  /** Zero has no bit set. */
  lemma {:induction false} NoBitOfZero(i: nat)
    ensures !Bit(0, i)
  {
    if i > 0 {
      NoBitOfZero(i - 1);
    }
  }

  /** Minus one has every bit set. */
  lemma {:induction false} EveryBitOfMinusOne(i: nat)
    ensures Bit(-1, i)
  {
    if i > 0 {
      EveryBitOfMinusOne(i - 1);
    }
  }

  /** `Or` sets exactly the bits set in either operand. */
  lemma {:induction false} OrBit(a: int, b: int, i: nat)
    ensures Bit(Or(a, b), i) <==> Bit(a, i) || Bit(b, i)
    decreases i
  {
    if a == 0 {
      NoBitOfZero(i);
    } else if b == -1 {
      EveryBitOfMinusOne(i);
    } else if b == 0 {
      NoBitOfZero(i);
    } else if a == -1 {
      EveryBitOfMinusOne(i);
    } else if i > 0 {
      var c := Or(a, b);
      assert c / 2 == Or(a / 2, b / 2);
      OrBit(a / 2, b / 2, i - 1);
    }
  }

  /** `And` sets exactly the bits set in both operands. */
  lemma {:induction false} AndBit(a: int, b: int, i: nat)
    ensures Bit(And(a, b), i) <==> Bit(a, i) && Bit(b, i)
    decreases i
  {
    if a == 0 {
      NoBitOfZero(i);
    } else if b == -1 {
      EveryBitOfMinusOne(i);
    } else if b == 0 {
      NoBitOfZero(i);
    } else if a == -1 {
      EveryBitOfMinusOne(i);
    } else if i > 0 {
      var c := And(a, b);
      assert c / 2 == And(a / 2, b / 2);
      AndBit(a / 2, b / 2, i - 1);
    }
  }

  /** A number is determined by its bits, so the bit-wise statements above
      characterise `Or` and `And` completely. */
  lemma {:induction false} BitsDetermine(x: int, y: int)
    requires forall i: nat :: Bit(x, i) == Bit(y, i)
    ensures x == y
    decreases Magnitude(x) + Magnitude(y)
  {
    assert Bit(x, 0) == Bit(y, 0);
    forall i: nat
      ensures Bit(x / 2, i) == Bit(y / 2, i)
    {
      assert Bit(x, i + 1) == Bit(y, i + 1);
    }
    if x / 2 != x || y / 2 != y {
      BitsDetermine(x / 2, y / 2);
    }
  }

  /** A power of two has exactly one bit set. */
  lemma {:induction false} PowerOfTwoBit(k: nat, i: nat)
    ensures Bit(Pow2(k), i) <==> i == k
  {
    if k == 0 {
      if i > 0 {
        NoBitOfZero(i - 1);
      }
    } else if i > 0 {
      PowerOfTwoBit(k - 1, i - 1);
    }
  }
}
