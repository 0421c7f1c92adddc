/**
 * Python's bitwise operators on unbounded integers.  Python treats a negative
 * int as an infinite two's-complement bit string; `Bit` is that reading, and
 * `Or`, `Xor`, `Shl`, `Shr` are proved against it.
 */
module Bits {

  function Abs(x: int): nat { if x < 0 then -x else x }

  function Pow2(n: nat): (r: nat)
    ensures r >= 1
  {
    if n == 0 then 1 else 2 * Pow2(n - 1)
  }

  /** Bit k of x, i.e. Python's `(x >> k) & 1 == 1`. */
  function Bit(x: int, k: nat): bool
    decreases k
  {
    if k == 0 then x % 2 == 1 else Bit(x / 2, k - 1)
  }

  lemma HalveShrinks(x: int)
    requires x != 0 && x != -1
    ensures Abs(x / 2) < Abs(x)
  {
  }

  /** Python's `x | y`. */
  function Or(x: int, y: int): int
    decreases Abs(x) + Abs(y)
  {
    if x == 0 || y == -1 then y
    else if y == 0 || x == -1 then x
    else
      HalveShrinks(x); HalveShrinks(y);
      2 * Or(x / 2, y / 2) + (if x % 2 == 1 || y % 2 == 1 then 1 else 0)
  }

  /** Python's `x ^ y`. */
  function Xor(x: int, y: int): int
    decreases Abs(x) + Abs(y)
  {
    if x == 0 then y
    else if y == 0 then x
    else if x == -1 then -y - 1
    else if y == -1 then -x - 1
    else
      HalveShrinks(x); HalveShrinks(y);
      2 * Xor(x / 2, y / 2) + (if x % 2 != y % 2 then 1 else 0)
  }

  /** Python's `x << n` for a count n >= 0. */
  function Shl(x: int, n: nat): int
  {
    if n == 0 then x else 2 * Shl(x, n - 1)
  }

  /** Python's `x >> n` for a count n >= 0 (floor division by 2 each step). */
  function Shr(x: int, n: nat): int
    decreases n
  {
    if n == 0 then x else Shr(x / 2, n - 1)
  }

  lemma {:induction false} BitsOfZero(k: nat)
    ensures !Bit(0, k)
  {
    if k > 0 { BitsOfZero(k - 1); }
  }

  lemma {:induction false} BitsOfMinusOne(k: nat)
    ensures Bit(-1, k)
  {
    if k > 0 { BitsOfMinusOne(k - 1); }
  }

  /** The complement -x-1 flips every bit. */
  lemma {:induction false} BitsOfComplement(x: int, k: nat)
    ensures Bit(-x - 1, k) == !Bit(x, k)
    decreases k
  {
    if k > 0 {
      assert (-x - 1) / 2 == -(x / 2) - 1;
      BitsOfComplement(x / 2, k - 1);
    }
  }

  lemma BitOfDouble(q: int, b: int, k: nat)
    requires b == 0 || b == 1
    ensures Bit(2 * q + b, k) == if k == 0 then b == 1 else Bit(q, k - 1)
  {
    if k > 0 {
      assert (2 * q + b) / 2 == q;
    }
  }

  /** `Or` is bitwise disjunction. */
  lemma {:induction false} OrBit(x: int, y: int, k: nat)
    ensures Bit(Or(x, y), k) == (Bit(x, k) || Bit(y, k))
    decreases Abs(x) + Abs(y)
  {
    if x == 0 || y == 0 {
      BitsOfZero(k);
    } else if x == -1 || y == -1 {
      BitsOfMinusOne(k);
    } else {
      HalveShrinks(x); HalveShrinks(y);
      var b := if x % 2 == 1 || y % 2 == 1 then 1 else 0;
      BitOfDouble(Or(x / 2, y / 2), b, k);
      if k > 0 { OrBit(x / 2, y / 2, k - 1); }
    }
  }

  /** `Xor` is bitwise exclusive or. */
  lemma {:induction false} XorBit(x: int, y: int, k: nat)
    ensures Bit(Xor(x, y), k) == (Bit(x, k) != Bit(y, k))
    decreases Abs(x) + Abs(y)
  {
    if x == 0 || y == 0 {
      BitsOfZero(k);
    } else if x == -1 {
      BitsOfMinusOne(k); BitsOfComplement(y, k);
    } else if y == -1 {
      BitsOfMinusOne(k); BitsOfComplement(x, k);
    } else {
      HalveShrinks(x); HalveShrinks(y);
      var b := if x % 2 != y % 2 then 1 else 0;
      BitOfDouble(Xor(x / 2, y / 2), b, k);
      if k > 0 { XorBit(x / 2, y / 2, k - 1); }
    }
  }

  /** Two integers with the same bits are equal. */
  lemma {:induction false} BitsDetermine(x: int, y: int)
    requires forall k: nat :: Bit(x, k) == Bit(y, k)
    ensures x == y
    decreases Abs(x) + Abs(y)
  {
    assert Bit(x, 0) == Bit(y, 0);
    if (x == 0 || x == -1) && (y == 0 || y == -1) {
    } else {
      HalveShrinks(if x == 0 || x == -1 then y else x);
      forall k: nat ensures Bit(x / 2, k) == Bit(y / 2, k) {
        assert Bit(x, k + 1) == Bit(y, k + 1);
      }
      BitsDetermine(x / 2, y / 2);
    }
  }

  /** XOR with the same operand twice gives the original value back. */
  lemma XorInvolution(x: int, y: int)
    ensures Xor(Xor(x, y), y) == x
  {
    forall k: nat ensures Bit(Xor(Xor(x, y), y), k) == Bit(x, k) {
      XorBit(Xor(x, y), y, k);
      XorBit(x, y, k);
    }
    BitsDetermine(Xor(Xor(x, y), y), x);
  }

  /** OR-ing a value with itself leaves it unchanged. */
  lemma OrIdempotent(x: int)
    ensures Or(x, x) == x
  {
    forall k: nat ensures Bit(Or(x, x), k) == Bit(x, k) {
      OrBit(x, x, k);
    }
    BitsDetermine(Or(x, x), x);
  }

  /** Shifting left by n multiplies by 2^n. */
  lemma {:induction false} ShlIsMultiplication(x: int, n: nat)
    ensures Shl(x, n) == x * Pow2(n)
  {
    if n > 0 {
      ShlIsMultiplication(x, n - 1);
      assert x * Pow2(n) == 2 * (x * Pow2(n - 1));
    }
  }

  /** Shifting left by n moves bit k to position k + n and clears the n low bits. */
  lemma {:induction false} ShlBit(x: int, n: nat, k: nat)
    ensures Bit(Shl(x, n), k) == (k >= n && Bit(x, k - n))
    decreases n
  {
    if n > 0 {
      BitOfDouble(Shl(x, n - 1), 0, k);
      if k > 0 {
        ShlBit(x, n - 1, k - 1);
      }
    }
  }

  /** Shifting right by n moves bit k + n to position k. */
  lemma {:induction false} ShrBit(x: int, n: nat, k: nat)
    ensures Bit(Shr(x, n), k) == Bit(x, k + n)
    decreases n
  {
    if n > 0 {
      ShrBit(x / 2, n - 1, k);
    }
  }

  /** Shifting left then right by the same count gives the original value back. */
  lemma {:induction false} ShrShl(x: int, n: nat)
    ensures Shr(Shl(x, n), n) == x
  {
    if n > 0 {
      assert Shl(x, n) / 2 == Shl(x, n - 1);
      ShrShl(x, n - 1);
    }
  }

  lemma DivUnique(x: int, d: int, q: int, r: int)
    requires d > 0 && 0 <= r < d && x == d * q + r
    ensures x / d == q
  {
    var q', r' := x / d, x % d;
    assert d * q' + r' == d * q + r;
    if q' > q {
      assert d * (q' - q) == d * q' - d * q;
      MulAtLeast(d, q' - q);
    } else if q' < q {
      assert d * (q - q') == d * q - d * q';
      MulAtLeast(d, q - q');
    }
  }

  lemma MulAtLeast(d: int, k: int)
    requires d > 0 && k >= 1
    ensures d * k >= d
  {
  }

  /** Shifting right by n is floor division by 2^n. */
  lemma {:induction false} ShrIsFloorDivision(x: int, n: nat)
    ensures Shr(x, n) == x / Pow2(n)
    decreases n
  {
    if n > 0 {
      ShrIsFloorDivision(x / 2, n - 1);
      var p := Pow2(n - 1);
      var q := (x / 2) / p;
      var r := (x / 2) % p;
      assert Pow2(n) == 2 * p;
      assert x / 2 == p * q + r && 0 <= r < p;
      assert x == 2 * (x / 2) + x % 2 && 0 <= x % 2 < 2;
      Regroup(x, p, q, r, x % 2);
      DivUnique(x, 2 * p, q, 2 * r + x % 2);
    }
  }

  lemma Regroup(x: int, p: int, q: int, r: int, b: int)
    requires x == 2 * (p * q + r) + b
    ensures x == (2 * p) * q + (2 * r + b)
  {
    assert 2 * (p * q) == (2 * p) * q;
  }

  /** Bit k is the parity of x divided by 2^k (floor division). */
  lemma BitIsDivMod(x: int, k: nat)
    ensures Bit(x, k) == ((x / Pow2(k)) % 2 == 1)
  {
    ShrBit(x, k, 0);
    ShrIsFloorDivision(x, k);
  }
}
