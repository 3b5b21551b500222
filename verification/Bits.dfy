/** Single-bit operations on an unsigned word and the count of its leading zeros. */
module Bits {

  /** Bit `p` of `b`. */
  predicate Bit(b: nat, p: nat) {
    if p == 0 then b % 2 == 1 else Bit(b / 2, p - 1)
  }

  /** `b | (1 << p)` */
  function SetBit(b: nat, p: nat): (r: nat)
    decreases p
  {
    if p == 0 then (if b % 2 == 1 then b else b + 1)
    else 2 * SetBit(b / 2, p - 1) + b % 2
  }

  /** `b & ~(1 << p)` */
  function ClearBit(b: nat, p: nat): (r: nat)
    decreases p
  {
    if p == 0 then (if b % 2 == 1 then b - 1 else b)
    else 2 * ClearBit(b / 2, p - 1) + b % 2
  }

  function Pow2(n: nat): (r: nat)
    ensures r > 0
  {
    if n == 0 then 1 else 2 * Pow2(n - 1)
  }

  /** The number of zero bits above the highest set bit of a `width`-bit word (`__builtin_clz`). */
  function Clz(b: nat, width: nat): (z: nat)
    ensures z <= width
    ensures forall q | width - z <= q < width :: !Bit(b, q)
    ensures z < width ==> Bit(b, width - z - 1)
  {
    if width == 0 || Bit(b, width - 1) then 0 else 1 + Clz(b, width - 1)
  }

  lemma {:induction false} SetBitBits(b: nat, p: nat, q: nat)
    ensures Bit(SetBit(b, p), q) <==> q == p || Bit(b, q)
    decreases p
  {
    if p != 0 && q != 0 {
      SetBitBits(b / 2, p - 1, q - 1);
      assert SetBit(b, p) / 2 == SetBit(b / 2, p - 1);
    } else if p == 0 {
      assert SetBit(b, p) / 2 == b / 2;
    }
  }

  lemma {:induction false} ClearBitBits(b: nat, p: nat, q: nat)
    ensures Bit(ClearBit(b, p), q) <==> q != p && Bit(b, q)
    decreases p
  {
    if p != 0 && q != 0 {
      ClearBitBits(b / 2, p - 1, q - 1);
      assert ClearBit(b, p) / 2 == ClearBit(b / 2, p - 1);
    } else if p == 0 {
      assert ClearBit(b, p) / 2 == b / 2;
    }
  }

  lemma {:induction false} SetBitBound(b: nat, p: nat, width: nat)
    requires p < width && b < Pow2(width)
    ensures SetBit(b, p) < Pow2(width)
    decreases p
  {
    if p != 0 {
      assert Pow2(width) == 2 * Pow2(width - 1);
      SetBitBound(b / 2, p - 1, width - 1);
    }
  }

  lemma {:induction false} ClearBitBound(b: nat, p: nat)
    ensures ClearBit(b, p) <= b
    decreases p
  {
    if p != 0 {
      ClearBitBound(b / 2, p - 1);
    }
  }

  /** A non-zero word has a set bit. */
  lemma {:induction false} NonzeroHasBit(b: nat, width: nat) returns (q: nat)
    requires 0 < b < Pow2(width)
    ensures q < width && Bit(b, q)
  {
    if b % 2 == 1 {
      q := 0;
    } else {
      var p := NonzeroHasBit(b / 2, width - 1);
      q := p + 1;
    }
  }

  lemma {:induction false} ZeroHasNoBit(q: nat)
    ensures !Bit(0, q)
  {
    if q != 0 {
      ZeroHasNoBit(q - 1);
    }
  }

  /** A word is zero exactly when none of its bits is set. */
  lemma ZeroIffNoBit(b: nat, width: nat)
    requires b < Pow2(width)
    ensures b == 0 ==> forall q: nat | q < width :: !Bit(b, q)
    ensures b != 0 ==> exists q: nat | q < width :: Bit(b, q)
    ensures b != 0 <==> Clz(b, width) < width
  {
    if b == 0 {
      forall q: nat | q < width ensures !Bit(b, q) {
        ZeroHasNoBit(q);
      }
    } else {
      var q := NonzeroHasBit(b, width);
    }
  }
}
