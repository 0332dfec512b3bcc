// 64-bit bitboards: single bits, masks, and the two compiler builtins the
// board relies on, `__builtin_clzll` (count leading zeros) and
// `__builtin_ffsll` (find first set), read as "highest set bit" and
// "lowest set bit". Every fact about bit arithmetic is a small lemma about
// one bit position; everything built on top of it reasons about `Bit`.
module Bits {

  const ALL: bv64 := 0xFFFF_FFFF_FFFF_FFFF
  const TOP: bv64 := 0x8000_0000_0000_0000

  /** Bit `i` of `x`, counting from the least significant bit. */
  predicate Bit(x: bv64, i: bv8)
    requires i < 64
  {
    (x >> i) & 1 == 1
  }

  /** The board with only bit `i` set. */
  function Sq(i: bv8): bv64
    requires i < 64
  {
    1 << i
  }

  /** The bits `n`..63. */
  function Above(n: bv8): bv64
    requires n <= 64
  {
    ALL << n
  }

  /** `x` has no bit below position `n`, as a mask test. */
  predicate LowClear(x: bv64, n: bv8)
    requires n <= 64
  {
    x & !Above(n) == 0
  }

  /** `x` has no bit in the positions `lo`..`hi - 1`. */
  ghost predicate Clear(x: bv64, lo: bv8, hi: bv8)
    requires hi <= 64
  {
    forall j: bv8 :: lo <= j < hi ==> !Bit(x, j)
  }

  /** `x` has no bit in the positions `lo + 1`..`hi`. */
  ghost predicate ClearOver(x: bv64, lo: bv8, hi: bv8)
    requires hi < 64
  {
    forall j: bv8 :: lo < j <= hi ==> !Bit(x, j)
  }

  // ---------------------------------------------------------------------
  // Single-bit facts. Each one is about one position of its operands.

  lemma BitAnd(a: bv64, b: bv64, i: bv8)
    requires i < 64
    ensures Bit(a & b, i) <==> Bit(a, i) && Bit(b, i)
  {
  }

  lemma BitOr(a: bv64, b: bv64, i: bv8)
    requires i < 64
    ensures Bit(a | b, i) <==> Bit(a, i) || Bit(b, i)
  {
  }

  lemma BitXor(a: bv64, b: bv64, i: bv8)
    requires i < 64
    ensures Bit(a ^ b, i) <==> Bit(a, i) != Bit(b, i)
  {
  }

  lemma BitNot(a: bv64, i: bv8)
    requires i < 64
    ensures Bit(!a, i) <==> !Bit(a, i)
  {
  }

  lemma BitZero(i: bv8)
    requires i < 64
    ensures !Bit(0, i)
  {
  }

  /** A non-empty board inside a mask shares a square with the mask. */
  lemma SharedBit(x: bv64, m: bv64)
    requires x != 0 && x & !m == 0
    ensures m != 0
    ensures exists i: bv8 | i < 64 :: Bit(x, i) && Bit(m, i)
  {
    ZeroNoBits(x);
    var i: bv8 :| i < 64 && Bit(x, i);
    BitAnd(x, !m, i);
    BitNot(m, i);
    BitZero(i);
  }

  lemma BitSq(j: bv8, i: bv8)
    requires j < 64 && i < 64
    ensures Bit(Sq(j), i) <==> i == j
  {
  }

  /** Setting bit `j` of `x`. */
  lemma BitOrSq(x: bv64, j: bv8, i: bv8)
    requires j < 64 && i < 64
    ensures Bit(x | Sq(j), i) <==> Bit(x, i) || i == j
  {
    BitOr(x, Sq(j), i);
    BitSq(j, i);
  }

  /** Bit `i` of `y`, with bit `j` set when `b` holds. */
  lemma BitOrSqIf(x: bv64, y: bv64, b: bool, j: bv8, i: bv8)
    requires j < 64 && i < 64
    requires x == if b then y | Sq(j) else y
    ensures Bit(x, i) <==> Bit(y, i) || (b && i == j)
  {
    if b {
      BitOrSq(y, j, i);
    }
  }

  lemma BitAbove(n: bv8, i: bv8)
    requires n <= 64 && i < 64
    ensures Bit(Above(n), i) <==> n <= i
  {
  }

  /** Shifting a board up by one rank (eight bits). */
  lemma BitShl8(a: bv64, i: bv8)
    requires i < 64
    ensures Bit(a << 8, i) <==> 8 <= i && Bit(a, i - 8)
  {
  }

  /** Shifting a board down by one rank (eight bits). */
  lemma BitShr8(a: bv64, i: bv8)
    requires i < 64
    ensures Bit(a >> 8, i) <==> i < 56 && Bit(a, i + 8)
  {
  }

  /** The membership test `x & square != 0` of a one-bit square. */
  lemma MaskSq(x: bv64, i: bv8)
    requires i < 64
    ensures x & Sq(i) != 0 <==> Bit(x, i)
  {
  }

  lemma MaskBase(x: bv64)
    ensures LowClear(x, 0)
  {
  }

  lemma MaskStep(x: bv64, n: bv8)
    requires 0 < n <= 64
    ensures LowClear(x, n) <==> LowClear(x, n - 1) && !Bit(x, n - 1)
  {
  }

  lemma MaskAll(x: bv64)
    ensures LowClear(x, 64) <==> x == 0
  {
  }

  lemma ClearEmpty(x: bv64, i: bv8)
    requires i <= 64
    ensures Clear(x, i, i)
  {
  }

  lemma ClearUp(x: bv64, lo: bv8, hi: bv8)
    requires 0 < hi <= 64
    ensures Clear(x, lo, hi) <==> Clear(x, lo, hi - 1) && (lo <= hi - 1 ==> !Bit(x, hi - 1))
  {
  }

  lemma ClearDown(x: bv64, lo: bv8, hi: bv8)
    requires 0 < lo <= hi <= 64
    ensures Clear(x, lo - 1, hi) <==> Clear(x, lo, hi) && !Bit(x, lo - 1)
  {
  }

  lemma ClearOverEmpty(x: bv64, i: bv8)
    requires i < 64
    ensures ClearOver(x, i, i)
  {
  }

  lemma ClearOverStep(x: bv64, lo: bv8, hi: bv8)
    requires lo < hi < 64
    ensures ClearOver(x, lo, hi) <==> ClearOver(x, lo, hi - 1) && !Bit(x, hi)
  {
  }

  /** A clear run above bit 0 together with a clear bit 0 is a clear board. */
  lemma ClearOverZero(x: bv64)
    requires ClearOver(x, 0, 63) && !Bit(x, 0)
    ensures Clear(x, 0, 64)
  {
  }

  /** `x ^ (x - 1)` is the run of bits up to and including the lowest set bit
      of `x` (all bits when `x` is zero). */
  lemma LowRun(x: bv64, i: bv8)
    requires i < 64
    ensures Bit(x ^ (x - 1), i) <==> LowClear(x, i)
  {
  }

  lemma TopShift(n: bv8)
    requires n < 64
    ensures TOP >> n == Sq(63 - n)
  {
  }

  /** Subtracting a single bit `k` from a value with no bit at or below `k`
      borrows through the same run as subtracting 1, cut off below `k`. */
  lemma Borrow(x: bv64, k: bv8)
    requires k < 64 && LowClear(x, k + 1)
    ensures x ^ (x - Sq(k)) == (x ^ (x - 1)) & Above(k)
  {
  }

  // ---------------------------------------------------------------------
  // From masks to bit positions.

  /** The mask test and the bitwise statement of "no bit below `n`" agree. */
  lemma {:induction false} LowClearBits(x: bv64, n: bv8)
    requires n <= 64
    ensures LowClear(x, n) <==> Clear(x, 0, n)
    decreases n
  {
    if n == 0 {
      MaskBase(x);
      ClearEmpty(x, 0);
    } else {
      LowClearBits(x, n - 1);
      MaskStep(x, n);
      ClearUp(x, 0, n);
    }
  }

  /** A board is empty exactly when none of its 64 bits is set. */
  lemma ZeroNoBits(x: bv64)
    ensures x == 0 <==> Clear(x, 0, 64)
  {
    LowClearBits(x, 64);
    MaskAll(x);
  }

  /** Two boards with the same bits are equal. */
  lemma BitsEqual(a: bv64, b: bv64)
    requires forall i: bv8 | i < 64 :: Bit(a, i) == Bit(b, i)
    ensures a == b
  {
    var d := a ^ b;
    forall i: bv8 | i < 64 ensures !Bit(d, i) {
      BitXor(a, b, i);
    }
    ZeroNoBits(d);
  }

  // ---------------------------------------------------------------------
  // Highest and lowest set bit.

  /** The highest set bit of `x` at or below `i`, or 0 when there is none. */
  function HighFrom(x: bv64, i: bv8): (r: bv8)
    requires i < 64
    ensures r <= i && ClearOver(x, r, i)
    ensures Bit(x, r) || r == 0
    decreases i
  {
    if i == 0 || Bit(x, i) then
      ClearOverEmpty(x, i);
      i
    else
      var r := HighFrom(x, i - 1);
      ClearOverStep(x, r, i);
      r
  }

  /** `__builtin_clzll(x)`: the number of zero bits above the highest set bit.
      The builtin is undefined for zero, hence the precondition. */
  function Clz(x: bv64): (n: bv8)
    requires x != 0
    ensures n < 64 && Bit(x, 63 - n) && ClearOver(x, 63 - n, 63)
  {
    var r := HighFrom(x, 63);
    if !Bit(x, r) then
      ClearOverZero(x);
      ZeroNoBits(x);
      assert false;
      0
    else
      63 - r
  }

  /** The lowest set bit of `x` at or above `i`, or 63 when there is none. */
  function LowFrom(x: bv64, i: bv8): (r: bv8)
    requires i < 64
    ensures i <= r < 64 && Clear(x, i, r)
    ensures Bit(x, r) || r == 63
    decreases 63 - i
  {
    if i == 63 || Bit(x, i) then
      ClearEmpty(x, i);
      i
    else
      var r := LowFrom(x, i + 1);
      ClearDown(x, i + 1, r);
      r
  }

  /** `__builtin_ffsll(x)`: one plus the index of the lowest set bit, or 0
      when `x` is zero. */
  function Ffs(x: bv64): (n: bv8)
    ensures n <= 64
    ensures n == 0 <==> x == 0
    ensures n != 0 ==> Bit(x, n - 1) && Clear(x, 0, n - 1)
  {
    if x == 0 then 0
    else
      var r := LowFrom(x, 0);
      if !Bit(x, r) then
        ClearUp(x, 0, 64);
        ZeroNoBits(x);
        assert false;
        0
      else
        r + 1
  }
}
