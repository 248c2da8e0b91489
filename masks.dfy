/**
 * One-bit masks for the eight thread slots, and the single-bit set and clear
 * operations the kernel applies to its uint8_t state masks.
 */
module Masks {

  /** An unsigned 8-bit value used as a number (a thread id, a bit number). */
  type Uint8 = x: int | 0 <= x < 256

  /** The number of bits in a state mask, and so the hard ceiling on slots. */
  const MASK_BITS: nat := 8

  /** The constant table the lookup reads (kept in program memory on the MCU). */
  const BIT_MASKS: seq<bv8> := [0x01, 0x02, 0x04, 0x08, 0x10, 0x20, 0x40, 0x80]

  /**
   * bit_to_mask of the kernel implementation files: the table entry for a bit
   * number below 8, and 0 for any other bit number.
   */
  function BitToMask(n: Uint8): (m: bv8)
    ensures n < MASK_BITS ==> m == 1 << n
    ensures n >= MASK_BITS ==> m == 0
  {
    if n < MASK_BITS then BIT_MASKS[n] else 0
  }

  /**
   * bit_to_mask of the utility header: the same table lookup, guarded by an
   * assertion that the bit number is below 8 (a failed assertion never returns).
   */
  function BitToMaskChecked(n: Uint8): (m: bv8)
    requires n < MASK_BITS
    ensures m == 1 << n
  {
    BIT_MASKS[n]
  }

  /** Whether bit `u` of mask `m` is set. */
  predicate IsSet(m: bv8, u: nat)
    requires u < MASK_BITS
  {
    m & BitToMask(u) != 0
  }

  /** `m |= bit_to_mask(t)`. */
  function SetBit(m: bv8, t: nat): bv8
    requires t < MASK_BITS
  {
    m | BitToMask(t)
  }

  /** `m &= ~bit_to_mask(t)`. */
  function ClearBit(m: bv8, t: nat): bv8
    requires t < MASK_BITS
  {
    m & !BitToMask(t)
  }

  /** The number of set bits among bits 0..k-1 of `m`. */
  function PopCountBelow(m: bv8, k: nat): nat
    requires k <= MASK_BITS
  {
    if k == 0 then 0 else PopCountBelow(m, k - 1) + (if IsSet(m, k - 1) then 1 else 0)
  }

  /** The number of set bits of `m`. */
  function PopCount(m: bv8): nat {
    PopCountBelow(m, MASK_BITS)
  }

  /** The two lookups agree wherever the checked one may be called. */
  lemma BitToMaskCheckedAgrees(n: Uint8)
    requires n < MASK_BITS
    ensures BitToMaskChecked(n) == BitToMask(n)
  {
  }

  /** Two valid bit numbers share a mask bit exactly when they are equal. */
  lemma MasksOverlap(n: nat, u: nat)
    requires n < MASK_BITS && u < MASK_BITS
    ensures IsSet(BitToMask(n), u) <==> n == u
  {
  }

  /** bit_to_mask is injective on 0..7. */
  lemma BitToMaskInjective(n: nat, u: nat)
    requires n < MASK_BITS && u < MASK_BITS
    ensures BitToMask(n) == BitToMask(u) <==> n == u
  {
    MasksOverlap(n, u);
  }

  lemma {:induction false} SingleBitBelow(n: nat, k: nat)
    requires n < MASK_BITS && k <= MASK_BITS
    ensures PopCountBelow(BitToMask(n), k) == if n < k then 1 else 0
  {
    if k > 0 {
      SingleBitBelow(n, k - 1);
      MasksOverlap(n, k - 1);
    }
  }

  /** Every mask of a valid bit number has exactly one bit set. */
  lemma BitToMaskSingleBit(n: nat)
    requires n < MASK_BITS
    ensures PopCount(BitToMask(n)) == 1
  {
    SingleBitBelow(n, MASK_BITS);
  }

  /** Setting bit `t` sets that bit and no other. */
  lemma SetBitAt(m: bv8, t: nat, u: nat)
    requires t < MASK_BITS && u < MASK_BITS
    ensures IsSet(SetBit(m, t), u) <==> u == t || IsSet(m, u)
  {
    MasksOverlap(t, u);
    var a, b := BitToMask(t), BitToMask(u);
    assert (m | a) & b == (m & b) | (a & b);
  }

  /** Clearing bit `t` clears that bit and no other. */
  lemma ClearBitAt(m: bv8, t: nat, u: nat)
    requires t < MASK_BITS && u < MASK_BITS
    ensures IsSet(ClearBit(m, t), u) <==> u != t && IsSet(m, u)
  {
    MasksOverlap(t, u);
    var a, b := BitToMask(t), BitToMask(u);
    if u == t {
      assert (m & !a) & a == 0;
    } else {
      assert (m & !a) & b == m & b by {
        assert a & b == 0;
      }
    }
  }

  /** Setting or clearing the same bit twice is the same as doing it once. */
  lemma SetClearIdempotent(m: bv8, t: nat)
    requires t < MASK_BITS
    ensures SetBit(SetBit(m, t), t) == SetBit(m, t)
    ensures ClearBit(ClearBit(m, t), t) == ClearBit(m, t)
  {
  }

  /**
   * Clearing a bit that setting just turned on restores the mask, and
   * setting a bit that clearing just turned off restores it.
   */
  lemma SetClearRoundTrip(m: bv8, t: nat)
    requires t < MASK_BITS
    ensures !IsSet(m, t) ==> ClearBit(SetBit(m, t), t) == m
    ensures IsSet(m, t) ==> SetBit(ClearBit(m, t), t) == m
  {
  }
}
