/** Bit-level vocabulary for 32-bit register words. */
module Bits {

  /** A bit position of a 32-bit word. Kept as a bit-vector so that shifts by
      it stay inside the bit-vector theory. */
  type BitIndex = i: bv32 | i < 32

  /** The one-hot word `1 << i`. */
  function Mask(i: BitIndex): bv32 {
    1 << i
  }

  /** Bit `i` of `v` is set. */
  predicate Bit(v: bv32, i: BitIndex) {
    v & Mask(i) != 0
  }

  /** The unsigned field of `width` bits starting at bit `lo`. */
  function Field(v: bv32, lo: BitIndex, width: BitIndex): bv32 {
    (v >> lo) & ((1 << width) - 1)
  }

  /** `x` and `y` agree on every bit outside `m`. */
  predicate SameOutside(x: bv32, y: bv32, m: bv32) {
    x & !m == y & !m
  }

  /** OR-ing a non-zero mask in leaves some of its bits set. */
  lemma SetMaskIsSet(x: bv32, m: bv32)
    requires m != 0
    ensures (x | m) & m != 0
  {
  }

  /** Setting then clearing a mask is clearing it. */
  lemma SetThenClearMask(x: bv32, m: bv32)
    ensures (x | m) & !m == x & !m
  {
  }

  /** Clearing a mask leaves its bits clear and every other bit as it was. */
  lemma ClearMaskIsClear(x: bv32, m: bv32)
    ensures (x & !m) & m == 0
    ensures SameOutside(x & !m, x, m)
  {
  }

  /** Clearing a mask twice is clearing it once. */
  lemma ClearTwice(x: bv32, m: bv32)
    ensures (x & !m) & !m == x & !m
  {
  }

  /** Setting bit `k` of a word moves no other bit. */
  lemma SetBitOnly(x: bv32, k: BitIndex)
    ensures Bit(x | Mask(k), k)
    ensures forall i: BitIndex :: i != k ==> (Bit(x | Mask(k), i) <==> Bit(x, i))
  {
    forall i: BitIndex | i != k
      ensures Bit(x | Mask(k), i) <==> Bit(x, i)
    {
      SetBitElsewhere(x, k, i);
    }
  }

  lemma SetBitElsewhere(x: bv32, k: BitIndex, i: BitIndex)
    requires i != k
    ensures Bit(x | Mask(k), i) <==> Bit(x, i)
  {
    assert Mask(k) & Mask(i) == 0;
    assert (x | Mask(k)) & Mask(i) == (x & Mask(i)) | (Mask(k) & Mask(i));
  }

  /** Clearing bit `k` of a word moves no other bit. */
  lemma ClearedBitOnly(x: bv32, k: BitIndex)
    ensures !Bit(x & !Mask(k), k)
    ensures forall i: BitIndex :: i != k ==> (Bit(x & !Mask(k), i) <==> Bit(x, i))
  {
  }
}
