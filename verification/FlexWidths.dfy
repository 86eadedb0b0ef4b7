/** Choosing widths before anything is written (flexbuffers.h). */
module FlexWidths {
  import opened Bytes

  /** BIT_WIDTH_8, 16, 32 and 64. */
  type BitWidth = w: nat | w < 4

  function ByteWidth(w: BitWidth): (n: nat)
    ensures n in {1, 2, 4, 8}
  {
    if w == 0 then 1 else if w == 1 then 2 else if w == 2 then 4 else 8
  }

  /** The values that fit in `ByteWidth(w)` bytes. */
  function Limit(w: BitWidth): (n: nat)
    ensures n == Pow256(ByteWidth(w)) && n >= 0x100
  {
    Pow256Values();
    if w == 0 then 0x100 else if w == 1 then 0x1_0000 else if w == 2 then U32 else SIZE_T
  }

  /** The least width that holds the 64-bit unsigned `u`. */
  function WidthU(u: nat): (w: BitWidth)
    ensures (u < SIZE_T ==> u < Limit(w)) && (w > 0 ==> u >= Limit(w - 1))
  {
    if u < 0x100 then 0 else if u < 0x1_0000 then 1 else if u < U32 then 2 else 3
  }

  /** The source's test of the high bits, on 64-bit words. */
  lemma WidthMask(u: bv64)
    ensures u & !((1 << 8) - 1) == 0 <==> u < 0x100
    ensures u & !((1 << 16) - 1) == 0 <==> u < 0x1_0000
    ensures u & !((1 << 32) - 1) == 0 <==> u < 0x1_0000_0000
  {
  }

  const I64: int := 0x8000_0000_0000_0000

  predicate IsInt64(i: int) {
    -I64 <= i < I64
  }

  /** The 64-bit two's complement pattern of `i`. */
  function Pattern(i: int): (u: nat)
    requires IsInt64(i)
    ensures u < SIZE_T
  {
    if i >= 0 then i else i + SIZE_T
  }

  /** The least width whose sign bit and value bits hold `i`. */
  function WidthI(i: int): (w: BitWidth)
    requires IsInt64(i)
    ensures -(Limit(w) / 2) <= i < Limit(w) / 2
    ensures w > 0 ==> !(-(Limit(w - 1) / 2) <= i < Limit(w - 1) / 2)
  {
    var u := (Pattern(i) * 2) % SIZE_T;
    DoubledPattern(i);
    WidthU(if i >= 0 then u else SIZE_T - 1 - u)
  }

  lemma DoubledPattern(i: int)
    requires IsInt64(i)
    ensures (Pattern(i) * 2) % SIZE_T == if i >= 0 then 2 * i else if i == -I64 then 0 else SIZE_T + 2 * i
  {
    if i < 0 {
      ModUnique(Pattern(i) * 2, SIZE_T, 1, SIZE_T + 2 * i);
    }
  }

  // ----- offsets -----

  /** Where element `index` would lie if the vector were written with width `w`. */
  function OffsetLoc(bufSize: nat, index: nat, w: BitWidth): nat {
    bufSize + PaddingBytes(bufSize, ByteWidth(w)) + index * ByteWidth(w)
  }

  function RelOffset(u: nat, bufSize: nat, index: nat, w: BitWidth): nat
    requires u <= bufSize
  {
    OffsetLoc(bufSize, index, w) - u
  }

  /** Offsets stay within 64 bits. */
  predicate Addressable(bufSize: nat, index: nat) {
    bufSize + 8 * index + 8 < SIZE_T
  }

  /** An offset never gets smaller when its vector gets wider. */
  lemma OffsetGrows(u: nat, bufSize: nat, index: nat, w: BitWidth)
    requires u <= bufSize && w < 3
    ensures RelOffset(u, bufSize, index, w) <= RelOffset(u, bufSize, index, w + 1)
  {
    PaddingGrows(bufSize, ByteWidth(w));
    MulGrows(index, ByteWidth(w));
  }

  lemma PaddingGrows(n: nat, size: nat)
    requires size in {1, 2, 4}
    ensures PaddingBytes(n, size) <= PaddingBytes(n, 2 * size)
  {
    var p := PaddingBytes(n, 2 * size);
    PaddingAligns(n, 2 * size);
    MultipleOfMultiple(n + p, 2 * size, size);
    if p < PaddingBytes(n, size) {
      PaddingAligns(n, size);
      DifferenceOfMultiples(n + PaddingBytes(n, size), n + p, size);
      assert false;
    }
  }

  lemma MulGrows(index: nat, size: nat)
    ensures index * size <= index * (2 * size)
  {
    assert index * (2 * size) == index * size + index * size;
  }

  lemma OffsetBound(u: nat, bufSize: nat, index: nat, w: BitWidth)
    requires u <= bufSize && Addressable(bufSize, index)
    ensures RelOffset(u, bufSize, index, w) < SIZE_T
  {
    assert index * ByteWidth(w) <= index * 8;
  }

  /** What the loop of `ElemWidth` looks for: the first width that is exactly the one its own offset needs. */
  predicate OffsetMatches(u: nat, bufSize: nat, index: nat, w: BitWidth)
    requires u <= bufSize && Addressable(bufSize, index)
  {
    OffsetBound(u, bufSize, index, w);
    WidthU(RelOffset(u, bufSize, index, w)) == w
  }

  /**
    The width of an offset: the least one that holds it when the vector is written
    with that width. The search always succeeds, so the source's assertion after
    its loop cannot be reached.
   */
  function OffsetWidth(u: nat, bufSize: nat, index: nat): (w: BitWidth)
    requires u <= bufSize && Addressable(bufSize, index)
    ensures RelOffset(u, bufSize, index, w) < Limit(w)
    ensures forall v: BitWidth :: v < w ==> RelOffset(u, bufSize, index, v) >= Limit(v)
    ensures OffsetMatches(u, bufSize, index, w)
  {
    OffsetGrows(u, bufSize, index, 0);
    OffsetGrows(u, bufSize, index, 1);
    OffsetGrows(u, bufSize, index, 2);
    OffsetBound(u, bufSize, index, 3);
    if RelOffset(u, bufSize, index, 0) < Limit(0) then 0
    else if RelOffset(u, bufSize, index, 1) < Limit(1) then 1
    else if RelOffset(u, bufSize, index, 2) < Limit(2) then 2
    else 3
  }

  /** The loop over the candidate byte widths. */
  method ElemOffsetWidth(u: nat, bufSize: nat, index: nat) returns (w: BitWidth)
    requires u <= bufSize && Addressable(bufSize, index)
    ensures w == OffsetWidth(u, bufSize, index)
  {
    ghost var least := OffsetWidth(u, bufSize, index);
    var candidate: BitWidth := 0;
    var byteWidth := 1;
    while byteWidth <= 8
      invariant candidate <= least && byteWidth == ByteWidth(candidate)
      decreases 3 - candidate
    {
      var offset := bufSize + PaddingBytes(bufSize, byteWidth) + index * byteWidth - u;
      OffsetBound(u, bufSize, index, candidate);
      if ByteWidth(WidthU(offset)) == byteWidth {
        return WidthU(offset);
      }
      candidate := candidate + 1;
      byteWidth := byteWidth * 2;
    }
    assert false;
  }

  /**
    Widening is safe: an offset that fits at its own width, measured at an index that
    may be too high, still fits at its true index in any wider vector, although the
    wider vector puts it further away.
   */
  lemma WiderStillFits(u: nat, bufSize: nat, guess: nat, index: nat, narrow: BitWidth, wide: BitWidth)
    requires u <= bufSize && index <= guess && narrow <= wide && Addressable(bufSize, guess)
    requires RelOffset(u, bufSize, guess, narrow) < Limit(narrow)
    ensures RelOffset(u, bufSize, index, wide) < Limit(wide)
  {
    IndexBound(index, guess, ByteWidth(narrow));
    if wide == narrow {
    } else if wide == 3 {
      IndexBound(index, guess, 8);
      OffsetBound(u, bufSize, guess, 3);
    } else {
      assert index * ByteWidth(narrow) <= Limit(narrow);
      WideIndex(index, ByteWidth(narrow), ByteWidth(wide));
    }
  }

  lemma IndexBound(index: nat, guess: nat, size: nat)
    requires index <= guess
    ensures index * size <= guess * size
  {
    assert guess * size == index * size + (guess - index) * size;
  }

  lemma WideIndex(index: nat, narrow: nat, wide: nat)
    requires narrow in {1, 2} && wide in {2, 4} && narrow <= wide
    ensures index * wide <= 4 * (index * narrow)
  {
  }
}
