/**
  Finished buffers of small trees, byte by byte: integers, strings, blobs and vectors of
  narrow scalars. Lengths, packed types, widths and distances are given in numbers, so that
  a writer and a reader that agree with each other but not with the format are found out
  (flexbuffers.h).
 */
module FlexKnownBytes {
  import opened Wrappers
  import opened Bytes
  import opened FlexWidths
  import opened FlexBuffers
  import opened FlexRoundTrip

  /** A tree built behind `buf`, as the root. */
  function Built(buf: seq<Byte>, forced: BitWidth, t: Tree): seq<Byte>
    requires t.Fits()
  {
    var (b, v) := Build(buf, forced, t);
    Finish(b, v)
  }

  lemma OneByte(v: nat)
    ensures WriteLE(v, 1) == [v % 256]
  {
    WriteStep(v, 1);
  }

  /** Bytes need no padding. */
  lemma BytesAligned(buf: seq<Byte>)
    ensures Align(buf, 0) == buf
  {
    assert PaddingBytes(|buf|, 1) == 0;
    assert buf + Zeros(0) == buf;
  }

  /** A root of one byte: the byte, its packed type and the width. */
  lemma ByteRoot(buf: seq<Byte>, v: Value, field: Byte)
    requires v.Valid(|buf|) && v.ElemWidth(|buf|, 0) == 0 && field == v.Field(|buf|) % 256
    ensures Finish(buf, v) == buf + [field, v.Packed(0), 1]
  {
    BytesAligned(buf);
    OneByte(v.Field(|buf|));
    assert buf + [field] + [v.Packed(0), 1] == buf + [field, v.Packed(0), 1];
  }

  // ----- integers -----

  lemma SmallWidth(i: int)
    requires -128 <= i < 128
    ensures WidthI(i) == 0
    ensures Pattern(i) % 256 == if i >= 0 then i else 256 + i
  {
    if i < 0 {
      ModUnique(Pattern(i), 256, SIZE_T / 256 - 1, 256 + i);
    }
    var w := WidthI(i);
    assert w > 0 ==> Limit(w - 1) >= 0x100;
  }

  lemma IntRoot(buf: seq<Byte>, i: int, v: Value)
    requires -128 <= i < 128 && v == Value(Pattern(i), Int, WidthI(i))
    ensures Finish(buf, v) == buf + [if i >= 0 then i else 256 + i, 4, 1]
  {
    SmallWidth(i);
    ByteRoot(buf, v, if i >= 0 then i else 256 + i);
  }

  lemma SmallIntIs(buf: seq<Byte>, forced: BitWidth, i: int)
    requires -128 <= i < 128
    ensures Built(buf, forced, TInt(i)) == buf + [if i >= 0 then i else 256 + i, 4, 1]
  {
    IntRoot(buf, i, Value(Pattern(i), Int, WidthI(i)));
  }

  // ----- strings and blobs -----

  /** The length, the data and the trailing zeros; the value refers to the data. */
  lemma ShortBlob(buf: seq<Byte>, s: seq<Byte>, trailing: nat, kind: Kind)
    requires |s| < 256 && !kind.Inline()
    ensures CreateBlob(buf, s, trailing, kind) == (buf + [|s|] + (s + Zeros(trailing)), Value(|buf| + 1, kind, 0))
  {
    BytesAligned(buf);
    OneByte(|s|);
  }

  /** The root leads back to the first byte of the data. */
  lemma DataRoot(b: seq<Byte>, v: Value, n: nat)
    requires !v.kind.Inline() && n < 256 && |b| == v.bits + n && |b| < 2 * MAX_FLEX
    ensures Finish(b, v) == b + [n, v.minWidth + 4 * v.kind.Code(), 1]
  {
    assert OffsetLoc(|b|, 0, 0) == |b| by {
      assert PaddingBytes(|b|, 1) == 0;
    }
    assert RelOffset(v.bits, |b|, 0, 0) == n;
    ByteRoot(b, v, n);
  }

  lemma ShortStringIs(buf: seq<Byte>, forced: BitWidth, s: seq<Byte>)
    requires |s| < 255 && |buf| < MAX_FLEX
    ensures Built(buf, forced, TString(s)) == buf + [|s|] + (s + [0]) + [|s| + 1, 20, 1]
  {
    var (b, v) := CreateBlob(buf, s, 1, String);
    ShortBlob(buf, s, 1, String);
    assert Zeros(1) == [0];
    DataRoot(b, v, |s| + 1);
  }

  lemma ShortBlobIs(buf: seq<Byte>, forced: BitWidth, s: seq<Byte>)
    requires |s| < 256 && |buf| < MAX_FLEX
    ensures Built(buf, forced, TBlob(s)) == buf + [|s|] + s + [|s|, 100, 1]
  {
    var (b, v) := CreateBlob(buf, s, 0, Blob);
    ShortBlob(buf, s, 0, Blob);
    assert s + Zeros(0) == s;
    DataRoot(b, v, |s|);
  }

  // ----- vectors of narrow scalars -----

  /** Nulls, booleans and integers of one byte, on the builder's stack. */
  predicate Narrow(v: Value) {
    v.kind.Inline() && v.minWidth == 0 && v.bits < SIZE_T
  }

  predicate AllNarrow(vs: seq<Value>) {
    forall k :: 0 <= k < |vs| ==> Narrow(vs[k])
  }

  function ScalarType(v: Value): Byte {
    if v.kind.Int? then 4 else if v.kind.UInt? then 8 else if v.kind.Bool? then 104 else 0
  }

  function ScalarBytes(vs: seq<Value>): seq<Byte> {
    seq(|vs|, k requires 0 <= k < |vs| => vs[k].bits % 256)
  }

  function ScalarTypes(vs: seq<Value>): seq<Byte> {
    seq(|vs|, k requires 0 <= k < |vs| => ScalarType(vs[k]))
  }

  lemma {:induction false} NarrowWidth(vs: seq<Value>, n: nat, bufSize: nat)
    requires AllNarrow(vs) && n <= |vs|
    ensures WidestElem(vs, n, bufSize, 1, 1) == 0
  {
    if n > 0 {
      NarrowWidth(vs, n - 1, bufSize);
      assert Narrow(vs[n - 1]);
    }
  }

  lemma {:induction false} ElemBytes(buf: seq<Byte>, vs: seq<Value>, w: BitWidth)
    requires AllNarrow(vs) && w == 0
    ensures AllValid(vs, |buf|) && WriteElems(buf, vs, w) == buf + ScalarBytes(vs)
  {
    if vs != [] {
      var n := |vs| - 1;
      ElemBytes(buf, vs[..n], w);
      assert Narrow(vs[n]);
      OneByte(vs[n].bits);
      assert ScalarBytes(vs) == ScalarBytes(vs[..n]) + [vs[n].bits % 256];
    }
  }

  lemma {:induction false} TypeBytes(vs: seq<Value>, w: BitWidth)
    requires AllNarrow(vs) && w == 0
    ensures PackedTypes(vs, w) == ScalarTypes(vs)
  {
    if vs != [] {
      var n := |vs| - 1;
      TypeBytes(vs[..n], w);
      assert Narrow(vs[n]);
      assert ScalarTypes(vs) == ScalarTypes(vs[..n]) + [ScalarType(vs[n])];
    }
  }

  lemma NarrowVector(buf: seq<Byte>, vs: seq<Value>, n: Byte)
    requires AllNarrow(vs) && n == |vs|
    ensures AllValid(vs, |buf|) && VectorWidth(|buf|, vs, 1, 0, None) == 0
    ensures CreateVector(buf, vs, 1, 0, None) ==
              (buf + [n] + ScalarBytes(vs) + ScalarTypes(vs), Value(|buf| + 1, Vector, 0))
  {
    NarrowWidth(vs, |vs|, |buf|);
    BytesAligned(buf);
    OneByte(n);
    ElemBytes(buf + [n], vs, 0);
    TypeBytes(vs, 0);
  }

  /** The length, the elements, their types; the root leads back to the first element. */
  lemma NarrowVectorIs(buf: seq<Byte>, vs: seq<Value>, n: nat)
    requires AllNarrow(vs) && n == |vs| < 128 && |buf| < MAX_FLEX
    ensures AllValid(vs, |buf|)
    ensures var (b, v) := CreateVector(buf, vs, 1, 0, None);
            Finish(b, v) == buf + [n] + ScalarBytes(vs) + ScalarTypes(vs) + [2 * n, 40, 1]
  {
    NarrowVector(buf, vs, n);
    var (b, v) := CreateVector(buf, vs, 1, 0, None);
    DataRoot(b, v, 2 * n);
  }
}
