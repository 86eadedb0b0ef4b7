/** Vectors and the finished buffer, as a reader finds them. */
module VectorLayout {
  import opened Wrappers
  import opened Bytes
  import opened Tables
  import opened Layout
  import opened TableLayout

  lemma AlignmentsDivide(small: nat, large: nat)
    requires IsAlignment(small) && IsAlignment(large) && small <= large
    ensures large % small == 0
  {
  }

  lemma NoPadding(size: nat, a: nat)
    requires a > 0 && size % a == 0
    ensures PaddingBytes(size, a) == 0
  {
  }

  // ----- StartVector -----

  /**
    The two successive `PreAlign` calls do not undo each other: once the `len`
    elements are in, both the length field and the first element are aligned.
   */
  lemma StartVectorAligns(b: Builder, len: nat, elemSize: nat, alignment: nat)
    requires IsAlignment(alignment) && len * elemSize > 0
    ensures var s := StartVector(b, len, elemSize, alignment);
            && (|s.data| + len * elemSize) % 4 == 0
            && (|s.data| + len * elemSize) % alignment == 0
            && EndsWith(s.data, b.data)
  {
    var bytes := len * elemSize;
    var p := PreAlign(b.(nested := true), bytes, 4);
    var s := PreAlign(p, bytes, alignment);
    PaddingAligns(|b.data| + bytes, 4);
    PaddingAligns(|p.data| + bytes, alignment);
    StartVectorPads(b, bytes, alignment);
    if alignment >= 4 {
      AlignmentsDivide(4, alignment);
      MultipleOfMultiple(|s.data| + bytes, alignment, 4);
    } else {
      AlignmentsDivide(alignment, 4);
      MultipleOfMultiple(|p.data| + bytes, 4, alignment);
      NoPadding(|p.data| + bytes, alignment);
    }
  }

  lemma StartVectorPads(b: Builder, bytes: nat, alignment: nat)
    requires alignment > 0 && bytes > 0
    ensures var p := PreAlign(b.(nested := true), bytes, 4);
            var s := PreAlign(p, bytes, alignment);
            && |p.data| == |b.data| + PaddingBytes(|b.data| + bytes, 4)
            && |s.data| == |p.data| + PaddingBytes(|p.data| + bytes, alignment)
            && EndsWith(s.data, b.data)
  {
    var p := PreAlign(b.(nested := true), bytes, 4);
    var s := PreAlign(p, bytes, alignment);
    EndsWithPrefix(Zeros(PaddingBytes(|b.data| + bytes, 4)), b.data);
    EndsWithPrefix(Zeros(PaddingBytes(|p.data| + bytes, alignment)), p.data);
    SuffixTrans(b.data, p.data, s.data);
  }

  // ----- vectors of structs -----

  /** A vector `o` from the end: its length, then directly the elements' bytes. */
  predicate BytesVectorHolds(data: seq<Byte>, o: nat, len: nat, bytes: seq<Byte>) {
    && o % 4 == 0 && 4 + |bytes| <= o <= |data|
    && ReadScalar(data, |data| - o, 4) == Some(len)
    && BytesAt(data, |data| - o + 4, bytes)
  }

  lemma PushAligned(b: Builder, v: nat)
    requires |b.data| % 4 == 0
    ensures PushElement(b, v, 4).data == WriteLE(v, 4) + b.data
    ensures (|b.data| + 4) % 4 == 0
  {
    NoPadding(|b.data|, 4);
    assert Zeros(0) + b.data == b.data;
    SumOfMultiples(|b.data|, 4, 4);
  }

  lemma LengthInFront(data: seq<Byte>, len: nat, bytes: seq<Byte>, rest: seq<Byte>)
    requires len < U32 && data == WriteLE(len, 4) + (bytes + rest) && |data| % 4 == 0
    ensures BytesVectorHolds(data, |data|, len, bytes) && EndsWith(data, rest)
  {
    Pow256Values();
    ReadHead(len, 4, bytes + rest);
    assert data[4..4 + |bytes|] == bytes;
    EndsWithPrefix(bytes, rest);
    EndsWithPrefix(WriteLE(len, 4), bytes + rest);
    SuffixTrans(rest, bytes + rest, data);
  }

  lemma CreateVectorReads(b: Builder, bytes: seq<Byte>, len: nat, elemSize: nat, alignment: nat)
    requires IsAlignment(alignment) && elemSize > 0 && |bytes| == len * elemSize && len < U32
    ensures var (r, o) := CreateVector(b, bytes, len, elemSize, alignment);
            && o == |r.data| && BytesVectorHolds(r.data, o, len, bytes)
            && EndsWith(r.data, b.data) && |r.data| > |b.data|
            && (len > 0 ==> (o - 4) % alignment == 0)
  {
    var (r, o) := CreateVector(b, bytes, len, elemSize, alignment);
    var s := StartVector(b, len, elemSize, alignment);
    if len > 0 {
      StartVectorAligns(b, len, elemSize, alignment);
      PushAligned(s.(data := bytes + s.data, nested := false), len);
      LengthInFront(r.data, len, bytes, s.data);
      SuffixTrans(b.data, s.data, r.data);
    } else {
      Pow256Values();
      assert bytes + s.data == b.data;
      PushElementReads(s.(nested := false), 0, 4);
      assert r.data[4..4] == [];
      PushElementEnds(s.(nested := false), 0);
    }
  }

  lemma PushElementEnds(b: Builder, v: nat)
    ensures EndsWith(PushElement(b, v, 4).data, b.data)
  {
    var a := Align(b, 4);
    EndsWithPrefix(Zeros(PaddingBytes(|b.data|, 4)), b.data);
    EndsWithPrefix(WriteLE(v, 4), a.data);
    SuffixTrans(b.data, a.data, PushElement(b, v, 4).data);
  }

  // ----- vectors of offsets -----

  /** The reference stored `e` from the end leads to `off` from the end. */
  predicate RefersAt(data: seq<Byte>, e: nat, off: nat) {
    && off < e <= |data|
    && ReadScalar(data, |data| - e, 4).Some? && ReadScalar(data, |data| - e, 4).value == e - off
  }

  lemma RefersStays(data: seq<Byte>, base: seq<Byte>, e: nat, off: nat)
    requires EndsWith(data, base) && RefersAt(base, e, off)
    ensures RefersAt(data, e, off)
  {
    var pre := data[..|data| - |base|];
    assert data == pre + base;
    ReadUnderPrefix(pre, base, |base| - e, 4);
  }

  lemma PushOffsetReads(b: Builder, off: nat)
    requires 0 < off <= |b.data| && |b.data| % 4 == 0
    ensures var p := PushOffset(b, off);
            && |p.data| == |b.data| + 4 && |p.data| % 4 == 0 && EndsWith(p.data, b.data)
            && (|p.data| < U32 ==> RefersAt(p.data, |p.data|, off))
  {
    var (a, v) := ReferTo(b, off);
    NoPadding(|b.data|, 4);
    assert a.data == b.data;
    PushAligned(a, v);
    EndsWithPrefix(WriteLE(v, 4), b.data);
    Pow256Values();
    if |b.data| + 4 < U32 {
      ReadHead(v, 4, b.data);
    }
  }

  lemma {:induction false} PushOffsetsShape(b: Builder, offs: seq<nat>)
    requires OffsetsWithin(b, offs) && |b.data| % 4 == 0
    ensures var r := PushOffsets(b, offs);
            |r.data| == |b.data| + 4 * |offs| && |r.data| % 4 == 0 && EndsWith(r.data, b.data)
    decreases |offs|
  {
    if offs != [] {
      var n := |offs| - 1;
      var p := PushOffset(b, offs[n]);
      PushOffsetsLast(b, offs);
      PushOffsetReads(b, offs[n]);
      PushOffsetsShape(p, offs[..n]);
      SuffixTrans(b.data, p.data, PushOffsets(p, offs[..n]).data);
    }
  }

  /** The offset pushed first is the vector's last element. */
  lemma FirstOffsetReads(b: Builder, offs: seq<nat>, data: seq<Byte>)
    requires OffsetsWithin(b, offs) && |b.data| % 4 == 0 && offs != [] && data == PushOffsets(b, offs).data && |data| < U32
    ensures RefersAt(data, |b.data| + 4, offs[|offs| - 1])
  {
    var n := |offs| - 1;
    var p := PushOffset(b, offs[n]);
    PushOffsetsLast(b, offs);
    OffsetStep(b, offs[n], p);
    PushOffsetsShape(p, offs[..n]);
    OffsetStays(b, offs[n], p, data);
  }

  lemma OffsetStays(b: Builder, off: nat, p: Builder, data: seq<Byte>)
    requires 0 < off <= |b.data| && |b.data| % 4 == 0 && p == PushOffset(b, off)
    requires EndsWith(data, p.data) && |data| < U32
    ensures RefersAt(data, |b.data| + 4, off)
  {
    PushOffsetReads(b, off);
    RefersStays(data, p.data, |p.data|, off);
  }

  lemma OffsetStep(b: Builder, off: nat, p: Builder)
    requires 0 < off <= |b.data| && |b.data| % 4 == 0 && p == PushOffset(b, off)
    ensures |p.data| == |b.data| + 4 && |p.data| % 4 == 0
  {
    PushOffsetReads(b, off);
  }

  lemma {:induction false} PushOffsetsReads(b: Builder, offs: seq<nat>, i: nat, e: nat)
    requires OffsetsWithin(b, offs) && |b.data| % 4 == 0 && i < |offs| && e == |b.data| + 4 * (|offs| - i)
    requires |PushOffsets(b, offs).data| < U32
    ensures RefersAt(PushOffsets(b, offs).data, e, offs[i])
    decreases |offs|
  {
    var n := |offs| - 1;
    if i < n {
      var p := PushOffset(b, offs[n]);
      PushOffsetsLast(b, offs);
      OffsetStep(b, offs[n], p);
      PushOffsetsReads(p, offs[..n], i, e);
    } else {
      FirstOffsetReads(b, offs, PushOffsets(b, offs).data);
    }
  }

  /** What is readable in `base` is readable in any buffer that ends with it. */
  lemma ReadBehind(data: seq<Byte>, base: seq<Byte>, p: nat, n: nat)
    requires EndsWith(data, base) && ReadScalar(base, p, n).Some?
    ensures ReadScalar(data, |data| - |base| + p, n) == ReadScalar(base, p, n)
  {
    var pre := data[..|data| - |base|];
    assert data == pre + base;
    ReadUnderPrefix(pre, base, p, n);
  }

  /** A vector of references `o` from the end, element `i` leading to `offs[i]` from the end. */
  predicate OffsetVectorHolds(data: seq<Byte>, o: nat, offs: seq<nat>) {
    && o % 4 == 0 && 4 + 4 * |offs| <= o <= |data|
    && VectorSize(data, |data| - o) == Some(|offs|)
    && forall i :: 0 <= i < |offs| ==> RefersAt(data, o - 4 - 4 * i, offs[i])
  }

  /** Following the reference in element `i`. */
  lemma ElementReads(data: seq<Byte>, o: nat, offs: seq<nat>, i: nat)
    requires OffsetVectorHolds(data, o, offs) && i < |offs|
    ensures GetIndirect(data, |data| - o, i).Some? && GetIndirect(data, |data| - o, i).value == |data| - offs[i]
  {
    assert RefersAt(data, o - 4 - 4 * i, offs[i]);
  }

  lemma CreateVectorOfOffsetsReads(b: Builder, offs: seq<nat>)
    requires OffsetsWithin(b, offs) && |CreateVectorOfOffsets(b, offs).0.data| < U32
    ensures var (r, o) := CreateVectorOfOffsets(b, offs);
            && o == |r.data| && OffsetVectorHolds(r.data, o, offs)
            && EndsWith(r.data, b.data) && |r.data| > |b.data|
  {
    var (r, o) := CreateVectorOfOffsets(b, offs);
    var s := StartVector(b, |offs|, 4, 4);
    Pow256Values();
    if offs == [] {
      PushElementReads(s.(nested := false), 0, 4);
      PushElementEnds(s.(nested := false), 0);
    } else {
      OffsetsStart(b, offs);
      var p := PushOffsets(s, offs);
      PushOffsetsShape(s, offs);
      PushAligned(p.(nested := false), |offs|);
      EndVectorReads(p.data, s, offs, r.data);
      SuffixTrans(b.data, s.data, r.data);
    }
  }

  lemma ModOfSum(x: nat, n: nat)
    requires (x + n * 4) % 4 == 0
    ensures x % 4 == 0
  {
  }

  lemma OffsetsStart(b: Builder, offs: seq<nat>)
    requires OffsetsWithin(b, offs) && offs != []
    ensures var s := StartVector(b, |offs|, 4, 4);
            |s.data| % 4 == 0 && OffsetsWithin(s, offs) && EndsWith(s.data, b.data)
  {
    var s := StartVector(b, |offs|, 4, 4);
    StartVectorAligns(b, |offs|, 4, 4);
    ModOfSum(|s.data|, |offs|);
    OffsetsStillWithin(b, s, offs);
  }

  lemma ElementStays(elements: seq<Byte>, s: Builder, offs: seq<nat>, data: seq<Byte>, i: nat, e: nat)
    requires OffsetsWithin(s, offs) && |s.data| % 4 == 0 && i < |offs| && e == |s.data| + 4 * (|offs| - i)
    requires elements == PushOffsets(s, offs).data && EndsWith(data, elements) && |data| < U32
    ensures RefersAt(data, e, offs[i])
  {
    PushOffsetsReads(s, offs, i, e);
    RefersStays(data, elements, e, offs[i]);
  }

  lemma AllElementsStay(elements: seq<Byte>, s: Builder, offs: seq<nat>, data: seq<Byte>, o: nat)
    requires OffsetsWithin(s, offs) && |s.data| % 4 == 0 && o == |s.data| + 4 * |offs| + 4
    requires elements == PushOffsets(s, offs).data && EndsWith(data, elements) && |data| < U32
    ensures forall i :: 0 <= i < |offs| ==> RefersAt(data, o - 4 - 4 * i, offs[i])
  {
    forall i | 0 <= i < |offs|
      ensures RefersAt(data, o - 4 - 4 * i, offs[i])
    {
      ElementStays(elements, s, offs, data, i, o - 4 - 4 * i);
    }
  }

  lemma EndVectorReads(elements: seq<Byte>, s: Builder, offs: seq<nat>, data: seq<Byte>)
    requires OffsetsWithin(s, offs) && |s.data| % 4 == 0 && offs != []
    requires elements == PushOffsets(s, offs).data && data == WriteLE(|offs|, 4) + elements
    requires |data| < U32 && |data| % 4 == 0
    ensures OffsetVectorHolds(data, |data|, offs) && EndsWith(data, s.data)
  {
    PushOffsetsShape(s, offs);
    EndsWithPrefix(WriteLE(|offs|, 4), elements);
    SuffixTrans(s.data, elements, data);
    AllElementsStay(elements, s, offs, data, |data|);
    Pow256Values();
    ReadHead(|offs|, 4, elements);
  }

  lemma OffsetsStillWithin(b: Builder, s: Builder, offs: seq<nat>)
    requires OffsetsWithin(b, offs) && |s.data| >= |b.data|
    ensures OffsetsWithin(s, offs)
  {
  }

  // ----- Finish -----

  /** The finished size is a multiple of every alignment used, and the root is found from the front. */
  lemma FinishReads(b: Builder, root: nat)
    requires 0 < root <= |b.data| && IsAlignment(b.minAlign) && b.minAlign >= 4
    requires |Finish(b, root).data| < U32
    ensures var r := Finish(b, root);
            && EndsWith(r.data, b.data) && |b.data| + 4 <= |r.data| < |b.data| + 4 + b.minAlign
            && |r.data| % b.minAlign == 0 && |r.data| % 4 == 0
            && GetRoot(r.data).Some? && GetRoot(r.data).value == |r.data| - root
  {
    var r := Finish(b, root);
    var p := PreAlign(b.(vtables := []), 4, b.minAlign);
    PaddingAligns(|b.data| + 4, b.minAlign);
    AlignmentsDivide(4, b.minAlign);
    MultipleOfMultiple(|p.data| + 4, b.minAlign, 4);
    DifferenceOfMultiples(|p.data| + 4, 4, 4);
    NoPadding(|p.data|, 4);
    var (a, v) := ReferTo(p, root);
    assert a.data == p.data;
    PushAligned(a, v);
    Pow256Values();
    ReadHead(v, 4, p.data);
    EndsWithPrefix(Zeros(PaddingBytes(|b.data| + 4, b.minAlign)), b.data);
    EndsWithPrefix(WriteLE(v, 4), p.data);
    SuffixTrans(b.data, p.data, r.data);
  }

  // ----- everything written stays where it is -----

  lemma FieldStays(pre: seq<Byte>, base: seq<Byte>, t: nat, w: Write)
    requires FieldHolds(base, t, w)
    ensures FieldHolds(pre + base, |pre| + t, w)
  {
    FieldOffsetUnderPrefix(pre, base, t, w.id);
    var f := GetOptionalFieldOffset(base, t, w.id).value;
    if !w.Skipped() {
      StoredUnderPrefix(pre, base, FieldLoc(|base| - t - f, w.id), w);
    }
  }

  lemma VTableStays(pre: seq<Byte>, base: seq<Byte>, t: nat)
    requires GetVTable(base, t).Some? && GetVTable(base, t).value <= |base|
    requires VTableHolds(base, |base| - GetVTable(base, t).value)
    ensures GetVTable(pre + base, |pre| + t) == Some(|pre| + GetVTable(base, t).value)
    ensures VTableHolds(pre + base, |base| - GetVTable(base, t).value)
  {
    ReadUnderPrefix(pre, base, t, 4);
    VTableUnderPrefix(pre, base, |base| - GetVTable(base, t).value);
  }

  lemma TableUnderPrefix(pre: seq<Byte>, base: seq<Byte>, o: nat, ws: seq<Write>)
    requires TableHolds(base, o, ws)
    ensures TableHolds(pre + base, o, ws)
  {
    var t := |base| - o;
    VTableStays(pre, base, t);
    forall i | 0 <= i < |ws|
      ensures FieldHolds(pre + base, |pre| + t, ws[i])
    {
      FieldStays(pre, base, t, ws[i]);
    }
    forall id: nat | Unwritten(ws, id)
      ensures GetOptionalFieldOffset(pre + base, |pre| + t, id) == Some(0)
    {
      FieldOffsetUnderPrefix(pre, base, t, id);
    }
  }

  lemma TableStays(data: seq<Byte>, base: seq<Byte>, o: nat, ws: seq<Write>)
    requires EndsWith(data, base) && TableHolds(base, o, ws)
    ensures TableHolds(data, o, ws)
  {
    var pre := data[..|data| - |base|];
    assert data == pre + base;
    TableUnderPrefix(pre, base, o, ws);
  }

  lemma BytesVectorStays(data: seq<Byte>, base: seq<Byte>, o: nat, len: nat, bytes: seq<Byte>)
    requires EndsWith(data, base) && BytesVectorHolds(base, o, len, bytes)
    ensures BytesVectorHolds(data, o, len, bytes)
  {
    var pre := data[..|data| - |base|];
    assert data == pre + base;
    ReadUnderPrefix(pre, base, |base| - o, 4);
    BytesUnderPrefix(pre, base, |base| - o + 4, bytes);
  }

  lemma OffsetVectorStays(data: seq<Byte>, base: seq<Byte>, o: nat, offs: seq<nat>)
    requires EndsWith(data, base) && OffsetVectorHolds(base, o, offs)
    ensures OffsetVectorHolds(data, o, offs)
  {
    ReadBehind(data, base, |base| - o, 4);
    forall i | 0 <= i < |offs|
      ensures RefersAt(data, o - 4 - 4 * i, offs[i])
    {
      assert RefersAt(base, o - 4 - 4 * i, offs[i]);
      RefersStays(data, base, o - 4 - 4 * i, offs[i]);
    }
  }
}
