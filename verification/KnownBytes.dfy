/**
  Two finished messages, byte by byte: the reply to an invalid request and a response
  with one row. The layout is given here in numbers, so that a writer and a reader that
  agree with each other but not with the format are found out (flatbuffer_builder.h,
  pricing_request_generated.h).
 */
module KnownBytes {
  import opened Wrappers
  import opened Bytes
  import opened Layout
  import opened TableLayout
  import opened Messages

  lemma SmallBytes(v: Byte)
    ensures WriteLE(v, 2) == [v, 0]
    ensures WriteLE(v, 4) == [v, 0, 0, 0]
  {
    WriteStep(v, 2);
    WriteStep(0, 1);
    WriteStep(v, 4);
    WriteStep(0, 3);
    WriteStep(0, 2);
  }

  lemma NoPadding(b: Builder, size: Positive)
    requires |b.data| % size == 0
    ensures Align(b, size) == TrackMinAlign(b, size)
  {
    assert PaddingBytes(|b.data|, size) == 0;
    assert Zeros(0) + b.data == b.data;
  }

  /** A table with a new vtable: the vtable in front of a link that leads to it. */
  lemma NewTable(b: Builder, start: nat, vt: seq<Byte>)
    requires Tracked(b, start) && |b.data| % 4 == 0
    requires NewVTable(b, start, |b.data| + 4) == vt
    requires FindVTable(b.data, b.vtables, vt) == None
    ensures EndTable(b, start, true) == (LinkTable(TrackMinAlign(b, 4), vt, None), |b.data| + 4)
  {
    NoPadding(b, 4);
    var a := Align(b, 4);
    assert a.data == b.data && a.fields == b.fields && a.maxVOffset == b.maxVOffset;
    assert NewVTable(b, start, |a.data| + 4) == vt;
  }

  lemma Linked(a: Builder, vt: seq<Byte>)
    requires |vt| < 256
    ensures var r := LinkTable(a, vt, None);
            && r.data == vt + ([|vt|, 0, 0, 0] + a.data)
            && r.vtables == a.vtables + [|a.data| + 4 + |vt|]
            && r.minAlign == a.minAlign
  {
    SmallBytes(|vt|);
    assert FromSigned32(|vt|) == |vt|;
  }

  /** An offset that is already aligned. */
  lemma AlignedOffset(b: Builder, off: nat, v: Byte)
    requires |b.data| % 4 == 0 && 0 < off <= |b.data| && v == |b.data| - off + 4
    ensures PushOffset(b, off) == b.(data := [v, 0, 0, 0] + b.data, minAlign := Max(4, b.minAlign))
  {
    NoPadding(b, 4);
    NoPadding(Align(b, 4), 4);
    SmallBytes(v);
  }

  /** The root offset lies in front of everything, behind it padding for the root's alignment. */
  lemma Finished(b: Builder, root: nat, pad: nat, v: Byte)
    requires 0 < root <= |b.data| && pad == PaddingBytes(|b.data| + 4, b.minAlign)
    requires (|b.data| + pad) % 4 == 0 && v == |b.data| + pad - root + 4
    ensures Finish(b, root).data == [v, 0, 0, 0] + (Zeros(pad) + b.data)
  {
    var p := PreAlign(b.(vtables := []), 4, b.minAlign);
    assert p.data == Zeros(pad) + b.data;
    AlignedOffset(p, root, v);
  }

  /** A stored scalar that is already aligned. */
  lemma AlignedScalar(b: Builder, id: nat, v: nat, size: Positive)
    requires |b.data| % size == 0
    ensures AddElement(b, id, v, size, false) ==
              b.(data := WriteLE(v, size) + b.data, fields := b.fields + [FieldLoc(|b.data| + size, id)],
                 maxVOffset := Max(id, b.maxVOffset), minAlign := Max(size, b.minAlign))
  {
    NoPadding(b, size);
  }

  // ----- the reply to an invalid request -----

  lemma NothingStored(b: Builder, tag: nat, ws: seq<Write>)
    requires tag == 0 && b == StartTable(EMPTY) && ws == ResponseWrites(tag, 0)
    ensures WellFormedWrites(ws) && RefsWithin(ws, |b.data|) && ApplyAll(b, ws) == b
  {
    TaggedWrites(true, tag, 0, 0);
    ApplyAllStep(b, ws, 0);
    ApplyAllStep(b, ws, 1);
    assert ws[..2] == ws && ApplyAll(b, ws[..0]) == b;
  }

  lemma NoSlots(b: Builder)
    requires b == StartTable(EMPTY)
    ensures NewVTable(b, 0, 4) == [4, 0, 4, 0]
  {
    SmallBytes(4);
  }

  lemma EmptyTable(tag: nat, r: (Builder, nat))
    requires tag == 0 && r == PushResponse(EMPTY, tag, 0)
    ensures r.0.data == [4, 0, 4, 0, 4, 0, 0, 0] && r.0.minAlign == 4 && r.1 == 4
  {
    var b, vt: seq<Byte> := StartTable(EMPTY), [4, 0, 4, 0];
    NothingStored(b, tag, ResponseWrites(tag, 0));
    NoSlots(b);
    NewTable(b, 0, vt);
    assert r == EndTable(b, 0, true);
    Linked(TrackMinAlign(b, 4), vt);
  }

  lemma Replied(tag: nat, r: (Builder, nat), reply: seq<Byte>)
    requires tag == 0 && reply == ErrorReplyBytes() && r == PushResponse(EMPTY, tag, 0)
    ensures reply == Finish(r.0, r.1).data
  {
  }

  lemma EmptyFinished(b: Builder, root: nat)
    requires b.data == [4, 0, 4, 0, 4, 0, 0, 0] && b.minAlign == 4 && root == 4
    ensures Finish(b, root).data == [8, 0, 0, 0, 4, 0, 4, 0, 4, 0, 0, 0]
  {
    Finished(b, root, 0, 8);
  }

  lemma EmptyReply(tag: nat, reply: seq<Byte>)
    requires tag == 0 && reply == ErrorReplyBytes()
    ensures reply == [8, 0, 0, 0, 4, 0, 4, 0, 4, 0, 0, 0]
  {
    var r := PushResponse(EMPTY, tag, 0);
    EmptyTable(tag, r);
    EmptyFinished(r.0, r.1);
    Replied(tag, r, reply);
  }

  /** Root offset 8, a vtable without slots, the table's link to it. */
  lemma ErrorReplyIs()
    ensures ErrorReplyBytes() == [8, 0, 0, 0, 4, 0, 4, 0, 4, 0, 0, 0]
  {
    EmptyReply(0, ErrorReplyBytes());
  }

  // ----- a response with one row -----

  /** A small word, read and byte by byte. */
  lemma WordBytes(s: seq<Byte>, p: nat, v: Byte)
    requires ReadScalar(s, p, 2) == Some(v)
    ensures p + 2 <= |s| && s[p] == v && s[p + 1] == 0
  {
    ReadWrite(s[p..p + 2]);
    SmallBytes(v);
    assert s[p..p + 2] == [v, 0];
    assert s[p] == s[p..p + 2][0] && s[p + 1] == s[p..p + 2][1];
  }

  /** Slot by slot: idx at 4, alpha at 8, beta at 12, price at 16. */
  lemma RowSlots(fields: seq<FieldLoc>, vt: seq<Byte>)
    requires fields == [FieldLoc(4, 10), FieldLoc(8, 8), FieldLoc(12, 6), FieldLoc(16, 4)]
    requires SlotsFit(fields, 12, 20) && vt == FillSlots(BlankVTable(12, 20), fields, 20)
    ensures vt == [12, 0, 20, 0, 4, 0, 8, 0, 12, 0, 16, 0]
  {
    var blank := BlankVTable(12, 20);
    BlankReads(12, 20, 0);
    BlankReads(12, 20, 2);
    SlotUntouched(blank, fields, 20, 0);
    SlotUntouched(blank, fields, 20, 2);
    SlotFilled(blank, fields, 20, 0);
    SlotFilled(blank, fields, 20, 1);
    SlotFilled(blank, fields, 20, 2);
    SlotFilled(blank, fields, 20, 3);
    WordBytes(vt, 0, 12);
    WordBytes(vt, 2, 20);
    WordBytes(vt, 4, 4);
    WordBytes(vt, 6, 8);
    WordBytes(vt, 8, 12);
    WordBytes(vt, 10, 16);
  }

  /** Every value but the hedge ratio is stored. */
  predicate OnlyHedgeIsZero(r: Row) {
    && r.Fits() && r.idx != 0 && EqualsZero(r.hedgeRatio)
    && !EqualsZero(r.alpha) && !EqualsZero(r.beta) && !EqualsZero(r.price)
  }

  function RowData(r: Row): (s: seq<Byte>)
    ensures |s| == 16
  {
    WriteLE(r.idx, 4) + (WriteLE(r.alpha, 4) + (WriteLE(r.beta, 4) + WriteLE(r.price, 4)))
  }

  /** One more aligned word, put in front and tracked. */
  predicate WordAdded(mid: Builder, next: Builder, id: nat, v: nat) {
    && next.data == WriteLE(v, 4) + mid.data
    && next.fields == mid.fields + [FieldLoc(|mid.data| + 4, id)]
    && next.maxVOffset == Max(id, mid.maxVOffset) && next.minAlign == Max(4, mid.minAlign)
    && next.vtables == mid.vtables
  }

  lemma WordStored(mid: Builder, id: nat, v: nat)
    ensures WordNext(mid, AddElement(mid, id, v, 4, false), id, v)
  {
    if |mid.data| % 4 == 0 {
      AlignedScalar(mid, id, v, 4);
    }
  }

  predicate RowBuilt(end: Builder, r: Row) {
    && end.data == RowData(r)
    && end.fields == [FieldLoc(4, 10), FieldLoc(8, 8), FieldLoc(12, 6), FieldLoc(16, 4)]
    && end.maxVOffset == 10 && end.minAlign == 4 && end.vtables == []
  }

  predicate WordNext(mid: Builder, next: Builder, id: nat, v: nat) {
    |mid.data| % 4 == 0 ==> WordAdded(mid, next, id, v)
  }

  predicate RowSteps(b: Builder, price: Builder, beta: Builder, alpha: Builder, end: Builder, r: Row) {
    && WordNext(b, price, 10, r.price) && WordNext(price, beta, 8, r.beta)
    && WordNext(beta, alpha, 6, r.alpha) && WordNext(alpha, end, 4, r.idx)
  }

  lemma RowAdded(b: Builder, price: Builder, beta: Builder, alpha: Builder, end: Builder, r: Row)
    requires b == StartTable(EMPTY)
    ensures RowSteps(b, price, beta, alpha, end, r) ==> RowBuilt(end, r)
  {
    if RowSteps(b, price, beta, alpha, end, r) {
      assert price.data == WriteLE(r.price, 4);
      assert beta.data == WriteLE(r.beta, 4) + price.data;
      assert alpha.data == WriteLE(r.alpha, 4) + beta.data;
      assert end.data == RowData(r);
    }
  }

  /** The builder after the first `n` calls. */
  function After(b: Builder, ws: seq<Write>, n: nat): Builder
    requires WellFormedWrites(ws) && RefsWithin(ws, |b.data|) && b.fields == [] && b.maxVOffset == 0 && n <= |ws|
  {
    ApplyAll(b, ws[..n])
  }

  lemma AfterFirst(b: Builder, ws: seq<Write>)
    requires WellFormedWrites(ws) && RefsWithin(ws, |b.data|) && b.fields == [] && b.maxVOffset == 0
    requires ws != [] && ws[0].Skipped()
    ensures After(b, ws, 1) == b
  {
    var one := ws[..1];
    assert ApplyAll(b, one[..0]) == b;
  }

  lemma AfterAll(b: Builder, ws: seq<Write>, n: nat)
    requires WellFormedWrites(ws) && RefsWithin(ws, |b.data|) && b.fields == [] && b.maxVOffset == 0 && n == |ws|
    ensures After(b, ws, n) == ApplyAll(b, ws)
  {
    assert ws[..n] == ws;
  }

  lemma AfterWord(b: Builder, ws: seq<Write>, n: nat, id: nat, v: nat)
    requires WellFormedWrites(ws) && RefsWithin(ws, |b.data|) && b.fields == [] && b.maxVOffset == 0
    requires n < |ws| && ws[n] == Scalar(id, 4, v, false)
    ensures WordNext(After(b, ws, n), After(b, ws, n + 1), id, v)
  {
    ApplyAllStep(b, ws, n);
    WordStored(After(b, ws, n), id, v);
  }

  /** The calls of a row: nothing for the hedge ratio, then four words. */
  predicate RowCalls(ws: seq<Write>, r: Row) {
    && |ws| == 5 && ws[0].Skipped()
    && ws[1] == Scalar(10, 4, r.price, false) && ws[2] == Scalar(8, 4, r.beta, false)
    && ws[3] == Scalar(6, 4, r.alpha, false) && ws[4] == Scalar(4, 4, r.idx, false)
  }

  lemma RowStepped(b: Builder, r: Row, ws: seq<Write>)
    requires RowCalls(ws, r) && WellFormedWrites(ws) && RefsWithin(ws, |b.data|) && b == StartTable(EMPTY)
    ensures After(b, ws, 1) == b
    ensures WordNext(After(b, ws, 1), After(b, ws, 2), 10, r.price) && WordNext(After(b, ws, 2), After(b, ws, 3), 8, r.beta)
    ensures WordNext(After(b, ws, 3), After(b, ws, 4), 6, r.alpha) && WordNext(After(b, ws, 4), After(b, ws, 5), 4, r.idx)
  {
    AfterFirst(b, ws);
    AfterWord(b, ws, 1, 10, r.price);
    AfterWord(b, ws, 2, 8, r.beta);
    AfterWord(b, ws, 3, 6, r.alpha);
    AfterWord(b, ws, 4, 4, r.idx);
  }

  lemma RowStored(b: Builder, r: Row, ws: seq<Write>)
    requires OnlyHedgeIsZero(r) && b == StartTable(EMPTY) && ws == RowWrites(r)
    ensures WellFormedWrites(ws) && RefsWithin(ws, |b.data|) && RowBuilt(ApplyAll(b, ws), r)
  {
    FixedWrites(Params(0, 0, 0, 0, 0, 0), r);
    RowStepped(b, r, ws);
    RowAdded(b, After(b, ws, 2), After(b, ws, 3), After(b, ws, 4), After(b, ws, 5), r);
    AfterAll(b, ws, 5);
  }

  lemma RowClosed(b: Builder, r: Row)
    requires RowBuilt(b, r) && Tracked(b, 0)
    ensures var (row, off) := EndTable(b, 0, true);
            && row.data == [12, 0, 20, 0, 4, 0, 8, 0, 12, 0, 16, 0] + ([12, 0, 0, 0] + RowData(r))
            && row.vtables == [32] && row.minAlign == 4 && off == 20
  {
    var vt := NewVTable(b, 0, 20);
    RowSlots(b.fields, vt);
    NewTable(b, 0, vt);
    Linked(TrackMinAlign(b, 4), vt);
  }

  predicate RowPushed(b: Builder, r: Row) {
    && b.data == [12, 0, 20, 0, 4, 0, 8, 0, 12, 0, 16, 0] + ([12, 0, 0, 0] + RowData(r))
    && b.vtables == [32] && b.minAlign == 4 && Idle(b)
  }

  lemma RowTable(r: Row)
    requires OnlyHedgeIsZero(r)
    ensures RowPushed(PushRow(EMPTY, r).0, r) && PushRow(EMPTY, r).1 == 20
  {
    var ws := RowWrites(r);
    RowStored(StartTable(EMPTY), r, ws);
    RowClosed(ApplyAll(StartTable(EMPTY), ws), r);
    assert PushRow(EMPTY, r) == EndTable(ApplyAll(StartTable(EMPTY), ws), 0, true);
  }

  lemma RowAlone(b: Builder, r: Row, rows: seq<Row>)
    requires Idle(b) && r.Fits() && rows == [r]
    ensures RowsFit(rows) && PushRows(b, rows) == (PushRow(b, r).0, [PushRow(b, r).1])
  {
    PushRowsLast(b, rows, 0);
    assert rows[..1] == rows;
    var (mid, offs) := PushRows(b, rows[..0]);
    assert mid == b && offs == [];
    assert offs + [PushRow(b, r).1] == [PushRow(b, r).1];
  }

  lemma NothingPadded(b: Builder)
    requires |b.data| % 4 == 0 && b.minAlign == 4
    ensures StartVector(b, 1, 4, 4) == b.(nested := true)
  {
    assert PaddingBytes(|b.data| + 4, 4) == 0;
    assert Zeros(0) + b.data == b.data;
  }

  /** The length, then the distance from the one element to its table. */
  lemma VectorOfOne(b: Builder, off: nat, v: Byte)
    requires Idle(b) && |b.data| % 4 == 0 && b.minAlign == 4 && 0 < off <= |b.data| && v == |b.data| - off + 4
    ensures OffsetsWithin(b, [off])
    ensures var (r, at) := CreateVectorOfOffsets(b, [off]);
            && r.data == [1, 0, 0, 0] + ([v, 0, 0, 0] + b.data)
            && r.vtables == b.vtables && r.minAlign == 4 && at == |b.data| + 8
  {
    NothingPadded(b);
    var s := b.(nested := true);
    var p := PushOffset(s, off);
    AlignedOffset(s, off, v);
    PushOffsetsLast(s, [off]);
    assert [off][..0] == [];
    assert PushOffsets(p, []) == p;
    NoPadding(p.(nested := false), 4);
    SmallBytes(1);
  }

  /** The tag and the link to the vector are stored, the tag first. */
  predicate ResponseBuilt(end: Builder, b: Builder, tag: nat) {
    && end.data == [12, 0, 0, 0] + (WriteLE(tag, 8) + b.data)
    && end.fields == [FieldLoc(48, 4), FieldLoc(52, 6)]
    && end.maxVOffset == 6 && end.minAlign == 8 && end.vtables == b.vtables
  }

  lemma TagStored(b: Builder, tag: nat, ws: seq<Write>)
    requires Is64(tag) && tag != 0 && Idle(b) && |b.data| == 40 && b.minAlign == 4
    requires ws == ResponseWrites(tag, 40)
    ensures WellFormedWrites(ws) && RefsWithin(ws, |b.data|)
    ensures WellFormedWrites(ws[..1]) && RefsWithin(ws[..1], |b.data|)
    ensures ApplyAll(StartTable(b), ws[..1]) ==
              Builder(WriteLE(tag, 8) + b.data, b.vtables, [FieldLoc(48, 4)], 4, 8, true, b.finished)
  {
    TaggedWrites(true, tag, 40, 0);
    var s := StartTable(b);
    ApplyAllStep(s, ws, 0);
    assert ApplyAll(s, ws[..0]) == s;
    AlignedScalar(s, 4, tag, 8);
    assert s.fields + [FieldLoc(48, 4)] == [FieldLoc(48, 4)];
  }

  lemma VectorStored(b: Builder, off: nat, v: Byte)
    requires |b.data| % 4 == 0 && 0 < off <= |b.data| && v == |b.data| - off + 4
    ensures AddOffset(b, 6, off) ==
              b.(data := [v, 0, 0, 0] + b.data, fields := b.fields + [FieldLoc(|b.data| + 4, 6)],
                 maxVOffset := Max(6, b.maxVOffset), minAlign := Max(4, b.minAlign))
  {
    NoPadding(b, 4);
    AlignedScalar(Align(b, 4), 6, v, 4);
    SmallBytes(v);
  }

  lemma ResponseStored(b: Builder, tag: nat, ws: seq<Write>)
    requires Is64(tag) && tag != 0 && Idle(b) && |b.data| == 40 && b.minAlign == 4
    requires ws == ResponseWrites(tag, 40)
    ensures WellFormedWrites(ws) && RefsWithin(ws, |b.data|)
    ensures ResponseBuilt(ApplyAll(StartTable(b), ws), b, tag)
  {
    TagStored(b, tag, ws);
    var mid := ApplyAll(StartTable(b), ws[..1]);
    ApplyAllStep(StartTable(b), ws, 1);
    assert ws[..2] == ws;
    VectorStored(mid, 40, 12);
  }

  /** The tag at 8, the link at 4. */
  lemma ResponseSlots(fields: seq<FieldLoc>, vt: seq<Byte>)
    requires fields == [FieldLoc(48, 4), FieldLoc(52, 6)]
    requires SlotsFit(fields, 8, 56) && vt == FillSlots(BlankVTable(8, 16), fields, 56)
    ensures vt == [8, 0, 16, 0, 8, 0, 4, 0]
  {
    var blank := BlankVTable(8, 16);
    BlankReads(8, 16, 0);
    BlankReads(8, 16, 2);
    SlotUntouched(blank, fields, 56, 0);
    SlotUntouched(blank, fields, 56, 2);
    SlotFilled(blank, fields, 56, 0);
    SlotFilled(blank, fields, 56, 1);
    WordBytes(vt, 0, 8);
    WordBytes(vt, 2, 16);
    WordBytes(vt, 4, 8);
    WordBytes(vt, 6, 4);
  }

  /** A remembered vtable of another size is not shared. */
  lemma SizesDiffer(data: seq<Byte>, v: nat, vt: seq<Byte>)
    requires v <= |data| && ReadScalar(data, |data| - v, 2).Some? && ReadScalar(data, |data| - v, 2).value != |vt|
    ensures FindVTable(data, [v], vt) == None
  {
    assert FindVTable(data, [v][1..], vt) == None;
  }

  predicate VectorPushed(v: Builder, r: Row) {
    v.data == ResultBytes(r) && v.vtables == [32]
  }

  lemma OldVTable(b: Builder, v: Builder, r: Row, tag: nat)
    requires ResponseBuilt(b, v, tag) && VectorPushed(v, r)
    ensures |b.data| == 52 && ReadScalar(b.data, |b.data| - 32, 2) == Some(12)
  {
    SmallBytes(12);
    Pow256Values();
    assert b.data[20..22] == [12, 0];
    ReadWritten(b.data, 20, 12, 2);
  }

  lemma ResponseClosed(b: Builder, v: Builder, r: Row, tag: nat)
    requires ResponseBuilt(b, v, tag) && Tracked(b, 40) && VectorPushed(v, r)
    ensures var (row, off) := EndTable(b, 40, true);
            && row.data == [8, 0, 16, 0, 8, 0, 4, 0] + ([8, 0, 0, 0] + b.data)
            && row.minAlign == 8 && off == 56
  {
    var vt := NewVTable(b, 40, 56);
    ResponseSlots(b.fields, vt);
    OldVTable(b, v, r, tag);
    SizesDiffer(b.data, 32, vt);
    NewTable(b, 40, vt);
    Linked(TrackMinAlign(b, 4), vt);
  }

  /** The vector, its element's vtable and link, and the row's values. */
  function ResultBytes(r: Row): seq<Byte> {
    [1, 0, 0, 0] + ([16, 0, 0, 0] + ([12, 0, 20, 0, 4, 0, 8, 0, 12, 0, 16, 0] + ([12, 0, 0, 0] + RowData(r))))
  }

  /** The root's vtable and link, the distance to the vector, and the tag. */
  function RootBytes(tag: nat): seq<Byte> {
    [8, 0, 16, 0, 8, 0, 4, 0] + ([8, 0, 0, 0] + ([12, 0, 0, 0] + WriteLE(tag, 8)))
  }

  lemma Regroup(a: seq<Byte>, b: seq<Byte>, c: seq<Byte>, d: seq<Byte>, e: seq<Byte>)
    ensures a + (b + (c + (d + e))) == a + (b + (c + d)) + e
  {
  }

  lemma ResponseTable(v: Builder, r: Row, tag: nat)
    requires Is64(tag) && tag != 0 && Idle(v) && VectorPushed(v, r) && v.minAlign == 4
    ensures var (b, root) := PushResponse(v, tag, 40);
            b.data == RootBytes(tag) + v.data && b.minAlign == 8 && root == 56
  {
    var ws := ResponseWrites(tag, 40);
    ResponseStored(v, tag, ws);
    var end := ApplyAll(StartTable(v), ws);
    ResponseClosed(end, v, r, tag);
    Regroup([8, 0, 16, 0, 8, 0, 4, 0], [8, 0, 0, 0], [12, 0, 0, 0], WriteLE(tag, 8), v.data);
  }

  lemma OneRowBuilder(tag: nat, r: Row, rows: seq<Row>, b: Builder, root: nat)
    requires Is64(tag) && tag != 0 && OnlyHedgeIsZero(r) && rows == [r] && RowsFit(rows)
    requires (b, root) == ResponseBuilder(tag, rows)
    ensures b.data == RootBytes(tag) + ResultBytes(r) && b.minAlign == 8 && root == 56
  {
    RowTable(r);
    var row := PushRow(EMPTY, r).0;
    VectorOfOne(row, 20, 16);
    RowAlone(EMPTY, r, rows);
    ResponseTable(CreateVectorOfOffsets(row, [20]).0, r, tag);
  }

  lemma RootInFront(b: Builder, root: nat)
    requires |b.data| == 64 && b.minAlign == 8 && root == 56
    ensures Finish(b, root).data == [16, 0, 0, 0, 0, 0, 0, 0] + b.data
  {
    Finished(b, root, 4, 16);
    assert Zeros(4) == [0, 0, 0, 0];
  }

  /**
    A finished response: root offset and padding; the root's vtable, its link, the
    distance to the vector and the tag; the vector; the row's vtable, link and values.
   */
  lemma OneRowResponseIs(tag: nat, r: Row, rows: seq<Row>)
    requires Is64(tag) && tag != 0 && rows == [r] && r.Fits() && r.idx != 0 && r.hedgeRatio == 0
    requires r.alpha !in {0, 0x8000_0000} && r.beta !in {0, 0x8000_0000} && r.price !in {0, 0x8000_0000}
    ensures RowsFit(rows)
    ensures ResponseBytes(tag, rows) ==
              [16, 0, 0, 0, 0, 0, 0, 0]
              + ([8, 0, 16, 0, 8, 0, 4, 0] + ([8, 0, 0, 0] + ([12, 0, 0, 0] + WriteLE(tag, 8)))
                 + ([1, 0, 0, 0] + ([16, 0, 0, 0]
                    + ([12, 0, 20, 0, 4, 0, 8, 0, 12, 0, 16, 0] + ([12, 0, 0, 0]
                       + (WriteLE(r.idx, 4) + (WriteLE(r.alpha, 4) + (WriteLE(r.beta, 4) + WriteLE(r.price, 4)))))))))
  {
    var (b, root) := ResponseBuilder(tag, rows);
    OneRowBuilder(tag, r, rows, b, root);
    RootInFront(b, root);
  }
}
