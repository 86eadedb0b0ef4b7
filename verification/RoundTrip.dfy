/** Every message reads back as it was built, for every list of rows or pairs. */
module RoundTrip {
  import opened Wrappers
  import opened Bytes
  import opened Tables
  import opened Layout
  import opened TableLayout
  import opened VectorLayout
  import opened Alignment
  import opened Messages

  // ----- fields -----

  lemma ScalarReads(data: seq<Byte>, o: nat, ws: seq<Write>, i: nat)
    requires TableHolds(data, o, ws) && i < |ws| && ws[i].Scalar?
    ensures GetField(data, |data| - o, ws[i].id, ws[i].size, 0) ==
            Some(if ws[i].isDefault then 0 else ws[i].bits)
  {
    assert FieldHolds(data, |data| - o, ws[i]);
  }

  lemma AbsentReads(data: seq<Byte>, o: nat, ws: seq<Write>, id: nat, size: nat)
    requires TableHolds(data, o, ws) && Unwritten(ws, id)
    ensures GetField(data, |data| - o, id, size, 0) == Some(0)
  {
  }

  lemma RefReads(data: seq<Byte>, o: nat, ws: seq<Write>, i: nat)
    requires TableHolds(data, o, ws) && i < |ws| && ws[i].Ref?
    ensures var p := GetPointer(data, |data| - o, ws[i].id);
            && p.Some?
            && (if ws[i].target == 0 then p.value.Null? else p.value.At? && p.value.pos == |data| - ws[i].target)
  {
    assert FieldHolds(data, |data| - o, ws[i]);
  }

  /** A float field holds every pattern bit for bit, except that both zeros read as the positive one. */
  predicate FloatFieldIs(data: seq<Byte>, t: int, id: nat, f: nat) {
    GetField(data, t, id, 4, 0) == Some(if f == 0 || f == 0x8000_0000 then 0 else f)
  }

  lemma ParamsRead(data: seq<Byte>, o: nat, p: Params)
    requires TableHolds(data, o, ParamsWrites(p))
    ensures ReadParams(data, |data| - o) == Some(p.AsRead())
    ensures var t := |data| - o;
            && GetField(data, t, 4, 1, 0) == Some(0)
            && FloatFieldIs(data, t, 6, p.stockPrice) && FloatFieldIs(data, t, 8, p.strikePrice)
            && FloatFieldIs(data, t, 10, p.interestRate) && FloatFieldIs(data, t, 12, p.timeToMaturity)
            && FloatFieldIs(data, t, 14, p.stockDiscretization)
  {
    var ws := ParamsWrites(p);
    AbsentReads(data, o, ws, 4, 1);
    ScalarReads(data, o, ws, 0);
    ScalarReads(data, o, ws, 1);
    ScalarReads(data, o, ws, 2);
    ScalarReads(data, o, ws, 3);
    ScalarReads(data, o, ws, 4);
  }

  lemma RowReads(data: seq<Byte>, o: nat, row: Row)
    requires TableHolds(data, o, RowWrites(row))
    ensures ReadRow(data, |data| - o) == Some(row.AsRead())
    ensures var t := |data| - o;
            && GetField(data, t, 4, 4, 0) == Some(row.idx)
            && FloatFieldIs(data, t, 6, row.alpha) && FloatFieldIs(data, t, 8, row.beta)
            && FloatFieldIs(data, t, 10, row.price) && FloatFieldIs(data, t, 12, row.hedgeRatio)
  {
    var ws := RowWrites(row);
    ScalarReads(data, o, ws, 0);
    ScalarReads(data, o, ws, 1);
    ScalarReads(data, o, ws, 2);
    ScalarReads(data, o, ws, 3);
    ScalarReads(data, o, ws, 4);
  }

  // ----- vectors -----

  lemma PairReads(data: seq<Byte>, at: nat, p: Pair)
    requires p.Fits() && BytesAt(data, at, PairBytes(p))
    ensures ReadPair(data, at) == Some(p) && PairFieldsAre(data, at, p)
  {
    var s := data[at..at + 12];
    Pow256Values();
    ReadWritten(s, 0, p.idx, 4);
    ReadWritten(s, 4, p.alpha, 4);
    ReadWritten(s, 8, p.beta, 4);
    ReadSlice(data, at, 12, 0, 4);
    ReadSlice(data, at, 12, 4, 4);
    ReadSlice(data, at, 12, 8, 4);
  }

  lemma PairsSplit(data: seq<Byte>, at: nat, pairs: seq<Pair>)
    requires pairs != [] && BytesAt(data, at, PairsBytes(pairs))
    ensures BytesAt(data, at, PairBytes(pairs[0])) && BytesAt(data, at + 12, PairsBytes(pairs[1..]))
  {
    var s := data[at..at + 12 * |pairs|];
    assert data[at..at + 12] == s[..12] == PairBytes(pairs[0]);
    assert data[at + 12..at + 12 + 12 * |pairs[1..]|] == s[12..] == PairsBytes(pairs[1..]);
  }

  lemma {:induction false} PairsReadFrom(data: seq<Byte>, at: nat, pairs: seq<Pair>)
    requires PairsFit(pairs) && BytesAt(data, at, PairsBytes(pairs))
    ensures ReadPairsFrom(data, at, |pairs|) == Some(pairs)
    decreases |pairs|
  {
    if pairs != [] {
      PairsSplit(data, at, pairs);
      PairReads(data, at, pairs[0]);
      PairsReadFrom(data, at + 12, pairs[1..]);
      assert pairs == [pairs[0]] + pairs[1..];
    }
  }

  /** The struct's three fields lie four bytes apart. */
  predicate PairFieldsAre(data: seq<Byte>, at: int, p: Pair) {
    ReadScalar(data, at, 4) == Some(p.idx) && ReadScalar(data, at + 4, 4) == Some(p.alpha)
    && ReadScalar(data, at + 8, 4) == Some(p.beta)
  }

  /** Pair `k` of the vector's bytes, field by field. */
  lemma {:induction false} PairAt(data: seq<Byte>, at: nat, pairs: seq<Pair>, k: nat)
    requires PairsFit(pairs) && BytesAt(data, at, PairsBytes(pairs)) && k < |pairs|
    ensures PairFieldsAre(data, at + 12 * k, pairs[k])
    decreases k
  {
    PairsSplit(data, at, pairs);
    if k == 0 {
      PairReads(data, at, pairs[0]);
    } else {
      PairAt(data, at + 12, pairs[1..], k - 1);
    }
  }

  lemma VectorBytes(data: seq<Byte>, o: nat, vec: nat, n: nat, bytes: seq<Byte>)
    requires BytesVectorHolds(data, o, n, bytes) && vec == |data| - o
    ensures BytesAt(data, vec + 4, bytes) && VectorSize(data, vec) == Some(n)
  {
  }

  lemma PairsRead(data: seq<Byte>, o: nat, vec: nat, pairs: seq<Pair>)
    requires PairsFit(pairs) && BytesVectorHolds(data, o, |pairs|, PairsBytes(pairs)) && vec == |data| - o
    ensures ReadPairs(data, vec) == Some(pairs)
  {
    VectorBytes(data, o, vec, |pairs|, PairsBytes(pairs));
    PairsReadFrom(data, vec + 4, pairs);
    ReadPairsOfSize(data, vec, |pairs|);
  }

  lemma ReadPairsOfSize(data: seq<Byte>, vec: int, n: nat)
    requires VectorSize(data, vec) == Some(n)
    ensures ReadPairs(data, vec) == ReadPairsFrom(data, vec + 4, n)
  {
  }

  ghost predicate RowsHold(data: seq<Byte>, offs: seq<nat>, rows: seq<Row>) {
    && |offs| == |rows|
    && forall i {:trigger TableHolds(data, offs[i], RowWrites(rows[i]))} ::
         0 <= i < |rows| ==> TableHolds(data, offs[i], RowWrites(rows[i]))
  }

  /** Element `i` of the vector leads to a table that reads as row `i`. */
  predicate RowReachable(data: seq<Byte>, vec: int, rows: seq<Row>, i: nat)
    requires i < |rows|
  {
    && GetIndirect(data, vec, i).Some?
    && ReadRow(data, GetIndirect(data, vec, i).value) == Some(rows[i].AsRead())
  }

  lemma {:induction false} RowsReadUpTo(data: seq<Byte>, vec: int, rows: seq<Row>, n: nat)
    requires forall i :: 0 <= i < |rows| ==> RowReachable(data, vec, rows, i)
    requires n <= |rows|
    ensures ReadRowsUpTo(data, vec, n) == Some(RowsAsRead(rows[..n]))
  {
    if n > 0 {
      RowsReadUpTo(data, vec, rows, n - 1);
      assert RowReachable(data, vec, rows, n - 1);
      assert rows[..n][..n - 1] == rows[..n - 1];
    }
  }

  lemma RowsRead(data: seq<Byte>, o: nat, offs: seq<nat>, rows: seq<Row>)
    requires RowsHold(data, offs, rows) && OffsetVectorHolds(data, o, offs)
    ensures ReadRows(data, |data| - o) == Some(RowsAsRead(rows))
  {
    var vec := |data| - o;
    forall i | 0 <= i < |rows|
      ensures RowReachable(data, vec, rows, i)
    {
      ElementReads(data, o, offs, i);
      RowReads(data, offs[i], rows[i]);
    }
    RowsReadUpTo(data, vec, rows, |rows|);
    assert rows[..|rows|] == rows;
    ReadRowsOfSize(data, vec, |rows|);
  }

  lemma ReadRowsOfSize(data: seq<Byte>, vec: int, n: nat)
    requires VectorSize(data, vec) == Some(n)
    ensures ReadRows(data, vec) == ReadRowsUpTo(data, vec, n)
  {
  }

  lemma RowsStay(data: seq<Byte>, base: seq<Byte>, offs: seq<nat>, rows: seq<Row>)
    requires EndsWith(data, base) && RowsHold(base, offs, rows)
    ensures RowsHold(data, offs, rows)
  {
    forall i | 0 <= i < |rows|
      ensures TableHolds(data, offs[i], RowWrites(rows[i]))
    {
      TableStays(data, base, offs[i], RowWrites(rows[i]));
    }
  }

  // ----- writing tables -----

  /** A table written with shared vtables reads back, and the buffer stays good for more. */
  lemma TableReads(b: Builder, ws: seq<Write>, maxId: nat)
    requires WellFormedWrites(ws) && RefsWithin(ws, |b.data|) && IdsUpTo(ws, maxId) && 16 * |ws| + 7 < 0x1_0000
    requires Idle(b) && VTablesHold(b.data, b.vtables) && IsAlignment(b.minAlign)
    requires |WriteTable(b, ws, true).0.data| < I32
    ensures var (r, o) := WriteTable(b, ws, true);
            && TableHolds(r.data, o, ws) && EndsWith(r.data, b.data)
            && VTablesHold(r.data, r.vtables) && (VTablesDiffer(b.data, b.vtables) ==> VTablesDiffer(r.data, r.vtables))
            && IsAlignment(r.minAlign) && r.minAlign >= 4
            && forall i :: 0 <= i < |ws| ==> AlignedFor(r.minAlign, ws[i])
  {
    WriteTableSize(b, ws, true, maxId);
    TableReadsBack(b, ws, true);
    WriteTableAligns(b, ws, true);
  }

  // ----- writing rows -----

  lemma RowTableSize(b: Builder, row: Row)
    requires row.Fits() && Idle(b) && IsAlignment(b.minAlign)
    ensures var (r, o) := PushRow(b, row);
            && o <= |b.data| + 87 && |r.data| <= |b.data| + 103
            && IsAlignment(r.minAlign) && r.minAlign >= b.minAlign
  {
    FixedWrites(Params(0, 0, 0, 0, 0, 0), row);
    WriteTableSize(b, RowWrites(row), true, 12);
    WriteTableAligns(b, RowWrites(row), true);
  }

  lemma RowTableReads(b: Builder, row: Row)
    requires row.Fits() && Idle(b) && VTablesHold(b.data, b.vtables) && |PushRow(b, row).0.data| < I32
    requires IsAlignment(b.minAlign)
    ensures var (r, o) := PushRow(b, row);
            && TableHolds(r.data, o, RowWrites(row)) && EndsWith(r.data, b.data)
            && VTablesHold(r.data, r.vtables) && (VTablesDiffer(b.data, b.vtables) ==> VTablesDiffer(r.data, r.vtables))
  {
    FixedWrites(Params(0, 0, 0, 0, 0, 0), row);
    TableReads(b, RowWrites(row), 12);
  }

  /**
    After any number of rows, with vtables shared between them, every row table
    still reads back its own row and no two remembered vtables are equal.
   */
  lemma {:induction false} PushRowsReads(b: Builder, rows: seq<Row>)
    requires RowsFit(rows) && Idle(b) && VTablesHold(b.data, b.vtables) && |PushRows(b, rows).0.data| < I32
    requires IsAlignment(b.minAlign)
    ensures var (r, offs) := PushRows(b, rows);
            && RowsHold(r.data, offs, rows) && EndsWith(r.data, b.data)
            && VTablesHold(r.data, r.vtables) && (VTablesDiffer(b.data, b.vtables) ==> VTablesDiffer(r.data, r.vtables))
  {
    if rows != [] {
      var n := |rows| - 1;
      PushRowsLast(b, rows, n);
      assert rows[..n + 1] == rows;
      var (mid, offs) := PushRows(b, rows[..n]);
      var (r, off) := PushRow(mid, rows[n]);
      PushRowsReads(b, rows[..n]);
      PushRowsSize(b, rows[..n]);
      RowTableReads(mid, rows[n]);
      RowsExtend(r.data, mid.data, offs, rows, off);
      SuffixTrans(b.data, mid.data, r.data);
    }
  }

  lemma RowsExtend(data: seq<Byte>, base: seq<Byte>, offs: seq<nat>, rows: seq<Row>, off: nat)
    requires rows != [] && EndsWith(data, base) && RowsHold(base, offs, rows[..|rows| - 1])
    requires TableHolds(data, off, RowWrites(rows[|rows| - 1]))
    ensures RowsHold(data, offs + [off], rows)
  {
    var n := |rows| - 1;
    RowsStay(data, base, offs, rows[..n]);
    forall i | 0 <= i < |rows|
      ensures TableHolds(data, (offs + [off])[i], RowWrites(rows[i]))
    {
      if i < n {
        assert TableHolds(data, offs[i], RowWrites(rows[..n][i]));
      }
    }
  }

  lemma {:induction false} PushRowsSize(b: Builder, rows: seq<Row>)
    requires RowsFit(rows) && Idle(b) && IsAlignment(b.minAlign)
    ensures var r := PushRows(b, rows).0;
            |r.data| <= |b.data| + 103 * |rows| && IsAlignment(r.minAlign) && r.minAlign >= b.minAlign
  {
    if rows != [] {
      var n := |rows| - 1;
      PushRowsLast(b, rows, n);
      assert rows[..n + 1] == rows;
      var mid := PushRows(b, rows[..n]).0;
      PushRowsSize(b, rows[..n]);
      RowTableSize(mid, rows[n]);
    }
  }

  // ----- responses -----

  /** Where the parts of a response lie, counted from the end of the buffer. */
  datatype ResponseParts = ResponseParts(root: nat, vec: nat, offs: seq<nat>)

  ghost predicate ResponseHolds(data: seq<Byte>, tag: nat, rows: seq<Row>, at: ResponseParts) {
    && TableHolds(data, at.root, ResponseWrites(tag, at.vec)) && 0 < at.vec < at.root
    && OffsetVectorHolds(data, at.vec, at.offs) && RowsHold(data, at.offs, rows)
  }

  /** The finished buffer is aligned for everything in it. */
  predicate WholeAligned(data: seq<Byte>, tag: nat) {
    |data| % 4 == 0 && (tag != 0 ==> |data| % 8 == 0)
  }

  lemma ResponseStays(data: seq<Byte>, base: seq<Byte>, tag: nat, rows: seq<Row>, at: ResponseParts)
    requires EndsWith(data, base) && ResponseHolds(base, tag, rows, at)
    ensures ResponseHolds(data, tag, rows, at)
  {
    TableStays(data, base, at.root, ResponseWrites(tag, at.vec));
    OffsetVectorStays(data, base, at.vec, at.offs);
    RowsStay(data, base, at.offs, rows);
  }

  lemma PushResponseReads(b: Builder, tag: nat, vec: nat)
    requires Is64(tag) && Idle(b) && vec <= |b.data| && VTablesHold(b.data, b.vtables) && IsAlignment(b.minAlign)
    requires |PushResponse(b, tag, vec).0.data| < I32
    ensures var (r, root) := PushResponse(b, tag, vec);
            && TableHolds(r.data, root, ResponseWrites(tag, vec)) && EndsWith(r.data, b.data)
            && IsAlignment(r.minAlign) && r.minAlign >= 4 && (tag != 0 ==> r.minAlign >= 8)
  {
    var ws := ResponseWrites(tag, vec);
    TaggedWrites(true, tag, vec, 0);
    TableReads(b, ws, 6);
    assert AlignedFor(WriteTable(b, ws, true).0.minAlign, ws[0]);
  }

  lemma PushResponseSize(b: Builder, tag: nat, vec: nat)
    requires Is64(tag) && Idle(b) && vec <= |b.data|
    ensures |PushResponse(b, tag, vec).0.data| <= |b.data| + 49
  {
    TaggedWrites(true, tag, vec, 0);
    WriteTableSize(b, ResponseWrites(tag, vec), true, 6);
  }

  lemma ResponseBuilderReads(tag: nat, rows: seq<Row>) returns (at: ResponseParts)
    requires Is64(tag) && RowsFit(rows) && |ResponseBuilder(tag, rows).0.data| < I32
    ensures var (r, root) := ResponseBuilder(tag, rows);
            && at.root == root && ResponseHolds(r.data, tag, rows, at)
            && IsAlignment(r.minAlign) && r.minAlign >= 4 && (tag != 0 ==> r.minAlign >= 8)
  {
    var (b, offs) := PushRows(EMPTY, rows);
    var (v, vec) := CreateVectorOfOffsets(b, offs);
    var (r, root) := PushResponse(v, tag, vec);
    at := ResponseParts(root, vec, offs);
    PushRowsReads(EMPTY, rows);
    PushRowsSize(EMPTY, rows);
    CreateVectorOfOffsetsReads(b, offs);
    VectorAligns(b, offs);
    VTablesEndWith(v.data, b.data, b.vtables);
    PushResponseReads(v, tag, vec);
    RowsStay(v.data, b.data, offs, rows);
    RowsStay(r.data, v.data, offs, rows);
    OffsetVectorStays(r.data, v.data, vec, offs);
  }

  lemma AlignedWhole(size: nat, minAlign: nat)
    requires IsAlignment(minAlign) && minAlign >= 4 && size % minAlign == 0
    ensures size % 4 == 0 && (minAlign >= 8 ==> size % 8 == 0)
  {
    AlignmentsDivide(4, minAlign);
    MultipleOfMultiple(size, minAlign, 4);
    if minAlign >= 8 {
      AlignmentsDivide(8, minAlign);
      MultipleOfMultiple(size, minAlign, 8);
    }
  }

  lemma ResponseLayout(tag: nat, rows: seq<Row>) returns (at: ResponseParts, base: seq<Byte>)
    requires Is64(tag) && RowsFit(rows) && |ResponseBytes(tag, rows)| < I32
    ensures var data := ResponseBytes(tag, rows);
            && ResponseHolds(data, tag, rows, at) && GetRoot(data).Some? && GetRoot(data).value == |data| - at.root
            && WholeAligned(data, tag)
            && ResponseHolds(base, tag, rows, at) && EndsWith(data, base) && |data| >= |base| + 4
  {
    var (r, root) := ResponseBuilder(tag, rows);
    FinishSize(r, root);
    at := ResponseBuilderReads(tag, rows);
    FinishReads(r, root);
    var data := Finish(r, root).data;
    AlignedWhole(|data|, r.minAlign);
    ResponseStays(data, r.data, tag, rows, at);
    base := r.data;
  }

  lemma FinishSize(b: Builder, root: nat)
    requires 0 < root <= |b.data|
    ensures |Finish(b, root).data| > |b.data|
  {
  }

  lemma ResponseHoldsReads(data: seq<Byte>, t: int, tag: nat, rows: seq<Row>, at: ResponseParts)
    requires ResponseHolds(data, tag, rows, at) && t == |data| - at.root
    ensures ReadResponse(data, t) == Some(Response(tag, Some(RowsAsRead(rows))))
    ensures GetField(data, t, 4, 8, 0) == Some(tag) && LeadsTo(data, t, 6, |data| - at.vec)
  {
    var ws := ResponseWrites(tag, at.vec);
    ScalarReads(data, at.root, ws, 0);
    RefReads(data, at.root, ws, 1);
    RowsRead(data, at.vec, at.offs, rows);
  }

  /** What is read back of a float: the same pattern, but for a negative zero. */
  predicate ReadsAsFloat(r: nat, f: nat) {
    r == if f == 0 || f == 0x8000_0000 then 0 else f
  }

  predicate ReadsAsRow(r: Row, row: Row) {
    && r.idx == row.idx && ReadsAsFloat(r.alpha, row.alpha) && ReadsAsFloat(r.beta, row.beta)
    && ReadsAsFloat(r.price, row.price) && ReadsAsFloat(r.hedgeRatio, row.hedgeRatio)
  }

  predicate ReadsAsParams(r: Params, p: Params) {
    && r.optionType == 0 && ReadsAsFloat(r.stockPrice, p.stockPrice) && ReadsAsFloat(r.strikePrice, p.strikePrice)
    && ReadsAsFloat(r.interestRate, p.interestRate) && ReadsAsFloat(r.timeToMaturity, p.timeToMaturity)
    && ReadsAsFloat(r.stockDiscretization, p.stockDiscretization)
  }

  /**
    For every tag and every list of rows, a finished response read from the front
    gives the tag and the rows; a field equal to its default was not stored and
    reads as the default, so a negative zero reads as a positive one.
   */
  lemma ResponseRoundTrip(tag: nat, rows: seq<Row>)
    requires Is64(tag) && RowsFit(rows) && |ResponseBytes(tag, rows)| < I32
    ensures var data := ResponseBytes(tag, rows);
            GetRoot(data).Some? && ReadResponse(data, GetRoot(data).value) == Some(Response(tag, Some(RowsAsRead(rows))))
    ensures forall k :: 0 <= k < |rows| ==> ReadsAsRow(RowsAsRead(rows)[k], rows[k])
  {
    forall k | 0 <= k < |rows|
      ensures ReadsAsRow(RowsAsRead(rows)[k], rows[k])
    {
      RowsAsReadAt(rows, k);
    }
    var at, base := ResponseLayout(tag, rows);
    var data := ResponseBytes(tag, rows);
    ResponseHoldsReads(data, GetRoot(data).value, tag, rows, at);
  }

  // ----- requests -----

  datatype RequestParts = RequestParts(root: nat, params: nat, pairs: nat)

  ghost predicate RequestHolds(data: seq<Byte>, range: bool, rq: Request, at: RequestParts) {
    && TableHolds(data, at.root, RequestWrites(range, rq.tag, at.params, at.pairs))
    && 0 < at.pairs < at.params < at.root
    && TableHolds(data, at.params, ParamsWrites(rq.params))
    && BytesVectorHolds(data, at.pairs, |rq.pairs|, PairsBytes(rq.pairs))
  }

  lemma RequestStays(data: seq<Byte>, base: seq<Byte>, range: bool, rq: Request, at: RequestParts)
    requires EndsWith(data, base) && RequestHolds(base, range, rq, at)
    ensures RequestHolds(data, range, rq, at)
  {
    TableStays(data, base, at.root, RequestWrites(range, rq.tag, at.params, at.pairs));
    TableStays(data, base, at.params, ParamsWrites(rq.params));
    BytesVectorStays(data, base, at.pairs, |rq.pairs|, PairsBytes(rq.pairs));
  }

  lemma PushParamsReads(b: Builder, p: Params)
    requires p.Fits() && Idle(b) && VTablesHold(b.data, b.vtables) && IsAlignment(b.minAlign)
    requires |PushParams(b, p).0.data| < I32
    ensures var (r, o) := PushParams(b, p);
            && TableHolds(r.data, o, ParamsWrites(p)) && EndsWith(r.data, b.data)
            && VTablesHold(r.data, r.vtables) && IsAlignment(r.minAlign)
  {
    var ws := ParamsWrites(p);
    FixedWrites(p, Row(0, 0, 0, 0, 0));
    TableReads(b, ws, 14);
  }

  lemma TagAligned(minAlign: nat, ws: seq<Write>, i: nat)
    requires (forall k :: 0 <= k < |ws| ==> AlignedFor(minAlign, ws[k])) && i < |ws|
    requires ws[i].Scalar? && ws[i].size == 8
    ensures !ws[i].isDefault ==> minAlign >= 8
  {
    assert AlignedFor(minAlign, ws[i]);
  }

  lemma PushRequestReads(b: Builder, range: bool, tag: nat, params: nat, pairs: nat)
    requires Is64(tag) && Idle(b) && pairs <= params <= |b.data|
    requires VTablesHold(b.data, b.vtables) && IsAlignment(b.minAlign)
    requires |PushRequest(b, range, tag, params, pairs).0.data| < I32
    ensures var (r, root) := PushRequest(b, range, tag, params, pairs);
            && TableHolds(r.data, root, RequestWrites(range, tag, params, pairs)) && EndsWith(r.data, b.data)
            && IsAlignment(r.minAlign) && r.minAlign >= 4 && (tag != 0 ==> r.minAlign >= 8)
  {
    var ws := RequestWrites(range, tag, params, pairs);
    TaggedWrites(range, tag, pairs, params);
    TableReads(b, ws, 8);
    TagAligned(PushRequest(b, range, tag, params, pairs).0.minAlign, ws, if range then 1 else 0);
  }

  lemma RequestBuilderReads(range: bool, rq: Request) returns (at: RequestParts)
    requires rq.Fits() && |RequestBuilder(range, rq).0.data| < I32
    ensures var (r, root) := RequestBuilder(range, rq);
            && at.root == root && RequestHolds(r.data, range, rq, at)
            && IsAlignment(r.minAlign) && r.minAlign >= 4 && (rq.tag != 0 ==> r.minAlign >= 8)
  {
    var bytes := PairsBytes(rq.pairs);
    var (v, pairs) := CreateVector(EMPTY, bytes, |rq.pairs|, 12, 4);
    var (p, params) := PushParams(v, rq.params);
    var (r, root) := PushRequest(p, range, rq.tag, params, pairs);
    at := RequestParts(root, params, pairs);
    CreateVectorReads(EMPTY, bytes, |rq.pairs|, 12, 4);
    BytesVectorAligns(EMPTY, bytes, |rq.pairs|, 12, 4);
    PushParamsReads(v, rq.params);
    PushRequestReads(p, range, rq.tag, params, pairs);
    BytesVectorStays(p.data, v.data, pairs, |rq.pairs|, bytes);
    BytesVectorStays(r.data, p.data, pairs, |rq.pairs|, bytes);
    TableStays(r.data, p.data, params, ParamsWrites(rq.params));
  }

  lemma RequestLayout(range: bool, rq: Request) returns (at: RequestParts, base: seq<Byte>)
    requires rq.Fits() && |RequestBytes(range, rq)| < I32
    ensures var data := RequestBytes(range, rq);
            && RequestHolds(data, range, rq, at)
            && GetRoot(data).Some? && GetRoot(data).value == |data| - at.root
            && WholeAligned(data, rq.tag)
            && RequestHolds(base, range, rq, at) && EndsWith(data, base) && |data| >= |base| + 4
  {
    var (r, root) := RequestBuilder(range, rq);
    FinishSize(r, root);
    at := RequestBuilderReads(range, rq);
    FinishReads(r, root);
    var data := Finish(r, root).data;
    AlignedWhole(|data|, r.minAlign);
    RequestStays(data, r.data, range, rq, at);
    base := r.data;
  }

  lemma RefLeads(data: seq<Byte>, o: nat, t: int, ws: seq<Write>, i: nat)
    requires TableHolds(data, o, ws) && t == |data| - o && i < |ws| && ws[i].Ref? && ws[i].target != 0
    ensures LeadsTo(data, t, ws[i].id, |data| - ws[i].target)
  {
    RefReads(data, o, ws, i);
  }

  lemma RequestHoldsReads(data: seq<Byte>, t: int, range: bool, rq: Request, at: RequestParts)
    requires rq.Fits() && RequestHolds(data, range, rq, at) && t == |data| - at.root
    ensures ReadRequest(data, t, range) == Some(rq.AsRead())
  {
    RequestRootReads(data, at.root, t, range, rq.tag, at.params, at.pairs);
    ParamsRead(data, at.params, rq.params);
    PairsRead(data, at.pairs, |data| - at.pairs, rq.pairs);
    RequestReadFrom(data, t, range, |data| - at.params, |data| - at.pairs, rq.AsRead());
  }

  lemma RequestRootReads(data: seq<Byte>, o: nat, t: int, range: bool, tag: nat, params: nat, pairs: nat)
    requires TableHolds(data, o, RequestWrites(range, tag, params, pairs)) && t == |data| - o && params > 0 && pairs > 0
    ensures GetField(data, t, if range then 6 else 4, 8, 0) == Some(tag)
    ensures LeadsTo(data, t, if range then 4 else 6, |data| - params) && LeadsTo(data, t, 8, |data| - pairs)
  {
    var ws := RequestWrites(range, tag, params, pairs);
    ScalarReads(data, o, ws, if range then 1 else 0);
    RefLeads(data, o, t, ws, if range then 0 else 1);
    RefLeads(data, o, t, ws, 2);
  }

  predicate LeadsTo(data: seq<Byte>, t: int, id: nat, pos: int) {
    var p := GetPointer(data, t, id);
    p.Some? && p.value.At? && p.value.pos == pos
  }

  lemma RequestReadFrom(data: seq<Byte>, t: int, range: bool, params: int, pairs: int, rq: Request)
    requires GetField(data, t, if range then 6 else 4, 8, 0) == Some(rq.tag)
    requires LeadsTo(data, t, if range then 4 else 6, params) && LeadsTo(data, t, 8, pairs)
    requires ReadParams(data, params) == Some(rq.params) && ReadPairs(data, pairs) == Some(rq.pairs)
    ensures ReadRequest(data, t, range) == Some(rq)
  {
  }

  /** Both requests, for every parameter set and list of pairs; pairs are structs and keep every bit. */
  lemma RequestRoundTrip(range: bool, rq: Request)
    requires rq.Fits() && |RequestBytes(range, rq)| < I32
    ensures var data := RequestBytes(range, rq);
            GetRoot(data).Some? && ReadRequest(data, GetRoot(data).value, range) == Some(rq.AsRead())
    ensures rq.AsRead().tag == rq.tag && rq.AsRead().pairs == rq.pairs && ReadsAsParams(rq.AsRead().params, rq.params)
  {
    var at, base := RequestLayout(range, rq);
    var data := RequestBytes(range, rq);
    RequestHoldsReads(data, GetRoot(data).value, range, rq, at);
  }
}
