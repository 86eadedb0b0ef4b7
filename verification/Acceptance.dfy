/** Which finished messages the generated checks accept, with alignment checking on. */
module Acceptance {
  import opened Wrappers
  import opened Bytes
  import opened Tables
  import opened Layout
  import opened TableLayout
  import opened VectorLayout
  import opened Messages
  import opened RoundTrip
  import opened Verifiers

  /** `data` is a finished buffer: `base` behind at least a root offset, aligned as a whole. */
  predicate Finished(data: seq<Byte>, base: seq<Byte>) {
    && EndsWith(data, base) && |base| + 4 <= |data| < MAX_BUFFER_SIZE && |data| % 4 == 0
  }

  lemma AlignedFromFront(size: nat, off: nat, n: nat)
    requires n > 0 && off <= size && size % n == 0 && off % n == 0
    ensures (size - off) % n == 0
  {
    DifferenceOfMultiples(size, off, n);
  }

  lemma EvenSize(size: nat)
    requires size % 4 == 0
    ensures size % 2 == 0
  {
    MultipleOfMultiple(size, 4, 2);
  }

  lemma VTablePlaced(data: seq<Byte>, base: seq<Byte>, o: nat, ws: seq<Write>) returns (v: nat)
    requires Finished(data, base) && TableHolds(base, o, ws)
    ensures 4 <= v <= |base| && v % 2 == 0
    ensures GetVTable(data, |data| - o).Some? && GetVTable(data, |data| - o).value == |data| - v
    ensures VTableAt(data, v).Some? && |VTableAt(data, v).value| % 2 == 0
  {
    var t := |base| - o;
    v := |base| - GetVTable(base, t).value;
    var pre := data[..|data| - |base|];
    assert data == pre + base;
    VTableStays(pre, base, t);
  }

  lemma TableAccepted(data: seq<Byte>, base: seq<Byte>, o: nat, t: nat, ws: seq<Write>)
    requires Finished(data, base) && TableHolds(base, o, ws) && t == |data| - o
    ensures TableOk(data, t)
  {
    var v := VTablePlaced(data, base, o, ws);
    AlignedFromFront(|data|, o, 4);
    EvenSize(|data|);
    AlignedFromFront(|data|, v, 2);
    VTablePosReads(data, t);
  }

  lemma ScalarAccepted(data: seq<Byte>, base: seq<Byte>, o: nat, t: nat, ws: seq<Write>, i: nat)
    requires Finished(data, base) && TableHolds(data, o, ws) && t == |data| - o && TableOk(data, t)
    requires i < |ws| && ws[i].Scalar? && ws[i].id % 2 == 0 && ws[i].size > 0 && |data| > 8
    requires ws[i].isDefault || (|data| % ws[i].size == 0 && ws[i].size <= 8)
    ensures FieldOk(data, t, ws[i].id, ws[i].size)
  {
    assert FieldHolds(data, t, ws[i]);
    var f := FieldOffset(data, t, ws[i].id);
    if !ws[i].isDefault {
      AlignedFromFront(|data|, |data| - t - f, ws[i].size);
    }
  }

  lemma AbsentAccepted(data: seq<Byte>, o: nat, t: nat, ws: seq<Write>, id: nat, size: nat)
    requires |data| < MAX_BUFFER_SIZE && TableHolds(data, o, ws) && t == |data| - o && TableOk(data, t)
    requires Unwritten(ws, id)
    ensures FieldOk(data, t, id, size)
  {
  }

  lemma RefAccepted(data: seq<Byte>, base: seq<Byte>, o: nat, t: nat, ws: seq<Write>, i: nat)
    requires Finished(data, base) && TableHolds(data, o, ws) && t == |data| - o && TableOk(data, t)
    requires i < |ws| && ws[i].Ref? && ws[i].id % 2 == 0 && |data| > 8
    ensures RefOk(data, t, ws[i].id)
    ensures ws[i].target == 0 ==> Target(data, t, ws[i].id).Null?
    ensures ws[i].target != 0 ==> RequiredRefOk(data, t, ws[i].id)
    ensures ws[i].target != 0 ==> Target(data, t, ws[i].id).At? && Target(data, t, ws[i].id).pos == |data| - ws[i].target
  {
    assert FieldHolds(data, t, ws[i]);
    var f := FieldOffset(data, t, ws[i].id);
    if ws[i].target != 0 {
      AlignedFromFront(|data|, |data| - t - f, 4);
    }
  }

  // ----- whole tables -----

  lemma ParamsAccepted(data: seq<Byte>, base: seq<Byte>, o: nat, p: Params, c: Counts)
    requires Finished(data, base) && TableHolds(base, o, ParamsWrites(p)) && |data| > 8
    requires c.depth < MAX_DEPTH && c.tables < MAX_TABLES
    ensures VerifyParams(data, |data| - o, c).0
  {
    var t, ws := |data| - o, ParamsWrites(p);
    TableAccepted(data, base, o, t, ws);
    TableStays(data, base, o, ws);
    AbsentAccepted(data, o, t, ws, 4, 1);
    ScalarAccepted(data, base, o, t, ws, 0);
    ScalarAccepted(data, base, o, t, ws, 1);
    ScalarAccepted(data, base, o, t, ws, 2);
    ScalarAccepted(data, base, o, t, ws, 3);
    ScalarAccepted(data, base, o, t, ws, 4);
  }

  /** What the Python client adds: the option type first, then the five numbers. */
  function TypedParamsWrites(optionType: nat, p: Params): seq<Write> {
    [Scalar(4, 1, optionType, optionType == 0)] + ParamsWrites(p)
  }

  /** Parameters with an option type pass as well, and read with it. */
  lemma TypedParamsAccepted(data: seq<Byte>, base: seq<Byte>, o: nat, optionType: nat, p: Params, c: Counts)
    requires Finished(data, base) && TableHolds(base, o, TypedParamsWrites(optionType, p)) && |data| > 8
    requires c.depth + 1 <= 64 && c.tables + 1 <= 1_000_000
    ensures VerifyParams(data, |data| - o, c).0
    ensures GetField(data, |data| - o, 4, 1, 0) == Some(optionType)
    ensures FloatFieldIs(data, |data| - o, 6, p.stockPrice) && FloatFieldIs(data, |data| - o, 8, p.strikePrice)
    ensures FloatFieldIs(data, |data| - o, 10, p.interestRate) && FloatFieldIs(data, |data| - o, 12, p.timeToMaturity)
    ensures FloatFieldIs(data, |data| - o, 14, p.stockDiscretization)
  {
    var t, ws := |data| - o, TypedParamsWrites(optionType, p);
    TableAccepted(data, base, o, t, ws);
    TableStays(data, base, o, ws);
    for i := 0 to 6
      invariant i > 0 ==> FieldOk(data, t, 4, 1) && GetField(data, t, 4, 1, 0) == Some(optionType)
      invariant i > 1 ==> FieldOk(data, t, 6, 4) && FloatFieldIs(data, t, 6, p.stockPrice)
      invariant i > 2 ==> FieldOk(data, t, 8, 4) && FloatFieldIs(data, t, 8, p.strikePrice)
      invariant i > 3 ==> FieldOk(data, t, 10, 4) && FloatFieldIs(data, t, 10, p.interestRate)
      invariant i > 4 ==> FieldOk(data, t, 12, 4) && FloatFieldIs(data, t, 12, p.timeToMaturity)
      invariant i > 5 ==> FieldOk(data, t, 14, 4) && FloatFieldIs(data, t, 14, p.stockDiscretization)
    {
      assert ws[i].Scalar?;
      ScalarAccepted(data, base, o, t, ws, i);
      ScalarReads(data, o, ws, i);
    }
  }

  lemma RowFieldsAccepted(data: seq<Byte>, base: seq<Byte>, o: nat, row: Row)
    requires Finished(data, base) && TableHolds(base, o, RowWrites(row)) && |data| > 8
    ensures TableOk(data, |data| - o) && RowFieldsOk(data, |data| - o)
  {
    var t, ws := |data| - o, RowWrites(row);
    TableAccepted(data, base, o, t, ws);
    TableStays(data, base, o, ws);
    ScalarAccepted(data, base, o, t, ws, 0);
    ScalarAccepted(data, base, o, t, ws, 1);
    ScalarAccepted(data, base, o, t, ws, 2);
    ScalarAccepted(data, base, o, t, ws, 3);
    ScalarAccepted(data, base, o, t, ws, 4);
  }

  lemma RowVerdict(data: seq<Byte>, t: nat, c: Counts)
    requires |data| < MAX_BUFFER_SIZE && TableOk(data, t) && RowFieldsOk(data, t)
    ensures VerifyRow(data, t, c).0 <==> c.depth < MAX_DEPTH && c.tables < MAX_TABLES
  {
  }

  // ----- vectors -----

  lemma OffsetVectorAccepted(data: seq<Byte>, base: seq<Byte>, o: nat, offs: seq<nat>)
    requires Finished(data, base) && OffsetVectorHolds(base, o, offs)
    ensures VectorOk(data, |data| - o, 4) && ReadScalar(data, |data| - o, 4) == Some(|offs|)
  {
    OffsetVectorStays(data, base, o, offs);
    AlignedFromFront(|data|, o, 4);
  }

  lemma PairCountFits(count: int, size: int)
    requires 12 * count + 8 <= size < MAX_BUFFER_SIZE
    ensures count < MAX_BUFFER_SIZE / 12
  {
  }

  lemma PairVectorAccepted(data: seq<Byte>, base: seq<Byte>, o: nat, vec: nat, n: nat, bytes: seq<Byte>)
    requires Finished(data, base) && BytesVectorHolds(base, o, n, bytes) && |bytes| == 12 * n && vec == |data| - o
    ensures VectorOk(data, vec, 12)
  {
    AlignedFromFront(|data|, o, 4);
    PairCountFits(n, |data|);
    BytesVectorStays(data, base, o, n, bytes);
    assert ReadScalar(data, vec, 4) == Some(n);
  }

  /** Element `i` leads to a row table that passes its checks. */
  predicate RowElementOk(data: seq<Byte>, vec: nat, i: nat)
    requires |data| < MAX_BUFFER_SIZE && VectorOk(data, vec, 4) && i < ReadScalar(data, vec, 4).value
  {
    TableOk(data, Element(data, vec, i)) && RowFieldsOk(data, Element(data, vec, i))
  }

  lemma RowElementAccepted(data: seq<Byte>, base: seq<Byte>, o: nat, offs: seq<nat>, rows: seq<Row>, vec: nat, i: nat)
    requires Finished(data, base) && OffsetVectorHolds(base, o, offs) && RowsHold(base, offs, rows) && i < |rows|
    requires |data| > 8 && vec == |data| - o
    requires VectorOk(data, vec, 4) && ReadScalar(data, vec, 4) == Some(|offs|)
    ensures RowElementOk(data, vec, i)
  {
    OffsetVectorStays(data, base, o, offs);
    ElementReads(data, o, offs, i);
    assert TableHolds(base, offs[i], RowWrites(rows[i]));
    RowFieldsAccepted(data, base, offs[i], rows[i]);
  }

  /** Well-formed rows pass until the table limit is reached, and no further. */
  lemma {:induction false} RowsVerdict(data: seq<Byte>, vec: nat, n: nat, c: Counts)
    requires |data| < MAX_BUFFER_SIZE && VectorOk(data, vec, 4) && n <= ReadScalar(data, vec, 4).value
    requires forall i: nat :: i < n ==> RowElementOk(data, vec, i)
    requires c.depth < MAX_DEPTH && c.tables <= MAX_TABLES
    ensures VerifyRows(data, vec, n, c).0 <==> c.tables + n <= MAX_TABLES
  {
    if n > 0 {
      RowsVerdict(data, vec, n - 1, c);
      assert RowElementOk(data, vec, n - 1);
      if VerifyRows(data, vec, n - 1, c).0 {
        RowVerdict(data, Element(data, vec, n - 1), VerifyRows(data, vec, n - 1, c).1);
      }
    }
  }

  // ----- whole messages -----

  lemma ResponseVerdict(data: seq<Byte>, base: seq<Byte>, tag: nat, rows: seq<Row>, at: ResponseParts, t: nat)
    requires Finished(data, base) && ResponseHolds(base, tag, rows, at) && WholeAligned(data, tag) && |data| > 8
    requires t == |data| - at.root
    ensures VerifyResponse(data, t, Counts(0, 0)).0 <==> |rows| <= MAX_TABLES - 1
  {
    var ws := ResponseWrites(tag, at.vec);
    var vec := |data| - at.vec;
    TableAccepted(data, base, at.root, t, ws);
    TableStays(data, base, at.root, ws);
    ScalarAccepted(data, base, at.root, t, ws, 0);
    RefAccepted(data, base, at.root, t, ws, 1);
    OffsetVectorAccepted(data, base, at.vec, at.offs);
    forall i: nat | i < |rows|
      ensures RowElementOk(data, vec, i)
    {
      RowElementAccepted(data, base, at.vec, at.offs, rows, vec, i);
    }
    RowsVerdict(data, vec, |rows|, Counts(1, 1));
    ResponseVerdictFrom(data, t, vec, |rows|);
  }

  lemma ResponseVerdictFrom(data: seq<Byte>, t: nat, vec: nat, n: nat)
    requires |data| < MAX_BUFFER_SIZE && TableOk(data, t) && FieldOk(data, t, 4, 8) && RefersTo(data, t, 6, vec)
    requires VectorOk(data, vec, 4) && ReadScalar(data, vec, 4) == Some(n)
    requires VerifyRows(data, vec, n, Counts(1, 1)).0 <==> 1 + n <= MAX_TABLES
    ensures VerifyResponse(data, t, Counts(0, 0)).0 <==> n <= MAX_TABLES - 1
  {
  }

  /**
    A finished batch or range response passes the generated check, alignment
    included, exactly when it has at most 999,999 rows: one table for each row and
    one for the root, against the limit of 1,000,000.
   */
  lemma ResponseAcceptedIff(tag: nat, rows: seq<Row>)
    requires Is64(tag) && RowsFit(rows) && |ResponseBytes(tag, rows)| < MAX_BUFFER_SIZE
    ensures var data := ResponseBytes(tag, rows);
            && GetRoot(data).Some? && GetRoot(data).value >= 0
            && (VerifyResponse(data, GetRoot(data).value, Counts(0, 0)).0 <==> |rows| <= 999_999)
  {
    var at, base := ResponseLayout(tag, rows);
    var data := ResponseBytes(tag, rows);
    FinishedBehind(data, base, at.root);
    ResponseVerdict(data, base, tag, rows, at, GetRoot(data).value);
  }

  lemma FinishedBehind(data: seq<Byte>, base: seq<Byte>, root: nat)
    requires EndsWith(data, base) && |data| >= |base| + 4 && |data| % 4 == 0 && |data| < MAX_BUFFER_SIZE
    requires 4 < root <= |base|
    ensures Finished(data, base) && |data| > 8 && |data| - root >= 4
  {
  }

  lemma RootIsHigh(data: seq<Byte>, range: bool, rq: Request, at: RequestParts)
    requires RequestHolds(data, range, rq, at)
    ensures at.root > 8
  {
  }

  /** The root offset of a finished buffer passes its own check. */
  lemma RootOk(data: seq<Byte>, base: seq<Byte>, root: nat, t: nat)
    requires Finished(data, base) && 8 < root <= |base| && t == |data| - root
    requires GetRoot(data).Some? && GetRoot(data).value == t
    ensures |data| >= MIN_BUFFER_SIZE && OffsetOk(data, 0) && ReadScalar(data, 0, 4) == Some(t)
  {
  }

  predicate RefersTo(data: seq<Byte>, t: nat, id: nat, pos: nat)
    requires |data| < MAX_BUFFER_SIZE && TableOk(data, t) && id % 2 == 0
  {
    RequiredRefOk(data, t, id) && Target(data, t, id).pos == pos
  }

  /** A request's root table passes its checks and leads to `params` and `pairs`. */
  predicate RequestRootOk(data: seq<Byte>, t: nat, range: bool, params: nat, pairs: nat)
    requires |data| < MAX_BUFFER_SIZE
  {
    && TableOk(data, t) && FieldOk(data, t, if range then 6 else 4, 8)
    && RefersTo(data, t, if range then 4 else 6, params) && RefersTo(data, t, 8, pairs)
  }

  lemma RequestRootAccepted(data: seq<Byte>, base: seq<Byte>, range: bool, o: nat, t: nat, ws: seq<Write>)
    requires Finished(data, base) && TableHolds(base, o, ws) && |data| > 8 && t == |data| - o && |ws| == 3
    requires var (tag, params) := if range then (1, 0) else (0, 1);
             && ws[tag].Scalar? && ws[tag].size == 8 && (ws[tag].isDefault || |data| % 8 == 0)
             && ws[params].Ref? && ws[2].Ref? && ws[tag].id == (if range then 6 else 4)
             && ws[params].id == (if range then 4 else 6) && ws[2].id == 8
             && 0 < ws[2].target < ws[params].target <= |base|
    ensures RequestRootOk(data, t, range, |data| - ws[if range then 0 else 1].target, |data| - ws[2].target)
  {
    TableAccepted(data, base, o, t, ws);
    TableStays(data, base, o, ws);
    ScalarAccepted(data, base, o, t, ws, if range then 1 else 0);
    RefAccepted(data, base, o, t, ws, if range then 0 else 1);
    RefAccepted(data, base, o, t, ws, 2);
  }

  lemma RequestVerdict(data: seq<Byte>, t: nat, range: bool, params: nat, pairs: nat)
    requires |data| < MAX_BUFFER_SIZE && RequestRootOk(data, t, range, params, pairs)
    requires VerifyParams(data, params, Counts(1, 1)).0 && VectorOk(data, pairs, 12)
    ensures VerifyRequest(data, t, range, Counts(0, 0)).0
  {
  }

  lemma RequestAccepted(data: seq<Byte>, base: seq<Byte>, range: bool, rq: Request, at: RequestParts, t: nat)
    requires Finished(data, base) && RequestHolds(base, range, rq, at) && WholeAligned(data, rq.tag) && |data| > 8
    requires t == |data| - at.root
    ensures VerifyRequest(data, t, range, Counts(0, 0)).0
  {
    RequestRootAccepted(data, base, range, at.root, t, RequestWrites(range, rq.tag, at.params, at.pairs));
    ParamsAccepted(data, base, at.params, rq.params, Counts(1, 1));
    PairVectorAccepted(data, base, at.pairs, |data| - at.pairs, |rq.pairs|, PairsBytes(rq.pairs));
    RequestVerdict(data, t, range, |data| - at.params, |data| - at.pairs);
  }

  /** Every finished batch request passes the check the worker makes. */
  lemma BatchRequestAccepted(rq: Request)
    requires rq.Fits() && |RequestBytes(false, rq)| < MAX_BUFFER_SIZE
    ensures var data := RequestBytes(false, rq);
            && GetRoot(data).Some? && GetRoot(data).value >= 0
            && VerifyRequest(data, GetRoot(data).value, false, Counts(0, 0)).0
  {
    var at, base := RequestLayout(false, rq);
    var data := RequestBytes(false, rq);
    FinishedBehind(data, base, at.root);
    RequestAccepted(data, base, false, rq, at, GetRoot(data).value);
  }

  /** Every finished range request passes the check the server makes. */
  lemma RangeRequestAccepted(rq: Request)
    requires rq.Fits() && |RequestBytes(true, rq)| < MAX_BUFFER_SIZE
    ensures RangeRequestBufferOk(RequestBytes(true, rq))
  {
    var at, base := RequestLayout(true, rq);
    var data := RequestBytes(true, rq);
    FinishedBehind(data, base, at.root);
    RequestAccepted(data, base, true, rq, at, GetRoot(data).value);
    RootIsHigh(data, true, rq, at);
    RootOk(data, base, at.root, GetRoot(data).value);
  }

  lemma FinishedTable(b: Builder, root: nat, data: seq<Byte>)
    requires 0 < root <= |b.data| <= 60 && IsAlignment(b.minAlign) && b.minAlign >= 4
    requires data == Finish(b, root).data
    ensures Finished(data, b.data) && |data| <= 100 && (b.minAlign >= 8 ==> |data| % 8 == 0)
    ensures GetRoot(data).Some? && GetRoot(data).value == |data| - root
  {
    assert |data| < U32;
    FinishReads(b, root);
    AlignedWhole(|data|, b.minAlign);
  }

  lemma FirstVTable(b: Builder, start: nat)
    requires Tracked(b, start) && b.vtables == []
    ensures |EndTable(b, start, true).0.data| >= EndTable(b, start, true).1 + 4
  {
  }

  lemma NullTableBuilt(b: Builder, tag: nat, r: Builder, root: nat)
    requires Is64(tag) && Idle(b) && |b.data| <= 11 && b.vtables == [] && IsAlignment(b.minAlign)
    requires (r, root) == PushResponse(b, tag, 0)
    ensures TableHolds(r.data, root, ResponseWrites(tag, 0)) && root + 4 <= |r.data| <= 60
    ensures IsAlignment(r.minAlign) && r.minAlign >= 4 && (tag != 0 ==> r.minAlign >= 8)
  {
    PushResponseSize(b, tag, 0);
    PushResponseReads(b, tag, 0);
    TaggedWrites(true, tag, 0, 0);
    ApplyAllStores(StartTable(b), ResponseWrites(tag, 0));
    FirstVTable(ApplyAll(StartTable(b), ResponseWrites(tag, 0)), |b.data|);
  }

  /** A response without results reads as such and passes its check. */
  lemma NullResponseReads(b: Builder, tag: nat, data: seq<Byte>)
    requires Is64(tag) && Idle(b) && |b.data| <= 11 && b.vtables == [] && IsAlignment(b.minAlign)
    requires data == NullResponseBytes(b, tag)
    ensures |data| < MAX_BUFFER_SIZE && GetRoot(data).Some? && GetRoot(data).value >= 0
    ensures ReadResponse(data, GetRoot(data).value) == Some(Response(tag, None))
    ensures VerifyResponse(data, GetRoot(data).value, Counts(0, 0)).0
  {
    var (r, root) := PushResponse(b, tag, 0);
    NullTableBuilt(b, tag, r, root);
    FinishedTable(r, root, data);
    NullTableReads(data, r.data, root, GetRoot(data).value, tag);
  }

  lemma NullTableReads(data: seq<Byte>, base: seq<Byte>, o: nat, t: nat, tag: nat)
    requires Finished(data, base) && TableHolds(base, o, ResponseWrites(tag, 0)) && t == |data| - o
    requires |data| > 8 && WholeAligned(data, tag)
    ensures ReadResponse(data, t) == Some(Response(tag, None)) && VerifyResponse(data, t, Counts(0, 0)).0
  {
    var ws := ResponseWrites(tag, 0);
    TableAccepted(data, base, o, t, ws);
    TableStays(data, base, o, ws);
    ScalarAccepted(data, base, o, t, ws, 0);
    RefAccepted(data, base, o, t, ws, 1);
    ScalarReads(data, o, ws, 0);
    RefReads(data, o, ws, 1);
  }

  /** The reply to an invalid request passes the client's check and reads as hash 0 without a results vector. */
  lemma ErrorReplyReads()
    ensures var data := ErrorReplyBytes();
            && |data| < MAX_BUFFER_SIZE && GetRoot(data).Some? && GetRoot(data).value >= 0
            && ReadResponse(data, GetRoot(data).value) == Some(Response(0, None))
            && VerifyResponse(data, GetRoot(data).value, Counts(0, 0)).0
  {
    NullResponseReads(EMPTY, 0, ErrorReplyBytes());
  }
}
