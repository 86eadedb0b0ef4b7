/**
  The message constructors, running the builder object. Each one is proved to leave exactly
  the bytes that the functions of `Messages` describe, wherever the buffer was reallocated
  (pricing_request_generated.h, worker.cpp, client.cpp).
 */
module Assembly {
  import opened Bytes
  import opened Layout
  import opened TableLayout
  import opened VectorLayout
  import opened Alignment
  import opened Messages
  import opened RoundTrip
  import opened Building

  lemma {:induction false} ApplyAllGrows(b: Builder, ws: seq<Write>, i: nat)
    requires WellFormedWrites(ws) && RefsWithin(ws, |b.data|) && b.fields == [] && b.maxVOffset == 0 && i <= |ws|
    ensures WellFormedWrites(ws[..i]) && RefsWithin(ws[..i], |b.data|)
    ensures |ApplyAll(b, ws[..i]).data| <= |ApplyAll(b, ws).data|
    decreases |ws| - i
  {
    if i < |ws| {
      ApplyAllStep(b, ws, i);
      ApplyGrows(ApplyAll(b, ws[..i]), ws[i]);
      ApplyAllGrows(b, ws, i + 1);
    } else {
      assert ws[..i] == ws;
    }
  }

  /** One `add_` call. */
  method Add(fbb: FlatBufferBuilder, w: Write)
    requires fbb.Valid() && w.WellFormed() && (w.Ref? ==> w.target <= |fbb.Model().data|)
    requires |Apply(fbb.Model(), w).data| < U32
    modifies fbb.Repr()
    ensures fbb.Valid() && fresh(fbb.Repr() - old(fbb.Repr())) && fbb.dedupVTables == old(fbb.dedupVTables)
    ensures fbb.Model() == Apply(old(fbb.Model()), w)
  {
    match w {
      case Scalar(id, size, bits, isDefault) => fbb.AddElement(id, bits, size, isDefault);
      case Ref(id, target) => fbb.AddOffset(id, target);
    }
  }

  /** The `add_` calls of one table, in order. */
  method AddAll(fbb: FlatBufferBuilder, ws: seq<Write>)
    requires fbb.Valid() && WellFormedWrites(ws) && RefsWithin(ws, |fbb.Model().data|)
    requires fbb.fields == [] && fbb.maxVOffset == 0 && |ApplyAll(fbb.Model(), ws).data| < U32
    modifies fbb.Repr()
    ensures fbb.Valid() && fresh(fbb.Repr() - old(fbb.Repr())) && fbb.dedupVTables == old(fbb.dedupVTables)
    ensures fbb.Model() == ApplyAll(old(fbb.Model()), ws)
  {
    ghost var b := fbb.Model();
    for i := 0 to |ws|
      invariant fbb.Valid() && fresh(fbb.Repr() - old(fbb.Repr())) && fbb.dedupVTables == old(fbb.dedupVTables)
      invariant WellFormedWrites(ws[..i]) && RefsWithin(ws[..i], |b.data|)
      invariant fbb.Model() == ApplyAll(b, ws[..i])
    {
      AddNext(fbb, b, ws, i);
    }
    assert ws[..|ws|] == ws;
  }

  method AddNext(fbb: FlatBufferBuilder, ghost b: Builder, ws: seq<Write>, i: nat)
    requires fbb.Valid() && WellFormedWrites(ws) && RefsWithin(ws, |b.data|)
    requires b.fields == [] && b.maxVOffset == 0 && |ApplyAll(b, ws).data| < U32 && i < |ws|
    requires WellFormedWrites(ws[..i]) && RefsWithin(ws[..i], |b.data|) && fbb.Model() == ApplyAll(b, ws[..i])
    modifies fbb.Repr()
    ensures fbb.Valid() && fresh(fbb.Repr() - old(fbb.Repr())) && fbb.dedupVTables == old(fbb.dedupVTables)
    ensures WellFormedWrites(ws[..i + 1]) && RefsWithin(ws[..i + 1], |b.data|)
    ensures fbb.Model() == ApplyAll(b, ws[..i + 1])
  {
    ApplyAllStep(b, ws, i);
    ApplyAllGrows(b, ws, i + 1);
    Add(fbb, ws[i]);
  }

  lemma TableReady(b: Builder, ws: seq<Write>)
    requires WellFormedWrites(ws) && RefsWithin(ws, |b.data|) && Idle(b) && VTablesHold(b.data, b.vtables)
    requires |ApplyAll(StartTable(b), ws).data| < I32
    ensures var w := ApplyAll(StartTable(b), ws);
            w.nested && VTablesHold(w.data, w.vtables) && w.maxVOffset + 2 < 0x1_0000
  {
    var w := ApplyAll(StartTable(b), ws);
    ApplyAllStores(StartTable(b), ws);
    ApplyAllNested(StartTable(b), ws);
    VTablesEndWith(w.data, b.data, b.vtables);
  }

  lemma {:induction false} ApplyAllNested(b: Builder, ws: seq<Write>)
    requires WellFormedWrites(ws) && RefsWithin(ws, |b.data|) && b.fields == [] && b.maxVOffset == 0
    ensures ApplyAll(b, ws).nested == b.nested && ApplyAll(b, ws).finished == b.finished
  {
    if ws != [] {
      ApplyAllNested(b, ws[..|ws| - 1]);
    }
  }

  /** A whole table, from `StartTable` to `EndTable`. */
  method Table(fbb: FlatBufferBuilder, ws: seq<Write>) returns (off: nat)
    requires fbb.Valid() && WellFormedWrites(ws) && RefsWithin(ws, |fbb.Model().data|) && Idle(fbb.Model())
    requires VTablesHold(fbb.Model().data, fbb.vtables) && |WriteTable(fbb.Model(), ws, fbb.dedupVTables).0.data| < I32
    modifies fbb.Repr()
    ensures fbb.Valid() && fresh(fbb.Repr() - old(fbb.Repr())) && fbb.dedupVTables == old(fbb.dedupVTables)
    ensures (fbb.Model(), off) == WriteTable(old(fbb.Model()), ws, old(fbb.dedupVTables))
  {
    ghost var b := fbb.Model();
    AppliedData(b, ws, fbb.dedupVTables);
    TableReady(b, ws);
    var start := fbb.StartTable();
    AddAll(fbb, ws);
    off := fbb.EndTable(start);
  }

  // ----- rows -----

  /** A builder between messages' parts, good for writing more tables. */
  ghost predicate Ready(b: Builder) {
    Idle(b) && VTablesHold(b.data, b.vtables) && IsAlignment(b.minAlign)
  }

  lemma EmptyReady()
    ensures Ready(EMPTY)
  {
  }

  /** What adding row after row keeps. */
  predicate Grows(b: Builder, r: Builder) {
    |b.data| <= |r.data| && r.finished == b.finished
  }

  lemma TableGrows(b: Builder, ws: seq<Write>, dedup: bool)
    requires WellFormedWrites(ws) && RefsWithin(ws, |b.data|) && Idle(b)
    ensures Grows(b, WriteTable(b, ws, dedup).0)
  {
    ApplyAllNested(StartTable(b), ws);
  }

  lemma RowGrows(b: Builder, row: Row)
    requires row.Fits() && Idle(b)
    ensures Grows(b, PushRow(b, row).0)
  {
    FixedWrites(Messages.Params(0, 0, 0, 0, 0, 0), row);
    TableGrows(b, RowWrites(row), true);
  }

  lemma {:induction false} PushRowsGrows(b: Builder, rows: seq<Row>, i: nat)
    requires RowsFit(rows) && Idle(b) && i <= |rows|
    ensures RowsFit(rows[..i]) && Grows(PushRows(b, rows[..i]).0, PushRows(b, rows).0)
    decreases |rows| - i
  {
    if i < |rows| {
      PushRowsGrows(b, rows, i + 1);
      PushRowsLast(b, rows, i);
      RowGrows(PushRows(b, rows[..i]).0, rows[i]);
    } else {
      assert rows[..i] == rows;
    }
  }

  lemma PushRowsStep(b: Builder, rows: seq<Row>, i: nat)
    requires RowsFit(rows) && Ready(b) && i < |rows| && |PushRows(b, rows).0.data| < I32
    ensures RowsFit(rows[..i]) && RowsFit(rows[..i + 1]) && rows[i].Fits()
    ensures var (mid, offs) := PushRows(b, rows[..i]);
            && Ready(mid) && |PushRow(mid, rows[i]).0.data| < I32
            && PushRows(b, rows[..i + 1]) == (PushRow(mid, rows[i]).0, offs + [PushRow(mid, rows[i]).1])
  {
    PushRowsLast(b, rows, i);
    PushRowsGrows(b, rows, i);
    PushRowsGrows(b, rows, i + 1);
    PushRowsReads(b, rows[..i]);
    PushRowsSize(b, rows[..i]);
  }

  method CreateRow(fbb: FlatBufferBuilder, row: Row) returns (off: nat)
    requires fbb.Valid() && row.Fits() && Ready(fbb.Model()) && fbb.dedupVTables
    requires |PushRow(fbb.Model(), row).0.data| < I32
    modifies fbb.Repr()
    ensures fbb.Valid() && fresh(fbb.Repr() - old(fbb.Repr())) && fbb.dedupVTables
    ensures (fbb.Model(), off) == PushRow(old(fbb.Model()), row)
  {
    FixedWrites(Messages.Params(0, 0, 0, 0, 0, 0), row);
    off := Table(fbb, RowWrites(row));
  }

  /** The worker's and the server's loop over the rows. */
  method CreateRows(fbb: FlatBufferBuilder, rows: seq<Row>) returns (offs: seq<nat>)
    requires fbb.Valid() && RowsFit(rows) && Ready(fbb.Model()) && fbb.dedupVTables
    requires |PushRows(fbb.Model(), rows).0.data| < I32
    modifies fbb.Repr()
    ensures fbb.Valid() && fresh(fbb.Repr() - old(fbb.Repr())) && fbb.dedupVTables
    ensures (fbb.Model(), offs) == PushRows(old(fbb.Model()), rows)
  {
    ghost var b := fbb.Model();
    offs := [];
    var i := 0;
    while i < |rows|
      invariant 0 <= i <= |rows|
      invariant fbb.Valid() && fresh(fbb.Repr() - old(fbb.Repr())) && fbb.dedupVTables
      invariant RowsFit(rows[..i]) && (fbb.Model(), offs) == PushRows(b, rows[..i])
    {
      offs := CreateNextRow(fbb, b, rows, i, offs);
      i := i + 1;
    }
    assert rows[..i] == rows;
  }

  method CreateNextRow(fbb: FlatBufferBuilder, ghost b: Builder, rows: seq<Row>, i: nat, offs: seq<nat>)
    returns (next: seq<nat>)
    requires fbb.Valid() && RowsFit(rows) && Ready(b) && fbb.dedupVTables && i < |rows|
    requires |PushRows(b, rows).0.data| < I32
    requires RowsFit(rows[..i]) && (fbb.Model(), offs) == PushRows(b, rows[..i])
    modifies fbb.Repr()
    ensures fbb.Valid() && fresh(fbb.Repr() - old(fbb.Repr())) && fbb.dedupVTables
    ensures RowsFit(rows[..i + 1]) && (fbb.Model(), next) == PushRows(b, rows[..i + 1])
  {
    PushRowsStep(b, rows, i);
    var off := CreateRow(fbb, rows[i]);
    next := offs + [off];
  }

  // ----- whole messages -----

  method CreateResponse(fbb: FlatBufferBuilder, tag: nat, results: nat) returns (off: nat)
    requires fbb.Valid() && Is64(tag) && Ready(fbb.Model()) && fbb.dedupVTables && results <= |fbb.Model().data|
    requires |PushResponse(fbb.Model(), tag, results).0.data| < I32
    modifies fbb.Repr()
    ensures fbb.Valid() && fresh(fbb.Repr() - old(fbb.Repr())) && fbb.dedupVTables
    ensures (fbb.Model(), off) == PushResponse(old(fbb.Model()), tag, results) && Grows(old(fbb.Model()), fbb.Model())
  {
    TaggedWrites(true, tag, results, 0);
    TableGrows(fbb.Model(), ResponseWrites(tag, results), true);
    off := Table(fbb, ResponseWrites(tag, results));
  }

  /** The rows and their vector fit, and the builder is ready for the root table. */
  lemma RowsStage(rows: seq<Row>, v: Builder, results: nat)
    requires RowsFit(rows)
    requires var (b, offs) := PushRows(EMPTY, rows); (v, results) == CreateVectorOfOffsets(b, offs)
    requires |v.data| < I32
    ensures |PushRows(EMPTY, rows).0.data| < I32 && Ready(v) && !v.finished
  {
    var (b, offs) := PushRows(EMPTY, rows);
    PushRowsReads(EMPTY, rows);
    PushRowsSize(EMPTY, rows);
    PushRowsGrows(EMPTY, rows, 0);
    VectorReady(b, offs);
  }

  lemma VectorReady(b: Builder, offs: seq<nat>)
    requires Ready(b) && OffsetsWithin(b, offs) && |CreateVectorOfOffsets(b, offs).0.data| < I32
    ensures var v := CreateVectorOfOffsets(b, offs).0; Ready(v) && v.finished == b.finished
  {
    CreateVectorOfOffsetsReads(b, offs);
    VectorAligns(b, offs);
    VTablesEndWith(CreateVectorOfOffsets(b, offs).0.data, b.data, b.vtables);
    PushOffsetsUnfinished(StartVector(b, |offs|, 4, 4), offs);
  }

  lemma {:induction false} PushOffsetsUnfinished(b: Builder, offs: seq<nat>)
    requires OffsetsWithin(b, offs)
    ensures PushOffsets(b, offs).finished == b.finished
    decreases |offs|
  {
    if offs != [] {
      PushOffsetsLast(b, offs);
      PushOffsetsUnfinished(PushOffset(b, offs[|offs| - 1]), offs[..|offs| - 1]);
    }
  }

  lemma ResponseFits(tag: nat, rows: seq<Row>, v: Builder, results: nat)
    requires Is64(tag) && RowsFit(rows) && |ResponseBytes(tag, rows)| < I32
    requires var (b, offs) := PushRows(EMPTY, rows); (v, results) == CreateVectorOfOffsets(b, offs)
    ensures |v.data| < |PushResponse(v, tag, results).0.data| < I32
    ensures ResponseBytes(tag, rows) == Finish(PushResponse(v, tag, results).0, PushResponse(v, tag, results).1).data
  {
    var (r, root) := PushResponse(v, tag, results);
    assert ResponseBuilder(tag, rows) == (r, root);
    FinishSize(r, root);
  }

  /** The builder run of a response yields the bytes that the round trip is about. */
  method BuildResponse(tag: nat, rows: seq<Row>) returns (bytes: seq<Byte>)
    requires Is64(tag) && RowsFit(rows) && |ResponseBytes(tag, rows)| < I32
    ensures bytes == ResponseBytes(tag, rows)
  {
    ghost var (b, os) := PushRows(EMPTY, rows);
    ghost var (v, vec) := CreateVectorOfOffsets(b, os);
    ResponseFits(tag, rows, v, vec);
    RowsStage(rows, v, vec);
    bytes := RowsAndRoot(tag, rows, v);
  }

  method RowsAndRoot(tag: nat, rows: seq<Row>, ghost v: Builder) returns (bytes: seq<Byte>)
    requires Is64(tag) && RowsFit(rows) && |PushRows(EMPTY, rows).0.data| < I32 && Ready(v) && !v.finished
    requires v == CreateVectorOfOffsets(PushRows(EMPTY, rows).0, PushRows(EMPTY, rows).1).0
    requires |PushResponse(v, tag, |v.data|).0.data| < I32
    ensures var (r, root) := PushResponse(v, tag, |v.data|); bytes == Finish(r, root).data
  {
    EmptyReady();
    var fbb := new FlatBufferBuilder(1024, 8);
    var offs := CreateRows(fbb, rows);
    var results := fbb.CreateVectorOfOffsets(offs);
    bytes := RootAndFinish(fbb, tag, results);
  }

  method RootAndFinish(fbb: FlatBufferBuilder, tag: nat, results: nat) returns (bytes: seq<Byte>)
    requires fbb.Valid() && Is64(tag) && Ready(fbb.Model()) && fbb.dedupVTables && results <= |fbb.Model().data|
    requires |PushResponse(fbb.Model(), tag, results).0.data| < I32 && !fbb.finished
    modifies fbb.Repr()
    ensures var (r, root) := PushResponse(old(fbb.Model()), tag, results); bytes == Finish(r, root).data
  {
    var root := CreateResponse(fbb, tag, results);
    fbb.Finish(root);
    bytes := fbb.buf.DataAt(fbb.buf.size, fbb.buf.size);
  }

  /** The reply to a request that fails its check. */
  method BuildErrorReply() returns (bytes: seq<Byte>)
    ensures bytes == ErrorReplyBytes()
  {
    EmptyReady();
    PushResponseSize(EMPTY, 0, 0);
    var fbb := new FlatBufferBuilder(64, 8);
    bytes := RootAndFinish(fbb, 0, 0);
  }

  method CreateParams(fbb: FlatBufferBuilder, p: Messages.Params) returns (off: nat)
    requires fbb.Valid() && p.Fits() && Ready(fbb.Model()) && fbb.dedupVTables
    requires |PushParams(fbb.Model(), p).0.data| < I32
    modifies fbb.Repr()
    ensures fbb.Valid() && fresh(fbb.Repr() - old(fbb.Repr())) && fbb.dedupVTables
    ensures (fbb.Model(), off) == PushParams(old(fbb.Model()), p)
  {
    FixedWrites(p, Row(0, 0, 0, 0, 0));
    off := Table(fbb, ParamsWrites(p));
  }

  method CreateRequest(fbb: FlatBufferBuilder, range: bool, tag: nat, params: nat, pairs: nat) returns (off: nat)
    requires fbb.Valid() && Is64(tag) && Ready(fbb.Model()) && fbb.dedupVTables
    requires pairs <= params <= |fbb.Model().data| && |PushRequest(fbb.Model(), range, tag, params, pairs).0.data| < I32
    modifies fbb.Repr()
    ensures fbb.Valid() && fresh(fbb.Repr() - old(fbb.Repr())) && fbb.dedupVTables
    ensures (fbb.Model(), off) == PushRequest(old(fbb.Model()), range, tag, params, pairs)
    ensures fbb.finished == old(fbb.finished)
  {
    TaggedWrites(range, tag, pairs, params);
    TableGrows(fbb.Model(), RequestWrites(range, tag, params, pairs), true);
    off := Table(fbb, RequestWrites(range, tag, params, pairs));
  }

  lemma RequestFits(range: bool, rq: Request, v: Builder, pairs: nat, p: Builder, params: nat)
    requires rq.Fits() && |RequestBytes(range, rq)| < I32
    requires (v, pairs) == CreateVector(EMPTY, PairsBytes(rq.pairs), |rq.pairs|, 12, 4)
    requires (p, params) == PushParams(v, rq.params)
    ensures |p.data| < |PushRequest(p, range, rq.tag, params, pairs).0.data| < I32
    ensures var (r, root) := PushRequest(p, range, rq.tag, params, pairs);
            RequestBytes(range, rq) == Finish(r, root).data
  {
    var (r, root) := PushRequest(p, range, rq.tag, params, pairs);
    assert RequestBuilder(range, rq) == (r, root);
    FinishSize(r, root);
  }

  lemma PairsReady(pairs: seq<Pair>)
    ensures var v := CreateVector(EMPTY, PairsBytes(pairs), |pairs|, 12, 4).0; Ready(v) && !v.finished
  {
    BytesVectorAligns(EMPTY, PairsBytes(pairs), |pairs|, 12, 4);
  }

  lemma ParamsReady(v: Builder, p: Messages.Params)
    requires p.Fits() && Ready(v) && |PushParams(v, p).0.data| < I32
    ensures Ready(PushParams(v, p).0) && PushParams(v, p).0.finished == v.finished
  {
    PushParamsReads(v, p);
    FixedWrites(p, Row(0, 0, 0, 0, 0));
    TableGrows(v, ParamsWrites(p), true);
  }

  /** The same for a request, of either kind. */
  method BuildRequest(range: bool, rq: Request) returns (bytes: seq<Byte>)
    requires rq.Fits() && |RequestBytes(range, rq)| < I32
    ensures bytes == RequestBytes(range, rq)
  {
    ghost var (v, o) := CreateVector(EMPTY, PairsBytes(rq.pairs), |rq.pairs|, 12, 4);
    ghost var (p, q) := PushParams(v, rq.params);
    RequestFits(range, rq, v, o, p, q);
    PairsReady(rq.pairs);
    ParamsReady(v, rq.params);
    bytes := PairsAndRequest(range, rq, v, p);
  }

  method PairsAndRequest(range: bool, rq: Request, ghost v: Builder, ghost p: Builder) returns (bytes: seq<Byte>)
    requires rq.Fits() && v == CreateVector(EMPTY, PairsBytes(rq.pairs), |rq.pairs|, 12, 4).0
    requires p == PushParams(v, rq.params).0 && Ready(v) && Ready(p) && !p.finished
    requires |p.data| < |PushRequest(p, range, rq.tag, PushParams(v, rq.params).1, |v.data|).0.data| < I32
    ensures var (r, root) := PushRequest(p, range, rq.tag, PushParams(v, rq.params).1, |v.data|);
            bytes == Finish(r, root).data
  {
    var fbb, pairs := StartWithPairs(rq.pairs, v);
    bytes := ParamsAndRequest(fbb, range, rq, pairs);
  }

  method StartWithPairs(pairs: seq<Pair>, ghost v: Builder) returns (fbb: FlatBufferBuilder, off: nat)
    requires v == CreateVector(EMPTY, PairsBytes(pairs), |pairs|, 12, 4).0
    ensures fbb.Valid() && fresh(fbb.Repr()) && fbb.dedupVTables && fbb.Model() == v && off == |v.data|
  {
    fbb := new FlatBufferBuilder(1024, 8);
    off := fbb.CreateVectorOfStructs(PairsBytes(pairs), |pairs|, 12, 4);
  }

  method ParamsAndRequest(fbb: FlatBufferBuilder, range: bool, rq: Request, pairs: nat) returns (bytes: seq<Byte>)
    requires fbb.Valid() && rq.Fits() && Ready(fbb.Model()) && fbb.dedupVTables && pairs <= |fbb.Model().data|
    requires var (p, params) := PushParams(fbb.Model(), rq.params);
             && Ready(p) && !p.finished
             && |p.data| < |PushRequest(p, range, rq.tag, params, pairs).0.data| < I32
    modifies fbb.Repr()
    ensures var (p, params) := PushParams(old(fbb.Model()), rq.params);
            var (r, root) := PushRequest(p, range, rq.tag, params, pairs);
            bytes == Finish(r, root).data
  {
    var params := CreateParams(fbb, rq.params);
    bytes := RequestAndFinish(fbb, range, rq.tag, params, pairs);
  }

  method RequestAndFinish(fbb: FlatBufferBuilder, range: bool, tag: nat, params: nat, pairs: nat)
    returns (bytes: seq<Byte>)
    requires fbb.Valid() && Is64(tag) && Ready(fbb.Model()) && fbb.dedupVTables && !fbb.finished
    requires pairs <= params <= |fbb.Model().data| && |PushRequest(fbb.Model(), range, tag, params, pairs).0.data| < I32
    modifies fbb.Repr()
    ensures var (r, root) := PushRequest(old(fbb.Model()), range, tag, params, pairs); bytes == Finish(r, root).data
  {
    var root := CreateRequest(fbb, range, tag, params, pairs);
    fbb.Finish(root);
    bytes := fbb.buf.DataAt(fbb.buf.size, fbb.buf.size);
  }
}
