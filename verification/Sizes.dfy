/**
  Upper bounds on the size of finished messages: a response needs at most 107 bytes a row,
  so a limit on the number of rows keeps its offsets within 32 bits.
 */
module Sizes {
  import opened Bytes
  import opened Layout
  import opened VectorLayout
  import opened Alignment
  import opened Messages
  import opened RoundTrip

  lemma StartVectorSize(b: Builder, len: nat, elemSize: nat)
    ensures |b.data| <= |StartVector(b, len, elemSize, 4).data| <= |b.data| + 6
  {
  }

  lemma OffsetVectorSize(b: Builder, offs: seq<nat>)
    requires OffsetsWithin(b, offs)
    ensures |CreateVectorOfOffsets(b, offs).0.data| <= |b.data| + 4 * |offs| + 13
  {
    var s := StartVector(b, |offs|, 4, 4);
    StartVectorSize(b, |offs|, 4);
    if offs != [] {
      OffsetsStart(b, offs);
      PushOffsetsShape(s, offs);
    }
    EndVectorSize(PushOffsets(s, offs), |offs|);
  }

  lemma EndVectorSize(b: Builder, len: nat)
    ensures |EndVector(b, len).0.data| <= |b.data| + 7
  {
  }

  lemma FinishGrows(b: Builder, root: nat)
    requires 0 < root <= |b.data| && IsAlignment(b.minAlign)
    ensures |Finish(b, root).data| <= |b.data| + 38
  {
  }

  /** A finished response takes at most 107 bytes a row, and a constant. */
  lemma ResponseSize(tag: nat, rows: seq<Row>)
    requires Is64(tag) && RowsFit(rows)
    ensures |ResponseBytes(tag, rows)| <= 107 * |rows| + 100
  {
    var (b, offs) := PushRows(EMPTY, rows);
    var (v, results) := CreateVectorOfOffsets(b, offs);
    PushRowsSize(EMPTY, rows);
    OffsetVectorSize(b, offs);
    VectorAligns(b, offs);
    RootSize(v, tag, results);
  }

  lemma RootSize(v: Builder, tag: nat, results: nat)
    requires Is64(tag) && Idle(v) && results <= |v.data| && IsAlignment(v.minAlign)
    ensures var (r, root) := PushResponse(v, tag, results); |Finish(r, root).data| <= |v.data| + 87
  {
    TaggedWrites(true, tag, results, 0);
    PushResponseSize(v, tag, results);
    WriteTableAligns(v, ResponseWrites(tag, results), true);
    var (r, root) := PushResponse(v, tag, results);
    FinishGrows(r, root);
  }

  lemma BytesVectorSize(bytes: seq<Byte>, len: nat)
    requires |bytes| == len * 12
    ensures |CreateVector(EMPTY, bytes, len, 12, 4).0.data| <= |bytes| + 13
  {
    StartVectorSize(EMPTY, len, 12);
    EndVectorSize(StartVector(EMPTY, len, 12, 4).(data := bytes + StartVector(EMPTY, len, 12, 4).data), len);
  }

  /** A finished request takes 12 bytes a pair, and a constant. */
  lemma RequestSize(range: bool, rq: Request)
    requires rq.Fits()
    ensures |RequestBytes(range, rq)| <= 12 * |rq.pairs| + 300
  {
    var (v, pairs) := CreateVector(EMPTY, PairsBytes(rq.pairs), |rq.pairs|, 12, 4);
    BytesVectorSize(PairsBytes(rq.pairs), |rq.pairs|);
    BytesVectorAligns(EMPTY, PairsBytes(rq.pairs), |rq.pairs|, 12, 4);
    TailSize(v, range, rq, pairs);
  }

  lemma TailSize(v: Builder, range: bool, rq: Request, pairs: nat)
    requires rq.Fits() && Idle(v) && pairs == |v.data| && IsAlignment(v.minAlign)
    ensures var (p, params) := PushParams(v, rq.params);
            var (r, root) := PushRequest(p, range, rq.tag, params, pairs);
            |Finish(r, root).data| <= |v.data| + 280
  {
    var (p, params) := PushParams(v, rq.params);
    FixedWrites(rq.params, Row(0, 0, 0, 0, 0));
    WriteTableSize(v, ParamsWrites(rq.params), true, 14);
    WriteTableAligns(v, ParamsWrites(rq.params), true);
    RequestRootSize(p, range, rq.tag, params, pairs);
  }

  lemma RequestRootSize(p: Builder, range: bool, tag: nat, params: nat, pairs: nat)
    requires Is64(tag) && Idle(p) && pairs <= params <= |p.data| && IsAlignment(p.minAlign)
    ensures var (r, root) := PushRequest(p, range, tag, params, pairs);
            |Finish(r, root).data| <= |p.data| + 130
  {
    var ws := RequestWrites(range, tag, params, pairs);
    TaggedWrites(range, tag, pairs, params);
    WriteTableSize(p, ws, true, 8);
    WriteTableAligns(p, ws, true);
    var (r, root) := PushRequest(p, range, tag, params, pairs);
    FinishGrows(r, root);
  }
}
