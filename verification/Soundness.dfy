/** A buffer that passes its check can be read entirely: no accessor leaves the buffer. */
module Soundness {
  import opened Bytes
  import opened Tables
  import opened Messages
  import opened Verifiers

  lemma FieldReadable(buf: seq<Byte>, t: nat, id: nat, size: nat)
    requires |buf| < MAX_BUFFER_SIZE && TableOk(buf, t) && id % 2 == 0 && FieldOk(buf, t, id, size)
    ensures GetField(buf, t, id, size, 0).Some?
  {
    var f := FieldOffset(buf, t, id);
  }

  lemma ParamsReadable(buf: seq<Byte>, t: nat, c: Counts)
    requires |buf| < MAX_BUFFER_SIZE && VerifyParams(buf, t, c).0
    ensures ReadParams(buf, t).Some?
  {
    FieldReadable(buf, t, 4, 1);
    FieldReadable(buf, t, 6, 4);
    FieldReadable(buf, t, 8, 4);
    FieldReadable(buf, t, 10, 4);
    FieldReadable(buf, t, 12, 4);
    FieldReadable(buf, t, 14, 4);
  }

  lemma RowReadable(buf: seq<Byte>, t: nat, c: Counts)
    requires |buf| < MAX_BUFFER_SIZE && VerifyRow(buf, t, c).0
    ensures ReadRow(buf, t).Some?
  {
    FieldReadable(buf, t, 4, 4);
    FieldReadable(buf, t, 6, 4);
    FieldReadable(buf, t, 8, 4);
    FieldReadable(buf, t, 10, 4);
    FieldReadable(buf, t, 12, 4);
  }

  lemma {:induction false} RowsReadable(buf: seq<Byte>, vec: nat, n: nat, c: Counts)
    requires |buf| < MAX_BUFFER_SIZE && VectorOk(buf, vec, 4) && n <= ReadScalar(buf, vec, 4).value
    requires VerifyRows(buf, vec, n, c).0
    ensures ReadRowsUpTo(buf, vec, n).Some? && |ReadRowsUpTo(buf, vec, n).value| == n
  {
    if n > 0 {
      RowsReadable(buf, vec, n - 1, c);
      RowReadable(buf, Element(buf, vec, n - 1), VerifyRows(buf, vec, n - 1, c).1);
    }
  }

  lemma {:induction false} PairsReadable(buf: seq<Byte>, at: nat, n: nat)
    requires at + 12 * n <= |buf|
    ensures ReadPairsFrom(buf, at, n).Some? && |ReadPairsFrom(buf, at, n).value| == n
    decreases n
  {
    if n > 0 {
      PairsReadable(buf, at + 12, n - 1);
    }
  }

  lemma PairVectorReadable(buf: seq<Byte>, vec: nat)
    requires |buf| < MAX_BUFFER_SIZE && VectorOk(buf, vec, 12)
    ensures ReadPairs(buf, vec).Some?
  {
    PairsReadable(buf, vec + 4, ReadScalar(buf, vec, 4).value);
  }

  /**
    For every byte string and every position: if the check of a response succeeds
    there, then the vtable, every field, the vector, each of its elements and each
    row they lead to can be read without leaving the buffer.
   */
  lemma ResponseCheckSound(buf: seq<Byte>, t: nat, c: Counts)
    requires |buf| < MAX_BUFFER_SIZE && VerifyResponse(buf, t, c).0
    ensures ReadResponse(buf, t).Some?
  {
    FieldReadable(buf, t, 4, 8);
    match Target(buf, t, 6) {
      case Null =>
      case At(v) =>
        RowsReadable(buf, v, ReadScalar(buf, v, 4).value, VerifyTableStart(buf, t, c).1);
    }
  }

  /** The same for both requests, whose parameters and pairs are then present. */
  lemma RequestCheckSound(buf: seq<Byte>, t: nat, range: bool, c: Counts)
    requires |buf| < MAX_BUFFER_SIZE && VerifyRequest(buf, t, range, c).0
    ensures ReadRequest(buf, t, range).Some?
  {
    var c1 := VerifyTableStart(buf, t, c).1;
    var params := Target(buf, t, if range then 4 else 6).pos;
    ParamsReadable(buf, params, c1);
    PairVectorReadable(buf, Target(buf, t, 8).pos);
    FieldReadable(buf, t, if range then 6 else 4, 8);
  }

  lemma RangeRequestBufferSound(buf: seq<Byte>)
    requires |buf| < MAX_BUFFER_SIZE && RangeRequestBufferOk(buf)
    ensures GetRoot(buf).Some? && ReadRequest(buf, GetRoot(buf).value, true).Some?
  {
    RequestCheckSound(buf, ReadScalar(buf, 0, 4).value, true, Counts(0, 0));
  }
}
