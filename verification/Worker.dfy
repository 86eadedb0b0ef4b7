/**
  What one worker answers: it checks and reads a batch, prices it and builds the result
  message, and answers every message it cannot use with an empty one (worker.cpp).
 */
module Workers {
  import opened Wrappers
  import opened Bytes
  import opened Tables
  import opened Messages
  import opened RoundTrip
  import opened Verifiers
  import opened Soundness
  import opened Acceptance
  import opened RangePricer

  // ----- whatever is read fits its type -----

  lemma ScalarFits(buf: seq<Byte>, p: int, n: nat)
    requires ReadScalar(buf, p, n).Some?
    ensures ReadScalar(buf, p, n).value < Pow256(n)
  {
    ReadLEBound(buf[p..p + n]);
  }

  lemma FieldFits(buf: seq<Byte>, t: int, id: nat, size: nat)
    requires GetField(buf, t, id, size, 0).Some?
    ensures GetField(buf, t, id, size, 0).value < Pow256(size)
  {
    var f := GetOptionalFieldOffset(buf, t, id).value;
    if f != 0 {
      ScalarFits(buf, t + f, size);
    }
  }

  lemma ParamsFit(buf: seq<Byte>, t: int)
    requires ReadParams(buf, t).Some?
    ensures ReadParams(buf, t).value.Fits()
  {
    Pow256Values();
    FieldFits(buf, t, 4, 1);
    FieldFits(buf, t, 6, 4);
    FieldFits(buf, t, 8, 4);
    FieldFits(buf, t, 10, 4);
    FieldFits(buf, t, 12, 4);
    FieldFits(buf, t, 14, 4);
  }

  lemma {:induction false} PairsFromFit(buf: seq<Byte>, at: int, n: nat)
    requires ReadPairsFrom(buf, at, n).Some?
    ensures PairsFit(ReadPairsFrom(buf, at, n).value) && |ReadPairsFrom(buf, at, n).value| == n
    decreases n
  {
    if n > 0 {
      Pow256Values();
      ScalarFits(buf, at, 4);
      ScalarFits(buf, at + 4, 4);
      ScalarFits(buf, at + 8, 4);
      PairsFromFit(buf, at + 12, n - 1);
    }
  }

  lemma PairsReadFit(buf: seq<Byte>, vec: int)
    requires ReadPairs(buf, vec).Some?
    ensures PairsFit(ReadPairs(buf, vec).value) && |ReadPairs(buf, vec).value| < 0x1_0000_0000
  {
    Pow256Values();
    ScalarFits(buf, vec, 4);
    PairsFromFit(buf, vec + 4, VectorSize(buf, vec).value);
  }

  /** A request read from any bytes fits the types of its fields. */
  lemma RequestReadFits(buf: seq<Byte>, t: int, range: bool)
    requires ReadRequest(buf, t, range).Some?
    ensures ReadRequest(buf, t, range).value.Fits()
  {
    Pow256Values();
    FieldFits(buf, t, if range then 6 else 4, 8);
    ParamsFit(buf, GetPointer(buf, t, if range then 4 else 6).value.pos);
    PairsReadFit(buf, GetPointer(buf, t, 8).value.pos);
  }

  // ----- the worker -----

  /** The batch in a message, when the worker's check accepts it. */
  function CheckedBatch(msg: seq<Byte>): (rq: Option<Request>)
    requires |msg| < MAX_BUFFER_SIZE
    ensures rq.Some? ==> rq.value.Fits()
  {
    match GetRoot(msg)
    case None => None
    case Some(root) =>
      if root >= 0 && VerifyRequest(msg, root, false, Counts(0, 0)).0 then
        RequestCheckSound(msg, root, false, Counts(0, 0));
        RequestReadFits(msg, root, false);
        ReadRequest(msg, root, false)
      else None
  }

  /** What the worker sends back for a batch that passed its check. */
  function BatchReply(pv: Exponential, rq: Request): seq<Byte>
    requires rq.Fits()
  {
    match ProcessResult(pv, rq.params, rq.pairs, rq.tag)
    case None => []
    case Some(bytes) => bytes
  }

  /** An invalid batch and a failed pricing are answered with an empty message. */
  function WorkerReply(pv: Exponential, msg: seq<Byte>): seq<Byte>
    requires |msg| < MAX_BUFFER_SIZE
  {
    match CheckedBatch(msg)
    case None => []
    case Some(rq) => BatchReply(pv, rq)
  }

  /** The answer to a batch names the batch it is for, and has a row for each of its pairs; a refused one is empty. */
  lemma ReplyNamesBatch(pv: Exponential, msg: seq<Byte>, rq: Request, reply: seq<Byte>)
    requires |msg| < MAX_BUFFER_SIZE && CheckedBatch(msg) == Some(rq) && reply == WorkerReply(pv, msg)
    requires |reply| < MAX_BUFFER_SIZE
    ensures Refused(rq.params) ==> reply == []
    ensures !Refused(rq.params) ==>
              && GetRoot(reply).Some?
              && var r := ReadResponse(reply, GetRoot(reply).value);
              && r.Some? && r.value.tag == rq.tag
              && r.value.results.Some? && |r.value.results.value| == |rq.pairs|
  {
    if !Refused(rq.params) {
      ResponseRoundTrip(rq.tag, PriceAll(pv, rq.params, rq.pairs));
    }
  }

  method AnswerBatch(pv: Exponential, lanes: nat, rq: Request) returns (reply: seq<Byte>)
    requires rq.Fits() && lanes >= 1 && |BatchReply(pv, rq)| < I32
    ensures reply == BatchReply(pv, rq)
  {
    var result := Process(pv, rq.params, lanes, rq.pairs, rq.tag);
    reply := if result.Some? then result.value else [];
  }

  /** One turn of the worker's loop: exactly one message out for the message in. */
  method Answer(pv: Exponential, lanes: nat, msg: seq<Byte>) returns (reply: seq<Byte>)
    requires |msg| < MAX_BUFFER_SIZE && lanes >= 1 && GetRoot(msg).Some? && GetRoot(msg).value >= 0
    requires |WorkerReply(pv, msg)| < I32
    ensures reply == WorkerReply(pv, msg)
  {
    var verifier := new Verifiers.Verifier(msg);
    var root := GetRoot(msg).value;
    var ok := verifier.Request(root, false);
    if !ok {
      return [];
    }
    RequestCheckSound(msg, root, false, Counts(0, 0));
    RequestReadFits(msg, root, false);
    reply := AnswerBatch(pv, lanes, ReadRequest(msg, root, false).value);
  }

  // ----- the server's side -----

  /** The rows the server takes from one result message. */
  function Collected(msg: seq<Byte>): seq<Row>
    requires |msg| < MAX_BUFFER_SIZE
  {
    if msg == [] then []
    else
      match GetRoot(msg)
      case None => []
      case Some(root) =>
        if root >= 0 && VerifyResponse(msg, root, Counts(0, 0)).0 then
          ResponseCheckSound(msg, root, Counts(0, 0));
          match ReadResponse(msg, root).value.results
          case None => []
          case Some(rows) => rows
        else []
  }

  /** The worker reads back the batch that was sent. */
  lemma BatchChecked(rq: Request)
    requires rq.Fits() && |RequestBytes(false, rq)| < MAX_BUFFER_SIZE
    ensures CheckedBatch(RequestBytes(false, rq)) == Some(rq.AsRead())
  {
    BatchRequestAccepted(rq);
    RequestRoundTrip(false, rq);
  }

  lemma ResponseCollected(tag: nat, rows: seq<Row>)
    requires Is64(tag) && RowsFit(rows) && |ResponseBytes(tag, rows)| < MAX_BUFFER_SIZE
    ensures Collected(ResponseBytes(tag, rows)) == if |rows| <= 999_999 then RowsAsRead(rows) else []
  {
    ResponseAcceptedIff(tag, rows);
    ResponseRoundTrip(tag, rows);
  }

  /** The rows that come back for a batch of these pairs. */
  function BatchRows(pv: Exponential, p: Params, pairs: seq<Pair>): (rows: seq<Row>)
    requires p.Fits()
  {
    if Refused(p.AsRead()) || |pairs| > 999_999 then [] else RowsAsRead(PriceAll(pv, p.AsRead(), pairs))
  }

  /**
    A batch comes back priced, unless its parameters are refused or it has so many
    rows that the server's own check drops the result.
   */
  lemma BatchComesBack(pv: Exponential, rq: Request)
    requires rq.Fits() && |RequestBytes(false, rq)| < MAX_BUFFER_SIZE
    requires |WorkerReply(pv, RequestBytes(false, rq))| < MAX_BUFFER_SIZE
    ensures Collected(WorkerReply(pv, RequestBytes(false, rq))) == BatchRows(pv, rq.params, rq.pairs)
  {
    BatchChecked(rq);
    var p := rq.params.AsRead();
    if !Refused(p) {
      ResponseCollected(rq.tag, PriceAll(pv, p, rq.pairs));
    }
  }
}
