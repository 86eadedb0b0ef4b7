/** The five pricing messages, written and read (pricing_request_generated.h). */
module Messages {
  import opened Wrappers
  import opened Binary32
  import opened Bytes
  import opened Tables
  import opened Layout
  import opened TableLayout

  /** Floats are their 32-bit patterns. */
  const NEGATIVE_ZERO: nat := 0x8000_0000

  /** `f == 0.0f` (section 5.11 of IEEE 754-2008): both zeros, no NaN. */
  predicate EqualsZero(f: nat) {
    f == 0 || f == NEGATIVE_ZERO
  }

  lemma EqualsZeroMeans(f: nat)
    requires Is32(f)
    ensures EqualsZero(f) <==> IsZero(Decode(f))
  {
    ZeroPatterns(f);
  }

  /** What a float field reads back as: a value equal to the default is not stored. */
  function AsField(f: nat): nat {
    if EqualsZero(f) then 0 else f
  }

  predicate Is32(n: nat) {
    n < 0x1_0000_0000
  }

  predicate Is64(n: nat) {
    n < 0x1_0000_0000_0000_0000
  }

  // ----- PricingParams -----

  datatype Params = Params(
    optionType: nat,
    stockPrice: nat,
    strikePrice: nat,
    interestRate: nat,
    timeToMaturity: nat,
    stockDiscretization: nat)
  {
    predicate Fits() {
      && optionType < 256 && Is32(stockPrice) && Is32(strikePrice) && Is32(interestRate)
      && Is32(timeToMaturity) && Is32(stockDiscretization)
    }

    /** The message as it reads back when `option_type` was never added. */
    function AsRead(): Params {
      Params(0, AsField(stockPrice), AsField(strikePrice), AsField(interestRate),
             AsField(timeToMaturity), AsField(stockDiscretization))
    }
  }

  function FloatField(id: nat, f: nat): Write {
    Scalar(id, 4, f, EqualsZero(f))
  }

  /** The `add_` calls of the client and of `expand_to_batches`; neither adds `option_type`. */
  function ParamsWrites(p: Params): seq<Write> {
    [FloatField(6, p.stockPrice), FloatField(8, p.strikePrice), FloatField(10, p.interestRate),
     FloatField(12, p.timeToMaturity), FloatField(14, p.stockDiscretization)]
  }

  function ReadParams(buf: seq<Byte>, t: int): Option<Params> {
    var optionType :- GetField(buf, t, 4, 1, 0);
    var stockPrice :- GetField(buf, t, 6, 4, 0);
    var strikePrice :- GetField(buf, t, 8, 4, 0);
    var interestRate :- GetField(buf, t, 10, 4, 0);
    var timeToMaturity :- GetField(buf, t, 12, 4, 0);
    var stockDiscretization :- GetField(buf, t, 14, 4, 0);
    Some(Params(optionType, stockPrice, strikePrice, interestRate, timeToMaturity, stockDiscretization))
  }

  // ----- AlphaBetaPair, a struct of 12 bytes -----

  datatype Pair = Pair(idx: nat, alpha: nat, beta: nat) {
    predicate Fits() {
      Is32(idx) && Is32(alpha) && Is32(beta)
    }
  }

  predicate PairsFit(pairs: seq<Pair>) {
    forall i :: 0 <= i < |pairs| ==> pairs[i].Fits()
  }

  function PairBytes(p: Pair): (s: seq<Byte>)
    ensures |s| == 12
  {
    WriteLE(p.idx, 4) + WriteLE(p.alpha, 4) + WriteLE(p.beta, 4)
  }

  function PairsBytes(pairs: seq<Pair>): (s: seq<Byte>)
    ensures |s| == 12 * |pairs|
  {
    if pairs == [] then [] else PairBytes(pairs[0]) + PairsBytes(pairs[1..])
  }

  function ReadPair(buf: seq<Byte>, at: int): Option<Pair> {
    var idx :- ReadScalar(buf, at, 4);
    var alpha :- ReadScalar(buf, at + 4, 4);
    var beta :- ReadScalar(buf, at + 8, 4);
    Some(Pair(idx, alpha, beta))
  }

  function ReadPairsFrom(buf: seq<Byte>, at: int, n: nat): Option<seq<Pair>>
    decreases n
  {
    if n == 0 then Some([])
    else
      var p :- ReadPair(buf, at);
      var rest :- ReadPairsFrom(buf, at + 12, n - 1);
      Some([p] + rest)
  }

  function ReadPairs(buf: seq<Byte>, vec: int): Option<seq<Pair>> {
    var n :- VectorSize(buf, vec);
    ReadPairsFrom(buf, vec + 4, n)
  }

  // ----- RangePricingRequest and BatchPricingRequest -----

  /** `tag` is the request hash, or the batch counter. */
  datatype Request = Request(tag: nat, params: Params, pairs: seq<Pair>) {
    predicate Fits() {
      Is64(tag) && params.Fits() && PairsFit(pairs) && |pairs| < 0x1_0000_0000
    }

    function AsRead(): Request {
      Request(tag, params.AsRead(), pairs)
    }
  }

  function TagField(id: nat, tag: nat): Write {
    Scalar(id, 8, tag, tag == 0)
  }

  function RangeRequestWrites(tag: nat, params: nat, pairs: nat): seq<Write> {
    [Ref(4, params), TagField(6, tag), Ref(8, pairs)]
  }

  function BatchRequestWrites(tag: nat, params: nat, pairs: nat): seq<Write> {
    [TagField(4, tag), Ref(6, params), Ref(8, pairs)]
  }

  function RequestWrites(range: bool, tag: nat, params: nat, pairs: nat): seq<Write> {
    if range then RangeRequestWrites(tag, params, pairs) else BatchRequestWrites(tag, params, pairs)
  }

  /** The accessors of a request table; a null `request()` or `pairs()` is reported as `None`. */
  function ReadRequest(buf: seq<Byte>, t: int, range: bool): Option<Request> {
    var tag :- GetField(buf, t, if range then 6 else 4, 8, 0);
    var params :- GetPointer(buf, t, if range then 4 else 6);
    var pairs :- GetPointer(buf, t, 8);
    match (params, pairs)
    case (At(p), At(v)) =>
      var ps :- ReadParams(buf, p);
      var xs :- ReadPairs(buf, v);
      Some(Request(tag, ps, xs))
    case _ => None
  }

  // ----- PricingResponse -----

  datatype Row = Row(idx: nat, alpha: nat, beta: nat, price: nat, hedgeRatio: nat) {
    predicate Fits() {
      Is32(idx) && Is32(alpha) && Is32(beta) && Is32(price) && Is32(hedgeRatio)
    }

    function AsRead(): Row {
      Row(idx, AsField(alpha), AsField(beta), AsField(price), AsField(hedgeRatio))
    }
  }

  predicate RowsFit(rows: seq<Row>) {
    forall i :: 0 <= i < |rows| ==> rows[i].Fits()
  }

  function RowsAsRead(rows: seq<Row>): (r: seq<Row>)
    ensures |r| == |rows|
  {
    if rows == [] then [] else RowsAsRead(rows[..|rows| - 1]) + [rows[|rows| - 1].AsRead()]
  }

  lemma {:induction false} RowsAsReadAt(rows: seq<Row>, i: nat)
    requires i < |rows|
    ensures RowsAsRead(rows)[i] == rows[i].AsRead()
  {
    if i < |rows| - 1 {
      RowsAsReadAt(rows[..|rows| - 1], i);
    }
  }

  /** `CreatePricingResponse` adds the last field first. */
  function RowWrites(r: Row): seq<Write> {
    [FloatField(12, r.hedgeRatio), FloatField(10, r.price), FloatField(8, r.beta),
     FloatField(6, r.alpha), Scalar(4, 4, r.idx, r.idx == 0)]
  }

  function ReadRow(buf: seq<Byte>, t: int): Option<Row> {
    var idx :- GetField(buf, t, 4, 4, 0);
    var alpha :- GetField(buf, t, 6, 4, 0);
    var beta :- GetField(buf, t, 8, 4, 0);
    var price :- GetField(buf, t, 10, 4, 0);
    var hedgeRatio :- GetField(buf, t, 12, 4, 0);
    Some(Row(idx, alpha, beta, price, hedgeRatio))
  }

  /** The first `n` elements of a vector of row tables. */
  function ReadRowsUpTo(buf: seq<Byte>, vec: int, n: nat): Option<seq<Row>> {
    if n == 0 then Some([])
    else
      var rest :- ReadRowsUpTo(buf, vec, n - 1);
      var at :- GetIndirect(buf, vec, n - 1);
      var row :- ReadRow(buf, at);
      Some(rest + [row])
  }

  function ReadRows(buf: seq<Byte>, vec: int): Option<seq<Row>> {
    var n :- VectorSize(buf, vec);
    ReadRowsUpTo(buf, vec, n)
  }

  // ----- BatchPricingResponse and RangePricingResponse, which have the same layout -----

  /** `results` is `None` when the accessor returns a null pointer. */
  datatype Response = Response(tag: nat, results: Option<seq<Row>>)

  function ResponseWrites(tag: nat, results: nat): seq<Write> {
    [TagField(4, tag), Ref(6, results)]
  }

  function ReadResponse(buf: seq<Byte>, t: int): Option<Response> {
    var tag :- GetField(buf, t, 4, 8, 0);
    var results :- GetPointer(buf, t, 6);
    match results
    case Null => Some(Response(tag, None))
    case At(v) =>
      var rows :- ReadRows(buf, v);
      Some(Response(tag, Some(rows)))
  }

  // ----- building -----

  lemma FixedWrites(p: Params, r: Row)
    requires p.Fits() && r.Fits()
    ensures WellFormedWrites(ParamsWrites(p)) && WellFormedWrites(RowWrites(r))
  {
    Pow256Values();
  }

  lemma TaggedWrites(range: bool, tag: nat, a: nat, b: nat)
    requires Is64(tag)
    ensures WellFormedWrites(RequestWrites(range, tag, a, b)) && WellFormedWrites(ResponseWrites(tag, a))
    ensures a <= b ==> RefsWithin(RequestWrites(range, tag, b, a), b)
  {
    Pow256Values();
  }

  function PushParams(b: Builder, p: Params): (r: (Builder, nat))
    requires p.Fits() && Idle(b)
    ensures Idle(r.0) && |b.data| < r.1 <= |r.0.data|
  {
    FixedWrites(p, Row(0, 0, 0, 0, 0));
    WriteTable(b, ParamsWrites(p), true)
  }

  function PushRow(b: Builder, row: Row): (r: (Builder, nat))
    requires row.Fits() && Idle(b)
    ensures Idle(r.0) && |b.data| < r.1 <= |r.0.data|
  {
    FixedWrites(Params(0, 0, 0, 0, 0, 0), row);
    WriteTable(b, RowWrites(row), true)
  }

  /**
    Writes the rows in order and collects their offsets. As with scalars, the
    steps are mutually recursive, so that a proof unfolds them only by naming them.
   */
  function PushRows(b: Builder, rows: seq<Row>): (r: (Builder, seq<nat>))
    requires RowsFit(rows) && Idle(b)
    ensures Idle(r.0) && |r.0.data| >= |b.data| && |r.1| == |rows| && OffsetsWithin(r.0, r.1)
    decreases |rows|, 2
  {
    if rows == [] then (b, []) else PushSomeRows(b, rows)
  }

  function PushSomeRows(b: Builder, rows: seq<Row>): (r: (Builder, seq<nat>))
    requires RowsFit(rows) && Idle(b) && rows != []
    ensures Idle(r.0) && |r.0.data| >= |b.data| && |r.1| == |rows| && OffsetsWithin(r.0, r.1)
    decreases |rows|, 1
  {
    PushLastRow(b, rows)
  }

  function PushLastRow(b: Builder, rows: seq<Row>): (r: (Builder, seq<nat>))
    requires RowsFit(rows) && Idle(b) && rows != []
    ensures Idle(r.0) && |r.0.data| >= |b.data| && |r.1| == |rows| && OffsetsWithin(r.0, r.1)
    decreases |rows|, 0
  {
    var n := |rows| - 1;
    var (mid, offs) := PushRows(b, rows[..n]);
    var (next, off) := PushRow(mid, rows[n]);
    OffsetsExtend(mid, next, offs, off);
    (next, offs + [off])
  }

  lemma PushRowsLast(b: Builder, rows: seq<Row>, i: nat)
    requires RowsFit(rows) && Idle(b) && i < |rows|
    ensures RowsFit(rows[..i]) && RowsFit(rows[..i + 1]) && rows[i].Fits()
    ensures var (mid, offs) := PushRows(b, rows[..i]);
            PushRows(b, rows[..i + 1]) == (PushRow(mid, rows[i]).0, offs + [PushRow(mid, rows[i]).1])
  {
    assert rows[..i + 1][..i] == rows[..i];
    assert PushRows(b, rows[..i + 1]) == PushSomeRows(b, rows[..i + 1]) == PushLastRow(b, rows[..i + 1]);
  }

  lemma OffsetsExtend(b: Builder, next: Builder, offs: seq<nat>, off: nat)
    requires OffsetsWithin(b, offs) && |b.data| <= |next.data| && 0 < off <= |next.data|
    ensures OffsetsWithin(next, offs + [off])
  {
  }

  function PushResponse(b: Builder, tag: nat, results: nat): (r: (Builder, nat))
    requires Is64(tag) && Idle(b) && results <= |b.data|
    ensures Idle(r.0) && |b.data| < r.1 <= |r.0.data|
  {
    TaggedWrites(true, tag, results, 0);
    WriteTable(b, ResponseWrites(tag, results), true)
  }

  /** A finished response with a `results` vector. */
  function ResponseBuilder(tag: nat, rows: seq<Row>): (r: (Builder, nat))
    requires Is64(tag) && RowsFit(rows)
    ensures Idle(r.0) && 0 < r.1 <= |r.0.data|
  {
    var (b, offs) := PushRows(EMPTY, rows);
    var (v, results) := CreateVectorOfOffsets(b, offs);
    PushResponse(v, tag, results)
  }

  // ----- requests -----

  /** Pairs first, then the parameters, then the root table. */
  function RequestBuilder(range: bool, rq: Request): (r: (Builder, nat))
    requires rq.Fits()
    ensures Idle(r.0) && 0 < r.1 <= |r.0.data|
  {
    var (v, pairs) := CreateVector(EMPTY, PairsBytes(rq.pairs), |rq.pairs|, 12, 4);
    var (p, params) := PushParams(v, rq.params);
    PushRequest(p, range, rq.tag, params, pairs)
  }

  function PushRequest(b: Builder, range: bool, tag: nat, params: nat, pairs: nat): (r: (Builder, nat))
    requires Is64(tag) && Idle(b) && pairs <= params <= |b.data|
    ensures Idle(r.0) && |b.data| < r.1 <= |r.0.data|
  {
    TaggedWrites(range, tag, pairs, params);
    WriteTable(b, RequestWrites(range, tag, params, pairs), true)
  }

  function RequestBytes(range: bool, rq: Request): seq<Byte>
    requires rq.Fits()
  {
    var (b, root) := RequestBuilder(range, rq);
    Finish(b, root).data
  }

  function ResponseBytes(tag: nat, rows: seq<Row>): seq<Byte>
    requires Is64(tag) && RowsFit(rows)
  {
    var (b, root) := ResponseBuilder(tag, rows);
    Finish(b, root).data
  }

  /** A finished response without a `results` vector. */
  function NullResponseBytes(b: Builder, tag: nat): seq<Byte>
    requires Is64(tag) && Idle(b)
  {
    var (r, root) := PushResponse(b, tag, 0);
    Finish(r, root).data
  }

  /** `CreateRangePricingResponse` with its default arguments, the reply to an invalid request. */
  function ErrorReplyBytes(): seq<Byte> {
    NullResponseBytes(EMPTY, 0)
  }
}
