/**
  The server run on real messages: what a client reads, from the bytes of the reply to
  its own request, in every interleaving of the threads, for every number of workers and
  every chunk size (worker.cpp, client.cpp).
 */
module EndToEnd {
  import opened Wrappers
  import opened Binary32
  import opened Bytes
  import opened Tables
  import opened Messages
  import opened RoundTrip
  import opened Verifiers
  import opened Soundness
  import opened Acceptance
  import opened KnownBytes
  import opened RangePricer
  import opened Batches
  import opened Workers
  import opened Gather
  import opened Sizes
  import opened Server
  import opened Conservation
  import opened Runs
  import opened Progress

  type Msg = seq<Byte>

  /** `std::sort` by idx: some sorted permutation, equal indices in any order. */
  type Sort = seq<Row> -> seq<Row>

  ghost predicate SortsByIdx(sort: Sort) {
    forall rows {:trigger sort(rows)} :: SortedByIdx(sort(rows)) && multiset(sort(rows)) == multiset(rows)
  }

  function Insert(row: Row, rows: seq<Row>): (r: seq<Row>)
    requires SortedByIdx(rows)
    ensures SortedByIdx(r) && multiset(r) == multiset(rows) + multiset{row}
  {
    if rows == [] then [row]
    else
      var n := |rows| - 1;
      assert rows == rows[..n] + [rows[n]];
      if rows[n].idx <= row.idx then rows + [row]
      else
        var front := Insert(row, rows[..n]);
        StaysBounded(rows[..n], row, front, rows[n].idx);
        front + [rows[n]]
  }

  lemma StaysBounded(rows: seq<Row>, row: Row, r: seq<Row>, bound: nat)
    requires row.idx <= bound && forall i :: 0 <= i < |rows| ==> rows[i].idx <= bound
    requires multiset(r) == multiset(rows) + multiset{row}
    ensures forall i :: 0 <= i < |r| ==> r[i].idx <= bound
  {
    forall i | 0 <= i < |r|
      ensures r[i].idx <= bound
    {
      assert r[i] in multiset(rows) + multiset{row};
    }
  }

  function InsertionSort(rows: seq<Row>): (r: seq<Row>)
    ensures SortedByIdx(r) && multiset(r) == multiset(rows)
  {
    if rows == [] then []
    else
      var n := |rows| - 1;
      assert rows == rows[..n] + [rows[n]];
      Insert(rows[n], InsertionSort(rows[..n]))
  }

  /** There are such functions. */
  lemma SomeSort() returns (sort: Sort)
    ensures SortsByIdx(sort)
  {
    sort := InsertionSort;
  }

  /** The request in a message that passes the server's check. */
  function RequestIn(msg: Msg): (rq: Option<Request>)
    ensures rq.Some? ==> rq.value.Fits()
  {
    if |msg| < MAX_BUFFER_SIZE && RangeRequestBufferOk(msg) then
      RangeRequestBufferSound(msg);
      RequestReadFits(msg, GetRoot(msg).value, true);
      ReadRequest(msg, GetRoot(msg).value, true)
    else None
  }

  /** Neither the message of a batch nor the answer to it exceeds what a buffer can hold. */
  predicate BatchFits(pv: Exponential, batch: Request)
    requires batch.Fits()
  {
    |RequestBytes(false, batch)| < MAX_BUFFER_SIZE && |WorkerReply(pv, RequestBytes(false, batch))| < MAX_BUFFER_SIZE
  }

  /** The chunk arithmetic does not overflow, and every message between server and workers can be built. */
  predicate Manageable(pv: Exponential, rq: Request, lanes: nat)
    requires rq.Fits()
  {
    && Countable(|rq.pairs|, lanes)
    && forall c :: 0 <= c < ChunkCount(|rq.pairs|, lanes) ==> BatchFits(pv, Batch(rq, lanes, c))
  }

  predicate Admits(pv: Exponential, lanes: nat, msg: Msg) {
    |msg| < MAX_BUFFER_SIZE && (RequestIn(msg).Some? ==> Manageable(pv, RequestIn(msg).value, lanes))
  }

  function Split(pv: Exponential, lanes: nat, msg: Msg): Option<seq<Msg>> {
    match RequestIn(msg)
    case None => None
    case Some(rq) =>
      if Manageable(pv, rq, lanes) then Some(BatchMessages(rq, lanes, ChunkCount(|rq.pairs|, lanes))) else Some([])
  }

  function Answer(pv: Exponential, msg: Msg): Msg {
    if |msg| < MAX_BUFFER_SIZE then WorkerReply(pv, msg) else []
  }

  function Taken(msg: Msg): seq<Row> {
    if |msg| < MAX_BUFFER_SIZE then Collected(msg) else []
  }

  function Rows(sort: Sort, got: seq<Msg>): seq<Row> {
    sort(FlatMap(Taken, got))
  }

  function ReplyTo(sort: Sort, msg: Msg, got: seq<Msg>): Msg {
    match RequestIn(msg)
    case None => []
    case Some(rq) => if RowsFit(Rows(sort, got)) then ResponseBytes(rq.tag, Rows(sort, got)) else []
  }

  function PricingService(pv: Exponential, lanes: nat, sort: Sort): Service<Msg> {
    Service(m => Admits(pv, lanes, m), m => Split(pv, lanes, m), ErrorReplyBytes(), m => Answer(pv, m),
            (m, got) => ReplyTo(sort, m, got))
  }

  // ----- one batch -----

  lemma AnswerSize(pv: Exponential, msg: Msg)
    requires |msg| < MAX_BUFFER_SIZE && CheckedBatch(msg).Some?
    ensures |WorkerReply(pv, msg)| <= 107 * |CheckedBatch(msg).value.pairs| + 100
  {
    var rq := CheckedBatch(msg).value;
    ResponseSize(rq.tag, PriceAll(pv, rq.params, rq.pairs));
  }

  lemma BatchTaken(pv: Exponential, rq: Request, msg: Msg)
    requires rq.Fits() && msg == RequestBytes(false, rq) && |msg| < MAX_BUFFER_SIZE
    requires |WorkerReply(pv, msg)| < MAX_BUFFER_SIZE
    ensures Taken(Answer(pv, msg)) == BatchRows(pv, rq.params, rq.pairs)
  {
    BatchComesBack(pv, rq);
  }

  /** What the server takes from the answer to a batch. */
  lemma AnswerTaken(pv: Exponential, rq: Request)
    requires rq.Fits() && BatchFits(pv, rq)
    ensures Taken(Answer(pv, RequestBytes(false, rq))) == BatchRows(pv, rq.params, rq.pairs)
  {
    BatchTaken(pv, rq, RequestBytes(false, rq));
  }

  /** A batch of at most 999,999 pairs always fits. */
  lemma SmallBatchFits(pv: Exponential, rq: Request)
    requires rq.Fits() && |rq.pairs| <= 999_999
    ensures BatchFits(pv, rq)
  {
    RequestSize(false, rq);
    BatchChecked(rq);
    AnswerSize(pv, RequestBytes(false, rq));
  }

  /** With chunks of at most 999,999 pairs every request that can be counted is manageable. */
  lemma SmallChunksManageable(pv: Exponential, rq: Request, lanes: nat)
    requires rq.Fits() && Countable(|rq.pairs|, lanes) && (lanes <= 999_999 || |rq.pairs| <= 999_999)
    ensures Manageable(pv, rq, lanes)
  {
    forall c | 0 <= c < ChunkCount(|rq.pairs|, lanes)
      ensures BatchFits(pv, Batch(rq, lanes, c))
    {
      SmallBatchFits(pv, Batch(rq, lanes, c));
    }
  }

  // ----- all batches of a request -----

  lemma AnswersStep(pv: Exponential, lanes: nat, sort: Sort, msgs: seq<Msg>, m: Msg)
    ensures var sv := PricingService(pv, lanes, sort);
            Answers(sv, msgs + [m]) == Answers(sv, msgs) + [Answer(pv, m)]
  {
    AnswersSplit(PricingService(pv, lanes, sort), msgs, [m]);
    AnswersOfOne(PricingService(pv, lanes, sort), m);
  }

  lemma TakenStep(answers: seq<Msg>, a: Msg)
    ensures FlatMap(Taken, answers + [a]) == FlatMap(Taken, answers) + Taken(a)
  {
    assert (answers + [a])[..|answers|] == answers;
  }

  lemma OneMoreAnswer(pv: Exponential, lanes: nat, sort: Sort, before: seq<Msg>, batch: Request, msg: Msg)
    requires batch.Fits() && BatchFits(pv, batch) && msg == RequestBytes(false, batch)
    ensures var sv := PricingService(pv, lanes, sort);
            FlatMap(Taken, Answers(sv, before + [msg])) ==
            FlatMap(Taken, Answers(sv, before)) + BatchRows(pv, batch.params, batch.pairs)
  {
    AnswersStep(pv, lanes, sort, before, msg);
    TakenStep(Answers(PricingService(pv, lanes, sort), before), Answer(pv, msg));
    AnswerTaken(pv, batch);
  }

  lemma OneMoreBatch(pv: Exponential, lanes: nat, sort: Sort, rq: Request, n: nat)
    requires rq.Fits() && Manageable(pv, rq, lanes) && n < ChunkCount(|rq.pairs|, lanes)
    ensures var sv := PricingService(pv, lanes, sort);
            FlatMap(Taken, Answers(sv, BatchMessages(rq, lanes, n + 1))) ==
            FlatMap(Taken, Answers(sv, BatchMessages(rq, lanes, n))) + BatchRows(pv, rq.params, Chunk(rq.pairs, lanes, n))
  {
    var batch := Batch(rq, lanes, n);
    var before, msg := BatchMessages(rq, lanes, n), RequestBytes(false, batch);
    BatchMessagesStep(rq, lanes, n);
    OneMoreAnswer(pv, lanes, sort, before, batch, msg);
    assert BatchMessages(rq, lanes, n + 1) == before + [msg];
  }

  /** Taken in the order they were cut, the answers to the first `n` batches give `rows`. */
  ghost predicate GivesRows(pv: Exponential, lanes: nat, sort: Sort, rq: Request, n: nat, rows: seq<Row>)
    requires rq.Fits() && Countable(|rq.pairs|, lanes) && n <= ChunkCount(|rq.pairs|, lanes)
  {
    FlatMap(Taken, Answers(PricingService(pv, lanes, sort), BatchMessages(rq, lanes, n))) == rows
  }

  lemma OneMoreGivesRows(pv: Exponential, lanes: nat, sort: Sort, rq: Request, n: nat)
    requires rq.Fits() && Manageable(pv, rq, lanes) && n < ChunkCount(|rq.pairs|, lanes)
    ensures GivesRows(pv, lanes, sort, rq, n, BatchesRows(pv, rq, lanes, n)) ==>
            GivesRows(pv, lanes, sort, rq, n + 1, BatchesRows(pv, rq, lanes, n + 1))
  {
    OneMoreBatch(pv, lanes, sort, rq, n);
  }

  lemma {:induction false} AnswersRows(pv: Exponential, lanes: nat, sort: Sort, rq: Request, n: nat)
    requires rq.Fits() && Manageable(pv, rq, lanes) && n <= ChunkCount(|rq.pairs|, lanes)
    ensures GivesRows(pv, lanes, sort, rq, n, BatchesRows(pv, rq, lanes, n))
  {
    if n > 0 {
      var m := n - 1;
      AnswersRows(pv, lanes, sort, rq, m);
      OneMoreGivesRows(pv, lanes, sort, rq, m);
    }
  }

  /** The rows of a reply: the rows of all batches in some order by idx. */
  ghost predicate RepliesWith(pv: Exponential, lanes: nat, rq: Request, rows: seq<Row>)
    requires rq.Fits() && Countable(|rq.pairs|, lanes)
  {
    SortedByIdx(rows) && multiset(rows) == multiset(AllRows(pv, rq, lanes))
  }

  lemma GatheredRows(pv: Exponential, lanes: nat, sort: Sort, rq: Request, got: seq<Msg>)
    requires rq.Fits() && Manageable(pv, rq, lanes) && SortsByIdx(sort)
    requires multiset(got) ==
             multiset(Answers(PricingService(pv, lanes, sort), BatchMessages(rq, lanes, ChunkCount(|rq.pairs|, lanes))))
    ensures RepliesWith(pv, lanes, rq, Rows(sort, got))
  {
    var n := ChunkCount(|rq.pairs|, lanes);
    var answers := Answers(PricingService(pv, lanes, sort), BatchMessages(rq, lanes, n));
    AnswersRows(pv, lanes, sort, rq, n);
    FlatMapPermutes(Taken, got, answers);
  }

  // ----- rows read back unchanged -----

  /** A row that was read from a message: it fits, and storing it again loses nothing. */
  predicate Clean(row: Row) {
    row.Fits() && row.AsRead() == row
  }

  predicate AllClean(rows: seq<Row>) {
    forall i :: 0 <= i < |rows| ==> Clean(rows[i])
  }

  lemma AsReadIsClean(rows: seq<Row>)
    requires RowsFit(rows)
    ensures AllClean(RowsAsRead(rows))
  {
    forall i | 0 <= i < |rows|
      ensures Clean(RowsAsRead(rows)[i])
    {
      RowsAsReadAt(rows, i);
    }
  }

  lemma {:induction false} CleanReads(rows: seq<Row>)
    requires AllClean(rows)
    ensures RowsFit(rows) && RowsAsRead(rows) == rows
  {
    if rows != [] {
      CleanReads(rows[..|rows| - 1]);
    }
  }

  lemma BatchRowsClean(pv: Exponential, p: Params, pairs: seq<Pair>)
    requires p.Fits() && PairsFit(pairs)
    ensures AllClean(BatchRows(pv, p, pairs))
  {
    AsReadIsClean(PriceAll(pv, p.AsRead(), pairs));
  }

  lemma {:induction false} BatchesRowsClean(pv: Exponential, rq: Request, lanes: nat, n: nat)
    requires rq.Fits() && Countable(|rq.pairs|, lanes) && n <= ChunkCount(|rq.pairs|, lanes)
    ensures AllClean(BatchesRows(pv, rq, lanes, n)) && |BatchesRows(pv, rq, lanes, n)| <= |ConcatChunks(rq.pairs, lanes, n)|
  {
    if n > 0 {
      BatchesRowsClean(pv, rq, lanes, n - 1);
      BatchRowsClean(pv, rq.params, Chunk(rq.pairs, lanes, n - 1));
    }
  }

  lemma CleanPermutes(rows: seq<Row>, perm: seq<Row>)
    requires AllClean(rows) && multiset(perm) == multiset(rows)
    ensures AllClean(perm) && |perm| == |rows|
  {
    assert |multiset(perm)| == |multiset(rows)|;
    forall i | 0 <= i < |perm|
      ensures Clean(perm[i])
    {
      assert perm[i] in multiset(rows);
    }
  }

  lemma AllRowsClean(pv: Exponential, rq: Request, lanes: nat)
    requires rq.Fits() && Countable(|rq.pairs|, lanes)
    ensures AllClean(AllRows(pv, rq, lanes)) && |AllRows(pv, rq, lanes)| <= |rq.pairs|
  {
    BatchesRowsClean(pv, rq, lanes, ChunkCount(|rq.pairs|, lanes));
    ChunksPartition(rq.pairs, lanes);
  }

  lemma RowsAreClean(rows: seq<Row>, sorted: seq<Row>)
    requires AllClean(rows) && multiset(sorted) == multiset(rows)
    ensures RowsFit(sorted) && RowsAsRead(sorted) == sorted && |sorted| == |rows|
  {
    CleanPermutes(rows, sorted);
    CleanReads(sorted);
  }

  // ----- replies -----

  lemma ReplyFrom(sort: Sort, msg: Msg, rq: Request, got: seq<Msg>, rows: seq<Row>)
    requires RequestIn(msg) == Some(rq) && rows == Rows(sort, got) && RowsFit(rows)
    ensures ReplyTo(sort, msg, got) == ResponseBytes(rq.tag, rows)
  {
  }

  lemma AnsweredBy(pv: Exponential, lanes: nat, sort: Sort, msg: Msg, reply: Msg, rq: Request) returns (got: seq<Msg>)
    requires Answered(PricingService(pv, lanes, sort), msg, reply) && RequestIn(msg) == Some(rq)
    ensures Manageable(pv, rq, lanes) && reply == ReplyTo(sort, msg, got)
    ensures multiset(got) ==
            multiset(Answers(PricingService(pv, lanes, sort), BatchMessages(rq, lanes, ChunkCount(|rq.pairs|, lanes))))
  {
    var sv := PricingService(pv, lanes, sort);
    assert sv.split(msg) == Split(pv, lanes, msg);
    got :| multiset(got) == multiset(Answers(sv, Split(pv, lanes, msg).value)) && reply == sv.reply(msg, got);
  }

  /** A reply to a valid request consists of the rows of its own batches, sorted by idx. */
  lemma ReplyRows(pv: Exponential, lanes: nat, sort: Sort, msg: Msg, reply: Msg, rq: Request) returns (rows: seq<Row>)
    requires SortsByIdx(sort) && Answered(PricingService(pv, lanes, sort), msg, reply) && RequestIn(msg) == Some(rq)
    ensures Manageable(pv, rq, lanes) && RepliesWith(pv, lanes, rq, rows)
    ensures RowsFit(rows) && RowsAsRead(rows) == rows && |rows| <= |rq.pairs| && reply == ResponseBytes(rq.tag, rows)
  {
    var got := AnsweredBy(pv, lanes, sort, msg, reply, rq);
    GatheredRows(pv, lanes, sort, rq, got);
    rows := Rows(sort, got);
    AllRowsClean(pv, rq, lanes);
    RowsAreClean(AllRows(pv, rq, lanes), rows);
    ReplyFrom(sort, msg, rq, got, rows);
  }

  /** The accessors find `rows` under `tag`, and the client's check accepts up to 999,999 of them. */
  predicate Delivers(reply: Msg, tag: nat, rows: seq<Row>) {
    && |reply| < MAX_BUFFER_SIZE && GetRoot(reply).Some? && GetRoot(reply).value >= 0
    && ReadResponse(reply, GetRoot(reply).value) == Some(Response(tag, Some(rows)))
    && (VerifyResponse(reply, GetRoot(reply).value, Counts(0, 0)).0 <==> |rows| <= 999_999)
  }

  lemma ReplyDelivers(tag: nat, rows: seq<Row>, reply: Msg)
    requires Is64(tag) && RowsFit(rows) && RowsAsRead(rows) == rows
    requires reply == ResponseBytes(tag, rows) && |reply| < MAX_BUFFER_SIZE
    ensures Delivers(reply, tag, rows)
  {
    ResponseAcceptedIff(tag, rows);
    ResponseRoundTrip(tag, rows);
  }

  /** What a client gets for its request: every priced row in the order of its pairs, or none. */
  function Expected(pv: Exponential, rq: Request): (rows: seq<Row>)
    requires rq.Fits()
    ensures RowsFit(rows)
  {
    ExpectedFits(pv, rq);
    if Refused(rq.params.AsRead()) then [] else PricedRows(pv, rq)
  }

  lemma ExpectedFits(pv: Exponential, rq: Request)
    requires rq.Fits()
    ensures RowsFit(PricedRows(pv, rq))
  {
    AsReadIsClean(PriceAll(pv, rq.params.AsRead(), rq.pairs));
  }

  /** The rows of a reply are determined when indices increase strictly and chunks are not too large. */
  lemma RowsDetermined(pv: Exponential, lanes: nat, rq: Request, rows: seq<Row>)
    requires rq.Fits() && Countable(|rq.pairs|, lanes) && RepliesWith(pv, lanes, rq, rows)
    requires StrictPairs(rq.pairs) && (lanes <= 999_999 || |rq.pairs| <= 999_999)
    ensures rows == Expected(pv, rq)
  {
    AllOrNothing(pv, rq, lanes);
    PricedStrict(pv, rq);
    SortedIsUnique(AllRows(pv, rq, lanes), rows);
  }

  lemma RequestArrives(rq: Request)
    requires rq.Fits() && |RequestBytes(true, rq)| < MAX_BUFFER_SIZE
    ensures RequestIn(RequestBytes(true, rq)) == Some(rq.AsRead())
  {
    RangeRequestAccepted(rq);
    RequestRoundTrip(true, rq);
  }

  /** Any valid request, whatever its indices: its own rows in some order by idx. */
  lemma ReplyIsSorted(pv: Exponential, lanes: nat, sort: Sort, threads: nat,
                      states: seq<State<Msg>>, steps: seq<Step<Msg>>, i: nat, k: nat, rq: Request) returns (rows: seq<Row>)
    requires SortsByIdx(sort) && Run(PricingService(pv, lanes, sort), threads, states, steps)
    requires i < |states| && k < |states[i].history| && RequestIn(states[i].history[k].0) == Some(rq)
    ensures Manageable(pv, rq, lanes) && RepliesWith(pv, lanes, rq, rows) && RowsFit(rows)
    ensures var reply := states[i].history[k].1;
            reply == ResponseBytes(rq.tag, rows) && (|reply| < MAX_BUFFER_SIZE ==> Delivers(reply, rq.tag, rows))
  {
    var msg, reply := states[i].history[k].0, states[i].history[k].1;
    RepliesAreOwn(PricingService(pv, lanes, sort), threads, states, steps, i, k);
    rows := ReplyRows(pv, lanes, sort, msg, reply, rq);
    if |reply| < MAX_BUFFER_SIZE {
      ReplyDelivers(rq.tag, rows, reply);
    }
  }

  /** The rows a client expects, field by field. */
  ghost predicate PricesOf(pv: Exponential, rq: Request, rows: seq<Row>)
    requires rq.Fits()
  {
    var p := rq.params;
    if AtMostZero(Decode(p.timeToMaturity)) || AtMostZero(Decode(p.stockDiscretization)) then rows == []
    else
      var rate := if p.interestRate == 0x8000_0000 then 0 else p.interestRate;
      && |rows| == |rq.pairs|
      && forall k :: 0 <= k < |rows| ==>
           && rows[k].idx == rq.pairs[k].idx
           && ReadsAsFloat(rows[k].alpha, rq.pairs[k].alpha) && ReadsAsFloat(rows[k].beta, rq.pairs[k].beta)
           && ReadsAsFloat(rows[k].price, pv(rate, p.timeToMaturity)) && rows[k].hedgeRatio == 0
  }

  lemma ExpectedIsPrices(pv: Exponential, rq: Request)
    requires rq.Fits()
    ensures PricesOf(pv, rq, Expected(pv, rq))
  {
    var p := rq.params;
    AtMostZeroPatterns(p.timeToMaturity);
    AtMostZeroPatterns(p.stockDiscretization);
    if !Refused(p.AsRead()) {
      forall k | 0 <= k < |rq.pairs|
        ensures PricedRows(pv, rq)[k] == PriceAll(pv, p.AsRead(), rq.pairs)[k].AsRead()
      {
        RowsAsReadAt(PriceAll(pv, p.AsRead(), rq.pairs), k);
      }
    }
  }

  /** What the accessors find in a reply. */
  ghost predicate HoldsPrices(pv: Exponential, rq: Request, reply: Msg)
    requires rq.Fits()
  {
    && GetRoot(reply).Some?
    && var r := ReadResponse(reply, GetRoot(reply).value);
    && r.Some? && r.value.tag == rq.tag && r.value.results.Some?
    && PricesOf(pv, rq, r.value.results.value)
  }

  /** The reply is the response with the expected rows; read from its bytes, unless they exceed a buffer, it holds just these. */
  ghost predicate RightReply(pv: Exponential, rq: Request, reply: Msg)
    requires rq.Fits()
  {
    && reply == ResponseBytes(rq.tag, Expected(pv, rq))
    && (|reply| < MAX_BUFFER_SIZE ==> Delivers(reply, rq.tag, Expected(pv, rq)) && HoldsPrices(pv, rq, reply))
  }

  /** An answer to a client's request. */
  lemma AnswerIsRight(pv: Exponential, lanes: nat, sort: Sort, rq: Request, msg: Msg, reply: Msg)
    requires SortsByIdx(sort) && Answered(PricingService(pv, lanes, sort), msg, reply)
    requires rq.Fits() && msg == RequestBytes(true, rq) && |msg| < MAX_BUFFER_SIZE
    requires StrictPairs(rq.pairs) && (lanes <= 999_999 || |rq.pairs| <= 999_999)
    ensures RightReply(pv, rq, reply)
  {
    RequestArrives(rq);
    var rows := ReplyRows(pv, lanes, sort, msg, reply, rq.AsRead());
    RowsDetermined(pv, lanes, rq.AsRead(), rows);
    AsReadExpected(pv, rq);
    if |reply| < MAX_BUFFER_SIZE {
      ReplyDelivers(rq.tag, rows, reply);
      ExpectedIsPrices(pv, rq);
    }
  }

  /**
    End to end, for every number of workers, chunk size up to 999,999, interleaving
    and arrival order: a reply to a client's request, read from its bytes, holds
    exactly the pricing of pair `k` as row `k`, or no row when the parameters are
    refused, under the request's own hash. The client's check accepts it exactly
    when it has at most 999,999 rows.
   */
  lemma ClientReadsItsPrices(pv: Exponential, lanes: nat, sort: Sort, threads: nat,
                             states: seq<State<Msg>>, steps: seq<Step<Msg>>, i: nat, k: nat, rq: Request, msg: Msg)
    requires SortsByIdx(sort) && Run(PricingService(pv, lanes, sort), threads, states, steps)
    requires i < |states| && k < |states[i].history| && states[i].history[k].0 == msg
    requires rq.Fits() && msg == RequestBytes(true, rq) && |msg| < MAX_BUFFER_SIZE
    requires StrictPairs(rq.pairs) && (lanes <= 999_999 || |rq.pairs| <= 999_999)
    ensures RightReply(pv, rq, states[i].history[k].1)
  {
    RepliesAreOwn(PricingService(pv, lanes, sort), threads, states, steps, i, k);
    AnswerIsRight(pv, lanes, sort, rq, msg, states[i].history[k].1);
  }

  /** Every request a client can build and count is admitted: nothing else is asked of it. */
  lemma ClientIsAdmitted(pv: Exponential, lanes: nat, rq: Request)
    requires rq.Fits() && |RequestBytes(true, rq)| < MAX_BUFFER_SIZE
    requires 1 <= lanes && |rq.pairs| + lanes - 1 <= 0x7fff_ffff && (lanes <= 999_999 || |rq.pairs| <= 999_999)
    ensures Admits(pv, lanes, RequestBytes(true, rq))
  {
    RequestArrives(rq);
    SmallChunksManageable(pv, rq.AsRead(), lanes);
  }

  /**
    Every message that a buffer holds is handled: one that fails the check is refused,
    one that passes is cut into batches if its chunks can be counted and are not too large.
   */
  lemma AnyMessageIsHandled(pv: Exponential, lanes: nat, sort: Sort, msg: Msg)
    requires |msg| < MAX_BUFFER_SIZE
    ensures !RangeRequestBufferOk(msg) ==> Admits(pv, lanes, msg) && PricingService(pv, lanes, sort).split(msg).None?
    ensures RangeRequestBufferOk(msg) ==>
              && PricingService(pv, lanes, sort).split(msg).Some? && GetRoot(msg).Some?
              && var rq := ReadRequest(msg, GetRoot(msg).value, true);
              && rq.Some?
              && var n := |rq.value.pairs|;
                 1 <= lanes && n + lanes - 1 <= 0x7fff_ffff && (lanes <= 999_999 || n <= 999_999) ==> Admits(pv, lanes, msg)
  {
    assert PricingService(pv, lanes, sort).split(msg) == Split(pv, lanes, msg);
    if RangeRequestBufferOk(msg) {
      RangeRequestBufferSound(msg);
      var rq := RequestIn(msg).value;
      if Countable(|rq.pairs|, lanes) && (lanes <= 999_999 || |rq.pairs| <= 999_999) {
        SmallChunksManageable(pv, rq, lanes);
      }
    }
  }

  /** A request that passes the server's check is cut into batches. */
  lemma RequestIsSplit(pv: Exponential, lanes: nat, sort: Sort, msg: Msg)
    requires RequestIn(msg).Some?
    ensures PricingService(pv, lanes, sort).split(msg).Some?
  {
    assert PricingService(pv, lanes, sort).split(msg) == Split(pv, lanes, msg);
  }

  /**
    And the reply comes: once the server has received a client's request, the program's
    own steps come to an end in every interleaving, and when they do exactly one message
    was added to the history, the reply to this request with the pricing of all its pairs.
   */
  lemma ClientGetsItsPrices(pv: Exponential, lanes: nat, sort: Sort, threads: nat,
                            states: seq<State<Msg>>, steps: seq<Step<Msg>>, i: nat,
                            later: seq<State<Msg>>, own: seq<Step<Msg>>, rq: Request, msg: Msg)
    requires SortsByIdx(sort) && Run(PricingService(pv, lanes, sort), threads, states, steps) && threads >= 1
    requires i < |steps| && steps[i] == Receive(msg)
    requires InternalRun(PricingService(pv, lanes, sort), later, own) && later[0] == states[i + 1]
    requires rq.Fits() && msg == RequestBytes(true, rq) && |msg| < MAX_BUFFER_SIZE
    requires StrictPairs(rq.pairs) && (lanes <= 999_999 || |rq.pairs| <= 999_999)
    ensures Shaped(later[0]) && SentWithin(later[0]) && |own| <= Work(later[0]) && Shaped(later[|own|])
    ensures var before, last := states[i].history, later[|own|];
            Stuck(PricingService(pv, lanes, sort), last) ==>
              && last.phase.Idle? && |last.history| == |before| + 1 && last.history[..|before|] == before
              && last.history[|before|].0 == msg && RightReply(pv, rq, last.history[|before|].1)
  {
    var sv, before, last := PricingService(pv, lanes, sort), states[i].history, later[|own|];
    RequestArrives(rq);
    RequestIsSplit(pv, lanes, sort, msg);
    ReceivedIsAnswered(sv, threads, states, steps, i, msg, later, own);
    if Stuck(sv, last) {
      AnswerIsRight(pv, lanes, sort, rq, msg, last.history[|before|].1);
    }
  }

  lemma AsReadExpected(pv: Exponential, rq: Request)
    requires rq.Fits()
    ensures Expected(pv, rq.AsRead()) == Expected(pv, rq)
  {
    assert rq.params.AsRead().AsRead() == rq.params.AsRead();
  }

  /** A message that fails the server's check is answered with an empty response. */
  lemma InvalidIsRefused(pv: Exponential, lanes: nat, sort: Sort, threads: nat,
                         states: seq<State<Msg>>, steps: seq<Step<Msg>>, i: nat, k: nat)
    requires Run(PricingService(pv, lanes, sort), threads, states, steps)
    requires i < |states| && k < |states[i].history| && RequestIn(states[i].history[k].0).None?
    ensures states[i].history[k].1 == ErrorReplyBytes() == [8, 0, 0, 0, 4, 0, 4, 0, 4, 0, 0, 0]
  {
    ErrorReplyIs();
    RepliesAreOwn(PricingService(pv, lanes, sort), threads, states, steps, i, k);
  }
}
