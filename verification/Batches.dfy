/** Cutting a request into batches (worker.cpp: expand_to_batches). */
module Batches {
  import opened Bytes
  import opened Messages
  import opened RoundTrip
  import opened Tables
  import opened Wrappers
  import opened Assembly

  const INT_MAX: nat := 0x7fff_ffff

  function Min(a: int, b: int): int {
    if b < a then b else a
  }

  /** The number of pairs and the chunk size do not overflow the `int` arithmetic. */
  predicate Countable(total: nat, lanes: nat) {
    lanes >= 1 && total + lanes - 1 <= INT_MAX
  }

  function ChunkCount(total: nat, lanes: nat): (n: nat)
    requires Countable(total, lanes)
    ensures n <= total
  {
    ChunkCountBound(total, lanes);
    (total + lanes - 1) / lanes
  }

  lemma ChunkCountBound(total: nat, lanes: nat)
    requires lanes >= 1
    ensures var n := (total + lanes - 1) / lanes; 0 <= n <= total && total <= n * lanes < total + lanes
  {
    var t := total + lanes - 1;
    var n := t / lanes;
    assert t == lanes * n + t % lanes;
    assert n * lanes == lanes * n;
    if n > total {
      MulAtLeast(lanes, n, total + 1);
      MulAtLeast(total + 1, lanes, 1);
      assert lanes * (total + 1) == lanes * total + lanes;
      MulAtLeast(total, lanes, 1);
      assert false;
    }
  }

  lemma MulAtLeast(k: nat, a: nat, b: nat)
    requires a >= b
    ensures k * a >= k * b
  {
    assert k * (a - b) >= 0;
    assert k * a == k * b + k * (a - b);
  }

  /** Chunk `c` starts inside the list; it ends inside it too, except for the last one. */
  lemma ChunkBounds(total: nat, lanes: nat, c: nat)
    requires Countable(total, lanes) && c < ChunkCount(total, lanes)
    ensures 0 <= c * lanes < total
    ensures c + 1 < ChunkCount(total, lanes) <==> c * lanes + lanes < total
  {
    ChunkCountBound(total, lanes);
    var n := ChunkCount(total, lanes);
    MulAtLeast(lanes, n, c + 1);
    assert lanes * (c + 1) == c * lanes + lanes;
    assert lanes * n == n * lanes;
    if c + 1 < n {
      MulAtLeast(lanes, n, c + 2);
      assert lanes * (c + 2) == c * lanes + lanes + lanes;
    }
  }

  function Chunk(pairs: seq<Pair>, lanes: nat, c: nat): (chunk: seq<Pair>)
    requires Countable(|pairs|, lanes) && c < ChunkCount(|pairs|, lanes)
    ensures |chunk| <= lanes && |chunk| <= |pairs| && (PairsFit(pairs) ==> PairsFit(chunk))
  {
    ChunkBounds(|pairs|, lanes, c);
    pairs[c * lanes..Min(c * lanes + lanes, |pairs|)]
  }

  /** No chunk is empty, none is longer than `lanes`, and only the last may be shorter. */
  lemma ChunkSizes(pairs: seq<Pair>, lanes: nat, c: nat)
    requires Countable(|pairs|, lanes) && c < ChunkCount(|pairs|, lanes)
    ensures 1 <= |Chunk(pairs, lanes, c)| <= lanes
    ensures c + 1 < ChunkCount(|pairs|, lanes) ==> |Chunk(pairs, lanes, c)| == lanes
  {
    ChunkBounds(|pairs|, lanes, c);
  }

  function ConcatChunks(pairs: seq<Pair>, lanes: nat, n: nat): seq<Pair>
    requires Countable(|pairs|, lanes) && n <= ChunkCount(|pairs|, lanes)
  {
    if n == 0 then [] else ConcatChunks(pairs, lanes, n - 1) + Chunk(pairs, lanes, n - 1)
  }

  lemma ChunkExtends(pairs: seq<Pair>, lanes: nat, c: nat)
    requires Countable(|pairs|, lanes) && c < ChunkCount(|pairs|, lanes)
    ensures 0 <= c * lanes < |pairs|
    ensures pairs[..c * lanes] + Chunk(pairs, lanes, c) == pairs[..Min(c * lanes + lanes, |pairs|)]
  {
    ChunkBounds(|pairs|, lanes, c);
  }

  lemma {:induction false} ChunksReach(pairs: seq<Pair>, lanes: nat, n: nat, reached: nat)
    requires Countable(|pairs|, lanes) && n <= ChunkCount(|pairs|, lanes) && reached == Min(n * lanes, |pairs|)
    ensures ConcatChunks(pairs, lanes, n) == pairs[..reached]
  {
    if n > 0 {
      var before := (n - 1) * lanes;
      ChunkExtends(pairs, lanes, n - 1);
      NextMultiple(n, lanes);
      ChunksReach(pairs, lanes, n - 1, before);
    }
  }

  lemma NextMultiple(n: nat, lanes: nat)
    requires n > 0
    ensures n * lanes == (n - 1) * lanes + lanes
  {
  }

  /** The chunks, in order, are the request's pairs. */
  lemma ChunksPartition(pairs: seq<Pair>, lanes: nat)
    requires Countable(|pairs|, lanes)
    ensures ConcatChunks(pairs, lanes, ChunkCount(|pairs|, lanes)) == pairs
  {
    ChunkCountBound(|pairs|, lanes);
    ChunksReach(pairs, lanes, ChunkCount(|pairs|, lanes), |pairs|);
  }

  /** `request_hash() * 1000 + c` on 64-bit words. */
  function BatchId(hash: nat, c: nat): (id: nat)
    ensures Is64(id)
  {
    (hash * 1000 + c) % SIZE_T
  }

  /** Ids are pairwise distinct within a request, although they wrap around. */
  lemma BatchIdsDistinct(hash: nat, c: nat, d: nat)
    requires c < d <= INT_MAX
    ensures BatchId(hash, c) != BatchId(hash, d)
  {
    var x := hash * 1000;
    var p, r := (x + c) / SIZE_T, (x + c) % SIZE_T;
    if r + (d - c) < SIZE_T {
      ModUnique(x + d, SIZE_T, p, r + (d - c));
    } else {
      ModUnique(x + d, SIZE_T, p + 1, r + (d - c) - SIZE_T);
    }
  }

  /** Batch `c`: every batch carries the same parameters. */
  function Batch(rq: Request, lanes: nat, c: nat): (b: Request)
    requires Countable(|rq.pairs|, lanes) && c < ChunkCount(|rq.pairs|, lanes)
    ensures rq.Fits() ==> b.Fits()
  {
    Request(BatchId(rq.tag, c), rq.params, Chunk(rq.pairs, lanes, c))
  }

  /**
    The first `n` batch messages, in the order they are dispatched. The steps are
    mutually recursive, so that a proof unfolds them only by naming them.
   */
  function BatchMessages(rq: Request, lanes: nat, n: nat): (ms: seq<seq<Byte>>)
    requires rq.Fits() && Countable(|rq.pairs|, lanes) && n <= ChunkCount(|rq.pairs|, lanes)
    ensures |ms| == n
    decreases n, 2
  {
    if n == 0 then [] else SomeBatchMessages(rq, lanes, n)
  }

  function SomeBatchMessages(rq: Request, lanes: nat, n: nat): (ms: seq<seq<Byte>>)
    requires rq.Fits() && Countable(|rq.pairs|, lanes) && 0 < n <= ChunkCount(|rq.pairs|, lanes)
    ensures |ms| == n
    decreases n, 1
  {
    LastBatchMessage(rq, lanes, n)
  }

  function LastBatchMessage(rq: Request, lanes: nat, n: nat): (ms: seq<seq<Byte>>)
    requires rq.Fits() && Countable(|rq.pairs|, lanes) && 0 < n <= ChunkCount(|rq.pairs|, lanes)
    ensures |ms| == n
    decreases n, 0
  {
    BatchMessages(rq, lanes, n - 1) + [RequestBytes(false, Batch(rq, lanes, n - 1))]
  }

  lemma BatchMessagesStep(rq: Request, lanes: nat, n: nat)
    requires rq.Fits() && Countable(|rq.pairs|, lanes) && n < ChunkCount(|rq.pairs|, lanes)
    ensures BatchMessages(rq, lanes, n + 1) == BatchMessages(rq, lanes, n) + [RequestBytes(false, Batch(rq, lanes, n))]
  {
    assert SomeBatchMessages(rq, lanes, n + 1) == LastBatchMessage(rq, lanes, n + 1);
  }

  lemma BatchMessagesGrow(rq: Request, lanes: nat, n: nat)
    requires rq.Fits() && Countable(|rq.pairs|, lanes) && n < ChunkCount(|rq.pairs|, lanes)
    ensures BatchMessages(rq, lanes, n) == BatchMessages(rq, lanes, n + 1)[..n]
  {
    BatchMessagesStep(rq, lanes, n);
  }

  lemma {:induction false} BatchMessagesPrefix(rq: Request, lanes: nat, n: nat, m: nat)
    requires rq.Fits() && Countable(|rq.pairs|, lanes) && n <= m <= ChunkCount(|rq.pairs|, lanes)
    ensures BatchMessages(rq, lanes, n) == BatchMessages(rq, lanes, m)[..n]
  {
    if n < m {
      BatchMessagesGrow(rq, lanes, m - 1);
      BatchMessagesPrefix(rq, lanes, n, m - 1);
    }
  }

  lemma {:induction false} BatchMessageIs(rq: Request, lanes: nat, n: nat, c: nat, msg: seq<Byte>)
    requires rq.Fits() && Countable(|rq.pairs|, lanes) && c < n <= ChunkCount(|rq.pairs|, lanes)
    requires BatchMessages(rq, lanes, c + 1) == BatchMessages(rq, lanes, c) + [msg]
    ensures BatchMessages(rq, lanes, n)[c] == msg
  {
    var m := n - 1;
    if c < m {
      BatchMessageIs(rq, lanes, m, c, msg);
      BatchMessagesGrow(rq, lanes, m);
    }
  }

  lemma BatchMessageAt(rq: Request, lanes: nat, n: nat, c: nat)
    requires rq.Fits() && Countable(|rq.pairs|, lanes) && c < n <= ChunkCount(|rq.pairs|, lanes)
    ensures BatchMessages(rq, lanes, n)[c] == RequestBytes(false, Batch(rq, lanes, c))
  {
    BatchMessagesStep(rq, lanes, c);
    BatchMessageIs(rq, lanes, n, c, RequestBytes(false, Batch(rq, lanes, c)));
  }

  /** Read from its bytes, the message has its own id, every parameter in its own field, and the pairs from `start` to `end`. */
  predicate Carries(msg: seq<Byte>, rq: Request, c: nat, start: nat, end: nat) {
    && start <= end <= |rq.pairs| && GetRoot(msg).Some?
    && var r := ReadRequest(msg, GetRoot(msg).value, false);
    && r.Some? && r.value.tag == (rq.tag * 1000 + c) % 0x1_0000_0000_0000_0000
    && ReadsAsParams(r.value.params, rq.params) && r.value.pairs == rq.pairs[start..end]
  }

  lemma MessageReads(msg: seq<Byte>, batch: Request)
    requires batch.Fits() && msg == RequestBytes(false, batch) && |msg| < MAX_BUFFER_SIZE
    ensures GetRoot(msg).Some? && ReadRequest(msg, GetRoot(msg).value, false) == Some(batch.AsRead())
    ensures batch.AsRead().tag == batch.tag && batch.AsRead().pairs == batch.pairs
    ensures ReadsAsParams(batch.AsRead().params, batch.params)
  {
    RequestRoundTrip(false, batch);
  }

  lemma CarriesBatch(msg: seq<Byte>, rq: Request, lanes: nat, c: nat, batch: Request)
    requires Countable(|rq.pairs|, lanes) && c < ChunkCount(|rq.pairs|, lanes) && batch == Batch(rq, lanes, c)
    requires GetRoot(msg).Some? && ReadRequest(msg, GetRoot(msg).value, false) == Some(batch.AsRead())
    requires batch.AsRead().tag == batch.tag && batch.AsRead().pairs == batch.pairs
    requires ReadsAsParams(batch.AsRead().params, batch.params)
    ensures Carries(msg, rq, c, c * lanes, Min(c * lanes + lanes, |rq.pairs|))
  {
    ChunkBounds(|rq.pairs|, lanes, c);
  }

  /** What a worker finds in message `c`. */
  lemma BatchMessageReads(rq: Request, lanes: nat, n: nat, c: nat, msg: seq<Byte>)
    requires rq.Fits() && Countable(|rq.pairs|, lanes) && c < n <= ChunkCount(|rq.pairs|, lanes)
    requires msg == BatchMessages(rq, lanes, n)[c] && |msg| < MAX_BUFFER_SIZE
    ensures Carries(msg, rq, c, c * lanes, Min(c * lanes + lanes, |rq.pairs|))
  {
    var batch := Batch(rq, lanes, c);
    BatchMessageAt(rq, lanes, n, c);
    MessageReads(msg, batch);
    CarriesBatch(msg, rq, lanes, c, batch);
  }

  lemma AllCarry(rq: Request, lanes: nat, batches: seq<seq<Byte>>)
    requires rq.Fits() && Countable(|rq.pairs|, lanes)
    requires batches == BatchMessages(rq, lanes, ChunkCount(|rq.pairs|, lanes)) && MessagesFit(batches)
    ensures forall c :: 0 <= c < |batches| ==>
              Carries(batches[c], rq, c, c * lanes, Min(c * lanes + lanes, |rq.pairs|))
  {
    forall c | 0 <= c < |batches|
      ensures Carries(batches[c], rq, c, c * lanes, Min(c * lanes + lanes, |rq.pairs|))
    {
      BatchMessageReads(rq, lanes, |batches|, c, batches[c]);
    }
  }

  /** Every message stays below the builder's limit. */
  predicate MessagesFit(ms: seq<seq<Byte>>) {
    forall c :: 0 <= c < |ms| ==> |ms[c]| < MAX_BUFFER_SIZE
  }

  method CopyChunk(pairs: seq<Pair>, start: nat, end: nat) returns (chunk: seq<Pair>)
    requires start <= end <= |pairs|
    ensures chunk == pairs[start..end]
  {
    chunk := [];
    for i := start to end
      invariant chunk == pairs[start..i]
    {
      chunk := chunk + [pairs[i]];
    }
  }

  method CutBatch(rq: Request, lanes: nat, c: nat) returns (batch: Request)
    requires Countable(|rq.pairs|, lanes) && c < ChunkCount(|rq.pairs|, lanes)
    ensures batch == Batch(rq, lanes, c)
  {
    ChunkBounds(|rq.pairs|, lanes, c);
    var start := c * lanes;
    var end := Min(start + lanes, |rq.pairs|);
    var chunk := CopyChunk(rq.pairs, start, end);
    batch := Request((rq.tag * 1000 + c) % SIZE_T, rq.params, chunk);
  }

  method BuildBatch(rq: Request, lanes: nat, c: nat) returns (buf: seq<Byte>)
    requires rq.Fits() && Countable(|rq.pairs|, lanes) && c < ChunkCount(|rq.pairs|, lanes)
    requires MessagesFit(BatchMessages(rq, lanes, c + 1))
    ensures BatchMessages(rq, lanes, c + 1) == BatchMessages(rq, lanes, c) + [buf]
  {
    var batch := CutBatch(rq, lanes, c);
    BatchMessagesStep(rq, lanes, c);
    assert BatchMessages(rq, lanes, c + 1)[c] == RequestBytes(false, batch);
    buf := BuildRequest(false, batch);
  }

  method ExpandToBatches(rq: Request, lanes: nat) returns (batches: seq<seq<Byte>>)
    requires rq.Fits() && Countable(|rq.pairs|, lanes)
    requires MessagesFit(BatchMessages(rq, lanes, ChunkCount(|rq.pairs|, lanes)))
    ensures batches == BatchMessages(rq, lanes, ChunkCount(|rq.pairs|, lanes))
    ensures |batches| == (|rq.pairs| + lanes - 1) / lanes
    ensures forall c :: 0 <= c < |batches| ==>
              Carries(batches[c], rq, c, c * lanes, Min(c * lanes + lanes, |rq.pairs|))
  {
    var chunks := (|rq.pairs| + lanes - 1) / lanes;
    batches := [];
    for c := 0 to chunks
      invariant batches == BatchMessages(rq, lanes, c)
    {
      BatchMessagesPrefix(rq, lanes, c + 1, chunks);
      var buf := BuildBatch(rq, lanes, c);
      batches := batches + [buf];
    }
    AllCarry(rq, lanes, batches);
  }
}
