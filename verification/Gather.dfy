/** The rows of one request (worker.cpp, client.cpp). */
module Gather {
  import opened Messages
  import opened RangePricer
  import opened Batches
  import opened Workers

  // ----- gathering in any order -----

  function FlatMap<A, B>(f: A -> seq<B>, xs: seq<A>): seq<B> {
    if xs == [] then [] else FlatMap(f, xs[..|xs| - 1]) + f(xs[|xs| - 1])
  }

  lemma {:induction false} FlatMapConcat<A, B>(f: A -> seq<B>, xs: seq<A>, ys: seq<A>)
    ensures FlatMap(f, xs + ys) == FlatMap(f, xs) + FlatMap(f, ys)
  {
    if ys == [] {
      assert xs + ys == xs;
    } else {
      var n := |ys| - 1;
      assert (xs + ys)[..|xs| + n] == xs + ys[..n];
      FlatMapConcat(f, xs, ys[..n]);
    }
  }

  lemma FlatMapOne<A, B>(f: A -> seq<B>, x: A)
    ensures FlatMap(f, [x]) == f(x)
  {
    assert [x][..0] == [];
  }

  lemma FlatMapRemove<A, B>(f: A -> seq<B>, ys: seq<A>, k: nat)
    requires k < |ys|
    ensures multiset(FlatMap(f, ys)) == multiset(FlatMap(f, ys[..k] + ys[k + 1..])) + multiset(f(ys[k]))
  {
    assert ys == ys[..k] + ([ys[k]] + ys[k + 1..]);
    FlatMapConcat(f, ys[..k], [ys[k]] + ys[k + 1..]);
    FlatMapConcat(f, [ys[k]], ys[k + 1..]);
    FlatMapConcat(f, ys[..k], ys[k + 1..]);
    FlatMapOne(f, ys[k]);
  }

  lemma DropLast<A>(xs: seq<A>)
    requires xs != []
    ensures multiset(xs[..|xs| - 1]) == multiset(xs) - multiset{xs[|xs| - 1]}
  {
    assert xs == xs[..|xs| - 1] + [xs[|xs| - 1]];
  }

  lemma DropAt<A>(xs: seq<A>, k: nat)
    requires k < |xs|
    ensures multiset(xs[..k] + xs[k + 1..]) == multiset(xs) - multiset{xs[k]}
  {
    assert xs == xs[..k] + ([xs[k]] + xs[k + 1..]);
  }

  /** Whatever the order of arrival, the same rows are gathered. */
  lemma {:induction false} FlatMapPermutes<A, B>(f: A -> seq<B>, xs: seq<A>, ys: seq<A>)
    requires multiset(xs) == multiset(ys)
    ensures multiset(FlatMap(f, xs)) == multiset(FlatMap(f, ys))
    decreases |xs|
  {
    assert |multiset(xs)| == |xs| && |multiset(ys)| == |ys|;
    if xs != [] {
      var x := xs[|xs| - 1];
      assert x in multiset(ys);
      var k :| 0 <= k < |ys| && ys[k] == x;
      DropLast(xs);
      DropAt(ys, k);
      FlatMapPermutes(f, xs[..|xs| - 1], ys[..k] + ys[k + 1..]);
      FlatMapRemove(f, ys, k);
    }
  }

  // ----- order by idx -----

  predicate SortedByIdx(rows: seq<Row>) {
    forall i, j :: 0 <= i < j < |rows| ==> rows[i].idx <= rows[j].idx
  }

  predicate StrictByIdx(rows: seq<Row>) {
    forall i, j :: 0 <= i < j < |rows| ==> rows[i].idx < rows[j].idx
  }

  lemma LastMatches(rows: seq<Row>, sorted: seq<Row>)
    requires rows != [] && StrictByIdx(rows) && SortedByIdx(sorted) && multiset(sorted) == multiset(rows)
    ensures |sorted| == |rows| && sorted[|rows| - 1] == rows[|rows| - 1]
  {
    assert |multiset(sorted)| == |multiset(rows)|;
    var n := |rows| - 1;
    assert rows[n] in multiset(sorted) && sorted[n] in multiset(rows);
    var i :| 0 <= i <= n && sorted[i] == rows[n];
    var j :| 0 <= j <= n && rows[j] == sorted[n];
    assert i == n || sorted[i].idx <= sorted[n].idx;
    assert j == n || rows[j].idx < rows[n].idx;
  }

  lemma SameButLast(rows: seq<Row>, sorted: seq<Row>)
    requires rows != [] && |sorted| == |rows| && sorted[..|rows| - 1] == rows[..|rows| - 1]
    requires sorted[|rows| - 1] == rows[|rows| - 1]
    ensures sorted == rows
  {
    assert rows == rows[..|rows| - 1] + [rows[|rows| - 1]] && sorted == sorted[..|rows| - 1] + [sorted[|rows| - 1]];
  }

  /** Rows whose indices increase strictly have only one sorted order: their own. */
  lemma {:induction false} SortedIsUnique(rows: seq<Row>, sorted: seq<Row>)
    requires StrictByIdx(rows) && SortedByIdx(sorted) && multiset(sorted) == multiset(rows)
    ensures sorted == rows
    decreases |rows|
  {
    assert |multiset(sorted)| == |multiset(rows)|;
    if rows != [] {
      var n := |rows| - 1;
      LastMatches(rows, sorted);
      DropLast(rows);
      DropLast(sorted);
      SortedIsUnique(rows[..n], sorted[..n]);
      SameButLast(rows, sorted);
    }
  }

  // ----- rows of the batches -----

  lemma {:induction false} RowsAsReadConcat(a: seq<Row>, b: seq<Row>)
    ensures RowsAsRead(a + b) == RowsAsRead(a) + RowsAsRead(b)
  {
    if b == [] {
      assert a + b == a;
    } else {
      var n := |b| - 1;
      assert (a + b)[..|a| + n] == a + b[..n];
      RowsAsReadConcat(a, b[..n]);
    }
  }

  /** The rows that come back for the first `n` batches. */
  function BatchesRows(pv: Exponential, rq: Request, lanes: nat, n: nat): seq<Row>
    requires rq.Fits() && Countable(|rq.pairs|, lanes) && n <= ChunkCount(|rq.pairs|, lanes)
  {
    if n == 0 then [] else BatchesRows(pv, rq, lanes, n - 1) + BatchRows(pv, rq.params, Chunk(rq.pairs, lanes, n - 1))
  }

  function AllRows(pv: Exponential, rq: Request, lanes: nat): seq<Row>
    requires rq.Fits() && Countable(|rq.pairs|, lanes)
  {
    BatchesRows(pv, rq, lanes, ChunkCount(|rq.pairs|, lanes))
  }

  /** Row `k` is the pricing of pair `k`, with the parameters as the worker reads them. */
  function PricedRows(pv: Exponential, rq: Request): seq<Row>
    requires rq.Fits()
  {
    RowsAsRead(PriceAll(pv, rq.params.AsRead(), rq.pairs))
  }

  lemma {:induction false} RefusedRows(pv: Exponential, rq: Request, lanes: nat, n: nat)
    requires rq.Fits() && Countable(|rq.pairs|, lanes) && n <= ChunkCount(|rq.pairs|, lanes)
    requires Refused(rq.params.AsRead())
    ensures BatchesRows(pv, rq, lanes, n) == []
  {
    if n > 0 {
      RefusedRows(pv, rq, lanes, n - 1);
    }
  }

  lemma RowsJoin(pv: Exponential, p: Params, before: seq<Pair>, chunk: seq<Pair>)
    requires p.Fits() && !Refused(p.AsRead()) && |chunk| <= 999_999
    ensures RowsAsRead(PriceAll(pv, p.AsRead(), before)) + BatchRows(pv, p, chunk) ==
            RowsAsRead(PriceAll(pv, p.AsRead(), before + chunk))
  {
    PriceConcat(pv, p.AsRead(), before, chunk);
    RowsAsReadConcat(PriceAll(pv, p.AsRead(), before), PriceAll(pv, p.AsRead(), chunk));
  }

  lemma NothingPriced(pv: Exponential, p: Params, none: seq<Pair>)
    requires p.Fits() && none == []
    ensures RowsAsRead(PriceAll(pv, p, none)) == []
  {
  }

  /** The rows of the first `n` batches are the pricing of `pairs`. */
  predicate RowsAre(pv: Exponential, rq: Request, lanes: nat, n: nat, pairs: seq<Pair>)
    requires rq.Fits() && Countable(|rq.pairs|, lanes) && n <= ChunkCount(|rq.pairs|, lanes)
  {
    BatchesRows(pv, rq, lanes, n) == RowsAsRead(PriceAll(pv, rq.params.AsRead(), pairs))
  }

  lemma OneMoreAccepted(pv: Exponential, rq: Request, lanes: nat, n: nat, before: seq<Pair>, after: seq<Pair>)
    requires rq.Fits() && Countable(|rq.pairs|, lanes) && n < ChunkCount(|rq.pairs|, lanes)
    requires !Refused(rq.params.AsRead()) && (lanes <= 999_999 || |rq.pairs| <= 999_999)
    requires after == before + Chunk(rq.pairs, lanes, n)
    ensures RowsAre(pv, rq, lanes, n, before) ==> RowsAre(pv, rq, lanes, n + 1, after)
  {
    RowsJoin(pv, rq.params, before, Chunk(rq.pairs, lanes, n));
  }

  lemma {:induction false} AcceptedRows(pv: Exponential, rq: Request, lanes: nat, n: nat)
    requires rq.Fits() && Countable(|rq.pairs|, lanes) && n <= ChunkCount(|rq.pairs|, lanes)
    requires !Refused(rq.params.AsRead()) && (lanes <= 999_999 || |rq.pairs| <= 999_999)
    ensures RowsAre(pv, rq, lanes, n, ConcatChunks(rq.pairs, lanes, n))
  {
    if n == 0 {
      NothingPriced(pv, rq.params.AsRead(), ConcatChunks(rq.pairs, lanes, n));
    } else {
      var m := n - 1;
      AcceptedRows(pv, rq, lanes, m);
      OneMoreAccepted(pv, rq, lanes, m, ConcatChunks(rq.pairs, lanes, m), ConcatChunks(rq.pairs, lanes, n));
    }
  }

  /**
    All or nothing: with chunks of at most 999,999 pairs the rows gathered are the
    pricing of every pair, in order, or none at all.
   */
  lemma AllOrNothing(pv: Exponential, rq: Request, lanes: nat)
    requires rq.Fits() && Countable(|rq.pairs|, lanes) && (lanes <= 999_999 || |rq.pairs| <= 999_999)
    ensures AllRows(pv, rq, lanes) == if Refused(rq.params.AsRead()) then [] else PricedRows(pv, rq)
  {
    var n := ChunkCount(|rq.pairs|, lanes);
    if Refused(rq.params.AsRead()) {
      RefusedRows(pv, rq, lanes, n);
    } else {
      AcceptedRows(pv, rq, lanes, n);
      ChunksPartition(rq.pairs, lanes);
    }
  }

  lemma {:induction false} RowsMissing(pv: Exponential, rq: Request, lanes: nat, n: nat)
    requires rq.Fits() && Countable(|rq.pairs|, lanes) && 1 <= n <= ChunkCount(|rq.pairs|, lanes)
    requires lanes > 999_999 && |rq.pairs| > 999_999
    ensures |BatchesRows(pv, rq, lanes, n)| < |ConcatChunks(rq.pairs, lanes, n)|
  {
    if n == 1 {
      ChunkBounds(|rq.pairs|, lanes, 0);
      assert BatchesRows(pv, rq, lanes, 0) == [] && ConcatChunks(rq.pairs, lanes, 0) == [];
      assert |Chunk(rq.pairs, lanes, 0)| > 999_999;
    } else {
      RowsMissing(pv, rq, lanes, n - 1);
    }
  }

  /**
    For parameters that are priced, no row is missing exactly when the chunk size or
    the whole request is at most 999,999 pairs: larger results fail the server's check.
   */
  lemma CompleteIff(pv: Exponential, rq: Request, lanes: nat)
    requires rq.Fits() && Countable(|rq.pairs|, lanes) && !Refused(rq.params.AsRead())
    ensures AllRows(pv, rq, lanes) == PricedRows(pv, rq) <==> lanes <= 999_999 || |rq.pairs| <= 999_999
  {
    var n := ChunkCount(|rq.pairs|, lanes);
    if lanes <= 999_999 || |rq.pairs| <= 999_999 {
      AllOrNothing(pv, rq, lanes);
    } else {
      ChunkCountBound(|rq.pairs|, lanes);
      RowsMissing(pv, rq, lanes, n);
      ChunksPartition(rq.pairs, lanes);
    }
  }

  /** Beyond that a reply can be partial: of 1,000,001 pairs in chunks of 1,000,000 only the last row comes back. */
  lemma PartialReply(pv: Exponential, rq: Request)
    requires rq.Fits() && !Refused(rq.params.AsRead()) && |rq.pairs| == 1_000_001
    ensures |AllRows(pv, rq, 1_000_000)| == 1
  {
    assert ChunkCount(|rq.pairs|, 1_000_000) == 2;
    assert |Chunk(rq.pairs, 1_000_000, 0)| == 1_000_000;
    assert |Chunk(rq.pairs, 1_000_000, 1)| == 1;
    assert BatchesRows(pv, rq, 1_000_000, 0) == [];
    assert BatchesRows(pv, rq, 1_000_000, 1) == [];
    assert |BatchesRows(pv, rq, 1_000_000, 2)| == 1;
  }

  // ----- the client's numbering -----

  predicate StrictPairs(pairs: seq<Pair>) {
    forall i, j :: 0 <= i < j < |pairs| ==> pairs[i].idx < pairs[j].idx
  }

  lemma PricedStrict(pv: Exponential, rq: Request)
    requires rq.Fits() && StrictPairs(rq.pairs)
    ensures StrictByIdx(PricedRows(pv, rq))
  {
    var rows := PriceAll(pv, rq.params.AsRead(), rq.pairs);
    forall i, j | 0 <= i < j < |rows|
      ensures RowsAsRead(rows)[i].idx < RowsAsRead(rows)[j].idx
    {
      RowsAsReadAt(rows, i);
      RowsAsReadAt(rows, j);
    }
  }

  /** A 32-bit counter. */
  function Counter(k: nat): (idx: nat)
    ensures Is32(idx)
  {
    k % 0x1_0000_0000
  }

  /** The first `n` pairs of the row of `alpha`, numbered from `start`. */
  function GridRow(alpha: nat, betas: seq<nat>, start: nat, n: nat): (row: seq<Pair>)
    requires n <= |betas|
    ensures |row| == n
  {
    if n == 0 then [] else GridRow(alpha, betas, start, n - 1) + [Pair(Counter(start + n - 1), alpha, betas[n - 1])]
  }

  function GridUpTo(alphas: seq<nat>, betas: seq<nat>, n: nat): seq<Pair>
    requires n <= |alphas|
  {
    if n == 0 then []
    else
      var above := GridUpTo(alphas, betas, n - 1);
      above + GridRow(alphas[n - 1], betas, |above|, |betas|)
  }

  lemma MulStep(n: nat, m: nat)
    requires n > 0
    ensures n * m == (n - 1) * m + m
  {
  }

  lemma {:induction false} GridSize(alphas: seq<nat>, betas: seq<nat>, n: nat)
    requires n <= |alphas|
    ensures |GridUpTo(alphas, betas, n)| == n * |betas|
  {
    if n > 0 {
      MulStep(n, |betas|);
      GridSize(alphas, betas, n - 1);
    }
  }

  lemma {:induction false} GridRowNumbered(alpha: nat, betas: seq<nat>, start: nat, n: nat, j: nat)
    requires j < n <= |betas|
    ensures GridRow(alpha, betas, start, n)[j] == Pair(Counter(start + j), alpha, betas[j])
  {
    if j < n - 1 {
      GridRowNumbered(alpha, betas, start, n - 1, j);
    }
  }

  lemma {:induction false} GridNumbered(alphas: seq<nat>, betas: seq<nat>, n: nat, k: nat)
    requires n <= |alphas| && k < |GridUpTo(alphas, betas, n)|
    ensures GridUpTo(alphas, betas, n)[k].idx == Counter(k)
  {
    var above := GridUpTo(alphas, betas, n - 1);
    if k < |above| {
      GridNumbered(alphas, betas, n - 1, k);
    } else {
      GridRowNumbered(alphas[n - 1], betas, |above|, |betas|, k - |above|);
    }
  }

  /** The pair of `alphas[i]` and `betas[j]` lies in row `i` and column `j`. */
  lemma {:induction false} GridAt(alphas: seq<nat>, betas: seq<nat>, n: nat, i: nat, j: nat, k: nat)
    requires i < n <= |alphas| && j < |betas| && k == i * |betas| + j
    ensures k < |GridUpTo(alphas, betas, n)|
    ensures GridUpTo(alphas, betas, n)[k] == Pair(k % 0x1_0000_0000, alphas[i], betas[j])
  {
    var above := GridUpTo(alphas, betas, n - 1);
    GridSize(alphas, betas, n - 1);
    if i < n - 1 {
      GridAt(alphas, betas, n - 1, i, j, k);
    } else {
      GridRowNumbered(alphas[i], betas, |above|, |betas|, j);
    }
  }

  /** The grid is row after row, each alpha with every beta, numbered through by a 32-bit counter. */
  ghost predicate IsGrid(alphas: seq<nat>, betas: seq<nat>, pairs: seq<Pair>) {
    && |pairs| == |alphas| * |betas|
    && forall i, j {:trigger alphas[i], betas[j]} :: 0 <= i < |alphas| && 0 <= j < |betas| ==>
         var k := i * |betas| + j;
         0 <= k < |pairs| && pairs[k] == Pair(k % 0x1_0000_0000, alphas[i], betas[j])
  }

  lemma GridIsGrid(alphas: seq<nat>, betas: seq<nat>)
    ensures IsGrid(alphas, betas, GridUpTo(alphas, betas, |alphas|))
  {
    var pairs := GridUpTo(alphas, betas, |alphas|);
    GridSize(alphas, betas, |alphas|);
    forall i, j | 0 <= i < |alphas| && 0 <= j < |betas|
      ensures var k := i * |betas| + j; 0 <= k < |pairs| && pairs[k] == Pair(k % 0x1_0000_0000, alphas[i], betas[j])
    {
      assert i * |betas| >= 0;
      GridAt(alphas, betas, |alphas|, i, j, i * |betas| + j);
    }
  }

  lemma CounterStep(k: nat)
    ensures (Counter(k) + 1) % 0x1_0000_0000 == Counter(k + 1)
    ensures k < 0x1_0000_0000 ==> Counter(k) == k
  {
  }

  /** The client's two nested loops. */
  method Grid(alphas: seq<nat>, betas: seq<nat>) returns (pairs: seq<Pair>)
    ensures pairs == GridUpTo(alphas, betas, |alphas|) && IsGrid(alphas, betas, pairs)
  {
    pairs := [];
    var idx := 0;
    for i := 0 to |alphas|
      invariant pairs == GridUpTo(alphas, betas, i) && idx == Counter(|pairs|)
    {
      ghost var above := pairs;
      for j := 0 to |betas|
        invariant pairs == above + GridRow(alphas[i], betas, |above|, j) && idx == Counter(|pairs|)
      {
        CounterStep(|pairs|);
        pairs := pairs + [Pair(idx, alphas[i], betas[j])];
        idx := (idx + 1) % 0x1_0000_0000;
      }
    }
    GridIsGrid(alphas, betas);
  }

  /** The grid's indices increase strictly as long as the counter does not wrap. */
  lemma GridIsStrict(alphas: seq<nat>, betas: seq<nat>)
    requires |alphas| * |betas| <= 0x1_0000_0000
    ensures StrictPairs(GridUpTo(alphas, betas, |alphas|))
  {
    var pairs := GridUpTo(alphas, betas, |alphas|);
    GridSize(alphas, betas, |alphas|);
    forall i, j | 0 <= i < j < |pairs|
      ensures pairs[i].idx < pairs[j].idx
    {
      GridNumbered(alphas, betas, |alphas|, i);
      GridNumbered(alphas, betas, |alphas|, j);
      CounterStep(i);
      CounterStep(j);
    }
  }
}
