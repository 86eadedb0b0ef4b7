/** Pricing: whole lanes, then a tail (range_pricer.cpp). */
module RangePricer {
  import opened Wrappers
  import opened Binary32
  import opened Bytes
  import opened Tables
  import opened Messages
  import opened RoundTrip
  import opened Assembly

  /** A float as its 32-bit pattern. */
  type Float = f: nat | f < 0x1_0000_0000

  /** `exp(-r * T)` as one uninterpreted function of the two patterns. */
  type Exponential = (Float, Float) -> Float

  /** `f <= 0` (section 5.11 of IEEE 754-2008): zeros and negative numbers, but no NaN. */
  predicate NotPositive(f: nat) {
    f == 0 || 0x8000_0000 <= f <= 0xff80_0000
  }

  lemma NotPositiveMeans(f: nat)
    requires Is32(f)
    ensures NotPositive(f) <==> AtMostZero(Decode(f))
  {
    AtMostZeroPatterns(f);
  }

  /** The parameters for which pricing throws. */
  predicate Refused(p: Params) {
    NotPositive(p.timeToMaturity) || NotPositive(p.stockDiscretization)
  }

  function Priced(pv: Exponential, p: Params, pair: Pair): (r: Row)
    requires p.Fits()
    ensures pair.Fits() ==> r.Fits()
  {
    Row(pair.idx, pair.alpha, pair.beta, pv(p.interestRate, p.timeToMaturity), 0)
  }

  /** The pointwise pricer. */
  function PriceAll(pv: Exponential, p: Params, pairs: seq<Pair>): (rows: seq<Row>)
    requires p.Fits()
    ensures |rows| == |pairs| && forall i :: 0 <= i < |rows| ==> rows[i] == Priced(pv, p, pairs[i])
    ensures PairsFit(pairs) ==> RowsFit(rows)
  {
    seq(|pairs|, i requires 0 <= i < |pairs| => Priced(pv, p, pairs[i]))
  }

  /** Pricing chunk by chunk and concatenating is pricing the whole list. */
  lemma PriceConcat(pv: Exponential, p: Params, a: seq<Pair>, b: seq<Pair>)
    requires p.Fits()
    ensures PriceAll(pv, p, a + b) == PriceAll(pv, p, a) + PriceAll(pv, p, b)
  {
    var left, right := PriceAll(pv, p, a + b), PriceAll(pv, p, a) + PriceAll(pv, p, b);
    forall i | 0 <= i < |left|
      ensures left[i] == right[i]
    {
    }
  }

  // ----- arrays that remember their stores -----

  /** The contents after the stores, in order, of a value at an index each. */
  ghost function Replay(start: seq<nat>, stores: seq<(nat, nat)>): (s: seq<nat>)
    ensures |s| == |start|
  {
    if stores == [] then start
    else
      var s, last := Replay(start, stores[..|stores| - 1]), stores[|stores| - 1];
      if last.0 < |s| then s[last.0 := last.1] else s
  }

  /** Stores of values at consecutive indices. */
  function StoresFrom(i: nat, values: seq<nat>): (stores: seq<(nat, nat)>)
    ensures |stores| == |values| && forall k :: 0 <= k < |stores| ==> stores[k] == (i + k, values[k])
  {
    seq(|values|, k requires 0 <= k < |values| => (i + k, values[k]))
  }

  function Same(n: nat, x: nat): (s: seq<nat>)
    ensures |s| == n && forall k :: 0 <= k < n ==> s[k] == x
  {
    seq(n, _ => x)
  }

  /** The next values stored after the first `i`. */
  lemma RunStored(before: seq<(nat, nat)>, all: seq<nat>, i: nat, next: seq<nat>)
    requires i + |next| <= |all| && all[i..i + |next|] == next
    ensures before + StoresFrom(0, all[..i]) + StoresFrom(i, next) == before + StoresFrom(0, all[..i + |next|])
  {
    assert StoresFrom(0, all[..i]) + StoresFrom(i, next) == StoresFrom(0, all[..i + |next|]);
  }

  lemma {:induction false} ReplayAll(start: seq<nat>, values: seq<nat>)
    requires |values| <= |start|
    ensures Replay(start, StoresFrom(0, values)) == values + start[|values|..]
  {
    if values != [] {
      var n := |values| - 1;
      ReplayAll(start, values[..n]);
      assert StoresFrom(0, values)[..n] == StoresFrom(0, values[..n]);
      assert (values[..n] + start[n..])[n := values[n]] == values + start[n + 1..];
    }
  }

  /** An output array. Only its methods write to it, and what they store is on record: the contents are its replay. */
  class Floats {
    const values: array<nat>
    ghost const start: seq<nat>
    ghost var stores: seq<(nat, nat)>

    ghost predicate Valid()
      reads this, values
    {
      |start| == values.Length && values[..] == Replay(start, stores)
    }

    constructor (n: nat)
      ensures Valid() && fresh(values) && values.Length == n && stores == []
    {
      var a := new nat[n];
      values, start, stores := a, a[..], [];
    }

    method Store(i: nat, x: nat)
      requires Valid() && i < values.Length
      modifies this`stores, values
      ensures Valid() && stores == old(stores) + StoresFrom(i, [x])
    {
      values[i] := x;
      stores := stores + [(i, x)];
      assert StoresFrom(i, [x]) == [(i, x)];
      assert stores[..|stores| - 1] == old(stores);
    }

    /** Since `before`, the first `i` values of `all` were stored, one at each index. */
    ghost predicate Took(before: seq<(nat, nat)>, all: seq<nat>, i: nat)
      reads this, values
    {
      Valid() && i <= |all| && stores == before + StoresFrom(0, all[..i])
    }

    /** Stored once at every index, the values are the contents. */
    lemma Filled(all: seq<nat>)
      requires Valid() && |all| == values.Length && stores == StoresFrom(0, all)
      ensures forall k :: 0 <= k < |all| ==> values[k] == all[k]
    {
      ReplayAll(start, all);
      assert values[..] == all + start[|all|..];
      forall k | 0 <= k < |all|
        ensures values[k] == all[k]
      {
        assert values[..][k] == (all + start[|all|..])[k];
      }
    }

    /** One store, the next one of those planned in `all`. */
    method StoreNext(i: nat, x: nat, ghost before: seq<(nat, nat)>, ghost all: seq<nat>)
      requires Took(before, all, i) && i < |all| && all[i] == x && i < values.Length
      modifies this`stores, values
      ensures Took(before, all, i + 1)
    {
      Store(i, x);
      RunStored(before, all, i, [x]);
    }

    /** The vector store: the same value into `lanes` consecutive elements. */
    method StoreLanes(i: nat, lanes: nat, x: nat, ghost before: seq<(nat, nat)>, ghost all: seq<nat>)
      requires Took(before, all, i) && i + lanes <= |all| && i + lanes <= values.Length
      requires forall k :: i <= k < i + lanes ==> all[k] == x
      modifies this`stores, values
      ensures Took(before, all, i + lanes)
    {
      for k := 0 to lanes
        invariant Took(before, all, i + k)
      {
        StoreNext(i + k, x, before, all);
      }
    }
  }

  // ----- the loops -----

  /** How many of `count` inputs are priced in whole lanes. */
  function WholeLanes(count: nat, lanes: nat): (whole: nat)
    requires lanes >= 1
    ensures whole <= count
  {
    if count < lanes then 0 else lanes + WholeLanes(count - lanes, lanes)
  }

  lemma {:induction false} WholeLanesAre(count: nat, lanes: nat)
    requires lanes >= 1
    ensures WholeLanes(count, lanes) == count - count % lanes
  {
    if count < lanes {
      ModUnique(count, lanes, 0, count);
    } else {
      WholeLanesAre(count - lanes, lanes);
      ModUnique(count, lanes, (count - lanes) / lanes + 1, (count - lanes) % lanes);
    }
  }

  /** What the loops store for `count` inputs: the vector value in whole lanes, the scalar one in the tail. */
  function LaneValues(vectorPv: Float, scalarPv: Float, whole: nat, count: nat): (s: seq<nat>)
    ensures |s| == count
  {
    seq(count, j => if j < whole then vectorPv else scalarPv)
  }

  lemma WholeLanesStep(count: nat, i: nat, lanes: nat)
    requires lanes >= 1 && i + lanes <= count
    ensures i + WholeLanes(count - i, lanes) == i + lanes + WholeLanes(count - (i + lanes), lanes)
    ensures i + lanes <= i + WholeLanes(count - i, lanes)
  {
  }

  /** The vector loop. */
  method WholeLaneLoop(prices: Floats, hedgeRatios: Floats, lanes: nat, v: Float, count: nat,
                       ghost p: seq<(nat, nat)>, ghost all: seq<nat>, ghost h: seq<(nat, nat)>, ghost zeros: seq<nat>)
    returns (i: nat)
    requires lanes >= 1 && prices != hedgeRatios && prices.values != hedgeRatios.values
    requires count <= prices.values.Length && count <= hedgeRatios.values.Length && count == |all| == |zeros|
    requires prices.Took(p, all, 0) && hedgeRatios.Took(h, zeros, 0)
    requires forall k :: 0 <= k < WholeLanes(count, lanes) ==> all[k] == v
    requires forall k :: 0 <= k < count ==> zeros[k] == 0
    modifies prices`stores, prices.values, hedgeRatios`stores, hedgeRatios.values
    ensures i == WholeLanes(count, lanes) && prices.Took(p, all, i) && hedgeRatios.Took(h, zeros, i)
  {
    i := 0;
    while i + lanes <= count
      invariant i <= count && i + WholeLanes(count - i, lanes) == WholeLanes(count, lanes)
      invariant prices.Took(p, all, i) && hedgeRatios.Took(h, zeros, i)
    {
      WholeLanesStep(count, i, lanes);
      prices.StoreLanes(i, lanes, v, p, all);
      hedgeRatios.StoreLanes(i, lanes, 0, h, zeros);
      i := i + lanes;
    }
  }

  /** The scalar tail. */
  method TailLoop(prices: Floats, hedgeRatios: Floats, start: nat, v: Float, count: nat,
                  ghost p: seq<(nat, nat)>, ghost all: seq<nat>, ghost h: seq<(nat, nat)>, ghost zeros: seq<nat>)
    requires prices != hedgeRatios && prices.values != hedgeRatios.values && start <= count
    requires count <= prices.values.Length && count <= hedgeRatios.values.Length && count == |all| == |zeros|
    requires prices.Took(p, all, start) && hedgeRatios.Took(h, zeros, start)
    requires forall k :: start <= k < count ==> all[k] == v && zeros[k] == 0
    modifies prices`stores, prices.values, hedgeRatios`stores, hedgeRatios.values
    ensures prices.Took(p, all, count) && hedgeRatios.Took(h, zeros, count)
  {
    var i := start;
    while i < count
      invariant start <= i <= count && prices.Took(p, all, i) && hedgeRatios.Took(h, zeros, i)
    {
      prices.StoreNext(i, v, p, all);
      hedgeRatios.StoreNext(i, 0, h, zeros);
      i := i + 1;
    }
  }

  /**
    `vectorized_price` with `lanes` lanes: whole lanes get the vector exponential,
    the rest the scalar one. The stores into each array are exactly one at each
    index below `count`, in order, and none elsewhere.
   */
  method VectorizedPrice(vectorPv: Float, scalarPv: Float, lanes: nat,
                         prices: Floats, hedgeRatios: Floats, count: nat)
    requires lanes >= 1 && prices.Valid() && hedgeRatios.Valid()
    requires prices != hedgeRatios && prices.values != hedgeRatios.values
    requires count <= prices.values.Length && count <= hedgeRatios.values.Length
    modifies prices`stores, prices.values, hedgeRatios`stores, hedgeRatios.values
    ensures prices.Valid() && hedgeRatios.Valid()
    ensures prices.stores == old(prices.stores) + StoresFrom(0, LaneValues(vectorPv, scalarPv, WholeLanes(count, lanes), count))
    ensures hedgeRatios.stores == old(hedgeRatios.stores) + StoresFrom(0, Same(count, 0))
  {
    ghost var all, zeros := LaneValues(vectorPv, scalarPv, WholeLanes(count, lanes), count), Same(count, 0);
    ghost var p, h := prices.stores, hedgeRatios.stores;
    var i := WholeLaneLoop(prices, hedgeRatios, lanes, vectorPv, count, p, all, h, zeros);
    if i < count {
      TailLoop(prices, hedgeRatios, i, scalarPv, count, p, all, h, zeros);
    }
    assert all[..count] == all && zeros[..count] == zeros;
  }

  /** What `price` returns; `None` is the exception. */
  function PriceResult(pv: Exponential, p: Params, inputs: seq<Pair>): Option<seq<Row>>
    requires p.Fits()
  {
    if Refused(p) then None else Some(PriceAll(pv, p, inputs))
  }

  /** Every input is priced where it stands: its own index, alpha and beta, the discount factor, and no hedge. */
  ghost predicate PricesEach(pv: Exponential, p: Params, inputs: seq<Pair>, rows: seq<Row>)
    requires p.Fits()
  {
    && |rows| == |inputs|
    && forall k :: 0 <= k < |rows| ==>
         && rows[k].idx == inputs[k].idx && rows[k].alpha == inputs[k].alpha && rows[k].beta == inputs[k].beta
         && rows[k].price == pv(p.interestRate, p.timeToMaturity) && rows[k].hedgeRatio == 0
  }

  method FilledArrays(v: Float, lanes: nat, n: nat) returns (prices: Floats, hedgeRatios: Floats)
    requires lanes >= 1
    ensures fresh(prices) && fresh(hedgeRatios) && prices.values.Length == hedgeRatios.values.Length == n
    ensures forall k :: 0 <= k < n ==> prices.values[k] == v && hedgeRatios.values[k] == 0
  {
    prices := new Floats(n);
    hedgeRatios := new Floats(n);
    VectorizedPrice(v, v, lanes, prices, hedgeRatios, n);
    prices.Filled(LaneValues(v, v, WholeLanes(n, lanes), n));
    hedgeRatios.Filled(Same(n, 0));
  }

  /** The arrays are filled by the loops and packed, index by index. */
  method PriceInto(pv: Exponential, p: Params, lanes: nat, inputs: seq<Pair>) returns (rows: seq<Row>)
    requires p.Fits() && lanes >= 1
    ensures rows == PriceAll(pv, p, inputs) && PricesEach(pv, p, inputs, rows)
  {
    var n := |inputs|;
    var prices, hedgeRatios := FilledArrays(pv(p.interestRate, p.timeToMaturity), lanes, n);
    rows := [];
    for i := 0 to n
      invariant |rows| == i
      invariant forall j :: 0 <= j < i ==> rows[j] == Priced(pv, p, inputs[j])
    {
      rows := rows + [Row(inputs[i].idx, inputs[i].alpha, inputs[i].beta, prices.values[i], hedgeRatios.values[i])];
    }
  }

  method Price(pv: Exponential, p: Params, lanes: nat, inputs: seq<Pair>) returns (result: Option<seq<Row>>)
    requires p.Fits() && lanes >= 1
    ensures result == PriceResult(pv, p, inputs)
    ensures result.None? <==> AtMostZero(Decode(p.timeToMaturity)) || AtMostZero(Decode(p.stockDiscretization))
    ensures result.Some? ==> PricesEach(pv, p, inputs, result.value)
  {
    NotPositiveMeans(p.timeToMaturity);
    NotPositiveMeans(p.stockDiscretization);
    if NotPositive(p.timeToMaturity) {
      return None;
    }
    if NotPositive(p.stockDiscretization) {
      return None;
    }
    if |inputs| == 0 {
      return Some([]);
    }
    var rows := PriceInto(pv, p, lanes, inputs);
    result := Some(rows);
  }

  /** What `process` returns; `None` is the exception. */
  function ProcessResult(pv: Exponential, p: Params, pairs: seq<Pair>, batchId: nat): Option<seq<Byte>>
    requires p.Fits() && PairsFit(pairs) && Is64(batchId)
  {
    if Refused(p) then None else Some(ResponseBytes(batchId, PriceAll(pv, p, pairs)))
  }

  method Process(pv: Exponential, p: Params, lanes: nat, pairs: seq<Pair>, batchId: nat)
    returns (result: Option<seq<Byte>>)
    requires p.Fits() && PairsFit(pairs) && Is64(batchId) && lanes >= 1
    requires !Refused(p) ==> |ResponseBytes(batchId, PriceAll(pv, p, pairs))| < I32
    ensures result == ProcessResult(pv, p, pairs, batchId)
  {
    if NotPositive(p.timeToMaturity) {
      return None;
    }
    if NotPositive(p.stockDiscretization) {
      return None;
    }
    var rows := PriceInto(pv, p, lanes, pairs);
    var bytes := BuildResponse(batchId, rows);
    result := Some(bytes);
  }

  /** The two entry points agree: `process` throws when `price` does, and its bytes read as `price`'s rows. */
  lemma ProcessAgreesWithPrice(pv: Exponential, p: Params, pairs: seq<Pair>, batchId: nat)
    requires p.Fits() && PairsFit(pairs) && Is64(batchId)
    requires |ResponseBytes(batchId, PriceAll(pv, p, pairs))| < I32
    ensures var bytes, rows := ProcessResult(pv, p, pairs, batchId), PriceResult(pv, p, pairs);
            && (bytes.None? <==> rows.None?)
            && (rows.Some? ==> PricesEach(pv, p, pairs, rows.value))
            && (bytes.Some? ==>
                  && GetRoot(bytes.value).Some?
                  && ReadResponse(bytes.value, GetRoot(bytes.value).value) ==
                     Some(Response(batchId, Some(RowsAsRead(rows.value)))))
  {
    ResponseRoundTrip(batchId, PriceAll(pv, p, pairs));
  }
}
