/** Deciding whether a byte string is safe to read (verifier.h, table.h). */
module Verifiers {
  import opened Wrappers
  import opened Bytes
  import opened Tables

  const MAX_DEPTH: nat := 64
  const MAX_TABLES: nat := 1_000_000
  const MIN_BUFFER_SIZE: nat := 12

  datatype Counts = Counts(depth: nat, tables: nat)

  // ----- ranges -----

  /** `Verify(elem, len)`. */
  predicate InRange(buf: seq<Byte>, elem: nat, len: nat) {
    len < |buf| && elem <= |buf| - len
  }

  /** `Verify<T>(elem)` for a scalar of `n` bytes. */
  predicate ScalarOk(buf: seq<Byte>, elem: nat, n: nat) {
    n > 0 && elem % n == 0 && InRange(buf, elem, n)
  }

  /** A non-null reference at `start` that stays inside the buffer. */
  predicate OffsetOk(buf: seq<Byte>, start: nat) {
    && ScalarOk(buf, start, 4)
    && var o := ReadScalar(buf, start, 4).value;
       o != 0 && o < I32 && InRange(buf, start + o, 1)
  }

  predicate VectorOk(buf: seq<Byte>, vec: nat, elemSize: nat)
    requires elemSize > 0
  {
    && ScalarOk(buf, vec, 4)
    && var size := ReadScalar(buf, vec, 4).value;
       size < MAX_BUFFER_SIZE / elemSize && InRange(buf, vec, 4 + elemSize * size)
  }

  // ----- tables -----

  /** Where the table's vtable would start; the subtraction is unsigned and wraps. */
  function VTablePos(buf: seq<Byte>, t: nat): nat
    requires InRange(buf, t, 4)
  {
    (t - ToSigned32(ReadScalar(buf, t, 4).value)) % SIZE_T
  }

  predicate VTableOk(buf: seq<Byte>, t: nat)
    requires InRange(buf, t, 4)
  {
    var v := VTablePos(buf, t);
    && ScalarOk(buf, v, 2)
    && var vsize := ReadScalar(buf, v, 2).value;
       vsize % 2 == 0 && InRange(buf, v, vsize)
  }

  predicate TableOk(buf: seq<Byte>, t: nat) {
    ScalarOk(buf, t, 4) && VTableOk(buf, t)
  }

  lemma WrapsOutside(x: int)
    requires -I32 <= x < SIZE_T
    ensures x >= 0 ==> x % SIZE_T == x
    ensures x < 0 ==> x % SIZE_T >= SIZE_T - I32
  {
    if x < 0 {
      assert (x + SIZE_T) % SIZE_T == x % SIZE_T;
    }
  }

  lemma VTablePosReads(buf: seq<Byte>, t: nat)
    requires |buf| < MAX_BUFFER_SIZE && InRange(buf, t, 4)
    ensures VTablePos(buf, t) < |buf| ==> GetVTable(buf, t).Some? && GetVTable(buf, t).value == VTablePos(buf, t)
    ensures GetVTable(buf, t).Some? && GetVTable(buf, t).value >= 0 ==> GetVTable(buf, t).value == VTablePos(buf, t)
  {
    ReadLEBound(buf[t..t + 4]);
    Pow256Values();
    WrapsOutside(t - ToSigned32(ReadScalar(buf, t, 4).value));
  }

  /** After the table check, looking up a field reads inside the buffer, whatever the field. */
  lemma FieldOffsetReadable(buf: seq<Byte>, t: nat, id: nat)
    requires |buf| < MAX_BUFFER_SIZE && TableOk(buf, t) && id % 2 == 0
    ensures GetOptionalFieldOffset(buf, t, id).Some?
  {
    VTablePosReads(buf, t);
    var v := VTablePos(buf, t);
    var vsize := ReadScalar(buf, v, 2).value;
    if id < vsize {
      EvenGap(id, vsize);
    }
  }

  lemma EvenGap(a: nat, b: nat)
    requires a % 2 == 0 && b % 2 == 0 && a < b
    ensures a + 2 <= b
  {
  }

  function FieldOffset(buf: seq<Byte>, t: nat, id: nat): (f: nat)
    requires |buf| < MAX_BUFFER_SIZE && TableOk(buf, t) && id % 2 == 0
    ensures GetOptionalFieldOffset(buf, t, id) == Some(f)
  {
    FieldOffsetReadable(buf, t, id);
    GetOptionalFieldOffset(buf, t, id).value
  }

  /** `VerifyField<T>` with the type's size as alignment. */
  predicate FieldOk(buf: seq<Byte>, t: nat, id: nat, size: nat)
    requires |buf| < MAX_BUFFER_SIZE && TableOk(buf, t) && id % 2 == 0
  {
    var f := FieldOffset(buf, t, id);
    f == 0 || ScalarOk(buf, t + f, size)
  }

  predicate RefOk(buf: seq<Byte>, t: nat, id: nat)
    requires |buf| < MAX_BUFFER_SIZE && TableOk(buf, t) && id % 2 == 0
  {
    var f := FieldOffset(buf, t, id);
    f == 0 || OffsetOk(buf, t + f)
  }

  predicate RequiredRefOk(buf: seq<Byte>, t: nat, id: nat)
    requires |buf| < MAX_BUFFER_SIZE && TableOk(buf, t) && id % 2 == 0
  {
    FieldOffset(buf, t, id) != 0 && RefOk(buf, t, id)
  }

  /** The pointer accessor of a reference field that passed its check. */
  function Target(buf: seq<Byte>, t: nat, id: nat): (p: Pointer)
    requires |buf| < MAX_BUFFER_SIZE && TableOk(buf, t) && id % 2 == 0 && RefOk(buf, t, id)
    ensures GetPointer(buf, t, id) == Some(p)
    ensures p.At? ==> 0 <= p.pos < |buf|
    ensures p.Null? <==> FieldOffset(buf, t, id) == 0
  {
    GetPointer(buf, t, id).value
  }

  // ----- the generated Verify functions -----

  function VerifyTableStart(buf: seq<Byte>, t: nat, c: Counts): (r: (bool, Counts))
    ensures r.0 ==> TableOk(buf, t)
  {
    if !ScalarOk(buf, t, 4) then (false, c)
    else
      var c' := Counts(c.depth + 1, c.tables + 1);
      (c'.depth <= MAX_DEPTH && c'.tables <= MAX_TABLES && VTableOk(buf, t), c')
  }

  function Leave(c: Counts): Counts {
    if c.depth == 0 then c else c.(depth := c.depth - 1)
  }

  predicate ParamsFieldsOk(buf: seq<Byte>, t: nat)
    requires |buf| < MAX_BUFFER_SIZE && TableOk(buf, t)
  {
    && FieldOk(buf, t, 4, 1) && FieldOk(buf, t, 6, 4) && FieldOk(buf, t, 8, 4)
    && FieldOk(buf, t, 10, 4) && FieldOk(buf, t, 12, 4) && FieldOk(buf, t, 14, 4)
  }

  function VerifyParams(buf: seq<Byte>, t: nat, c: Counts): (r: (bool, Counts))
    requires |buf| < MAX_BUFFER_SIZE
    ensures r.0 ==> r.1 == Counts(c.depth, c.tables + 1)
  {
    var (ok, c1) := VerifyTableStart(buf, t, c);
    if ok && ParamsFieldsOk(buf, t) then (true, Leave(c1)) else (false, c1)
  }

  predicate RowFieldsOk(buf: seq<Byte>, t: nat)
    requires |buf| < MAX_BUFFER_SIZE && TableOk(buf, t)
  {
    && FieldOk(buf, t, 4, 4) && FieldOk(buf, t, 6, 4) && FieldOk(buf, t, 8, 4)
    && FieldOk(buf, t, 10, 4) && FieldOk(buf, t, 12, 4)
  }

  function VerifyRow(buf: seq<Byte>, t: nat, c: Counts): (r: (bool, Counts))
    requires |buf| < MAX_BUFFER_SIZE
    ensures r.0 ==> r.1 == Counts(c.depth, c.tables + 1)
  {
    var (ok, c1) := VerifyTableStart(buf, t, c);
    if ok && RowFieldsOk(buf, t) then (true, Leave(c1)) else (false, c1)
  }

  /** The reference stored in element `i` of a vector that passed its check. */
  function Element(buf: seq<Byte>, vec: nat, i: nat): (at: nat)
    requires VectorOk(buf, vec, 4) && i < ReadScalar(buf, vec, 4).value
    ensures GetIndirect(buf, vec, i) == Some(at)
  {
    GetIndirect(buf, vec, i).value
  }

  /** `VerifyVectorOfTables` over the first `n` rows; it stops at the first failure. */
  function VerifyRows(buf: seq<Byte>, vec: nat, n: nat, c: Counts): (r: (bool, Counts))
    requires |buf| < MAX_BUFFER_SIZE && VectorOk(buf, vec, 4) && n <= ReadScalar(buf, vec, 4).value
    ensures r.0 ==> r.1 == Counts(c.depth, c.tables + n)
  {
    if n == 0 then (true, c)
    else
      var (ok, c1) := VerifyRows(buf, vec, n - 1, c);
      if ok then VerifyRow(buf, Element(buf, vec, n - 1), c1) else (false, c1)
  }

  function VerifyResponse(buf: seq<Byte>, t: nat, c: Counts): (r: (bool, Counts))
    requires |buf| < MAX_BUFFER_SIZE
  {
    var (ok, c1) := VerifyTableStart(buf, t, c);
    if ok && FieldOk(buf, t, 4, 8) && RefOk(buf, t, 6) then
      match Target(buf, t, 6)
      case Null => (true, Leave(c1))
      case At(v) =>
        if VectorOk(buf, v, 4) then
          var (rowsOk, c2) := VerifyRows(buf, v, ReadScalar(buf, v, 4).value, c1);
          if rowsOk then (true, Leave(c2)) else (false, c2)
        else (false, c1)
    else (false, c1)
  }

  /** The two requests check the same things, in the order of their fields. */
  function VerifyRequest(buf: seq<Byte>, t: nat, range: bool, c: Counts): (r: (bool, Counts))
    requires |buf| < MAX_BUFFER_SIZE
  {
    var (ok, c1) := VerifyTableStart(buf, t, c);
    if ok && (range || FieldOk(buf, t, 4, 8)) && RequiredRefOk(buf, t, if range then 4 else 6) then
      var (paramsOk, c2) := VerifyParams(buf, Target(buf, t, if range then 4 else 6).pos, c1);
      if paramsOk && (range ==> FieldOk(buf, t, 6, 8)) && RequiredRefOk(buf, t, 8)
         && VectorOk(buf, Target(buf, t, 8).pos, 12)
      then (true, Leave(c2)) else (false, c2)
    else (false, c1)
  }

  /** `VerifyRangePricingRequestBuffer`. */
  predicate RangeRequestBufferOk(buf: seq<Byte>)
    requires |buf| < MAX_BUFFER_SIZE
  {
    && |buf| >= MIN_BUFFER_SIZE && OffsetOk(buf, 0)
    && VerifyRequest(buf, ReadScalar(buf, 0, 4).value, true, Counts(0, 0)).0
  }

  /** The verifier object: its counters change as tables are entered and left. */
  class Verifier {
    const buf: seq<Byte>
    var depth: nat
    var tables: nat

    constructor (buf: seq<Byte>)
      requires |buf| < MAX_BUFFER_SIZE
      ensures this.buf == buf && Reached() == Counts(0, 0)
    {
      this.buf := buf;
      depth, tables := 0, 0;
    }

    ghost function Reached(): Counts
      reads this
    {
      Counts(depth, tables)
    }

    method VerifyComplexity() returns (ok: bool)
      modifies this
      ensures Reached() == Counts(old(depth) + 1, old(tables) + 1)
      ensures ok <==> depth <= MAX_DEPTH && tables <= MAX_TABLES
    {
      depth := depth + 1;
      tables := tables + 1;
      ok := depth <= MAX_DEPTH && tables <= MAX_TABLES;
    }

    method EndTable()
      modifies this
      ensures Reached() == Leave(old(Reached()))
    {
      if depth > 0 {
        depth := depth - 1;
      }
    }

    method TableStart(t: nat) returns (ok: bool)
      requires |buf| < MAX_BUFFER_SIZE
      modifies this
      ensures (ok, Reached()) == VerifyTableStart(buf, t, old(Reached()))
    {
      if !ScalarOk(buf, t, 4) {
        return false;
      }
      ok := VerifyComplexity();
      ok := ok && VTableOk(buf, t);
    }

    method Params(t: nat) returns (ok: bool)
      requires |buf| < MAX_BUFFER_SIZE
      modifies this
      ensures (ok, Reached()) == VerifyParams(buf, t, old(Reached()))
    {
      ok := TableStart(t);
      if ok && ParamsFieldsOk(buf, t) {
        EndTable();
      } else {
        ok := false;
      }
    }

    method Row(t: nat) returns (ok: bool)
      requires |buf| < MAX_BUFFER_SIZE
      modifies this
      ensures (ok, Reached()) == VerifyRow(buf, t, old(Reached()))
    {
      ok := TableStart(t);
      if ok && RowFieldsOk(buf, t) {
        EndTable();
      } else {
        ok := false;
      }
    }

    /** The loop over a vector of tables, which stops at the first one that fails. */
    method VectorOfTables(vec: nat) returns (ok: bool)
      requires |buf| < MAX_BUFFER_SIZE && VectorOk(buf, vec, 4)
      modifies this
      ensures (ok, Reached()) == VerifyRows(buf, vec, ReadScalar(buf, vec, 4).value, old(Reached()))
    {
      var n := ReadScalar(buf, vec, 4).value;
      var i := 0;
      while i < n
        invariant 0 <= i <= n
        invariant (true, Reached()) == VerifyRows(buf, vec, i, old(Reached()))
      {
        ok := Row(Element(buf, vec, i));
        if !ok {
          RowsStopEarly(buf, vec, i + 1, n, old(Reached()));
          return false;
        }
        i := i + 1;
      }
      ok := true;
    }

    method Response(t: nat) returns (ok: bool)
      requires |buf| < MAX_BUFFER_SIZE
      modifies this
      ensures (ok, Reached()) == VerifyResponse(buf, t, old(Reached()))
    {
      ok := TableStart(t);
      if !ok || !FieldOk(buf, t, 4, 8) || !RefOk(buf, t, 6) {
        return false;
      }
      match Target(buf, t, 6) {
        case Null =>
        case At(v) =>
          if !VectorOk(buf, v, 4) {
            return false;
          }
          ok := VectorOfTables(v);
          if !ok {
            return;
          }
      }
      EndTable();
    }

    method Request(t: nat, range: bool) returns (ok: bool)
      requires |buf| < MAX_BUFFER_SIZE
      modifies this
      ensures (ok, Reached()) == VerifyRequest(buf, t, range, old(Reached()))
    {
      ok := TableStart(t);
      if !ok || (!range && !FieldOk(buf, t, 4, 8)) || !RequiredRefOk(buf, t, if range then 4 else 6) {
        return false;
      }
      ok := Params(Target(buf, t, if range then 4 else 6).pos);
      if !ok || (range && !FieldOk(buf, t, 6, 8)) || !RequiredRefOk(buf, t, 8)
         || !VectorOk(buf, Target(buf, t, 8).pos, 12)
      {
        return false;
      }
      EndTable();
    }
  }

  lemma {:induction false} RowsStopEarly(buf: seq<Byte>, vec: nat, i: nat, n: nat, c: Counts)
    requires |buf| < MAX_BUFFER_SIZE && VectorOk(buf, vec, 4) && i <= n <= ReadScalar(buf, vec, 4).value
    requires !VerifyRows(buf, vec, i, c).0
    ensures VerifyRows(buf, vec, n, c) == VerifyRows(buf, vec, i, c)
  {
    if i < n {
      RowsStopEarly(buf, vec, i, n - 1, c);
    }
  }
}
