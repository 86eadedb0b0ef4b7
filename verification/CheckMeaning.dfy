/** What the generated checks accept, for every byte string (verifier.h). */
module CheckMeaning {
  import opened Wrappers
  import opened Bytes
  import opened Tables
  import opened Verifiers

  // ----- what has to lie where, in terms of the accessors -----

  /** `n` bytes at `at` lie in the buffer and do not fill it. */
  predicate Inside(buf: seq<Byte>, at: int, n: nat) {
    0 <= at && at + n <= |buf| && n < |buf|
  }

  /** The table's link leads to a vtable of even size, and all of it lies in the buffer. */
  predicate SoundTable(buf: seq<Byte>, t: int) {
    && t % 4 == 0 && Inside(buf, t, 4)
    && GetVTable(buf, t).Some?
    && var v := GetVTable(buf, t).value;
    && v % 2 == 0 && Inside(buf, v, 2)
    && ReadScalar(buf, v, 2).Some?
    && var size := ReadScalar(buf, v, 2).value;
       size % 2 == 0 && Inside(buf, v, size)
  }

  /** The field is absent, or lies aligned in the buffer. */
  predicate FieldFits(buf: seq<Byte>, t: int, id: nat, size: nat)
    requires size > 0
  {
    match GetOptionalFieldOffset(buf, t, id)
    case None => false
    case Some(f) => f == 0 || ((t + f) % size == 0 && Inside(buf, t + f, size))
  }

  /** The reference is present, aligned, and leads forward to a byte of the buffer. */
  predicate RefFits(buf: seq<Byte>, t: int, id: nat) {
    && GetOptionalFieldOffset(buf, t, id).Some?
    && var f := GetOptionalFieldOffset(buf, t, id).value;
    && f != 0 && ForwardFrom(buf, t + f)
  }

  predicate ForwardFrom(buf: seq<Byte>, at: int) {
    && at % 4 == 0 && Inside(buf, at, 4) && ReadScalar(buf, at, 4).Some?
    && var o := ReadScalar(buf, at, 4).value;
       0 < o < 0x8000_0000 && Inside(buf, at + o, 1)
  }

  predicate Absent(buf: seq<Byte>, t: int, id: nat) {
    GetOptionalFieldOffset(buf, t, id) == Some(0)
  }

  /** The position a present reference leads to. */
  function Leads(buf: seq<Byte>, t: int, id: nat): (p: int)
    requires RefFits(buf, t, id)
    ensures GetPointer(buf, t, id) == Some(At(p))
  {
    var f := GetOptionalFieldOffset(buf, t, id).value;
    t + f + ReadScalar(buf, t + f, 4).value
  }

  predicate VectorFits(buf: seq<Byte>, vec: int, elemSize: nat)
    requires elemSize > 0
  {
    && vec % 4 == 0 && Inside(buf, vec, 4) && VectorSize(buf, vec).Some?
    && VectorSize(buf, vec).value < 0x7fff_ffff / elemSize
    && Inside(buf, vec, 4 + elemSize * VectorSize(buf, vec).value)
  }

  /** One more table within the limits of the verifier. */
  predicate WithinLimits(c: Counts) {
    c.depth + 1 <= 64 && c.tables + 1 <= 1_000_000
  }

  // ----- the pieces -----

  lemma RangeIs(buf: seq<Byte>, at: nat, n: nat)
    ensures InRange(buf, at, n) <==> Inside(buf, at, n)
  {
  }

  lemma TableIs(buf: seq<Byte>, t: nat)
    requires |buf| < MAX_BUFFER_SIZE
    ensures TableOk(buf, t) <==> SoundTable(buf, t)
  {
    if InRange(buf, t, 4) {
      VTablePosReads(buf, t);
    }
  }

  lemma FieldIs(buf: seq<Byte>, t: nat, id: nat, size: nat)
    requires |buf| < MAX_BUFFER_SIZE && TableOk(buf, t) && id % 2 == 0 && size > 0
    ensures FieldOk(buf, t, id, size) <==> FieldFits(buf, t, id, size)
  {
    var f := FieldOffset(buf, t, id);
  }

  lemma ForwardIs(buf: seq<Byte>, at: nat)
    requires |buf| < MAX_BUFFER_SIZE
    ensures OffsetOk(buf, at) <==> ForwardFrom(buf, at)
  {
  }

  lemma RefIs(buf: seq<Byte>, t: nat, id: nat)
    requires |buf| < MAX_BUFFER_SIZE && TableOk(buf, t) && id % 2 == 0
    ensures RequiredRefOk(buf, t, id) <==> RefFits(buf, t, id)
    ensures RefOk(buf, t, id) <==> Absent(buf, t, id) || RefFits(buf, t, id)
  {
    var f := FieldOffset(buf, t, id);
    ForwardIs(buf, t + f);
  }

  lemma VectorIs(buf: seq<Byte>, vec: nat, elemSize: nat)
    requires |buf| < MAX_BUFFER_SIZE && elemSize > 0
    ensures VectorOk(buf, vec, elemSize) <==> VectorFits(buf, vec, elemSize)
  {
  }

  // ----- the four checks -----

  predicate SoundParams(buf: seq<Byte>, t: int) {
    && SoundTable(buf, t)
    && FieldFits(buf, t, 4, 1) && FieldFits(buf, t, 6, 4) && FieldFits(buf, t, 8, 4)
    && FieldFits(buf, t, 10, 4) && FieldFits(buf, t, 12, 4) && FieldFits(buf, t, 14, 4)
  }

  /** Parameters pass exactly when their table and each of the six fields is sound, within the limits. */
  lemma ParamsCheckIs(buf: seq<Byte>, t: nat, c: Counts)
    requires |buf| < MAX_BUFFER_SIZE
    ensures VerifyParams(buf, t, c).0 <==> SoundParams(buf, t) && WithinLimits(c)
  {
    TableIs(buf, t);
    if TableOk(buf, t) {
      FieldIs(buf, t, 4, 1);
      FieldIs(buf, t, 6, 4);
      FieldIs(buf, t, 8, 4);
      FieldIs(buf, t, 10, 4);
      FieldIs(buf, t, 12, 4);
      FieldIs(buf, t, 14, 4);
    }
  }

  predicate SoundRow(buf: seq<Byte>, t: int) {
    && SoundTable(buf, t)
    && FieldFits(buf, t, 4, 4) && FieldFits(buf, t, 6, 4) && FieldFits(buf, t, 8, 4)
    && FieldFits(buf, t, 10, 4) && FieldFits(buf, t, 12, 4)
  }

  lemma RowCheckIs(buf: seq<Byte>, t: nat, c: Counts)
    requires |buf| < MAX_BUFFER_SIZE
    ensures VerifyRow(buf, t, c).0 <==> SoundRow(buf, t) && WithinLimits(c)
  {
    TableIs(buf, t);
    if TableOk(buf, t) {
      FieldIs(buf, t, 4, 4);
      FieldIs(buf, t, 6, 4);
      FieldIs(buf, t, 8, 4);
      FieldIs(buf, t, 10, 4);
      FieldIs(buf, t, 12, 4);
    }
  }

  /** Element `i` leads to a sound row. */
  predicate SoundElement(buf: seq<Byte>, vec: int, i: nat) {
    GetIndirect(buf, vec, i).Some? && SoundRow(buf, GetIndirect(buf, vec, i).value)
  }

  /** `n` rows pass exactly when each is sound and there is room for all of them. */
  lemma {:induction false} RowsCheckIs(buf: seq<Byte>, vec: nat, n: nat, c: Counts)
    requires |buf| < MAX_BUFFER_SIZE && VectorOk(buf, vec, 4) && n <= ReadScalar(buf, vec, 4).value
    requires c.tables <= 1_000_000
    ensures VerifyRows(buf, vec, n, c).0 <==>
            (forall i: nat :: i < n ==> SoundElement(buf, vec, i))
            && (n > 0 ==> c.depth + 1 <= 64) && c.tables + n <= 1_000_000
  {
    if n > 0 {
      RowsCheckIs(buf, vec, n - 1, c);
      var (ok, c1) := VerifyRows(buf, vec, n - 1, c);
      var at := Element(buf, vec, n - 1);
      RowCheckIs(buf, at, c1);
      assert SoundElement(buf, vec, n - 1) <==> SoundRow(buf, at);
    }
  }

  /** The results vector of a response is absent, or a vector of sound rows for which there is room. */
  predicate SoundResults(buf: seq<Byte>, t: int, c: Counts) {
    || Absent(buf, t, 6)
    || (&& RefFits(buf, t, 6)
        && var vec := Leads(buf, t, 6);
        && VectorFits(buf, vec, 4)
        && var n := VectorSize(buf, vec).value;
        && (forall i: nat :: i < n ==> SoundElement(buf, vec, i))
        && (n > 0 ==> c.depth + 2 <= 64) && c.tables + 1 + n <= 1_000_000)
  }

  lemma ResponseCheckIs(buf: seq<Byte>, t: nat, c: Counts)
    requires |buf| < MAX_BUFFER_SIZE
    ensures VerifyResponse(buf, t, c).0 <==>
            SoundTable(buf, t) && FieldFits(buf, t, 4, 8) && SoundResults(buf, t, c) && WithinLimits(c)
  {
    TableIs(buf, t);
    if TableOk(buf, t) {
      FieldIs(buf, t, 4, 8);
      RefIs(buf, t, 6);
      if RefFits(buf, t, 6) {
        var vec := Leads(buf, t, 6);
        VectorIs(buf, vec, 4);
        if VectorOk(buf, vec, 4) && WithinLimits(c) {
          RowsCheckIs(buf, vec, ReadScalar(buf, vec, 4).value, Counts(c.depth + 1, c.tables + 1));
        }
      }
    }
  }

  /** A request needs its parameters and its pairs; the hash or batch id may be absent. */
  predicate SoundRequest(buf: seq<Byte>, t: int, range: bool) {
    && SoundTable(buf, t) && FieldFits(buf, t, if range then 6 else 4, 8)
    && RefFits(buf, t, if range then 4 else 6) && SoundParams(buf, Leads(buf, t, if range then 4 else 6))
    && RefFits(buf, t, 8) && VectorFits(buf, Leads(buf, t, 8), 12)
  }

  lemma RequestCheckIs(buf: seq<Byte>, t: nat, range: bool, c: Counts)
    requires |buf| < MAX_BUFFER_SIZE
    ensures VerifyRequest(buf, t, range, c).0 <==>
            SoundRequest(buf, t, range) && c.depth + 2 <= 64 && c.tables + 2 <= 1_000_000
  {
    TableIs(buf, t);
    if TableOk(buf, t) {
      var p := if range then 4 else 6;
      FieldIs(buf, t, if range then 6 else 4, 8);
      RefIs(buf, t, p);
      RefIs(buf, t, 8);
      if RefFits(buf, t, p) {
        ParamsCheckIs(buf, Leads(buf, t, p), Counts(c.depth + 1, c.tables + 1));
      }
      if RefFits(buf, t, 8) {
        VectorIs(buf, Leads(buf, t, 8), 12);
      }
    }
  }

  /** A message passes the server's check exactly when its root is a sound range request. */
  lemma RangeRequestBufferIs(buf: seq<Byte>)
    requires |buf| < MAX_BUFFER_SIZE
    ensures RangeRequestBufferOk(buf) <==>
            |buf| >= 12 && ForwardFrom(buf, 0) && SoundRequest(buf, GetRoot(buf).value, true)
  {
    ForwardIs(buf, 0);
    if OffsetOk(buf, 0) {
      RequestCheckIs(buf, ReadScalar(buf, 0, 4).value, true, Counts(0, 0));
    }
  }
}
