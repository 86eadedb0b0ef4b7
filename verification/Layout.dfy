/** What the builder's operations do to the bytes (flatbuffer_builder.h). */
module Layout {
  import opened Wrappers
  import opened Bytes

  type Positive = n: nat | n > 0 witness 1

  /** Positions count from the end of the buffer, so they keep their meaning while bytes are added in front. */
  datatype FieldLoc = FieldLoc(off: nat, id: nat)

  datatype Builder = Builder(
    data: seq<Byte>,
    vtables: seq<nat>,
    fields: seq<FieldLoc>,
    maxVOffset: nat,
    minAlign: Positive,
    nested: bool,
    finished: bool)

  const EMPTY := Builder([], [], [], 0, 1, false, false)

  predicate IsAlignment(a: nat) {
    a in {1, 2, 4, 8, 16, 32}
  }

  function Max(a: nat, b: nat): nat {
    if a > b then a else b
  }

  /** Between tables and vectors (`NotNested`). */
  predicate Idle(b: Builder) {
    !b.nested && b.fields == [] && b.maxVOffset == 0
  }

  // ----- scalars -----

  function TrackMinAlign(b: Builder, size: Positive): Builder {
    b.(minAlign := Max(size, b.minAlign))
  }

  function Align(b: Builder, size: nat): Builder
    requires size > 0
  {
    TrackMinAlign(b, size).(data := Zeros(PaddingBytes(|b.data|, size)) + b.data)
  }

  function PushElement(b: Builder, v: nat, size: nat): Builder
    requires size > 0
  {
    var a := Align(b, size);
    a.(data := WriteLE(v, size) + a.data)
  }

  function PreAlign(b: Builder, len: nat, alignment: nat): Builder
    requires alignment > 0
  {
    if len == 0 then b
    else TrackMinAlign(b, alignment).(data := Zeros(PaddingBytes(|b.data| + len, alignment)) + b.data)
  }

  /** The offset to store next so that a reader finds what lies `off` from the end. */
  function ReferTo(b: Builder, off: nat): (r: (Builder, nat))
    requires 0 < off <= |b.data|
  {
    var a := Align(b, 4);
    (a, |a.data| - off + 4)
  }

  /** `PushElement` of an `Offset`. */
  function PushOffset(b: Builder, off: nat): (r: Builder)
    requires 0 < off <= |b.data|
    ensures |r.data| > |b.data|
  {
    var (a, v) := ReferTo(b, off);
    PushElement(a, v, 4)
  }

  // ----- tables -----

  function TrackField(b: Builder, id: nat, off: nat): Builder {
    b.(fields := b.fields + [FieldLoc(off, id)], maxVOffset := Max(id, b.maxVOffset))
  }

  function AddElement(b: Builder, id: nat, v: nat, size: nat, isDefault: bool): Builder
    requires size > 0
  {
    if isDefault then b
    else
      var p := PushElement(b, v, size);
      TrackField(p, id, |p.data|)
  }

  function AddOffset(b: Builder, id: nat, off: nat): Builder
    requires off <= |b.data|
  {
    if off == 0 then b
    else
      var (a, v) := ReferTo(b, off);
      AddElement(a, id, v, 4, v == 0)
  }

  function StartTable(b: Builder): Builder {
    b.(nested := true)
  }

  predicate SlotsFit(fields: seq<FieldLoc>, vsize: nat, loc: nat) {
    forall i :: 0 <= i < |fields| ==> fields[i].id + 2 <= vsize && fields[i].off <= loc
  }

  /** The vtable's slots: one patch for each tracked field, oldest first. */
  function FillSlots(vt: seq<Byte>, fields: seq<FieldLoc>, loc: nat): (r: seq<Byte>)
    requires SlotsFit(fields, |vt|, loc)
    ensures |r| == |vt|
  {
    if fields == [] then vt
    else
      var last := fields[|fields| - 1];
      Patch(FillSlots(vt, fields[..|fields| - 1], loc), last.id, WriteLE(loc - last.off, 2))
  }

  function VTableSize(maxVOffset: nat): nat {
    Max(maxVOffset + 2, 4)
  }

  function BlankVTable(vsize: nat, objectSize: nat): (r: seq<Byte>)
    requires vsize >= 4
    ensures |r| == vsize
  {
    WriteLE(vsize, 2) + WriteLE(objectSize, 2) + Zeros(vsize - 4)
  }

  /** The fields tracked since `start` are what a table that ends at `loc` needs. */
  predicate Tracked(b: Builder, start: nat) {
    && start <= |b.data|
    && forall i :: 0 <= i < |b.fields| ==>
         var fl := b.fields[i];
         4 <= fl.id <= b.maxVOffset && fl.id % 2 == 0 && start < fl.off <= |b.data|
  }

  function NewVTable(b: Builder, start: nat, loc: nat): (r: seq<Byte>)
    requires Tracked(b, start) && |b.data| <= loc
    ensures |r| == VTableSize(b.maxVOffset)
  {
    FillSlots(BlankVTable(VTableSize(b.maxVOffset), loc - start), b.fields, loc)
  }

  /** The vtable that starts `v` from the end of the buffer, read by its own size. */
  function VTableAt(data: seq<Byte>, v: nat): Option<seq<Byte>> {
    var size :- ReadScalar(data, |data| - v, 2);
    if v <= |data| && size <= v then Some(data[|data| - v..|data| - v + size]) else None
  }

  /** The first remembered vtable equal to `vt`. */
  function FindVTable(data: seq<Byte>, vtables: seq<nat>, vt: seq<Byte>): (r: Option<nat>)
    ensures r.Some? ==> r.value in vtables && VTableAt(data, r.value) == Some(vt)
    ensures r.None? ==> forall v <- vtables :: VTableAt(data, v) != Some(vt)
  {
    if vtables == [] then None
    else if VTableAt(data, vtables[0]) == Some(vt) then Some(vtables[0])
    else FindVTable(data, vtables[1..], vt)
  }

  /** Links the table just written to a remembered vtable, or to `vt` placed in front of it. */
  function LinkTable(a: Builder, vt: seq<Byte>, shared: Option<nat>): (r: Builder)
    ensures Idle(r) && |r.data| >= |a.data| + 4
  {
    var loc := |a.data| + 4;
    var closed := a.(fields := [], maxVOffset := 0, nested := false);
    match shared
    case Some(v) =>
      closed.(data := WriteLE(FromSigned32(v - loc), 4) + a.data)
    case None =>
      closed.(data := vt + (WriteLE(FromSigned32(|vt|), 4) + a.data), vtables := a.vtables + [loc + |vt|])
  }

  /** The finished table's offset, and the builder after it. */
  function EndTable(b: Builder, start: nat, dedup: bool): (r: (Builder, nat))
    requires Tracked(b, start)
    ensures r.1 == |Align(b, 4).data| + 4 && |b.data| < r.1 <= |r.0.data|
    ensures Idle(r.0)
  {
    var a := Align(b, 4);
    var loc := |a.data| + 4;
    var vt := NewVTable(b, start, loc);
    (LinkTable(a, vt, if dedup then FindVTable(a.data, b.vtables, vt) else None), loc)
  }

  // ----- vectors -----

  function StartVector(b: Builder, len: nat, elemSize: nat, alignment: nat): Builder
    requires alignment > 0
  {
    PreAlign(PreAlign(b.(nested := true), len * elemSize, 4), len * elemSize, alignment)
  }

  function EndVector(b: Builder, len: nat): (r: (Builder, nat))
    ensures |b.data| < r.1 == |r.0.data|
    ensures r.0.fields == b.fields && r.0.maxVOffset == b.maxVOffset && !r.0.nested
    ensures r.0.vtables == b.vtables
  {
    var p := PushElement(b.(nested := false), len, 4);
    (p, |p.data|)
  }

  /** A vector of scalars or structs, whose bytes are given. */
  function CreateVector(b: Builder, bytes: seq<Byte>, len: nat, elemSize: nat, alignment: nat): (r: (Builder, nat))
    requires alignment > 0 && |bytes| == len * elemSize
    ensures |b.data| < r.1 == |r.0.data| && r.0.vtables == b.vtables
    ensures Idle(b) ==> Idle(r.0)
  {
    var s := StartVector(b, len, elemSize, alignment);
    EndVector(s.(data := bytes + s.data), len)
  }

  predicate OffsetsWithin(b: Builder, offs: seq<nat>) {
    forall i :: 0 <= i < |offs| ==> 0 < offs[i] <= |b.data|
  }

  /**
    Pushes the offsets from the last to the first. The steps are mutually
    recursive, so that a proof unfolds them only by naming them.
   */
  function PushOffsets(b: Builder, offs: seq<nat>): (r: Builder)
    requires OffsetsWithin(b, offs)
    ensures |r.data| >= |b.data|
    ensures r.fields == b.fields && r.maxVOffset == b.maxVOffset && r.vtables == b.vtables && r.nested == b.nested
    decreases |offs|, 2
  {
    if offs == [] then b else PushSomeOffsets(b, offs)
  }

  function PushSomeOffsets(b: Builder, offs: seq<nat>): (r: Builder)
    requires OffsetsWithin(b, offs) && offs != []
    ensures |r.data| >= |b.data|
    ensures r.fields == b.fields && r.maxVOffset == b.maxVOffset && r.vtables == b.vtables && r.nested == b.nested
    decreases |offs|, 1
  {
    PushLastOffset(b, offs)
  }

  function PushLastOffset(b: Builder, offs: seq<nat>): (r: Builder)
    requires OffsetsWithin(b, offs) && offs != []
    ensures |r.data| >= |b.data|
    ensures r.fields == b.fields && r.maxVOffset == b.maxVOffset && r.vtables == b.vtables && r.nested == b.nested
    decreases |offs|, 0
  {
    PushOffsets(PushOffset(b, offs[|offs| - 1]), offs[..|offs| - 1])
  }

  lemma PushOffsetsLast(b: Builder, offs: seq<nat>)
    requires OffsetsWithin(b, offs) && offs != []
    ensures 0 < offs[|offs| - 1] <= |b.data| && OffsetsWithin(PushOffset(b, offs[|offs| - 1]), offs[..|offs| - 1])
    ensures PushOffsets(b, offs) == PushOffsets(PushOffset(b, offs[|offs| - 1]), offs[..|offs| - 1])
  {
    assert PushOffsets(b, offs) == PushSomeOffsets(b, offs) == PushLastOffset(b, offs);
  }

  function CreateVectorOfOffsets(b: Builder, offs: seq<nat>): (r: (Builder, nat))
    requires OffsetsWithin(b, offs)
    ensures |b.data| < r.1 == |r.0.data| && r.0.vtables == b.vtables
    ensures Idle(b) ==> Idle(r.0)
  {
    EndVector(PushOffsets(StartVector(b, |offs|, 4, 4), offs), |offs|)
  }

  // ----- finishing -----

  function Finish(b: Builder, root: nat): Builder
    requires 0 < root <= |b.data|
  {
    PushOffset(PreAlign(b.(vtables := []), 4, b.minAlign), root).(finished := true)
  }
}
