/** Tables read back field by field. */
module TableLayout {
  import opened Wrappers
  import opened Bytes
  import opened Tables
  import opened Layout

  /** One `add_` call of a generated table builder. */
  datatype Write =
    | Scalar(id: nat, size: nat, bits: nat, isDefault: bool)
    | Ref(id: nat, target: nat)
  {
    /** Defaults and null offsets are not stored. */
    predicate Skipped() {
      match this
      case Scalar(_, _, _, d) => d
      case Ref(_, t) => t == 0
    }

    predicate WellFormed() {
      && id % 2 == 0 && 4 <= id < 0x1_0000 - 2
      && (Scalar? ==> size in {1, 2, 4, 8} && bits < Pow256(size))
    }
  }

  predicate WellFormedWrites(ws: seq<Write>) {
    && (forall i :: 0 <= i < |ws| ==> ws[i].WellFormed())
    && (forall i, j :: 0 <= i < j < |ws| ==> ws[i].id != ws[j].id)
  }

  function Apply(b: Builder, w: Write): Builder
    requires w.WellFormed() && (w.Ref? ==> w.target <= |b.data|)
  {
    match w
    case Scalar(id, size, bits, isDefault) => AddElement(b, id, bits, size, isDefault)
    case Ref(id, target) => AddOffset(b, id, target)
  }

  /** Refs point at what was written before the table. */
  predicate RefsWithin(ws: seq<Write>, limit: nat) {
    forall i :: 0 <= i < |ws| && ws[i].Ref? ==> ws[i].target <= limit
  }

  lemma ApplyTracked(b: Builder, w: Write, start: nat)
    requires w.WellFormed() && (w.Ref? ==> w.target <= |b.data|) && Tracked(b, start)
    ensures Tracked(Apply(b, w), start) && |Apply(b, w).data| >= |b.data|
  {
  }

  function ApplyAll(b: Builder, ws: seq<Write>): (r: Builder)
    requires WellFormedWrites(ws) && RefsWithin(ws, |b.data|)
    requires b.fields == [] && b.maxVOffset == 0
    ensures |r.data| >= |b.data| && Tracked(r, |b.data|)
  {
    if ws == [] then b
    else
      var n := |ws| - 1;
      var mid := ApplyAll(b, ws[..n]);
      ApplyTracked(mid, ws[n], |b.data|);
      Apply(mid, ws[n])
  }

  lemma ApplyAllStep(b: Builder, ws: seq<Write>, i: nat)
    requires WellFormedWrites(ws) && RefsWithin(ws, |b.data|) && b.fields == [] && b.maxVOffset == 0 && i < |ws|
    ensures WellFormedWrites(ws[..i]) && RefsWithin(ws[..i], |b.data|)
    ensures WellFormedWrites(ws[..i + 1]) && RefsWithin(ws[..i + 1], |b.data|)
    ensures ApplyAll(b, ws[..i + 1]) == Apply(ApplyAll(b, ws[..i]), ws[i])
  {
    assert ws[..i + 1][..i] == ws[..i];
  }

  /** The table that `ws` describes, from `StartTable` to `EndTable`. */
  function WriteTable(b: Builder, ws: seq<Write>, dedup: bool): (r: (Builder, nat))
    requires WellFormedWrites(ws) && RefsWithin(ws, |b.data|) && Idle(b)
    ensures Idle(r.0) && |b.data| < r.1 <= |r.0.data|
  {
    EndTable(ApplyAll(StartTable(b), ws), |b.data|, dedup)
  }

  /** The bytes of `w` lie where `fl` says, aligned to their size. */
  predicate Stored(data: seq<Byte>, fl: FieldLoc, w: Write) {
    && fl.id == w.id && 0 < fl.off <= |data|
    && match w
       case Scalar(_, size, bits, _) =>
         size > 0 && fl.off % size == 0 && ReadScalar(data, |data| - fl.off, size) == Some(bits)
       case Ref(_, target) =>
         && fl.off % 4 == 0 && target < fl.off
         && ReadScalar(data, |data| - fl.off, 4) == Some(fl.off - target)
  }

  lemma StoredUnderPrefix(pre: seq<Byte>, data: seq<Byte>, fl: FieldLoc, w: Write)
    requires Stored(data, fl, w)
    ensures Stored(pre + data, fl, w)
  {
    ReadUnderPrefix(pre, data, |data| - fl.off, if w.Scalar? then w.size else 4);
  }

  function Present(ws: seq<Write>): (r: seq<Write>)
    ensures |r| <= |ws|
  {
    if ws == [] then []
    else
      var n := |ws| - 1;
      Present(ws[..n]) + if ws[n].Skipped() then [] else [ws[n]]
  }

  /** The tracked locations are those of the stored writes, in order. */
  predicate AllStored(b: Builder, start: nat, ws: seq<Write>) {
    var ps := Present(ws);
    && |b.fields| == |ps|
    && (forall i :: 0 <= i < |ps| ==> Stored(b.data, b.fields[i], ps[i]) && start < b.fields[i].off <= |b.data|)
    && (forall i :: 0 <= i < |ps| ==> b.fields[i].id <= b.maxVOffset)
    && b.maxVOffset % 2 == 0 && b.maxVOffset < 0x1_0000 - 2
  }

  // ----- one write -----

  lemma PushElementReads(b: Builder, v: nat, size: nat)
    requires size > 0 && v < Pow256(size)
    ensures var p := PushElement(b, v, size);
            |p.data| % size == 0 && |p.data| > |b.data| && ReadScalar(p.data, 0, size) == Some(v)
  {
    var a := Align(b, size);
    PaddingAligns(|b.data|, size);
    ModUnique(|a.data| + size, size, |a.data| / size + 1, 0);
    ReadHead(v, size, a.data);
  }

  /** What one write adds: some bytes in front, and one tracked location unless it is skipped. */
  predicate Extends(b: Builder, r: Builder, w: Write) {
    && EndsWith(r.data, b.data)
    && r.vtables == b.vtables
    && (w.Skipped() ==> r == b)
    && (!w.Skipped() ==>
          && r.fields == b.fields + [FieldLoc(|r.data|, w.id)] && |r.data| > |b.data|
          && Stored(r.data, FieldLoc(|r.data|, w.id), w)
          && r.maxVOffset == Max(w.id, b.maxVOffset))
  }

  lemma AddElementExtends(b: Builder, id: nat, v: nat, size: nat)
    requires size > 0 && v < Pow256(size)
    ensures var r := AddElement(b, id, v, size, false);
            && EndsWith(r.data, b.data) && |r.data| > |b.data|
            && r.vtables == b.vtables && r.maxVOffset == Max(id, b.maxVOffset)
            && r.fields == b.fields + [FieldLoc(|r.data|, id)]
            && |r.data| % size == 0 && ReadScalar(r.data, 0, size) == Some(v)
  {
    PushElementReads(b, v, size);
    var a := Align(b, size);
    EndsWithPrefix(Zeros(PaddingBytes(|b.data|, size)), b.data);
    EndsWithPrefix(WriteLE(v, size), a.data);
    SuffixTrans(b.data, a.data, PushElement(b, v, size).data);
  }

  lemma AddOffsetExtends(b: Builder, id: nat, off: nat)
    requires 0 < off <= |b.data| && |AddOffset(b, id, off).data| < U32
    ensures var r := AddOffset(b, id, off);
            && EndsWith(r.data, b.data) && |r.data| > |b.data|
            && r.vtables == b.vtables && r.maxVOffset == Max(id, b.maxVOffset)
            && r.fields == b.fields + [FieldLoc(|r.data|, id)]
            && |r.data| % 4 == 0 && off < |r.data| && ReadScalar(r.data, 0, 4) == Some(|r.data| - off)
  {
    var (a, v) := ReferTo(b, off);
    PaddingAligns(|b.data|, 4);
    assert PaddingBytes(|a.data|, 4) == 0;
    EndsWithPrefix(Zeros(PaddingBytes(|b.data|, 4)), b.data);
    Pow256Values();
    AddElementExtends(a, id, v, 4);
    SuffixTrans(b.data, a.data, AddOffset(b, id, off).data);
  }

  lemma ApplyExtends(b: Builder, w: Write)
    requires w.WellFormed() && (w.Ref? ==> w.target <= |b.data|)
    requires |Apply(b, w).data| < U32
    ensures Extends(b, Apply(b, w), w)
  {
    if !w.Skipped() {
      match w {
        case Scalar(id, size, bits, isDefault) =>
          AddElementExtends(b, id, bits, size);
        case Ref(id, target) =>
          AddOffsetExtends(b, id, target);
      }
    }
  }

  lemma ApplyGrows(b: Builder, w: Write)
    requires w.WellFormed() && (w.Ref? ==> w.target <= |b.data|)
    ensures |Apply(b, w).data| >= |b.data|
  {
  }

  lemma StoredSoFar(mid: Builder, r: Builder, start: nat, ws: seq<Write>)
    requires ws != [] && AllStored(mid, start, ws[..|ws| - 1]) && Extends(mid, r, ws[|ws| - 1])
    requires start <= |mid.data| && ws[|ws| - 1].WellFormed()
    ensures AllStored(r, start, ws)
  {
    var pre := r.data[..|r.data| - |mid.data|];
    assert r.data == pre + mid.data;
    var ps := Present(ws[..|ws| - 1]);
    forall i | 0 <= i < |ps|
      ensures Stored(r.data, r.fields[i], Present(ws)[i]) && start < r.fields[i].off <= |r.data|
    {
      StoredUnderPrefix(pre, mid.data, mid.fields[i], ps[i]);
    }
  }

  lemma SuffixTrans(a: seq<Byte>, b: seq<Byte>, c: seq<Byte>)
    requires EndsWith(b, a) && EndsWith(c, b)
    ensures EndsWith(c, a)
  {
  }

  lemma WritesPrefix(ws: seq<Write>, limit: nat)
    requires ws != [] && WellFormedWrites(ws) && RefsWithin(ws, limit)
    ensures WellFormedWrites(ws[..|ws| - 1]) && RefsWithin(ws[..|ws| - 1], limit)
    ensures ws[|ws| - 1].WellFormed() && (ws[|ws| - 1].Ref? ==> ws[|ws| - 1].target <= limit)
  {
  }

  lemma {:induction false} ApplyAllStores(b: Builder, ws: seq<Write>)
    requires WellFormedWrites(ws) && RefsWithin(ws, |b.data|)
    requires b.fields == [] && b.maxVOffset == 0 && |ApplyAll(b, ws).data| < U32
    ensures var r := ApplyAll(b, ws);
            && AllStored(r, |b.data|, ws)
            && EndsWith(r.data, b.data)
            && r.vtables == b.vtables
  {
    if ws != [] {
      var n := |ws| - 1;
      WritesPrefix(ws, |b.data|);
      var mid := ApplyAll(b, ws[..n]);
      var r := ApplyAll(b, ws);
      assert r == Apply(mid, ws[n]);
      ApplyGrows(mid, ws[n]);
      ApplyAllStores(b, ws[..n]);
      ApplyExtends(mid, ws[n]);
      StoredSoFar(mid, r, |b.data|, ws);
      SuffixTrans(b.data, mid.data, r.data);
    }
  }

  // ----- the vtable -----

  lemma PatchReads(buf: seq<Byte>, p: nat, v: nat, q: nat)
    requires p + 2 <= |buf| && v < 0x1_0000
    ensures ReadScalar(Patch(buf, p, WriteLE(v, 2)), p, 2) == Some(v)
    ensures q + 2 <= p || p + 2 <= q ==> ReadScalar(Patch(buf, p, WriteLE(v, 2)), q, 2) == ReadScalar(buf, q, 2)
  {
    var r := Patch(buf, p, WriteLE(v, 2));
    assert r[p..p + 2] == WriteLE(v, 2);
    Pow256Values();
    ReadWritten(r, p, v, 2);
    if (q + 2 <= p || p + 2 <= q) && q + 2 <= |buf| {
      assert r[q..q + 2] == buf[q..q + 2];
    }
  }

  predicate DistinctSlots(fields: seq<FieldLoc>) {
    && (forall i :: 0 <= i < |fields| ==> fields[i].id % 2 == 0 && fields[i].id >= 4)
    && (forall i, j :: 0 <= i < j < |fields| ==> fields[i].id != fields[j].id)
  }

  /** Every field is close enough to the table's end for a 16-bit slot. */
  predicate WithinObject(fields: seq<FieldLoc>, loc: nat) {
    forall i :: 0 <= i < |fields| ==> loc - fields[i].off < 0x1_0000
  }

  lemma {:induction false} SlotUntouched(vt: seq<Byte>, fields: seq<FieldLoc>, loc: nat, q: nat)
    requires SlotsFit(fields, |vt|, loc) && WithinObject(fields, loc)
    requires forall i :: 0 <= i < |fields| ==> fields[i].id + 2 <= q || q + 2 <= fields[i].id
    ensures ReadScalar(FillSlots(vt, fields, loc), q, 2) == ReadScalar(vt, q, 2)
  {
    if fields != [] {
      var n := |fields| - 1;
      SlotUntouched(vt, fields[..n], loc, q);
      PatchReads(FillSlots(vt, fields[..n], loc), fields[n].id, loc - fields[n].off, q);
    }
  }

  lemma {:induction false} SlotFilled(vt: seq<Byte>, fields: seq<FieldLoc>, loc: nat, i: nat)
    requires SlotsFit(fields, |vt|, loc) && WithinObject(fields, loc)
    requires DistinctSlots(fields) && i < |fields|
    ensures ReadScalar(FillSlots(vt, fields, loc), fields[i].id, 2) == Some(loc - fields[i].off)
  {
    var n := |fields| - 1;
    var below := FillSlots(vt, fields[..n], loc);
    if i < n {
      assert fields[i].id + 2 <= fields[n].id || fields[n].id + 2 <= fields[i].id;
      SlotFilled(vt, fields[..n], loc, i);
      PatchReads(below, fields[n].id, loc - fields[n].off, fields[i].id);
    } else {
      PatchReads(below, fields[n].id, loc - fields[n].off, fields[n].id);
    }
  }

  lemma BlankReads(vsize: nat, objectSize: nat, q: nat)
    requires 4 <= vsize < 0x1_0000 && objectSize < 0x1_0000 && q % 2 == 0 && q + 2 <= vsize
    ensures ReadScalar(BlankVTable(vsize, objectSize), q, 2) ==
            Some(if q == 0 then vsize else if q == 2 then objectSize else 0)
  {
    var vt := BlankVTable(vsize, objectSize);
    Pow256Values();
    if q == 0 {
      ReadWritten(vt, 0, vsize, 2);
    } else if q == 2 {
      ReadWritten(vt, 2, objectSize, 2);
    } else {
      assert vt[q..q + 2] == WriteLE(0, 2);
      ReadWritten(vt, q, 0, 2);
    }
  }

  // ----- what a reader finds -----

  predicate FieldHolds(data: seq<Byte>, t: nat, w: Write) {
    match GetOptionalFieldOffset(data, t, w.id)
    case None => false
    case Some(f) =>
      if w.Skipped() then f == 0
      else 0 < f && t + f < |data| && Stored(data, FieldLoc(|data| - t - f, w.id), w)
  }

  /** A vtable of even size at least 4 lies wholly in the buffer, `v` from its end. */
  predicate VTableHolds(data: seq<Byte>, v: nat) {
    && 4 <= v <= |data| && v % 2 == 0
    && VTableAt(data, v).Some?
    && var size := |VTableAt(data, v).value|;
       4 <= size && size % 2 == 0
  }

  predicate Unwritten(ws: seq<Write>, id: nat) {
    id % 2 == 0 && id >= 4 && forall i :: 0 <= i < |ws| ==> ws[i].id != id
  }

  /** The table `o` from the end of the buffer has exactly the fields `ws`. */
  ghost predicate TableHolds(data: seq<Byte>, o: nat, ws: seq<Write>) {
    && 4 <= o <= |data| && o % 4 == 0
    && var t := |data| - o;
    && GetVTable(data, t).Some? && GetVTable(data, t).value <= |data|
    && VTableHolds(data, |data| - GetVTable(data, t).value)
    && (forall i {:trigger FieldHolds(data, t, ws[i])} :: 0 <= i < |ws| ==> FieldHolds(data, t, ws[i]))
    && (forall id: nat {:trigger Unwritten(ws, id)} :: Unwritten(ws, id) ==> GetOptionalFieldOffset(data, t, id) == Some(0))
  }

  /** Every remembered vtable is readable. */
  predicate VTablesHold(data: seq<Byte>, vtables: seq<nat>) {
    forall i :: 0 <= i < |vtables| ==> VTableHolds(data, vtables[i])
  }

  predicate VTablesDiffer(data: seq<Byte>, vtables: seq<nat>) {
    forall i, j :: 0 <= i < j < |vtables| ==> VTableAt(data, vtables[i]) != VTableAt(data, vtables[j])
  }

  // ----- closing a table -----

  /** The tracked fields can be described by one vtable of a table that ends at `loc`. */
  predicate Closable(b: Builder, start: nat, loc: nat) {
    && Tracked(b, start) && DistinctSlots(b.fields)
    && b.maxVOffset % 2 == 0 && b.maxVOffset < 0x1_0000 - 2
    && |b.data| <= loc && loc - start < 0x1_0000
  }

  lemma NewVTableReads(b: Builder, start: nat, loc: nat, id: nat)
    requires Closable(b, start, loc)
    requires id % 2 == 0 && id + 2 <= VTableSize(b.maxVOffset)
    requires forall i :: 0 <= i < |b.fields| ==> b.fields[i].id != id
    ensures ReadScalar(NewVTable(b, start, loc), id, 2) ==
            Some(if id == 0 then VTableSize(b.maxVOffset) else if id == 2 then loc - start else 0)
  {
    var blank := BlankVTable(VTableSize(b.maxVOffset), loc - start);
    BlankReads(VTableSize(b.maxVOffset), loc - start, id);
    SlotUntouched(blank, b.fields, loc, id);
  }

  /** A vtable starts with its own size, which is even. */
  lemma NewVTableSize(b: Builder, start: nat, loc: nat)
    requires Closable(b, start, loc)
    ensures var vt := NewVTable(b, start, loc);
            |vt| % 2 == 0 && 4 <= |vt| < 0x1_0000 && ReadScalar(vt, 0, 2) == Some(|vt|)
  {
    SumOfMultiples(b.maxVOffset, 2, 2);
    NewVTableReads(b, start, loc, 0);
  }

  lemma NewVTableReadsField(b: Builder, start: nat, loc: nat, i: nat)
    requires Closable(b, start, loc) && i < |b.fields|
    ensures ReadScalar(NewVTable(b, start, loc), b.fields[i].id, 2) == Some(loc - b.fields[i].off)
  {
    SlotFilled(BlankVTable(VTableSize(b.maxVOffset), loc - start), b.fields, loc, i);
  }

  lemma VTableUnderPrefix(pre: seq<Byte>, data: seq<Byte>, v: nat)
    requires VTableAt(data, v).Some?
    ensures VTableAt(pre + data, v) == VTableAt(data, v)
  {
    ReadUnderPrefix(pre, data, |data| - v, 2);
    var size := ReadScalar(data, |data| - v, 2).value;
    assert (pre + data)[|pre + data| - v..|pre + data| - v + size] == data[|data| - v..|data| - v + size];
  }

  lemma VTablesUnderPrefix(pre: seq<Byte>, data: seq<Byte>, vtables: seq<nat>)
    requires VTablesHold(data, vtables)
    ensures VTablesHold(pre + data, vtables)
    ensures VTablesDiffer(data, vtables) ==> VTablesDiffer(pre + data, vtables)
  {
    forall i | 0 <= i < |vtables|
      ensures VTableAt(pre + data, vtables[i]) == VTableAt(data, vtables[i])
    {
      VTableUnderPrefix(pre, data, vtables[i]);
    }
  }

  /** Bytes that start with their own length are found as a vtable at the front. */
  lemma VTableAtFront(vt: seq<Byte>, rest: seq<Byte>)
    requires ReadScalar(vt, 0, 2) == Some(|vt|)
    ensures VTableAt(vt + rest, |vt + rest|) == Some(vt)
  {
    assert (vt + rest)[0..2] == vt[0..2];
    assert (vt + rest)[0..|vt|] == vt;
  }

  /** The field offset a reader computes is the slot of the vtable the table points at. */
  lemma FieldOffsetFromVTable(data: seq<Byte>, o: nat, v: nat, vt: seq<Byte>, id: nat)
    requires 0 < o <= |data| < I32 && v <= |data| && VTableAt(data, v) == Some(vt)
    requires ReadScalar(data, |data| - o, 4) == Some(FromSigned32(v - o))
    requires id % 2 == 0 && |vt| % 2 == 0
    ensures GetVTable(data, |data| - o) == Some(|data| - v)
    ensures GetOptionalFieldOffset(data, |data| - o, id) == if id < |vt| then ReadScalar(vt, id, 2) else Some(0)
  {
    SignedRoundTrip(v - o);
    var p := |data| - v;
    assert vt == data[p..p + |vt|];
    assert ReadScalar(data, p, 2) == Some(|vt|);
    if id < |vt| {
      ReadSlice(data, p, |vt|, id, 2);
    }
  }

  /** A table that ends at `o`, linked to the vtable `vt` at `v`, in front of `base`. */
  ghost predicate Closed(base: seq<Byte>, r: Builder, o: nat, v: nat, vt: seq<Byte>) {
    && EndsWith(r.data, base) && |base| < o <= |r.data| && o % 4 == 0
    && VTablesHold(r.data, r.vtables) && VTableHolds(r.data, v)
    && ReadScalar(r.data, |r.data| - o, 4) == Some(FromSigned32(v - o))
    && VTableAt(r.data, v) == Some(vt)
  }

  /** Pointing a table at a vtable that is already in the buffer. */
  lemma LinkShared(a: seq<Byte>, vtables: seq<nat>, v: nat, o: nat, data: seq<Byte>)
    requires VTablesHold(a, vtables) && VTableAt(a, v).Some?
    requires o == |a| + 4 && data == WriteLE(FromSigned32(v - o), 4) + a
    ensures EndsWith(data, a) && VTablesHold(data, vtables)
    ensures VTablesDiffer(a, vtables) ==> VTablesDiffer(data, vtables)
    ensures VTableAt(data, v) == VTableAt(a, v)
    ensures ReadScalar(data, |data| - o, 4) == Some(FromSigned32(v - o))
  {
    var link := WriteLE(FromSigned32(v - o), 4);
    VTablesUnderPrefix(link, a, vtables);
    VTableUnderPrefix(link, a, v);
    Pow256Values();
    ReadHead(FromSigned32(v - o), 4, a);
    EndsWithPrefix(link, a);
  }

  lemma EvenInFront(vsize: nat, size: nat)
    requires vsize % 2 == 0 && size % 4 == 0
    ensures (vsize + (4 + size)) % 2 == 0
  {
    MultipleOfMultiple(size, 4, 2);
    SumOfMultiples(4, size, 2);
    SumOfMultiples(vsize, 4 + size, 2);
  }

  /** Putting a table's own vtable in front of it. */
  lemma LinkNew(a: seq<Byte>, vtables: seq<nat>, vt: seq<Byte>, mid: seq<Byte>, data: seq<Byte>)
    requires VTablesHold(a, vtables) && |a| % 4 == 0
    requires ReadScalar(vt, 0, 2) == Some(|vt|) && |vt| % 2 == 0 && 4 <= |vt| < 0x1_0000
    requires mid == WriteLE(FromSigned32(|vt|), 4) + a && data == vt + mid
    ensures EndsWith(data, a) && VTablesHold(data, vtables + [|data|])
    ensures VTableAt(data, |data|) == Some(vt)
    ensures ReadScalar(data, |vt|, 4) == Some(FromSigned32(|vt|))
  {
    var link := WriteLE(FromSigned32(|vt|), 4);
    EvenInFront(|vt|, |a|);
    VTableAtFront(vt, mid);
    Pow256Values();
    ReadHead(FromSigned32(|vt|), 4, a);
    ReadUnderPrefix(vt, mid, 0, 4);
    VTablesUnderPrefix(link, a, vtables);
    VTablesUnderPrefix(vt, mid, vtables);
    EndsWithPrefix(link, a);
    EndsWithPrefix(vt, mid);
    SuffixTrans(a, mid, data);
    VTablesAppend(data, vtables, |data|);
  }

  lemma VTablesAppend(data: seq<Byte>, vtables: seq<nat>, v: nat)
    requires VTablesHold(data, vtables) && VTableHolds(data, v)
    ensures VTablesHold(data, vtables + [v])
  {
  }

  /** A vtable equal to none of the remembered ones keeps them pairwise different. */
  lemma LinkNewDiffers(a: seq<Byte>, vtables: seq<nat>, vt: seq<Byte>, pre: seq<Byte>)
    requires VTablesHold(a, vtables) && VTablesDiffer(a, vtables)
    requires forall i :: 0 <= i < |vtables| ==> VTableAt(a, vtables[i]) != Some(vt)
    requires VTableAt(pre + a, |pre + a|) == Some(vt)
    ensures VTablesDiffer(pre + a, vtables + [|pre + a|])
  {
    forall i | 0 <= i < |vtables|
      ensures VTableAt(pre + a, vtables[i]) == VTableAt(a, vtables[i])
    {
      VTableUnderPrefix(pre, a, vtables[i]);
    }
  }

  lemma AlignKeepsVTables(b: Builder)
    requires VTablesHold(b.data, b.vtables)
    ensures var a := Align(b, 4);
            VTablesHold(a.data, b.vtables) && (VTablesDiffer(b.data, b.vtables) ==> VTablesDiffer(a.data, b.vtables))
            && EndsWith(a.data, b.data) && |a.data| % 4 == 0 && (|a.data| + 4) % 4 == 0 && |a.data| < |b.data| + 4
  {
    var pad := Zeros(PaddingBytes(|b.data|, 4));
    PaddingAligns(|b.data|, 4);
    SumOfMultiples(|b.data| + |pad|, 4, 4);
    EndsWithPrefix(pad, b.data);
    VTablesUnderPrefix(pad, b.data, b.vtables);
  }

  lemma ClosedShared(base: seq<Byte>, a: seq<Byte>, vtables: seq<nat>, vt: seq<Byte>, v: nat, r: Builder, o: nat)
    requires EndsWith(a, base) && o == |a| + 4 && o % 4 == 0
    requires VTablesHold(a, vtables) && v in vtables && VTableAt(a, v) == Some(vt)
    requires r.data == WriteLE(FromSigned32(v - o), 4) + a && r.vtables == vtables
    ensures Closed(base, r, o, v, vt) && v < o
    ensures VTablesDiffer(a, vtables) ==> VTablesDiffer(r.data, r.vtables)
  {
    LinkShared(a, vtables, v, o, r.data);
    SuffixTrans(base, a, r.data);
  }

  lemma ClosedNew(base: seq<Byte>, a: seq<Byte>, vtables: seq<nat>, vt: seq<Byte>, r: Builder, o: nat)
    requires EndsWith(a, base) && o == |a| + 4 && |a| % 4 == 0 && o % 4 == 0
    requires VTablesHold(a, vtables)
    requires ReadScalar(vt, 0, 2) == Some(|vt|) && |vt| % 2 == 0 && 4 <= |vt| < 0x1_0000
    requires r.data == vt + (WriteLE(FromSigned32(|vt|), 4) + a) && r.vtables == vtables + [|r.data|]
    ensures Closed(base, r, o, |r.data|, vt)
  {
    LinkNew(a, vtables, vt, WriteLE(FromSigned32(|vt|), 4) + a, r.data);
    SuffixTrans(base, a, r.data);
    assert r.vtables[|vtables|] == |r.data|;
  }

  lemma EndTableShares(b: Builder, start: nat, v: nat)
    requires VTablesHold(b.data, b.vtables) && Tracked(b, start)
    requires FindVTable(Align(b, 4).data, b.vtables, NewVTable(b, start, |Align(b, 4).data| + 4)) == Some(v)
    ensures var (r, o) := EndTable(b, start, true);
            && Closed(b.data, r, o, v, NewVTable(b, start, o)) && v < o && r.vtables == b.vtables
            && (VTablesDiffer(b.data, b.vtables) ==> VTablesDiffer(r.data, r.vtables))
  {
    var (r, o) := EndTable(b, start, true);
    AlignKeepsVTables(b);
    ClosedShared(b.data, Align(b, 4).data, b.vtables, NewVTable(b, start, o), v, r, o);
  }

  lemma EndTableAdds(b: Builder, start: nat, dedup: bool)
    requires VTablesHold(b.data, b.vtables) && Closable(b, start, |Align(b, 4).data| + 4)
    requires dedup ==> FindVTable(Align(b, 4).data, b.vtables, NewVTable(b, start, |Align(b, 4).data| + 4)).None?
    ensures var (r, o) := EndTable(b, start, dedup);
            && Closed(b.data, r, o, |r.data|, NewVTable(b, start, o)) && r.vtables == b.vtables + [|r.data|]
  {
    var (r, o) := EndTable(b, start, dedup);
    AlignKeepsVTables(b);
    NewVTableSize(b, start, o);
    ClosedNew(b.data, Align(b, 4).data, b.vtables, NewVTable(b, start, o), r, o);
  }

  lemma EndTableAddsDifferent(b: Builder, start: nat)
    requires VTablesHold(b.data, b.vtables) && Closable(b, start, |Align(b, 4).data| + 4)
    requires FindVTable(Align(b, 4).data, b.vtables, NewVTable(b, start, |Align(b, 4).data| + 4)).None?
    requires VTablesDiffer(b.data, b.vtables)
    ensures var (r, o) := EndTable(b, start, true); VTablesDiffer(r.data, r.vtables)
  {
    var (r, o) := EndTable(b, start, true);
    var a, vt := Align(b, 4).data, NewVTable(b, start, o);
    EndTableAdds(b, start, true);
    AlignKeepsVTables(b);
    var pre := vt + WriteLE(FromSigned32(|vt|), 4);
    assert r.data == pre + a;
    LinkNewDiffers(a, b.vtables, vt, pre);
  }

  /**
    Closing a table leaves everything written before in place, and links it to a
    vtable that describes exactly the tracked fields. A shared vtable lies
    strictly nearer to the end than the table, so it can never be taken for the
    new one that was popped.
   */
  lemma EndTableCloses(b: Builder, start: nat, dedup: bool) returns (v: nat)
    requires VTablesHold(b.data, b.vtables) && Closable(b, start, |Align(b, 4).data| + 4)
    ensures var (r, o) := EndTable(b, start, dedup);
            && Closed(b.data, r, o, v, NewVTable(b, start, o))
            && ((r.vtables == b.vtables && v < o) || (r.vtables == b.vtables + [v] && o < v == |r.data|))
            && (dedup && VTablesDiffer(b.data, b.vtables) ==> VTablesDiffer(r.data, r.vtables))
  {
    var (r, o) := EndTable(b, start, dedup);
    var found := if dedup then FindVTable(Align(b, 4).data, b.vtables, NewVTable(b, start, o)) else None;
    match found {
      case Some(u) =>
        v := u;
        EndTableShares(b, start, v);
      case None =>
        v := |r.data|;
        EndTableAdds(b, start, dedup);
        if dedup && VTablesDiffer(b.data, b.vtables) {
          EndTableAddsDifferent(b, start);
        }
    }
  }

  // ----- reading a closed table -----

  /** A tracked location is the field offset a reader computes. */
  lemma ClosedReadsField(b: Builder, start: nat, r: Builder, o: nat, v: nat, i: nat)
    requires Closable(b, start, o) && i < |b.fields| && |r.data| < I32
    requires Closed(b.data, r, o, v, NewVTable(b, start, o))
    ensures GetOptionalFieldOffset(r.data, |r.data| - o, b.fields[i].id) == Some(o - b.fields[i].off)
    ensures GetVTable(r.data, |r.data| - o) == Some(|r.data| - v)
  {
    var id := b.fields[i].id;
    NewVTableSize(b, start, o);
    NewVTableReadsField(b, start, o, i);
    FieldOffsetFromVTable(r.data, o, v, NewVTable(b, start, o), id);
  }

  lemma ClosedReadsAbsent(b: Builder, start: nat, r: Builder, o: nat, v: nat, id: nat)
    requires Closable(b, start, o) && |r.data| < I32
    requires Closed(b.data, r, o, v, NewVTable(b, start, o))
    requires id % 2 == 0 && id >= 4 && forall i :: 0 <= i < |b.fields| ==> b.fields[i].id != id
    ensures GetOptionalFieldOffset(r.data, |r.data| - o, id) == Some(0)
    ensures GetVTable(r.data, |r.data| - o) == Some(|r.data| - v)
  {
    NewVTableSize(b, start, o);
    FieldOffsetFromVTable(r.data, o, v, NewVTable(b, start, o), id);
    if id < |NewVTable(b, start, o)| {
      NewVTableReads(b, start, o, id);
    }
  }

  lemma {:induction false} PresentHas(ws: seq<Write>, i: nat) returns (k: nat)
    requires i < |ws| && !ws[i].Skipped()
    ensures k < |Present(ws)| && Present(ws)[k] == ws[i]
  {
    var n := |ws| - 1;
    if i < n {
      k := PresentHas(ws[..n], i);
    } else {
      k := |Present(ws[..n])|;
    }
  }

  lemma {:induction false} PresentFrom(ws: seq<Write>, k: nat) returns (i: nat)
    requires k < |Present(ws)|
    ensures i < |ws| && ws[i] == Present(ws)[k] && !ws[i].Skipped()
  {
    var n := |ws| - 1;
    if k < |Present(ws[..n])| {
      i := PresentFrom(ws[..n], k);
    } else {
      i := n;
    }
  }

  lemma {:induction false} PresentDistinct(ws: seq<Write>, j: nat, k: nat)
    requires WellFormedWrites(ws) && j < k < |Present(ws)|
    ensures Present(ws)[j].id != Present(ws)[k].id
  {
    var n := |ws| - 1;
    if k < |Present(ws[..n])| {
      PresentDistinct(ws[..n], j, k);
    } else {
      var i := PresentFrom(ws[..n], j);
      assert Present(ws)[j] == ws[i] && Present(ws)[k] == ws[n];
    }
  }

  // ----- the table theorem -----

  lemma AppliedClosable(b: Builder, ws: seq<Write>, loc: nat)
    requires WellFormedWrites(ws) && RefsWithin(ws, |b.data|) && b.fields == [] && b.maxVOffset == 0
    requires var w := ApplyAll(b, ws); |w.data| <= loc && loc - |b.data| < 0x1_0000 && loc < U32
    ensures Closable(ApplyAll(b, ws), |b.data|, loc)
  {
    var w := ApplyAll(b, ws);
    ApplyAllStores(b, ws);
    forall i, j | 0 <= i < j < |w.fields|
      ensures w.fields[i].id != w.fields[j].id
    {
      PresentDistinct(ws, i, j);
    }
  }

  lemma StoredFieldHolds(data: seq<Byte>, base: seq<Byte>, o: nat, fl: FieldLoc, w: Write)
    requires EndsWith(data, base) && o <= |data| && fl.off < o && fl.id == w.id && !w.Skipped()
    requires Stored(base, fl, w)
    requires GetOptionalFieldOffset(data, |data| - o, w.id) == Some(o - fl.off)
    ensures FieldHolds(data, |data| - o, w)
  {
    var pre := data[..|data| - |base|];
    assert data == pre + base;
    StoredUnderPrefix(pre, base, fl, w);
  }

  lemma ClosedTableHolds(b: Builder, start: nat, ws: seq<Write>, r: Builder, o: nat, v: nat)
    requires Closable(b, start, o) && |r.data| < I32 && WellFormedWrites(ws)
    requires AllStored(b, start, ws) && Closed(b.data, r, o, v, NewVTable(b, start, o))
    ensures TableHolds(r.data, o, ws)
  {
    var t := |r.data| - o;
    ClosedReadsAbsentOrNot(b, start, ws, r, o, v);
    forall i | 0 <= i < |ws|
      ensures FieldHolds(r.data, t, ws[i])
    {
      if !ws[i].Skipped() {
        var k := PresentHas(ws, i);
        ClosedReadsField(b, start, r, o, v, k);
        StoredFieldHolds(r.data, b.data, o, b.fields[k], ws[i]);
      } else {
        SkippedUntracked(b, start, ws, i);
        ClosedReadsAbsent(b, start, r, o, v, ws[i].id);
      }
    }
  }

  lemma SkippedUntracked(b: Builder, start: nat, ws: seq<Write>, i: nat)
    requires WellFormedWrites(ws) && AllStored(b, start, ws) && i < |ws| && ws[i].Skipped()
    ensures forall k :: 0 <= k < |b.fields| ==> b.fields[k].id != ws[i].id
  {
    forall k | 0 <= k < |b.fields|
      ensures b.fields[k].id != ws[i].id
    {
      var j := PresentFrom(ws, k);
    }
  }

  lemma ClosedReadsAbsentOrNot(b: Builder, start: nat, ws: seq<Write>, r: Builder, o: nat, v: nat)
    requires Closable(b, start, o) && |r.data| < I32 && WellFormedWrites(ws)
    requires AllStored(b, start, ws) && Closed(b.data, r, o, v, NewVTable(b, start, o))
    ensures forall id: nat :: Unwritten(ws, id) ==> GetOptionalFieldOffset(r.data, |r.data| - o, id) == Some(0)
    ensures GetVTable(r.data, |r.data| - o) == Some(|r.data| - v)
  {
    forall id: nat | Unwritten(ws, id)
      ensures GetOptionalFieldOffset(r.data, |r.data| - o, id) == Some(0)
    {
      forall k | 0 <= k < |b.fields|
        ensures b.fields[k].id != id
      {
        var j := PresentFrom(ws, k);
      }
      ClosedReadsAbsent(b, start, r, o, v, id);
    }
    NewVTableSize(b, start, o);
    FieldOffsetFromVTable(r.data, o, v, NewVTable(b, start, o), 4);
  }

  /**
    Whatever was written before it, and whether or not its vtable is shared, a
    table reads back exactly the fields it was given: stored values as they were,
    skipped and unmentioned fields as absent. Earlier bytes stay in place.
   */
  lemma TableReadsBack(b: Builder, ws: seq<Write>, dedup: bool)
    requires WellFormedWrites(ws) && RefsWithin(ws, |b.data|)
    requires Idle(b) && VTablesHold(b.data, b.vtables)
    requires var (r, o) := WriteTable(b, ws, dedup); |r.data| < I32 && o - |b.data| < 0x1_0000
    ensures var (r, o) := WriteTable(b, ws, dedup);
            && TableHolds(r.data, o, ws)
            && EndsWith(r.data, b.data) && |b.data| < o <= |r.data|
            && Idle(r) && VTablesHold(r.data, r.vtables)
            && (dedup && VTablesDiffer(b.data, b.vtables) ==> VTablesDiffer(r.data, r.vtables))
  {
    var s := StartTable(b);
    var w := ApplyAll(s, ws);
    var (r, o) := EndTable(w, |b.data|, dedup);
    AppliedData(b, ws, dedup);
    AppliedClosable(s, ws, o);
    ApplyAllStores(s, ws);
    VTablesEndWith(w.data, b.data, b.vtables);
    var v := EndTableCloses(w, |b.data|, dedup);
    ClosedTableHolds(w, |b.data|, ws, r, o, v);
    SuffixTrans(b.data, w.data, r.data);
  }

  lemma AppliedData(b: Builder, ws: seq<Write>, dedup: bool)
    requires WellFormedWrites(ws) && RefsWithin(ws, |b.data|) && Idle(b)
    ensures var (r, o) := WriteTable(b, ws, dedup);
            |ApplyAll(StartTable(b), ws).data| <= o <= |r.data|
  {
  }

  lemma VTablesEndWith(data: seq<Byte>, base: seq<Byte>, vtables: seq<nat>)
    requires EndsWith(data, base) && VTablesHold(base, vtables)
    ensures VTablesHold(data, vtables) && (VTablesDiffer(base, vtables) ==> VTablesDiffer(data, vtables))
  {
    var pre := data[..|data| - |base|];
    assert data == pre + base;
    VTablesUnderPrefix(pre, base, vtables);
  }
}
