/**
  The builder object, working in place on the two stacks of a growing buffer: the data
  stack holds the message, the scratch stack the remembered vtables and the fields of the
  open table (flatbuffer_builder.h).
 */
module Building {
  import opened Wrappers
  import opened Bytes
  import opened Layout
  import opened TableLayout
  import opened VectorLayout
  import opened Downward

  // ----- what the scratch stack holds -----

  /** A `FieldLoc`, whose size is rounded up to eight bytes. */
  function LocBytes(fl: FieldLoc): (s: seq<Byte>)
    ensures |s| == 8
  {
    WriteLE(fl.off, 4) + (WriteLE(fl.id, 2) + Zeros(2))
  }

  predicate LocFits(fl: FieldLoc) {
    fl.off < U32 && fl.id < 0x1_0000
  }

  /** Remembered vtables, four bytes each, with the fields of the open table on top. */
  predicate ScratchIs(s: seq<Byte>, vtables: seq<nat>, fields: seq<FieldLoc>)
    decreases |s|, 1
  {
    if fields != [] then FieldOnTop(s, vtables, fields)
    else if vtables != [] then VTableOnTop(s, vtables)
    else s == []
  }

  predicate FieldOnTop(s: seq<Byte>, vtables: seq<nat>, fields: seq<FieldLoc>)
    requires fields != []
    decreases |s|, 0
  {
    var n, top := |fields| - 1, |s| - 8;
    && top >= 0 && LocFits(fields[n]) && s[top..] == LocBytes(fields[n])
    && ScratchIs(s[..top], vtables, fields[..n])
  }

  predicate VTableOnTop(s: seq<Byte>, vtables: seq<nat>)
    requires vtables != []
    decreases |s|, 0
  {
    var n, top := |vtables| - 1, |s| - 4;
    && top >= 0 && vtables[n] < U32 && s[top..] == WriteLE(vtables[n], 4)
    && ScratchIs(s[..top], vtables[..n], [])
  }

  lemma {:induction false} ScratchSize(s: seq<Byte>, vtables: seq<nat>, fields: seq<FieldLoc>)
    requires ScratchIs(s, vtables, fields)
    ensures |s| == 4 * |vtables| + 8 * |fields|
    decreases |s|
  {
    if fields != [] {
      assert FieldOnTop(s, vtables, fields);
      ScratchSize(s[..|s| - 8], vtables, fields[..|fields| - 1]);
    } else if vtables != [] {
      assert VTableOnTop(s, vtables);
      ScratchSize(s[..|s| - 4], vtables[..|vtables| - 1], []);
    }
  }

  lemma ScratchPush(s: seq<Byte>, vtables: seq<nat>, fields: seq<FieldLoc>, fl: FieldLoc)
    requires ScratchIs(s, vtables, fields) && LocFits(fl)
    ensures ScratchIs(s + LocBytes(fl), vtables, fields + [fl])
  {
    var t, fs := s + LocBytes(fl), fields + [fl];
    assert t[..|t| - 8] == s && fs[..|fs| - 1] == fields;
    assert FieldOnTop(t, vtables, fs);
  }

  lemma ScratchRemember(s: seq<Byte>, vtables: seq<nat>, v: nat)
    requires ScratchIs(s, vtables, []) && v < U32
    ensures ScratchIs(s + WriteLE(v, 4), vtables + [v], [])
  {
    var t, vs := s + WriteLE(v, 4), vtables + [v];
    assert t[..|t| - 4] == s && vs[..|vs| - 1] == vtables;
    assert VTableOnTop(t, vs);
  }

  lemma {:induction false} ScratchClear(s: seq<Byte>, vtables: seq<nat>, fields: seq<FieldLoc>)
    requires ScratchIs(s, vtables, fields)
    ensures |s| >= 8 * |fields| && ScratchIs(s[..|s| - 8 * |fields|], vtables, [])
    decreases |s|
  {
    if fields != [] {
      var below := s[..|s| - 8];
      assert FieldOnTop(s, vtables, fields);
      ScratchClear(below, vtables, fields[..|fields| - 1]);
      assert s[..|s| - 8 * |fields|] == below[..|below| - 8 * (|fields| - 1)];
    } else {
      assert s[..|s|] == s;
    }
  }

  lemma {:induction false} LocInScratch(s: seq<Byte>, vtables: seq<nat>, fields: seq<FieldLoc>, i: nat, at: nat)
    requires ScratchIs(s, vtables, fields) && i < |fields| && at == 4 * |vtables| + 8 * i
    ensures LocFits(fields[i]) && at + 8 <= |s| && s[at..at + 8] == LocBytes(fields[i])
    decreases |s|
  {
    var n, top := |fields| - 1, |s| - 8;
    assert FieldOnTop(s, vtables, fields);
    ScratchSize(s, vtables, fields);
    if i < n {
      LocInScratch(s[..top], vtables, fields[..n], i, at);
      assert s[..top][at..at + 8] == s[at..at + 8];
    }
  }

  lemma {:induction false} WordInScratch(s: seq<Byte>, vtables: seq<nat>, i: nat, at: nat)
    requires ScratchIs(s, vtables, []) && i < |vtables| && at == 4 * i
    ensures vtables[i] < U32 && at + 4 <= |s| && s[at..at + 4] == WriteLE(vtables[i], 4)
    decreases |s|
  {
    var n, top := |vtables| - 1, |s| - 4;
    assert VTableOnTop(s, vtables);
    ScratchSize(s, vtables, []);
    if i < n {
      WordInScratch(s[..top], vtables[..n], i, at);
      assert s[..top][at..at + 4] == s[at..at + 4];
    }
  }

  lemma ReadsBack(v: nat, n: nat)
    requires v < Pow256(n)
    ensures ReadLE(WriteLE(v, n)) == v
  {
    WriteRead(v, n);
    ModUnique(v, Pow256(n), 0, v);
  }

  lemma LocReads(fl: FieldLoc)
    requires LocFits(fl)
    ensures ReadLE(LocBytes(fl)[..4]) == fl.off && ReadLE(LocBytes(fl)[4..6]) == fl.id
  {
    Pow256Values();
    ReadsBack(fl.off, 4);
    ReadsBack(fl.id, 2);
    assert LocBytes(fl)[..4] == WriteLE(fl.off, 4);
    assert LocBytes(fl)[4..6] == WriteLE(fl.id, 2);
  }

  /** Patching bytes of the part in front. */
  lemma PatchFront(front: seq<Byte>, rest: seq<Byte>, at: nat, bytes: seq<Byte>)
    requires at + |bytes| <= |front|
    ensures Patch(front + rest, at, bytes) == Patch(front, at, bytes) + rest
  {
  }

  lemma BlankPatched(vsize: nat, objectSize: nat)
    requires vsize >= 4
    ensures Patch(Patch(Zeros(vsize), 2, WriteLE(objectSize, 2)), 0, WriteLE(vsize, 2)) == BlankVTable(vsize, objectSize)
  {
  }

  /** `rest` behind a vtable whose slots are filled for the first `i` fields. */
  function Filled(vt: seq<Byte>, rest: seq<Byte>, fields: seq<FieldLoc>, loc: nat, i: nat): (r: seq<Byte>)
    requires i <= |fields| && SlotsFit(fields, |vt|, loc)
    ensures |r| == |vt + rest|
    decreases i, 1
  {
    if i == 0 then vt + rest else FilledNext(vt, rest, fields, loc, i)
  }

  function FilledNext(vt: seq<Byte>, rest: seq<Byte>, fields: seq<FieldLoc>, loc: nat, i: nat): (r: seq<Byte>)
    requires 0 < i <= |fields| && SlotsFit(fields, |vt|, loc)
    ensures |r| == |vt + rest|
    decreases i, 0
  {
    Patch(Filled(vt, rest, fields, loc, i - 1), fields[i - 1].id, WriteLE(loc - fields[i - 1].off, 2))
  }

  lemma SlotStep(vt: seq<Byte>, rest: seq<Byte>, fields: seq<FieldLoc>, loc: nat, i: nat)
    requires i < |fields| && SlotsFit(fields, |vt|, loc)
    ensures fields[i].id + 2 <= |Filled(vt, rest, fields, loc, i)| && fields[i].off <= loc
    ensures Patch(Filled(vt, rest, fields, loc, i), fields[i].id, WriteLE(loc - fields[i].off, 2)) ==
            Filled(vt, rest, fields, loc, i + 1)
  {
    assert Filled(vt, rest, fields, loc, i + 1) == FilledNext(vt, rest, fields, loc, i + 1);
  }

  lemma OneMoreSlot(vt: seq<Byte>, rest: seq<Byte>, front: seq<FieldLoc>, fl: FieldLoc, loc: nat)
    requires SlotsFit(front + [fl], |vt|, loc) && SlotsFit(front, |vt|, loc) && fl.id + 2 <= |vt| && fl.off <= loc
    ensures Patch(FillSlots(vt, front, loc) + rest, fl.id, WriteLE(loc - fl.off, 2)) ==
            FillSlots(vt, front + [fl], loc) + rest
  {
    assert (front + [fl])[..|front|] == front;
    PatchFront(FillSlots(vt, front, loc), rest, fl.id, WriteLE(loc - fl.off, 2));
  }

  lemma {:induction false} FilledIs(vt: seq<Byte>, rest: seq<Byte>, fields: seq<FieldLoc>, loc: nat, i: nat)
    requires i <= |fields| && SlotsFit(fields, |vt|, loc)
    ensures Filled(vt, rest, fields, loc, i) == FillSlots(vt, fields[..i], loc) + rest
  {
    if i > 0 {
      var fl := fields[i - 1];
      FilledIs(vt, rest, fields, loc, i - 1);
      SlotStep(vt, rest, fields, loc, i - 1);
      assert fields[..i] == fields[..i - 1] + [fl];
      OneMoreSlot(vt, rest, fields[..i - 1], fl, loc);
    }
  }

  lemma SlotsEnd(vt: seq<Byte>, rest: seq<Byte>, fields: seq<FieldLoc>, loc: nat)
    requires SlotsFit(fields, |vt|, loc)
    ensures Filled(vt, rest, fields, loc, 0) == vt + rest
    ensures Filled(vt, rest, fields, loc, |fields|) == FillSlots(vt, fields, loc) + rest
  {
    FilledIs(vt, rest, fields, loc, |fields|);
    assert fields[..|fields|] == fields;
  }

  lemma BlankFor(b: Builder, start: nat, loc: nat) returns (blank: seq<Byte>)
    requires Tracked(b, start) && |b.data| <= loc
    ensures blank == BlankVTable(VTableSize(b.maxVOffset), loc - start) && SlotsFit(b.fields, |blank|, loc)
    ensures NewVTable(b, start, loc) == FillSlots(blank, b.fields, loc)
  {
    blank := BlankVTable(VTableSize(b.maxVOffset), loc - start);
  }

  lemma NewVTableSame(b: Builder, p: Builder, start: nat, loc: nat)
    requires Tracked(b, start) && p.fields == b.fields && p.maxVOffset == b.maxVOffset && |b.data| <= |p.data| <= loc
    ensures Tracked(p, start) && NewVTable(p, start, loc) == NewVTable(b, start, loc)
  {
  }

  lemma AlignedHold(b: Builder)
    requires VTablesHold(b.data, b.vtables)
    ensures VTablesHold(Layout.Align(b, 4).data, b.vtables)
  {
    VTablesUnderPrefix(Zeros(PaddingBytes(|b.data|, 4)), b.data, b.vtables);
  }

  /** The remembered vtables are found the same behind the link's place. */
  lemma SharedFrom(a: Builder, link: seq<Byte>, vt: seq<Byte>)
    requires |link| > 0 && VTablesHold(a.data, a.vtables)
    ensures VTablesHold(link + a.data, a.vtables) && VTablesBelow(a.vtables, |link + a.data|)
    ensures FindVTable(link + a.data, a.vtables, vt) == FindVTable(a.data, a.vtables, vt)
  {
    VTablesUnderPrefix(link, a.data, a.vtables);
    FindUnderPrefix(link, a.data, a.vtables, vt);
  }

  /** The table's bytes with `link` in the link's place, behind its vtable or a shared one. */
  function Linked(vt: seq<Byte>, link: seq<Byte>, rest: seq<Byte>, shared: Option<nat>): seq<Byte> {
    if shared.Some? then link + rest else vt + (link + rest)
  }

  lemma LinkPatched(vt: seq<Byte>, rest: seq<Byte>, shared: Option<nat>, link: seq<Byte>, data: seq<Byte>)
    requires |link| == 4 && data == Linked(vt, WriteLE(0, 4), rest, shared)
    ensures |data| >= 4 + |rest|
    ensures Patch(data, |data| - 4 - |rest|, link) == Linked(vt, link, rest, shared)
  {
  }

  lemma LinkedIs(a: Builder, vt: seq<Byte>, shared: Option<nat>, r: Builder, vtUse: nat, loc: nat)
    requires loc == |a.data| + 4 && vtUse == if shared.Some? then shared.value else loc + |vt|
    requires r == a.(data := Linked(vt, WriteLE(FromSigned32(vtUse - loc), 4), a.data, shared), nested := false,
                     fields := [], maxVOffset := 0, vtables := if shared.Some? then a.vtables else a.vtables + [vtUse])
    ensures r == LinkTable(a, vt, shared)
  {
    assert shared.None? ==> vtUse - loc == |vt|;
  }

  lemma PushOffsetsStep(b: Builder, offs: seq<nat>, i: nat)
    requires 0 < i <= |offs| && OffsetsWithin(b, offs[..i])
    ensures 0 < offs[i - 1] <= |b.data| && OffsetsWithin(PushOffset(b, offs[i - 1]), offs[..i - 1])
    ensures PushOffsets(b, offs[..i]) == PushOffsets(PushOffset(b, offs[i - 1]), offs[..i - 1])
  {
    assert offs[..i][..i - 1] == offs[..i - 1];
    PushOffsetsLast(b, offs[..i]);
  }

  /** Remembered vtables start below the table being closed. */
  predicate VTablesBelow(vtables: seq<nat>, loc: nat) {
    forall i :: 0 <= i < |vtables| ==> vtables[i] < loc
  }

  /** Looking a vtable up is not disturbed by what was written after the remembered ones. */
  lemma {:induction false} FindUnderPrefix(pre: seq<Byte>, data: seq<Byte>, vtables: seq<nat>, vt: seq<Byte>)
    requires VTablesHold(data, vtables)
    ensures FindVTable(pre + data, vtables, vt) == FindVTable(data, vtables, vt)
  {
    if vtables != [] {
      VTableUnderPrefix(pre, data, vtables[0]);
      FindUnderPrefix(pre, data, vtables[1..], vt);
    }
  }

  lemma FindStep(data: seq<Byte>, vtables: seq<nat>, vt: seq<Byte>, i: nat)
    requires i < |vtables|
    ensures FindVTable(data, vtables[i..], vt) ==
            if VTableAt(data, vtables[i]) == Some(vt) then Some(vtables[i]) else FindVTable(data, vtables[i + 1..], vt)
  {
    assert vtables[i..][1..] == vtables[i + 1..];
  }

  class FlatBufferBuilder {
    const buf: VectorDownward
    var numFieldLoc: nat
    var maxVOffset: nat
    var nested: bool
    var finished: bool
    var minAlign: Positive
    var dedupVTables: bool
    ghost var vtables: seq<nat>
    ghost var fields: seq<FieldLoc>

    ghost function Repr(): set<object>
      reads this, buf
    {
      {this} + buf.Repr()
    }

    ghost predicate Valid()
      reads Repr()
    {
      && buf.Valid()
      && numFieldLoc == |fields| && ScratchIs(buf.Scratch(), vtables, fields)
    }

    /** The builder as a value. */
    ghost function Model(): Builder
      requires Valid()
      reads Repr()
    {
      Builder(buf.Data(), vtables, fields, maxVOffset, minAlign, nested, finished)
    }

    constructor (initialSize: nat, bufferMinalign: nat)
      requires bufferMinalign > 0
      ensures Valid() && fresh(Repr()) && Model() == EMPTY && dedupVTables
    {
      buf := new VectorDownward(initialSize, bufferMinalign);
      numFieldLoc, maxVOffset := 0, 0;
      nested, finished := false, false;
      minAlign := 1;
      dedupVTables := true;
      vtables, fields := [], [];
    }

    method TrackMinAlign(elemSize: Positive)
      requires Valid()
      modifies this
      ensures Valid() && Repr() == old(Repr()) && dedupVTables == old(dedupVTables)
      ensures Model() == Layout.TrackMinAlign(old(Model()), elemSize)
    {
      if elemSize > minAlign {
        minAlign := elemSize;
      }
    }

    method Align(elemSize: Positive)
      requires Valid()
      modifies Repr()
      ensures Valid() && fresh(Repr() - old(Repr())) && dedupVTables == old(dedupVTables)
      ensures Model() == Layout.Align(old(Model()), elemSize)
    {
      TrackMinAlign(elemSize);
      buf.Fill(PaddingBytes(buf.size, elemSize));
    }

    method PushElement(v: nat, size: Positive) returns (off: nat)
      requires Valid()
      modifies Repr()
      ensures Valid() && fresh(Repr() - old(Repr())) && dedupVTables == old(dedupVTables)
      ensures Model() == Layout.PushElement(old(Model()), v, size) && off == |Model().data|
    {
      Align(size);
      buf.PushSmall(v, size);
      off := buf.size;
    }

    method PreAlign(len: nat, alignment: Positive)
      requires Valid()
      modifies Repr()
      ensures Valid() && fresh(Repr() - old(Repr())) && dedupVTables == old(dedupVTables)
      ensures Model() == Layout.PreAlign(old(Model()), len, alignment)
    {
      if len == 0 {
        return;
      }
      TrackMinAlign(alignment);
      buf.Fill(PaddingBytes(buf.size + len, alignment));
    }

    method ReferTo(off: nat) returns (v: nat)
      requires Valid() && 0 < off <= |Model().data|
      modifies Repr()
      ensures Valid() && fresh(Repr() - old(Repr())) && dedupVTables == old(dedupVTables)
      ensures (Model(), v) == Layout.ReferTo(old(Model()), off)
    {
      Align(4);
      v := buf.size - off + 4;
    }

    method PushOffset(off: nat)
      requires Valid() && 0 < off <= |Model().data|
      modifies Repr()
      ensures Valid() && fresh(Repr() - old(Repr())) && dedupVTables == old(dedupVTables)
      ensures Model() == Layout.PushOffset(old(Model()), off)
    {
      var v := ReferTo(off);
      var _ := PushElement(v, 4);
    }

    method TrackField(id: nat, off: nat)
      requires Valid() && off < U32 && id < 0x1_0000
      modifies Repr()
      ensures Valid() && fresh(Repr() - old(Repr())) && dedupVTables == old(dedupVTables)
      ensures Model() == Layout.TrackField(old(Model()), id, off)
    {
      var fl := FieldLoc(off, id);
      ScratchPush(buf.Scratch(), vtables, fields, fl);
      buf.ScratchPushSmall(LocBytes(fl));
      numFieldLoc := numFieldLoc + 1;
      maxVOffset := if id > maxVOffset then id else maxVOffset;
      fields := fields + [fl];
    }

    method AddElement(id: nat, v: nat, size: Positive, isDefault: bool)
      requires Valid() && id < 0x1_0000 && |Layout.AddElement(Model(), id, v, size, isDefault).data| < U32
      modifies Repr()
      ensures Valid() && fresh(Repr() - old(Repr())) && dedupVTables == old(dedupVTables)
      ensures Model() == Layout.AddElement(old(Model()), id, v, size, isDefault)
    {
      if isDefault {
        return;
      }
      ghost var p := Layout.PushElement(Model(), v, size);
      assert |p.data| < U32;
      var off := PushElement(v, size);
      assert Model() == p;
      TrackField(id, off);
    }

    method AddOffset(id: nat, off: nat)
      requires Valid() && id < 0x1_0000 && off <= |Model().data| && |Layout.AddOffset(Model(), id, off).data| < U32
      modifies Repr()
      ensures Valid() && fresh(Repr() - old(Repr())) && dedupVTables == old(dedupVTables)
      ensures Model() == Layout.AddOffset(old(Model()), id, off)
    {
      if off == 0 {
        return;
      }
      var v := ReferTo(off);
      AddElement(id, v, 4, v == 0);
    }

    method StartTable() returns (start: nat)
      requires Valid() && Idle(Model())
      modifies this
      ensures Valid() && Repr() == old(Repr()) && dedupVTables == old(dedupVTables)
      ensures Model() == Layout.StartTable(old(Model())) && start == |Model().data|
    {
      nested := true;
      start := buf.size;
    }

    /** The vtable's own size and the table's, in front of zeroed slots. */
    method PushBlankVTable(objectSize: nat, ghost blank: seq<Byte>)
      requires Valid() && maxVOffset >= 4 && blank == BlankVTable(maxVOffset, objectSize)
      modifies Repr()
      ensures Valid() && fresh(Repr() - old(Repr())) && dedupVTables == old(dedupVTables)
      ensures Model() == old(Model()).(data := blank + old(Model()).data)
    {
      ghost var rest := buf.Data();
      buf.Fill(maxVOffset);
      buf.Poke(2, WriteLE(objectSize, 2));
      PatchFront(Zeros(maxVOffset), rest, 2, WriteLE(objectSize, 2));
      ghost var half := Patch(Zeros(maxVOffset), 2, WriteLE(objectSize, 2));
      buf.Poke(0, WriteLE(maxVOffset, 2));
      PatchFront(half, rest, 0, WriteLE(maxVOffset, 2));
      BlankPatched(maxVOffset, objectSize);
    }

    /** Patches the slot of each tracked field, reading the locations off the scratch stack. */
    method PatchSlots(loc: nat, ghost vt: seq<Byte>, ghost rest: seq<Byte>)
      requires Valid() && buf.Data() == vt + rest && SlotsFit(fields, |vt|, loc)
      modifies buf.Repr()
      ensures Valid() && Repr() == old(Repr())
      ensures Model() == old(Model()).(data := FillSlots(vt, old(fields), loc) + rest)
    {
      SlotsEnd(vt, rest, fields, loc);
      for i := 0 to numFieldLoc
        invariant Valid() && Repr() == old(Repr())
        invariant buf.Data() == Filled(vt, rest, fields, loc, i)
      {
        SlotStep(vt, rest, fields, loc, i);
        PatchSlot(i, loc, Filled(vt, rest, fields, loc, i + 1));
      }
    }

    method PatchSlot(i: nat, loc: nat, ghost patched: seq<Byte>)
      requires Valid() && i < numFieldLoc && fields[i].id + 2 <= buf.size && fields[i].off <= loc
      requires patched == Patch(buf.Data(), fields[i].id, WriteLE(loc - fields[i].off, 2))
      modifies buf.Repr()
      ensures Valid() && Repr() == old(Repr()) && buf.Data() == patched
    {
      var fl := ReadLoc(i);
      buf.Poke(fl.id, WriteLE(loc - fl.off, 2));
    }

    method ReadLoc(i: nat) returns (fl: FieldLoc)
      requires Valid() && i < numFieldLoc
      ensures fl == fields[i]
    {
      var at := buf.scratch - 8 * numFieldLoc + 8 * i;
      ScratchSize(buf.Scratch(), vtables, fields);
      LocInScratch(buf.Scratch(), vtables, fields, i, at);
      LocReads(fields[i]);
      var bytes := buf.ScratchAt(at, 8);
      fl := FieldLoc(ReadLE(bytes[..4]), ReadLE(bytes[4..6]));
    }

    method ClearOffsets()
      requires Valid()
      modifies Repr()
      ensures Valid() && Repr() == old(Repr()) && dedupVTables == old(dedupVTables)
      ensures Model() == old(Model()).(fields := [], maxVOffset := 0)
    {
      ScratchClear(buf.Scratch(), vtables, fields);
      buf.ScratchPop(numFieldLoc * 8);
      numFieldLoc, maxVOffset := 0, 0;
      fields := [];
    }

    /** The word `i` of the scratch stack: a remembered vtable. */
    method ReadWord(i: nat) returns (v: nat)
      requires Valid() && fields == [] && i < |vtables|
      ensures v == vtables[i]
    {
      WordInScratch(buf.Scratch(), vtables, i, 4 * i);
      Pow256Values();
      ReadsBack(vtables[i], 4);
      var bytes := buf.ScratchAt(4 * i, 4);
      v := ReadLE(bytes);
    }

    /** Compares the vtable on top of the buffer, `vtSize` bytes, with the one at `v`. */
    method SameVTable(v: nat, vtSize: nat) returns (same: bool)
      requires Valid() && vtSize <= buf.size && VTableHolds(buf.Data(), v)
      ensures same <==> VTableAt(buf.Data(), v) == Some(buf.Data()[..vtSize])
    {
      var size := buf.DataAt(v, 2);
      if ReadLE(size) != vtSize {
        return false;
      }
      var theirs := buf.DataAt(v, vtSize);
      var ours := buf.DataAt(buf.size, vtSize);
      same := theirs == ours;
    }

    /** The loop over the remembered vtables. */
    method LookUp(vtSize: nat) returns (found: Option<nat>)
      requires Valid() && fields == [] && vtSize <= buf.size && VTablesHold(buf.Data(), vtables)
      ensures found == FindVTable(buf.Data(), vtables, buf.Data()[..vtSize])
    {
      var i := 0;
      ghost var vt := buf.Data()[..vtSize];
      ScratchSize(buf.Scratch(), vtables, fields);
      while 4 * i < buf.scratch
        invariant 4 * |vtables| == buf.scratch && i <= |vtables|
        invariant FindVTable(buf.Data(), vtables, vt) == FindVTable(buf.Data(), vtables[i..], vt)
      {
        var v := ReadWord(i);
        FindStep(buf.Data(), vtables, vt, i);
        var same := SameVTable(v, vtSize);
        if same {
          return Some(v);
        }
        i := i + 1;
      }
      found := None;
    }

    /** Adds a vtable offset to the scratch stack. */
    method Remember(v: nat)
      requires Valid() && fields == [] && v < U32
      modifies Repr()
      ensures Valid() && fresh(Repr() - old(Repr())) && dedupVTables == old(dedupVTables)
      ensures Model() == old(Model()).(vtables := old(vtables) + [v])
    {
      ScratchRemember(buf.Scratch(), vtables, v);
      buf.ScratchPushSmall(WriteLE(v, 4));
      vtables := vtables + [v];
    }

    /** Includes the last offset, and at least the vtable's own two fields. */
    method SizeVTable()
      requires Valid()
      modifies this
      ensures Valid() && Repr() == old(Repr()) && dedupVTables == old(dedupVTables)
      ensures Model() == old(Model()).(maxVOffset := VTableSize(old(maxVOffset)))
    {
      maxVOffset := if maxVOffset + 2 > 4 then maxVOffset + 2 else 4;
    }

    /** Builds the vtable of the open table in front of the data, and closes its fields. */
    method PushVTable(start: nat, loc: nat, ghost vt: seq<Byte>)
      requires Valid() && Tracked(Model(), start) && loc == buf.size && vt == NewVTable(Model(), start, loc)
      modifies Repr()
      ensures Valid() && fresh(Repr() - old(Repr())) && dedupVTables == old(dedupVTables)
      ensures Model() == old(Model()).(data := vt + old(Model()).data, fields := [], maxVOffset := 0)
    {
      ghost var blank := BlankFor(Model(), start, loc);
      SizeVTable();
      ghost var rest := buf.Data();
      PushBlankVTable(loc - start, blank);
      PatchSlots(loc, blank, rest);
      ClearOffsets();
    }

    /** The link's place and the vtable of the open table. */
    method OpenVTable(start: nat) returns (loc: nat, ghost vt: seq<Byte>)
      requires Valid() && Tracked(Model(), start)
      modifies Repr()
      ensures Valid() && fresh(Repr() - old(Repr())) && dedupVTables == old(dedupVTables)
      ensures loc == |Layout.Align(old(Model()), 4).data| + 4 && vt == NewVTable(old(Model()), start, loc)
      ensures Model() == Layout.Align(old(Model()), 4).(data := vt + (WriteLE(0, 4) + Layout.Align(old(Model()), 4).data),
                                                        fields := [], maxVOffset := 0)
    {
      ghost var b := Model();
      loc := PushElement(0, 4);
      vt := NewVTable(Model(), start, loc);
      NewVTableSame(b, Model(), start, loc);
      PushVTable(start, loc, vt);
    }

    /** Keeps the vtable just built, or drops it for an equal one that was remembered. */
    method ShareVTable(vtSize: nat, loc: nat, ghost vt: seq<Byte>, ghost rest: seq<Byte>) returns (vtUse: nat)
      requires Valid() && fields == [] && |vt| == vtSize > 0 && 4 + |rest| == loc
      requires buf.Data() == vt + (WriteLE(0, 4) + rest)
      requires VTablesHold(WriteLE(0, 4) + rest, vtables) && VTablesBelow(vtables, loc) && loc + vtSize < U32
      modifies Repr()
      ensures Valid() && fresh(Repr() - old(Repr())) && dedupVTables == old(dedupVTables)
      ensures var shared := if dedupVTables then FindVTable(WriteLE(0, 4) + rest, old(vtables), vt) else None;
              && vtUse == (if shared.Some? then shared.value else loc + vtSize)
              && Model() == old(Model()).(data := Linked(vt, WriteLE(0, 4), rest, shared),
                                          vtables := if shared.Some? then old(vtables) else old(vtables) + [vtUse])
    {
      vtUse := buf.size;
      if dedupVTables {
        VTablesUnderPrefix(vt, WriteLE(0, 4) + rest, vtables);
        var found := LookUp(vtSize);
        FindUnderPrefix(vt, WriteLE(0, 4) + rest, vtables, vt);
        if found.Some? {
          vtUse := found.value;
          buf.Pop(buf.size - loc);
        }
      }
      if vtUse == buf.size {
        Remember(vtUse);
      }
    }

    /** Fills the table's link, `loc` from the end. */
    method FillLink(vtUse: nat, loc: nat, ghost vt: seq<Byte>, ghost rest: seq<Byte>, ghost shared: Option<nat>)
      requires Valid() && buf.Data() == Linked(vt, WriteLE(0, 4), rest, shared) && loc == 4 + |rest|
      modifies Repr()
      ensures Valid() && Repr() == old(Repr()) && dedupVTables == old(dedupVTables)
      ensures Model() == old(Model()).(data := Linked(vt, WriteLE(FromSigned32(vtUse - loc), 4), rest, shared),
                                       nested := false)
    {
      LinkPatched(vt, rest, shared, WriteLE(FromSigned32(vtUse - loc), 4), buf.Data());
      buf.Poke(buf.size - loc, WriteLE(FromSigned32(vtUse - loc), 4));
      nested := false;
    }

    /** Links the table `loc` from the end to the vtable just built or to a remembered one. */
    method CloseTable(loc: nat, ghost a: Builder, ghost vt: seq<Byte>)
      requires Valid() && loc == |a.data| + 4 && 0 < |vt| && loc + |vt| < U32
      requires Model() == a.(data := vt + (WriteLE(0, 4) + a.data), fields := [], maxVOffset := 0)
      requires VTablesHold(a.data, a.vtables)
      modifies Repr()
      ensures Valid() && fresh(Repr() - old(Repr())) && dedupVTables == old(dedupVTables)
      ensures Model() == LinkTable(a, vt, if dedupVTables then FindVTable(a.data, a.vtables, vt) else None)
    {
      SharedFrom(a, WriteLE(0, 4), vt);
      var vtUse := ShareVTable(buf.size - loc, loc, vt, a.data);
      ghost var shared := if dedupVTables then FindVTable(a.data, a.vtables, vt) else None;
      FillLink(vtUse, loc, vt, a.data, shared);
      LinkedIs(a, vt, shared, Model(), vtUse, loc);
    }

    /**
      Closes the open table in place: the vtable link, the vtable, its slots, the
      search for an equal vtable, and the link again once its value is known.
     */
    method EndTable(start: nat) returns (loc: nat)
      requires Valid() && nested && Tracked(Model(), start) && VTablesHold(Model().data, vtables)
      requires maxVOffset + 2 < 0x1_0000 && buf.size + 8 + VTableSize(maxVOffset) < U32
      modifies Repr()
      ensures Valid() && fresh(Repr() - old(Repr())) && dedupVTables == old(dedupVTables)
      ensures (Model(), loc) == Layout.EndTable(old(Model()), start, old(dedupVTables))
    {
      ghost var b := Model();
      ghost var a := Layout.Align(b, 4);
      ghost var vt;
      AlignedHold(b);
      loc, vt := OpenVTable(start);
      CloseTable(loc, a, vt);
    }

    // ----- vectors -----

    method StartVector(len: nat, elemSize: nat, alignment: Positive)
      requires Valid() && Idle(Model())
      modifies Repr()
      ensures Valid() && fresh(Repr() - old(Repr())) && dedupVTables == old(dedupVTables)
      ensures Model() == Layout.StartVector(old(Model()), len, elemSize, alignment)
    {
      nested := true;
      PreAlign(len * elemSize, 4);
      PreAlign(len * elemSize, alignment);
    }

    method EndVector(len: nat) returns (off: nat)
      requires Valid() && nested
      modifies Repr()
      ensures Valid() && fresh(Repr() - old(Repr())) && dedupVTables == old(dedupVTables)
      ensures (Model(), off) == Layout.EndVector(old(Model()), len)
    {
      nested := false;
      off := PushElement(len, 4);
    }

    /** `CreateVectorOfStructs`: the elements' bytes are pushed at once. */
    method CreateVectorOfStructs(bytes: seq<Byte>, len: nat, elemSize: nat, alignment: Positive) returns (off: nat)
      requires Valid() && Idle(Model()) && |bytes| == len * elemSize
      modifies Repr()
      ensures Valid() && fresh(Repr() - old(Repr())) && dedupVTables == old(dedupVTables)
      ensures (Model(), off) == Layout.CreateVector(old(Model()), bytes, len, elemSize, alignment)
    {
      StartVector(len, elemSize, alignment);
      buf.Push(bytes);
      off := EndVector(len);
    }

    /** Pushes the offsets from the last to the first. */
    method PushOffsets(offs: seq<nat>)
      requires Valid() && OffsetsWithin(Model(), offs)
      modifies Repr()
      ensures Valid() && fresh(Repr() - old(Repr())) && dedupVTables == old(dedupVTables)
      ensures Model() == Layout.PushOffsets(old(Model()), offs)
    {
      var i := |offs|;
      assert offs[..i] == offs;
      while i > 0
        invariant i <= |offs|
        invariant Valid() && fresh(Repr() - old(Repr())) && dedupVTables == old(dedupVTables)
        invariant OffsetsWithin(Model(), offs[..i])
        invariant Layout.PushOffsets(Model(), offs[..i]) == Layout.PushOffsets(old(Model()), offs)
      {
        i := i - 1;
        PushNext(offs, i);
      }
    }

    method PushNext(offs: seq<nat>, i: nat)
      requires Valid() && i < |offs| && OffsetsWithin(Model(), offs[..i + 1])
      modifies Repr()
      ensures Valid() && fresh(Repr() - old(Repr())) && dedupVTables == old(dedupVTables)
      ensures OffsetsWithin(Model(), offs[..i])
      ensures Layout.PushOffsets(Model(), offs[..i]) == Layout.PushOffsets(old(Model()), offs[..i + 1])
    {
      PushOffsetsStep(Model(), offs, i + 1);
      PushOffset(offs[i]);
    }

    method CreateVectorOfOffsets(offs: seq<nat>) returns (off: nat)
      requires Valid() && Idle(Model()) && OffsetsWithin(Model(), offs)
      modifies Repr()
      ensures Valid() && fresh(Repr() - old(Repr())) && dedupVTables == old(dedupVTables)
      ensures (Model(), off) == Layout.CreateVectorOfOffsets(old(Model()), offs)
    {
      ghost var b := Model();
      StartVector(|offs|, 4, 4);
      OffsetsStillWithin(b, Model(), offs);
      PushOffsets(offs);
      off := EndVector(|offs|);
    }

    method Finish(root: nat)
      requires Valid() && Idle(Model()) && !finished && 0 < root <= |Model().data|
      modifies Repr()
      ensures Valid() && fresh(Repr() - old(Repr())) && dedupVTables == old(dedupVTables)
      ensures Model() == Layout.Finish(old(Model()), root)
    {
      buf.ClearScratch();
      vtables := [];
      PreAlign(4, minAlign);
      PushOffset(root);
      finished := true;
    }
  }
}
