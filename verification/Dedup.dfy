/** Sharing vtables changes no table's reading. */
module Dedup {
  import opened Wrappers
  import opened Bytes
  import opened Tables
  import opened Layout
  import opened TableLayout
  import opened VectorLayout
  import opened Messages
  import opened RoundTrip

  // ----- sequences of tables that refer to each other -----

  /** A field as the caller gives it: a value of its own, or a reference to part `to` of the same sequence. */
  datatype Entry = Own(w: Write) | Link(id: nat, to: nat) {
    function Id(): nat {
      if Own? then w.id else id
    }

    /** Links lead to earlier parts, other references into the bytes that were there before. */
    predicate Ok(parts: nat, limit: nat) {
      && Id() % 2 == 0 && 4 <= Id() < 0x1_0000 - 2
      && match this
         case Own(w) => w.WellFormed() && (w.Ref? ==> w.target <= limit)
         case Link(_, to) => to < parts
    }
  }

  /** A table, or a vector of references to earlier parts. */
  datatype Part = Table(entries: seq<Entry>) | Vector(elems: seq<nat>) {
    predicate Ok(parts: nat, limit: nat) {
      match this
      case Table(es) =>
        && (forall i :: 0 <= i < |es| ==> es[i].Ok(parts, limit))
        && (forall i, j :: 0 <= i < j < |es| ==> es[i].Id() != es[j].Id())
      case Vector(elems) => forall i :: 0 <= i < |elems| ==> elems[i] < parts
    }
  }

  predicate AllOk(parts: seq<Part>, limit: nat) {
    forall k :: 0 <= k < |parts| ==> parts[k].Ok(k, limit)
  }

  /** The write that `e` becomes when the parts so far lie at `offs`. */
  function Resolve(e: Entry, offs: seq<nat>): Write
    requires e.Link? ==> e.to < |offs|
  {
    match e
    case Own(w) => w
    case Link(id, to) => Ref(id, offs[to])
  }

  predicate LinksWithin(es: seq<Entry>, parts: nat) {
    forall i :: 0 <= i < |es| && es[i].Link? ==> es[i].to < parts
  }

  function ResolveAll(es: seq<Entry>, offs: seq<nat>): (ws: seq<Write>)
    requires LinksWithin(es, |offs|)
    ensures |ws| == |es| && forall i :: 0 <= i < |ws| ==> ws[i] == Resolve(es[i], offs)
  {
    seq(|es|, i requires 0 <= i < |es| => Resolve(es[i], offs))
  }

  predicate ElemsWithin(elems: seq<nat>, parts: nat) {
    forall i :: 0 <= i < |elems| ==> elems[i] < parts
  }

  function Pick(elems: seq<nat>, offs: seq<nat>): (r: seq<nat>)
    requires ElemsWithin(elems, |offs|)
    ensures |r| == |elems| && forall i :: 0 <= i < |r| ==> r[i] == offs[elems[i]]
  {
    seq(|elems|, i requires 0 <= i < |elems| => offs[elems[i]])
  }

  lemma ResolvedOk(b: Builder, es: seq<Entry>, offs: seq<nat>, limit: nat)
    requires Table(es).Ok(|offs|, limit) && OffsetsWithin(b, offs) && limit <= |b.data|
    ensures LinksWithin(es, |offs|)
    ensures WellFormedWrites(ResolveAll(es, offs)) && RefsWithin(ResolveAll(es, offs), |b.data|)
  {
    var ws := ResolveAll(es, offs);
    forall i | 0 <= i < |ws|
      ensures ws[i].WellFormed() && ws[i].id == es[i].Id() && (ws[i].Ref? ==> ws[i].target <= |b.data|)
    {
      assert es[i].Ok(|offs|, limit);
    }
  }

  function WritePart(b: Builder, p: Part, offs: seq<nat>, limit: nat, dedup: bool): (r: (Builder, nat))
    requires Idle(b) && p.Ok(|offs|, limit) && OffsetsWithin(b, offs) && limit <= |b.data|
    ensures Idle(r.0) && |b.data| < r.1 <= |r.0.data|
  {
    match p
    case Table(es) =>
      ResolvedOk(b, es, offs, limit);
      WriteTable(b, ResolveAll(es, offs), dedup)
    case Vector(elems) => CreateVectorOfOffsets(b, Pick(elems, offs))
  }

  /** Part after part; the steps are mutually recursive, so that a proof unfolds them only by naming them. */
  function WriteParts(b: Builder, parts: seq<Part>, dedup: bool): (r: (Builder, seq<nat>))
    requires Idle(b) && AllOk(parts, |b.data|)
    ensures Idle(r.0) && |r.0.data| >= |b.data| && |r.1| == |parts| && OffsetsWithin(r.0, r.1)
    decreases |parts|, 2
  {
    if parts == [] then (b, []) else WriteSomeParts(b, parts, dedup)
  }

  function WriteSomeParts(b: Builder, parts: seq<Part>, dedup: bool): (r: (Builder, seq<nat>))
    requires Idle(b) && AllOk(parts, |b.data|) && parts != []
    ensures Idle(r.0) && |r.0.data| >= |b.data| && |r.1| == |parts| && OffsetsWithin(r.0, r.1)
    decreases |parts|, 1
  {
    WriteLastPart(b, parts, dedup)
  }

  function WriteLastPart(b: Builder, parts: seq<Part>, dedup: bool): (r: (Builder, seq<nat>))
    requires Idle(b) && AllOk(parts, |b.data|) && parts != []
    ensures Idle(r.0) && |r.0.data| >= |b.data| && |r.1| == |parts| && OffsetsWithin(r.0, r.1)
    decreases |parts|, 0
  {
    var n := |parts| - 1;
    var (mid, offs) := WriteParts(b, parts[..n], dedup);
    var (r, o) := WritePart(mid, parts[n], offs, |b.data|, dedup);
    (r, offs + [o])
  }

  lemma WritePartsStep(b: Builder, parts: seq<Part>, dedup: bool)
    requires Idle(b) && AllOk(parts, |b.data|) && parts != []
    ensures var n := |parts| - 1;
            var (mid, offs) := WriteParts(b, parts[..n], dedup);
            var (r, o) := WritePart(mid, parts[n], offs, |b.data|, dedup);
            WriteParts(b, parts, dedup) == (r, offs + [o])
  {
    assert WriteParts(b, parts, dedup) == WriteSomeParts(b, parts, dedup) == WriteLastPart(b, parts, dedup);
  }

  /** No table is larger than a 16-bit offset can span (the builder's own assertion). */
  predicate ObjectsFit(b: Builder, parts: seq<Part>, dedup: bool)
    requires Idle(b) && AllOk(parts, |b.data|)
  {
    parts == [] ||
    var n := |parts| - 1;
    var (mid, offs) := WriteParts(b, parts[..n], dedup);
    && ObjectsFit(b, parts[..n], dedup)
    && (parts[n].Table? ==> WritePart(mid, parts[n], offs, |b.data|, dedup).1 - |mid.data| < 0x1_0000)
  }

  // ----- every part keeps its contents -----

  ghost predicate PartHolds(data: seq<Byte>, o: nat, p: Part, offs: seq<nat>) {
    match p
    case Table(es) => LinksWithin(es, |offs|) && TableHolds(data, o, ResolveAll(es, offs))
    case Vector(elems) => ElemsWithin(elems, |offs|) && OffsetVectorHolds(data, o, Pick(elems, offs))
  }

  ghost predicate AllHold(data: seq<Byte>, offs: seq<nat>, parts: seq<Part>) {
    && |offs| == |parts|
    && forall k {:trigger PartHolds(data, offs[k], parts[k], offs)} ::
         0 <= k < |parts| ==> PartHolds(data, offs[k], parts[k], offs)
  }

  /** Later parts change neither the bytes of a part nor what its links mean. */
  lemma PartStays(data: seq<Byte>, base: seq<Byte>, o: nat, p: Part, offs: seq<nat>, last: nat)
    requires EndsWith(data, base) && PartHolds(base, o, p, offs)
    ensures PartHolds(data, o, p, offs + [last])
  {
    match p {
      case Table(es) =>
        assert ResolveAll(es, offs + [last]) == ResolveAll(es, offs);
        TableStays(data, base, o, ResolveAll(es, offs));
      case Vector(elems) =>
        assert Pick(elems, offs + [last]) == Pick(elems, offs);
        OffsetVectorStays(data, base, o, Pick(elems, offs));
    }
  }

  lemma AllHoldExtends(data: seq<Byte>, base: seq<Byte>, offs: seq<nat>, parts: seq<Part>, o: nat, p: Part)
    requires EndsWith(data, base) && AllHold(base, offs, parts) && PartHolds(data, o, p, offs)
    ensures AllHold(data, offs + [o], parts + [p])
  {
    forall k | 0 <= k <= |parts|
      ensures PartHolds(data, (offs + [o])[k], (parts + [p])[k], offs + [o])
    {
      if k < |parts| {
        assert PartHolds(base, offs[k], parts[k], offs);
        PartStays(data, base, offs[k], parts[k], offs, o);
      } else {
        PartStays(data, data, o, p, offs, o);
      }
    }
  }

  /** What writing one more part keeps: readable vtables, pairwise different ones when they are shared. */
  lemma PartAfter(mid: Builder, p: Part, offs: seq<nat>, limit: nat, dedup: bool)
    requires Idle(mid) && p.Ok(|offs|, limit) && OffsetsWithin(mid, offs) && limit <= |mid.data|
    requires VTablesHold(mid.data, mid.vtables)
    requires var (r, o) := WritePart(mid, p, offs, limit, dedup);
             |r.data| < I32 && (p.Table? ==> o - |mid.data| < 0x1_0000)
    ensures var (r, o) := WritePart(mid, p, offs, limit, dedup);
            && PartHolds(r.data, o, p, offs) && EndsWith(r.data, mid.data) && VTablesHold(r.data, r.vtables)
            && (dedup && VTablesDiffer(mid.data, mid.vtables) ==> VTablesDiffer(r.data, r.vtables))
  {
    match p {
      case Table(es) =>
        ResolvedOk(mid, es, offs, limit);
        TableReadsBack(mid, ResolveAll(es, offs), dedup);
      case Vector(elems) =>
        var (r, o) := CreateVectorOfOffsets(mid, Pick(elems, offs));
        CreateVectorOfOffsetsReads(mid, Pick(elems, offs));
        VTablesEndWith(r.data, mid.data, mid.vtables);
    }
  }

  /**
    After any sequence of tables and vectors that refer to each other, shared vtables
    or not, every part still holds exactly what it was given, its links leading to the
    parts they named; with sharing on, the remembered vtables are pairwise different.
   */
  lemma {:induction false} PartsHold(b: Builder, parts: seq<Part>, dedup: bool)
    requires Idle(b) && AllOk(parts, |b.data|) && VTablesHold(b.data, b.vtables)
    requires ObjectsFit(b, parts, dedup) && |WriteParts(b, parts, dedup).0.data| < I32
    ensures var (r, offs) := WriteParts(b, parts, dedup);
            && AllHold(r.data, offs, parts) && VTablesHold(r.data, r.vtables)
            && (dedup && VTablesDiffer(b.data, b.vtables) ==> VTablesDiffer(r.data, r.vtables))
  {
    if parts != [] {
      var n := |parts| - 1;
      var (mid, offs) := WriteParts(b, parts[..n], dedup);
      WritePartsStep(b, parts, dedup);
      var (r, o) := WritePart(mid, parts[n], offs, |b.data|, dedup);
      PartsHold(b, parts[..n], dedup);
      PartAfter(mid, parts[n], offs, |b.data|, dedup);
      AllHoldExtends(r.data, mid.data, offs, parts[..n], o, parts[n]);
      assert parts == parts[..n] + [parts[n]];
    }
  }

  // ----- parts are told apart by where they lie -----

  predicate Increasing(offs: seq<nat>, above: nat) {
    && (forall k :: 0 <= k < |offs| ==> above < offs[k])
    && (forall j, k :: 0 <= j < k < |offs| ==> offs[j] < offs[k])
  }

  /** Each part lies further from the end than all before it, and than the bytes that were there before. */
  lemma {:induction false} PartsIncrease(b: Builder, parts: seq<Part>, dedup: bool)
    requires Idle(b) && AllOk(parts, |b.data|)
    ensures Increasing(WriteParts(b, parts, dedup).1, |b.data|)
  {
    if parts != [] {
      PartsIncrease(b, parts[..|parts| - 1], dedup);
      WritePartsStep(b, parts, dedup);
    }
  }

  // ----- what a reader gets -----

  /** What an accessor's pointer names: nothing, old bytes by their distance from the end, or a part by its number. */
  datatype Target = Nothing | Old(distance: nat) | PartAt(k: nat)

  /** A buffer whose last `before` bytes were there before and whose parts lie `offs` from the end. */
  datatype Image = Image(data: seq<Byte>, offs: seq<nat>, before: nat) {
    predicate Valid() {
      Increasing(offs, before)
    }

    predicate LeadsTo(p: Pointer, t: Target) {
      match t
      case Nothing => p.Null?
      case Old(distance) => distance <= before && p.At? && p.pos == |data| - distance
      case PartAt(k) => k < |offs| && p.At? && p.pos == |data| - offs[k]
    }

    /** Where the table or vector that is part `k` starts. */
    function Start(k: nat): int
      requires k < |offs|
    {
      |data| - offs[k]
    }
  }

  /** What a pointer leads to is determined. */
  lemma LeadsToOne(m: Image, p: Pointer, t: Target, u: Target)
    requires m.Valid() && m.LeadsTo(p, t) && m.LeadsTo(p, u)
    ensures t == u
  {
    if t.PartAt? && u.PartAt? {
      assert !(t.k < u.k) && !(u.k < t.k);
    }
  }

  function TargetOf(e: Entry): Target
    requires e.Own? ==> e.w.Ref?
  {
    match e
    case Own(w) => if w.target == 0 then Nothing else Old(w.target)
    case Link(_, to) => PartAt(to)
  }

  /** The accessors of a table at `t` give what `e` says. */
  predicate EntryReads(m: Image, t: int, e: Entry) {
    if e.Own? && e.w.Scalar? then
      GetField(m.data, t, e.w.id, e.w.size, 0) == Some(if e.w.isDefault then 0 else e.w.bits)
    else
      GetPointer(m.data, t, e.Id()).Some? && m.LeadsTo(GetPointer(m.data, t, e.Id()).value, TargetOf(e))
  }

  predicate Unmentioned(es: seq<Entry>, id: nat) {
    id % 2 == 0 && id >= 4 && forall i :: 0 <= i < |es| ==> es[i].Id() != id
  }

  predicate ElemLeads(m: Image, vec: int, i: nat, to: nat) {
    GetIndirect(m.data, vec, i).Some? && m.LeadsTo(At(GetIndirect(m.data, vec, i).value), PartAt(to))
  }

  /** Through the accessors, part `k` says exactly what `p` was given. */
  ghost predicate PartReads(m: Image, k: nat, p: Part)
    requires k < |m.offs|
  {
    match p
    case Table(es) =>
      && (forall i {:trigger es[i]} :: 0 <= i < |es| ==> EntryReads(m, m.Start(k), es[i]))
      && (forall id: nat {:trigger Unmentioned(es, id)} ::
            Unmentioned(es, id) ==> GetOptionalFieldOffset(m.data, m.Start(k), id) == Some(0))
    case Vector(elems) =>
      && VectorSize(m.data, m.Start(k)) == Some(|elems|)
      && forall i {:trigger elems[i]} :: 0 <= i < |elems| ==> ElemLeads(m, m.Start(k), i, elems[i])
  }

  lemma EntryIsRead(m: Image, k: nat, es: seq<Entry>, i: nat)
    requires m.Valid() && k < |m.offs| && LinksWithin(es, |m.offs|) && i < |es| && es[i].Ok(|m.offs|, m.before)
    requires TableHolds(m.data, m.offs[k], ResolveAll(es, m.offs))
    ensures EntryReads(m, m.Start(k), es[i])
  {
    var ws := ResolveAll(es, m.offs);
    assert ws[i] == Resolve(es[i], m.offs);
    if ws[i].Scalar? {
      ScalarReads(m.data, m.offs[k], ws, i);
    } else {
      RefReads(m.data, m.offs[k], ws, i);
    }
  }

  lemma UnmentionedUnwritten(es: seq<Entry>, offs: seq<nat>, id: nat)
    requires LinksWithin(es, |offs|) && Unmentioned(es, id)
    ensures Unwritten(ResolveAll(es, offs), id)
  {
    forall i | 0 <= i < |es|
      ensures ResolveAll(es, offs)[i].id != id
    {
      assert Resolve(es[i], offs).id == es[i].Id();
    }
  }

  lemma PartIsRead(m: Image, k: nat, p: Part)
    requires m.Valid() && k < |m.offs| && p.Ok(k, m.before) && PartHolds(m.data, m.offs[k], p, m.offs)
    ensures PartReads(m, k, p)
  {
    match p {
      case Table(es) =>
        forall i | 0 <= i < |es|
          ensures EntryReads(m, m.Start(k), es[i])
        {
          EntryIsRead(m, k, es, i);
        }
        forall id: nat | Unmentioned(es, id)
          ensures GetOptionalFieldOffset(m.data, m.Start(k), id) == Some(0)
        {
          UnmentionedUnwritten(es, m.offs, id);
        }
      case Vector(elems) =>
        forall i | 0 <= i < |elems|
          ensures ElemLeads(m, m.Start(k), i, elems[i])
        {
          ElementReads(m.data, m.offs[k], Pick(elems, m.offs), i);
        }
    }
  }

  function Written(b: Builder, parts: seq<Part>, dedup: bool): (m: Image)
    requires Idle(b) && AllOk(parts, |b.data|)
    ensures |m.offs| == |parts|
  {
    var (r, offs) := WriteParts(b, parts, dedup);
    Image(r.data, offs, |b.data|)
  }

  /** In either mode each part reads as given, and a position tells which part lies there. */
  lemma PartsRead(b: Builder, parts: seq<Part>, dedup: bool, k: nat)
    requires Idle(b) && AllOk(parts, |b.data|) && VTablesHold(b.data, b.vtables) && k < |parts|
    requires ObjectsFit(b, parts, dedup) && |Written(b, parts, dedup).data| < I32
    ensures Written(b, parts, dedup).Valid() && PartReads(Written(b, parts, dedup), k, parts[k])
  {
    var m := Written(b, parts, dedup);
    PartsHold(b, parts, dedup);
    PartsIncrease(b, parts, dedup);
    assert PartHolds(m.data, m.offs[k], parts[k], m.offs);
    PartIsRead(m, k, parts[k]);
  }

  // ----- with and without sharing -----

  /** Two pointers, in buffers whose parts lie elsewhere, lead to the same old bytes or to the same part. */
  ghost predicate SameTarget(m: Image, p: Pointer, n: Image, q: Pointer) {
    exists t :: m.LeadsTo(p, t) && n.LeadsTo(q, t)
  }

  /** The field of `e` reads the same in the tables at `t` and `u`, as a scalar or as a reference. */
  ghost predicate SameField(m: Image, t: int, n: Image, u: int, e: Entry) {
    if e.Own? && e.w.Scalar? then
      && GetField(m.data, t, e.w.id, e.w.size, 0).Some?
      && GetField(m.data, t, e.w.id, e.w.size, 0) == GetField(n.data, u, e.w.id, e.w.size, 0)
    else
      && GetPointer(m.data, t, e.Id()).Some? && GetPointer(n.data, u, e.Id()).Some?
      && SameTarget(m, GetPointer(m.data, t, e.Id()).value, n, GetPointer(n.data, u, e.Id()).value)
  }

  ghost predicate SameElem(m: Image, vec: int, n: Image, other: int, i: nat) {
    && GetIndirect(m.data, vec, i).Some? && GetIndirect(n.data, other, i).Some?
    && SameTarget(m, At(GetIndirect(m.data, vec, i).value), n, At(GetIndirect(n.data, other, i).value))
  }

  ghost predicate SameReading(m: Image, n: Image, k: nat, p: Part)
    requires k < |m.offs| == |n.offs|
  {
    match p
    case Table(es) =>
      && (forall i {:trigger es[i]} :: 0 <= i < |es| ==> SameField(m, m.Start(k), n, n.Start(k), es[i]))
      && (forall id: nat {:trigger Unmentioned(es, id)} :: Unmentioned(es, id) ==>
            && GetOptionalFieldOffset(m.data, m.Start(k), id) == Some(0)
            && GetOptionalFieldOffset(n.data, n.Start(k), id) == Some(0))
    case Vector(elems) =>
      && VectorSize(m.data, m.Start(k)) == VectorSize(n.data, n.Start(k)) == Some(|elems|)
      && forall i {:trigger elems[i]} :: 0 <= i < |elems| ==> SameElem(m, m.Start(k), n, n.Start(k), i)
  }

  lemma FieldsAgree(m: Image, t: int, n: Image, u: int, e: Entry)
    requires EntryReads(m, t, e) && EntryReads(n, u, e)
    ensures SameField(m, t, n, u, e)
  {
  }

  lemma ElemsAgree(m: Image, vec: int, n: Image, other: int, i: nat, to: nat)
    requires ElemLeads(m, vec, i, to) && ElemLeads(n, other, i, to)
    ensures SameElem(m, vec, n, other, i)
  {
  }

  lemma ReadingsAgree(m: Image, n: Image, k: nat, p: Part)
    requires k < |m.offs| == |n.offs| && PartReads(m, k, p) && PartReads(n, k, p)
    ensures SameReading(m, n, k, p)
  {
    match p {
      case Table(es) =>
        forall i | 0 <= i < |es|
          ensures SameField(m, m.Start(k), n, n.Start(k), es[i])
        {
          FieldsAgree(m, m.Start(k), n, n.Start(k), es[i]);
        }
      case Vector(elems) =>
        forall i | 0 <= i < |elems|
          ensures SameElem(m, m.Start(k), n, n.Start(k), i)
        {
          ElemsAgree(m, m.Start(k), n, n.Start(k), i, elems[i]);
        }
    }
  }

  /**
    The same parts written with and without sharing, which puts them at different
    distances and changes the stored references: each part reads the same, scalars as
    the same value, references as leading to the same old bytes or the same part,
    unmentioned fields as absent in both.
   */
  lemma SharingKeepsMeaning(b: Builder, parts: seq<Part>, k: nat)
    requires Idle(b) && AllOk(parts, |b.data|) && VTablesHold(b.data, b.vtables) && k < |parts|
    requires ObjectsFit(b, parts, true) && |Written(b, parts, true).data| < I32
    requires ObjectsFit(b, parts, false) && |Written(b, parts, false).data| < I32
    ensures var on, off := Written(b, parts, true), Written(b, parts, false);
            on.Valid() && off.Valid() && SameReading(on, off, k, parts[k])
  {
    PartsRead(b, parts, true, k);
    PartsRead(b, parts, false, k);
    ReadingsAgree(Written(b, parts, true), Written(b, parts, false), k, parts[k]);
  }

  // ----- the pricing messages are such sequences -----

  function OwnAll(ws: seq<Write>): (es: seq<Entry>)
    ensures |es| == |ws| && forall i :: 0 <= i < |es| ==> es[i] == Own(ws[i])
  {
    seq(|ws|, i requires 0 <= i < |ws| => Own(ws[i]))
  }

  /** The parameters, then the root that links to them; the pairs were written before. */
  function RequestParts(range: bool, rq: Request, pairs: nat): seq<Part> {
    [Table(OwnAll(ParamsWrites(rq.params))),
     Table(if range then [Link(4, 0), Own(TagField(6, rq.tag)), Own(Ref(8, pairs))]
           else [Own(TagField(4, rq.tag)), Link(6, 0), Own(Ref(8, pairs))])]
  }

  lemma RequestPartsOk(range: bool, rq: Request, pairs: nat)
    requires rq.Fits()
    ensures AllOk(RequestParts(range, rq, pairs), pairs)
  {
    Pow256Values();
    FixedWrites(rq.params, Row(0, 0, 0, 0, 0));
    var es := OwnAll(ParamsWrites(rq.params));
    forall i | 0 <= i < |es|
      ensures es[i].Ok(0, pairs) && es[i].Id() == ParamsWrites(rq.params)[i].id
    {
    }
  }

  lemma OwnResolved(ws: seq<Write>, offs: seq<nat>)
    ensures LinksWithin(OwnAll(ws), |offs|) && ResolveAll(OwnAll(ws), offs) == ws
  {
  }

  lemma RootResolved(range: bool, rq: Request, pairs: nat, params: nat)
    ensures var es := RequestParts(range, rq, pairs)[1].entries;
            LinksWithin(es, 1) && ResolveAll(es, [params]) == RequestWrites(range, rq.tag, params, pairs)
  {
  }

  lemma NoParts(b: Builder)
    requires Idle(b)
    ensures WriteParts(b, [], true) == (b, [])
  {
  }

  lemma TableAppended(b: Builder, parts: seq<Part>, es: seq<Entry>, ws: seq<Write>, mid: Builder, offs: seq<nat>)
    requires Idle(b) && AllOk(parts, |b.data|) && (mid, offs) == WriteParts(b, parts, true)
    requires Table(es).Ok(|parts|, |b.data|) && LinksWithin(es, |offs|) && ws == ResolveAll(es, offs)
    ensures AllOk(parts + [Table(es)], |b.data|) && WellFormedWrites(ws) && RefsWithin(ws, |mid.data|)
    ensures WriteParts(b, parts + [Table(es)], true) ==
            (WriteTable(mid, ws, true).0, offs + [WriteTable(mid, ws, true).1])
  {
    assert (parts + [Table(es)])[..|parts|] == parts;
    ResolvedOk(mid, es, offs, |b.data|);
    WritePartsStep(b, parts + [Table(es)], true);
  }

  lemma FirstTable(b: Builder, ws: seq<Write>, parts: seq<Part>)
    requires Idle(b) && AllOk(parts, |b.data|) && parts == [Table(OwnAll(ws))]
    ensures WellFormedWrites(ws) && RefsWithin(ws, |b.data|)
    ensures WriteParts(b, parts, true) == (WriteTable(b, ws, true).0, [WriteTable(b, ws, true).1])
  {
    assert parts[0].Ok(0, |b.data|);
    assert parts[..0] == [];
    NoParts(b);
    OwnResolved(ws, []);
    ResolvedOk(b, OwnAll(ws), [], |b.data|);
    WritePartsStep(b, parts, true);
    var none: seq<nat> := [];
    assert none + [WriteTable(b, ws, true).1] == [WriteTable(b, ws, true).1];
  }

  /** The parameters table is the first part. */
  lemma ParamsPart(v: Builder, range: bool, rq: Request, pairs: nat)
    requires rq.Fits() && Idle(v) && AllOk([RequestParts(range, rq, pairs)[0]], |v.data|)
    ensures WriteParts(v, [RequestParts(range, rq, pairs)[0]], true) ==
            (PushParams(v, rq.params).0, [PushParams(v, rq.params).1])
  {
    FirstTable(v, ParamsWrites(rq.params), [RequestParts(range, rq, pairs)[0]]);
  }

  /** The root is the second one. */
  lemma RootPart(v: Builder, range: bool, rq: Request, pairs: nat, p: Builder, params: nat)
    requires rq.Fits() && Idle(v) && AllOk(RequestParts(range, rq, pairs), |v.data|)
    requires AllOk([RequestParts(range, rq, pairs)[0]], |v.data|)
    requires WriteParts(v, [RequestParts(range, rq, pairs)[0]], true) == (p, [params]) && pairs <= params <= |p.data|
    ensures Idle(p) && WriteParts(v, RequestParts(range, rq, pairs), true).0 == PushRequest(p, range, rq.tag, params, pairs).0
  {
    var parts := RequestParts(range, rq, pairs);
    RootResolved(range, rq, pairs, params);
    assert parts[1].Ok(1, |v.data|);
    TableAppended(v, [parts[0]], parts[1].entries, RequestWrites(range, rq.tag, params, pairs), p, [params]);
    assert [parts[0]] + [Table(parts[1].entries)] == parts;
  }

  /** A pricing request is such a sequence, its root a table that refers to one just written. */
  lemma RequestIsParts(range: bool, rq: Request)
    requires rq.Fits()
    ensures var (v, pairs) := CreateVector(EMPTY, PairsBytes(rq.pairs), |rq.pairs|, 12, 4);
            && Idle(v) && pairs == |v.data| && AllOk(RequestParts(range, rq, pairs), |v.data|)
            && RequestBuilder(range, rq).0 == WriteParts(v, RequestParts(range, rq, pairs), true).0
  {
    var (v, pairs) := CreateVector(EMPTY, PairsBytes(rq.pairs), |rq.pairs|, 12, 4);
    RequestPartsOk(range, rq, pairs);
    var (p, params) := PushParams(v, rq.params);
    FirstOk(RequestParts(range, rq, pairs), |v.data|);
    ParamsPart(v, range, rq, pairs);
    RootPart(v, range, rq, pairs, p, params);
  }

  lemma FirstOk(parts: seq<Part>, limit: nat)
    requires AllOk(parts, limit) && parts != []
    ensures AllOk([parts[0]], limit)
  {
  }

  function RowParts(rows: seq<Row>): (parts: seq<Part>)
    ensures |parts| == |rows| && forall i :: 0 <= i < |parts| ==> parts[i] == Table(OwnAll(RowWrites(rows[i])))
  {
    seq(|rows|, i requires 0 <= i < |rows| => Table(OwnAll(RowWrites(rows[i]))))
  }

  lemma RowPartOk(row: Row, n: nat, limit: nat)
    requires row.Fits()
    ensures Table(OwnAll(RowWrites(row))).Ok(n, limit)
  {
    FixedWrites(Params(0, 0, 0, 0, 0, 0), row);
    var es := OwnAll(RowWrites(row));
    forall i | 0 <= i < |es|
      ensures es[i].Ok(n, limit) && es[i].Id() == RowWrites(row)[i].id
    {
    }
  }

  lemma {:induction false} RowsAreParts(b: Builder, rows: seq<Row>)
    requires RowsFit(rows) && Idle(b)
    ensures AllOk(RowParts(rows), |b.data|) && WriteParts(b, RowParts(rows), true) == PushRows(b, rows)
  {
    if rows == [] {
      NoParts(b);
    } else {
      var n := |rows| - 1;
      var (mid, offs) := PushRows(b, rows[..n]);
      RowsAreParts(b, rows[..n]);
      RowPartOk(rows[n], n, |b.data|);
      OwnResolved(RowWrites(rows[n]), offs);
      TableAppended(b, RowParts(rows[..n]), OwnAll(RowWrites(rows[n])), RowWrites(rows[n]), mid, offs);
      assert RowParts(rows) == RowParts(rows[..n]) + [Table(OwnAll(RowWrites(rows[n])))];
      assert rows[..n + 1] == rows;
      PushRowsLast(b, rows, n);
    }
  }

  lemma VectorAppended(b: Builder, parts: seq<Part>, elems: seq<nat>, mid: Builder, offs: seq<nat>)
    requires Idle(b) && AllOk(parts, |b.data|) && (mid, offs) == WriteParts(b, parts, true)
    requires ElemsWithin(elems, |parts|)
    ensures AllOk(parts + [Vector(elems)], |b.data|) && OffsetsWithin(mid, Pick(elems, offs))
    ensures WriteParts(b, parts + [Vector(elems)], true) ==
            (CreateVectorOfOffsets(mid, Pick(elems, offs)).0, offs + [CreateVectorOfOffsets(mid, Pick(elems, offs)).1])
  {
    assert (parts + [Vector(elems)])[..|parts|] == parts;
    WritePartsStep(b, parts + [Vector(elems)], true);
  }

  /** The rows, the vector of them, and the root that links to the vector. */
  function ResponseParts(tag: nat, rows: seq<Row>): seq<Part> {
    RowParts(rows) + [Vector(seq(|rows|, i => i))] + [Table([Own(TagField(4, tag)), Link(6, |rows|)])]
  }

  lemma ResponseRootResolved(tag: nat, offs: seq<nat>, vec: nat)
    requires Is64(tag)
    ensures var es := [Own(TagField(4, tag)), Link(6, |offs|)];
            && LinksWithin(es, |offs| + 1) && ResolveAll(es, offs + [vec]) == ResponseWrites(tag, vec)
            && Table(es).Ok(|offs| + 1, 0)
  {
    Pow256Values();
  }

  /** So is a response: its vector refers to tables, and its root to the vector. */
  lemma ResponseIsParts(tag: nat, rows: seq<Row>)
    requires Is64(tag) && RowsFit(rows)
    ensures AllOk(ResponseParts(tag, rows), 0)
    ensures ResponseBuilder(tag, rows).0 == WriteParts(EMPTY, ResponseParts(tag, rows), true).0
  {
    var (mid, offs) := PushRows(EMPTY, rows);
    var elems: seq<nat> := seq(|rows|, i => i);
    RowsAreParts(EMPTY, rows);
    VectorAppended(EMPTY, RowParts(rows), elems, mid, offs);
    assert Pick(elems, offs) == offs;
    var (v, vec) := CreateVectorOfOffsets(mid, offs);
    ResponseRootResolved(tag, offs, vec);
    TableAppended(EMPTY, RowParts(rows) + [Vector(elems)], [Own(TagField(4, tag)), Link(6, |rows|)],
                  ResponseWrites(tag, vec), v, offs + [vec]);
  }
}
