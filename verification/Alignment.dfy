/**
  How much a table adds to the buffer, and which alignment the finished buffer must have so
  that every item is aligned from the front as well (flatbuffer_builder.h).
 */
module Alignment {
  import opened Bytes
  import opened Layout
  import opened TableLayout

  lemma ApplySize(b: Builder, w: Write)
    requires w.WellFormed() && (w.Ref? ==> w.target <= |b.data|)
    ensures |b.data| <= |Apply(b, w).data| <= |b.data| + 16
    ensures Apply(b, w).maxVOffset <= Max(w.id, b.maxVOffset)
  {
  }

  predicate IdsUpTo(ws: seq<Write>, maxId: nat) {
    forall i :: 0 <= i < |ws| ==> ws[i].id <= maxId
  }

  lemma {:induction false} ApplyAllSize(b: Builder, ws: seq<Write>, maxId: nat)
    requires WellFormedWrites(ws) && RefsWithin(ws, |b.data|) && b.fields == [] && b.maxVOffset == 0
    requires IdsUpTo(ws, maxId)
    ensures |b.data| <= |ApplyAll(b, ws).data| <= |b.data| + 16 * |ws|
    ensures ApplyAll(b, ws).maxVOffset <= maxId
  {
    if ws != [] {
      var n := |ws| - 1;
      ApplyAllSize(b, ws[..n], maxId);
      ApplySize(ApplyAll(b, ws[..n]), ws[n]);
    }
  }

  /** A table takes at most 16 bytes a field, its vtable link, and a vtable of its own. */
  lemma WriteTableSize(b: Builder, ws: seq<Write>, dedup: bool, maxId: nat)
    requires WellFormedWrites(ws) && RefsWithin(ws, |b.data|) && Idle(b) && IdsUpTo(ws, maxId)
    ensures var (r, o) := WriteTable(b, ws, dedup);
            o <= |b.data| + 16 * |ws| + 7 && |r.data| <= o + maxId + 4
  {
    var w := ApplyAll(StartTable(b), ws);
    ApplyAllSize(StartTable(b), ws, maxId);
    EndTableSize(w, |b.data|, dedup);
  }

  lemma EndTableSize(b: Builder, start: nat, dedup: bool)
    requires Tracked(b, start)
    ensures var (r, o) := EndTable(b, start, dedup); o <= |b.data| + 7 && |r.data| <= o + b.maxVOffset + 4
  {
  }

  // ----- the alignment of the whole buffer -----

  predicate AlignedFor(minAlign: nat, w: Write) {
    w.Scalar? && !w.isDefault ==> w.size <= minAlign
  }

  lemma ApplyAligns(b: Builder, w: Write)
    requires w.WellFormed() && (w.Ref? ==> w.target <= |b.data|) && IsAlignment(b.minAlign)
    ensures var r := Apply(b, w); IsAlignment(r.minAlign) && r.minAlign >= b.minAlign && AlignedFor(r.minAlign, w)
  {
  }

  lemma {:induction false} ApplyAllAligns(b: Builder, ws: seq<Write>)
    requires WellFormedWrites(ws) && RefsWithin(ws, |b.data|) && b.fields == [] && b.maxVOffset == 0
    requires IsAlignment(b.minAlign)
    ensures var r := ApplyAll(b, ws);
            && IsAlignment(r.minAlign) && r.minAlign >= b.minAlign
            && forall i :: 0 <= i < |ws| ==> AlignedFor(r.minAlign, ws[i])
  {
    if ws != [] {
      var n := |ws| - 1;
      var mid := ApplyAll(b, ws[..n]);
      ApplyAllAligns(b, ws[..n]);
      ApplyAligns(mid, ws[n]);
      forall i | 0 <= i < |ws|
        ensures AlignedFor(ApplyAll(b, ws).minAlign, ws[i])
      {
        assert i < n ==> AlignedFor(mid.minAlign, ws[..n][i]);
      }
    }
  }

  /** Writing a table never lowers the buffer's alignment, and covers each scalar stored. */
  lemma WriteTableAligns(b: Builder, ws: seq<Write>, dedup: bool)
    requires WellFormedWrites(ws) && RefsWithin(ws, |b.data|) && Idle(b) && IsAlignment(b.minAlign)
    ensures var r := WriteTable(b, ws, dedup).0;
            && IsAlignment(r.minAlign) && r.minAlign >= b.minAlign && r.minAlign >= 4
            && forall i :: 0 <= i < |ws| ==> AlignedFor(r.minAlign, ws[i])
  {
    ApplyAllAligns(StartTable(b), ws);
    EndTableAligns(ApplyAll(StartTable(b), ws), |b.data|, dedup);
  }

  lemma EndTableAligns(b: Builder, start: nat, dedup: bool)
    requires Tracked(b, start)
    ensures EndTable(b, start, dedup).0.minAlign == Max(4, b.minAlign)
  {
  }

  lemma {:induction false} PushOffsetsAligns(b: Builder, offs: seq<nat>)
    requires OffsetsWithin(b, offs) && IsAlignment(b.minAlign)
    ensures var r := PushOffsets(b, offs); IsAlignment(r.minAlign) && r.minAlign >= b.minAlign
    decreases |offs|
  {
    if offs != [] {
      PushOffsetsLast(b, offs);
      PushOffsetsAligns(PushOffset(b, offs[|offs| - 1]), offs[..|offs| - 1]);
    }
  }

  lemma VectorAligns(b: Builder, offs: seq<nat>)
    requires OffsetsWithin(b, offs) && IsAlignment(b.minAlign)
    ensures var r := CreateVectorOfOffsets(b, offs).0; IsAlignment(r.minAlign) && r.minAlign >= b.minAlign
  {
    PushOffsetsAligns(StartVector(b, |offs|, 4, 4), offs);
  }

  lemma BytesVectorAligns(b: Builder, bytes: seq<Byte>, len: nat, elemSize: nat, alignment: nat)
    requires IsAlignment(alignment) && |bytes| == len * elemSize && IsAlignment(b.minAlign)
    ensures var r := CreateVector(b, bytes, len, elemSize, alignment).0;
            IsAlignment(r.minAlign) && r.minAlign >= b.minAlign && r.minAlign >= 4
  {
  }
}
