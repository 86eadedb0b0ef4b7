/** The FlexBuffers builder object (flexbuffers.h). */
module FlexBuilding {
  import opened Wrappers
  import opened Bytes
  import opened FlexWidths
  import opened FlexBuffers
  import opened FlexRoundTrip

  lemma WriteElemsStep(buf: seq<Byte>, vs: seq<Value>, w: BitWidth, i: nat)
    requires AllValid(vs, |buf|) && i < |vs|
    ensures AllValid(vs[..i], |buf|) && vs[i].Valid(|WriteElems(buf, vs[..i], w)|)
    ensures WriteElems(buf, vs[..i + 1], w) == WriteAny(WriteElems(buf, vs[..i], w), vs[i], w)
  {
    assert vs[..i + 1][..i] == vs[..i];
  }

  lemma PackedTypesStep(vs: seq<Value>, w: BitWidth, i: nat)
    requires i < |vs|
    ensures PackedTypes(vs[..i + 1], w) == PackedTypes(vs[..i], w) + [vs[i].Packed(w)]
  {
    assert vs[..i + 1][..i] == vs[..i];
  }

  class Builder {
    var buf: seq<Byte>
    var stack: seq<Value>
    var finished: bool
    const forceMinBitWidth: BitWidth

    ghost predicate Valid()
      reads this
    {
      AllValid(stack, |buf|)
    }

    constructor (forceMinBitWidth: BitWidth)
      ensures Valid() && buf == [] && stack == [] && !finished && this.forceMinBitWidth == forceMinBitWidth
    {
      buf, stack, finished := [], [], false;
      this.forceMinBitWidth := forceMinBitWidth;
    }

    method Null()
      requires Valid()
      modifies this
      ensures Valid() && buf == old(buf) && stack == old(stack) + [Value(0, Kind.Null, 0)] && finished == old(finished)
    {
      stack := stack + [Value(0, Kind.Null, 0)];
    }

    method Int(i: int)
      requires Valid() && IsInt64(i)
      modifies this
      ensures Valid() && buf == old(buf) && stack == old(stack) + [Value(Pattern(i), Kind.Int, WidthI(i))]
      ensures finished == old(finished)
    {
      stack := stack + [Value(Pattern(i), Kind.Int, WidthI(i))];
    }

    method UInt(u: nat)
      requires Valid() && u < SIZE_T
      modifies this
      ensures Valid() && buf == old(buf) && stack == old(stack) + [Value(u, Kind.UInt, WidthU(u))]
      ensures finished == old(finished)
    {
      stack := stack + [Value(u, Kind.UInt, WidthU(u))];
    }

    method Bool(b: bool)
      requires Valid()
      modifies this
      ensures Valid() && buf == old(buf) && stack == old(stack) + [Value(if b then 1 else 0, Kind.Bool, 0)]
      ensures finished == old(finished)
    {
      stack := stack + [Value(if b then 1 else 0, Kind.Bool, 0)];
    }

    method Align(w: BitWidth) returns (byteWidth: nat)
      requires Valid()
      modifies this`buf
      ensures Valid() && buf == FlexBuffers.Align(old(buf), w) && byteWidth == ByteWidth(w)
    {
      byteWidth := ByteWidth(w);
      buf := buf + Zeros(PaddingBytes(|buf|, byteWidth));
    }

    method WriteAny(v: Value, w: BitWidth)
      requires Valid() && v.Valid(|buf|)
      modifies this`buf
      ensures Valid() && buf == FlexBuffers.WriteAny(old(buf), v, w)
    {
      buf := buf + WriteLE(if v.kind.Inline() then v.bits else |buf| - v.bits, ByteWidth(w));
    }

    /** `String` and `Blob`; a string is followed by its terminator. */
    method CreateBlob(data: seq<Byte>, trailing: nat, kind: Kind)
      requires Valid() && !kind.Inline()
      modifies this
      ensures Valid() && finished == old(finished)
      ensures var (b, v) := FlexBuffers.CreateBlob(old(buf), data, trailing, kind);
              buf == b && stack == old(stack) + [v]
    {
      var w := WidthU(|data|);
      var byteWidth := Align(w);
      buf := buf + WriteLE(|data|, byteWidth);
      var sloc := |buf|;
      buf := buf + (data + Zeros(trailing));
      stack := stack + [Value(sloc, kind, w)];
    }

    /** `Value::ElemWidth`. */
    method ElemWidth(v: Value, index: nat) returns (w: BitWidth)
      requires v.Valid(|buf|) && Addressable(|buf|, index)
      ensures w == v.ElemWidth(|buf|, index)
    {
      if v.kind.Inline() {
        w := v.minWidth;
      } else {
        w := ElemOffsetWidth(v.bits, |buf|, index);
      }
    }

    /** The first loop of `CreateVector`: the width of the vector to come. */
    method ChooseWidth(start: nat) returns (w: BitWidth)
      requires Valid() && start <= |stack| && VectorAddressable(|buf|, |stack| - start, 1)
      ensures w == VectorWidth(|buf|, stack[start..], 1, forceMinBitWidth, None)
    {
      var vs := stack[start..];
      var base := Max(forceMinBitWidth, WidthU(|vs|));
      var widest: BitWidth := 0;
      for i := 0 to |vs|
        invariant widest == WidestElem(vs, i, |buf|, 1, 1)
      {
        var elem := ElemWidth(vs[i], i + 1);
        widest := Max(widest, elem);
      }
      w := Max(base, widest);
    }

    /** The second loop: the elements. */
    method WriteElements(vs: seq<Value>, w: BitWidth)
      requires Valid() && AllValid(vs, |buf|)
      modifies this`buf
      ensures Valid() && buf == WriteElems(old(buf), vs, w)
    {
      for i := 0 to |vs|
        invariant AllValid(vs[..i], |old(buf)|) && buf == WriteElems(old(buf), vs[..i], w)
      {
        WriteElemsStep(old(buf), vs, w, i);
        buf := buf + WriteLE(if vs[i].kind.Inline() then vs[i].bits else |buf| - vs[i].bits, ByteWidth(w));
      }
      assert vs[..|vs|] == vs;
    }

    /** The third loop: the types. */
    method WriteTypes(vs: seq<Value>, w: BitWidth)
      requires Valid()
      modifies this`buf
      ensures Valid() && buf == old(buf) + PackedTypes(vs, w)
    {
      for i := 0 to |vs|
        invariant buf == old(buf) + PackedTypes(vs[..i], w)
      {
        PackedTypesStep(vs, w, i);
        buf := buf + [vs[i].Packed(w)];
      }
      assert vs[..|vs|] == vs;
    }

    /** `EndVector` of an untyped vector: its elements leave the stack, and the vector takes their place. */
    method EndVector(start: nat)
      requires Valid() && start <= |stack| && VectorAddressable(|buf|, |stack| - start, 1)
      modifies this
      ensures Valid() && finished == old(finished)
      ensures AllValid(old(stack)[start..], |old(buf)|)
      ensures var (b, v) := CreateVector(old(buf), old(stack)[start..], 1, forceMinBitWidth, None);
              buf == b && stack == old(stack)[..start] + [v]
    {
      var vs := stack[start..];
      var w := ChooseWidth(start);
      var byteWidth := Align(w);
      buf := buf + WriteLE(|vs|, byteWidth);
      var vloc := |buf|;
      WriteElements(vs, w);
      WriteTypes(vs, w);
      stack := stack[..start] + [Value(vloc, Kind.Vector, w)];
    }

    method Finish()
      requires Valid() && |stack| == 1 && Addressable(|buf|, 0)
      modifies this
      ensures buf == FlexBuffers.Finish(old(buf), old(stack)[0]) && finished
    {
      var root := stack[0];
      var w := ElemWidth(root, 0);
      var byteWidth := Align(w);
      WriteAny(root, w);
      buf := buf + [root.Packed(0)];
      buf := buf + [byteWidth];
      finished := true;
    }

    /** The calls that build a tree, depth first. */
    method Add(t: Tree)
      requires Valid() && t.Fits() && |Build(buf, forceMinBitWidth, t).0| < MAX_FLEX
      modifies this
      ensures Valid() && finished == old(finished)
      ensures var (b, v) := Build(old(buf), forceMinBitWidth, t); buf == b && stack == old(stack) + [v]
      decreases t, 0
    {
      match t {
        case TNull => Null();
        case TBool(b) => Bool(b);
        case TInt(i) => Int(i);
        case TUInt(u) => UInt(u);
        case TString(s) => CreateBlob(s, 1, Kind.String);
        case TBlob(s) => CreateBlob(s, 0, Kind.Blob);
        case TVector(ts) =>
          var start := |stack|;
          ghost var (b, vs) := BuildAll(buf, forceMinBitWidth, ts);
          AddAll(ts);
          assert stack[start..] == vs && stack[..start] == old(stack);
          EndVector(start);
      }
    }

    method AddAll(ts: seq<Tree>)
      requires Valid() && (forall k :: 0 <= k < |ts| ==> ts[k].Fits()) && |BuildAll(buf, forceMinBitWidth, ts).0| < MAX_FLEX
      modifies this
      ensures Valid() && finished == old(finished)
      ensures var (b, vs) := BuildAll(old(buf), forceMinBitWidth, ts); buf == b && stack == old(stack) + vs
      decreases ts, 1
    {
      for i := 0 to |ts|
        invariant Valid() && finished == old(finished)
        invariant var (b, vs) := BuildAll(old(buf), forceMinBitWidth, ts[..i]); buf == b && stack == old(stack) + vs
      {
        BuildAllStep(old(buf), forceMinBitWidth, ts, i);
        Add(ts[i]);
      }
      assert ts[..|ts|] == ts;
    }
  }

  lemma BuildAllStep(buf: seq<Byte>, forced: BitWidth, ts: seq<Tree>, i: nat)
    requires (forall k :: 0 <= k < |ts| ==> ts[k].Fits()) && i < |ts| && |BuildAll(buf, forced, ts).0| < MAX_FLEX
    ensures var (b, vs) := BuildAll(buf, forced, ts[..i]);
            var (b', v) := Build(b, forced, ts[i]);
            BuildAll(buf, forced, ts[..i + 1]) == (b', vs + [v]) && |b'| < MAX_FLEX
  {
    assert ts[..i + 1][..i] == ts[..i];
    BuildAllGrows(buf, forced, ts, i + 1);
  }

  lemma {:induction false} BuildAllGrows(buf: seq<Byte>, forced: BitWidth, ts: seq<Tree>, i: nat)
    requires (forall k :: 0 <= k < |ts| ==> ts[k].Fits()) && i <= |ts|
    ensures |BuildAll(buf, forced, ts[..i]).0| <= |BuildAll(buf, forced, ts).0|
  {
    if i < |ts| {
      var n := |ts| - 1;
      BuildAllGrows(buf, forced, ts[..n], i);
      assert ts[..n][..i] == ts[..i];
    } else {
      assert ts[..i] == ts;
    }
  }

  /** Building, finishing and reading: the buffer the object makes gives back the tree. */
  method BuildBuffer(t: Tree, forced: BitWidth) returns (bytes: seq<Byte>)
    requires t.Fits() && |Build([], forced, t).0| < MAX_FLEX
    ensures GetRoot(bytes).Some? && Reads(bytes, GetRoot(bytes).value, t)
  {
    var builder := new Builder(forced);
    builder.Add(t);
    builder.Finish();
    bytes := builder.buf;
    TreeRoundTrip(forced, t);
  }
}
