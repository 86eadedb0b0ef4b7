/** Building a self-describing buffer front to back, and the accessors that read it (flexbuffers.h). */
module FlexBuffers {
  import opened Wrappers
  import opened Bytes
  import opened FlexWidths

  // ----- values on the builder's stack -----

  datatype Kind = Null | Int | UInt | Key | String | Map | Vector | VectorKey | Blob | Bool {
    /** The upper six bits of a packed type. */
    function Code(): (c: nat)
      ensures c < 64
    {
      match this
      case Null => 0
      case Int => 1
      case UInt => 2
      case Key => 4
      case String => 5
      case Map => 9
      case Vector => 10
      case VectorKey => 14
      case Blob => 25
      case Bool => 26
    }

    predicate Inline() {
      Null? || Int? || UInt? || Bool?
    }
  }

  /** `bits` is the scalar itself, or the absolute offset of the data. */
  datatype Value = Value(bits: nat, kind: Kind, minWidth: BitWidth) {
    /** Scalars fit their own width; offsets lie in the buffer. */
    predicate Valid(bufSize: nat) {
      if kind.Inline() then bits < SIZE_T else bits <= bufSize
    }

    function StoredWidth(parent: BitWidth): BitWidth {
      if kind.Inline() then Max(minWidth, parent) else minWidth
    }

    /** `StoredPackedType` as a byte. */
    function Packed(parent: BitWidth): Byte {
      StoredWidth(parent) + 4 * kind.Code()
    }

    /** The width this value asks of the vector it goes into. */
    function ElemWidth(bufSize: nat, index: nat): BitWidth {
      if kind.Inline() then minWidth
      else if bits <= bufSize && Addressable(bufSize, index) then OffsetWidth(bits, bufSize, index)
      else 3
    }

    /** What is stored for this value at position `at`. */
    function Field(at: nat): nat
      requires Valid(at)
    {
      if kind.Inline() then bits else at - bits
    }
  }

  function Max(a: BitWidth, b: BitWidth): BitWidth {
    if a < b then b else a
  }

  predicate AllValid(vs: seq<Value>, bufSize: nat) {
    forall i :: 0 <= i < |vs| ==> vs[i].Valid(bufSize)
  }

  // ----- writing -----

  function Align(buf: seq<Byte>, w: BitWidth): (r: seq<Byte>)
    ensures |r| == OffsetLoc(|buf|, 0, w)
  {
    buf + Zeros(PaddingBytes(|buf|, ByteWidth(w)))
  }

  function WriteAny(buf: seq<Byte>, v: Value, w: BitWidth): (r: seq<Byte>)
    requires v.Valid(|buf|)
    ensures |r| == |buf| + ByteWidth(w)
  {
    buf + WriteLE(v.Field(|buf|), ByteWidth(w))
  }

  /** A length, the data and `trailing` zero bytes; the value refers to the data. */
  function CreateBlob(buf: seq<Byte>, data: seq<Byte>, trailing: nat, kind: Kind): (r: (seq<Byte>, Value))
    requires !kind.Inline()
    ensures r.1.Valid(|r.0|)
  {
    var w := WidthU(|data|);
    var sized := Align(buf, w) + WriteLE(|data|, ByteWidth(w));
    (sized + (data + Zeros(trailing)), Value(|sized|, kind, w))
  }

  /** The greatest width asked for by the first `n` elements. */
  function WidestElem(vs: seq<Value>, n: nat, bufSize: nat, stride: nat, prefix: nat): (w: BitWidth)
    requires n <= |vs|
  {
    if n == 0 then 0
    else Max(WidestElem(vs, n - 1, bufSize, stride, prefix), vs[n - 1].ElemWidth(bufSize, (n - 1) * stride + prefix))
  }

  /**
    The width of a vector, chosen before it is written: for its length, for the
    offset of a map's keys, and for each element, whose index counts `stride` stack
    entries each although the elements are stored without gaps.
   */
  function VectorWidth(bufSize: nat, vs: seq<Value>, stride: nat, forced: BitWidth, keys: Option<Value>): BitWidth {
    var sized := Max(forced, WidthU(|vs|));
    var base := match keys case None => sized case Some(k) => Max(sized, k.ElemWidth(bufSize, 0));
    Max(base, WidestElem(vs, |vs|, bufSize, stride, if keys.Some? then 3 else 1))
  }

  function WriteElems(buf: seq<Byte>, vs: seq<Value>, w: BitWidth): (r: seq<Byte>)
    requires AllValid(vs, |buf|)
    ensures |r| == |buf| + |vs| * ByteWidth(w)
  {
    if vs == [] then buf
    else
      var n := |vs| - 1;
      var front := WriteElems(buf, vs[..n], w);
      TimesNext(n, ByteWidth(w));
      WriteAny(front, vs[n], w)
  }

  lemma TimesNext(n: nat, k: nat)
    ensures (n + 1) * k == n * k + k
  {
  }

  lemma TimesAtLeast(n: nat, k: nat)
    requires k >= 1
    ensures n * k >= n
  {
  }

  function PackedTypes(vs: seq<Value>, w: BitWidth): (r: seq<Byte>)
    ensures |r| == |vs|
  {
    if vs == [] then [] else PackedTypes(vs[..|vs| - 1], w) + [vs[|vs| - 1].Packed(w)]
  }

  /** An untyped vector, or the values of a map when `keys` is given. */
  function CreateVector(buf: seq<Byte>, vs: seq<Value>, stride: nat, forced: BitWidth, keys: Option<Value>): (r: (seq<Byte>, Value))
    requires AllValid(vs, |buf|) && (keys.Some? ==> keys.value.Valid(|buf|) && !keys.value.kind.Inline())
    ensures r.1.Valid(|r.0|) && |r.0| >= |buf| + 2 * |vs|
  {
    var w := VectorWidth(|buf|, vs, stride, forced, keys);
    var aligned := Align(buf, w);
    var prefixed :=
      match keys
      case None => aligned
      case Some(k) => WriteAny(aligned, k, w) + WriteLE(ByteWidth(k.minWidth), ByteWidth(w));
    var sized := prefixed + WriteLE(|vs|, ByteWidth(w));
    TimesAtLeast(|vs|, ByteWidth(w));
    (WriteElems(sized, vs, w) + PackedTypes(vs, w), Value(|sized|, if keys.Some? then Map else Vector, w))
  }

  /** The root value, its packed type and its width, at the end of the buffer. */
  function Finish(buf: seq<Byte>, root: Value): seq<Byte>
    requires root.Valid(|buf|)
  {
    var w := root.ElemWidth(|buf|, 0);
    WriteAny(Align(buf, w), root, w) + [root.Packed(0), ByteWidth(w)]
  }

  // ----- reading -----

  /** The widths that the templated read distinguishes. */
  function SizedBytes(byteWidth: nat): nat {
    if byteWidth < 4 then if byteWidth < 2 then 1 else 2 else if byteWidth < 8 then 4 else 8
  }

  function ReadUInt(buf: seq<Byte>, at: int, byteWidth: nat): Option<nat> {
    ReadScalar(buf, at, SizedBytes(byteWidth))
  }

  /** The signed value of the low `n` bytes. */
  function SignExtend(u: nat, n: nat): int {
    if u < Pow256(n) / 2 then u else u - Pow256(n)
  }

  function ReadInt(buf: seq<Byte>, at: int, byteWidth: nat): Option<int> {
    var u :- ReadScalar(buf, at, SizedBytes(byteWidth));
    Some(SignExtend(u, SizedBytes(byteWidth)))
  }

  function Indirect(buf: seq<Byte>, at: int, byteWidth: nat): Option<int> {
    var o :- ReadUInt(buf, at, byteWidth);
    Some(at - o)
  }

  /** A position, the width it was stored with, and the width and kind of what it refers to. */
  datatype Reference = Reference(data: int, parentWidth: nat, byteWidth: nat, kind: nat)

  function FromPacked(data: int, parentWidth: nat, packed: Byte): Reference {
    Reference(data, parentWidth, ByteWidth(packed % 4), packed / 4)
  }

  function AsInt64(buf: seq<Byte>, r: Reference): Option<int> {
    if r.kind == Int.Code() then ReadInt(buf, r.data, r.parentWidth) else None
  }

  function AsUInt64(buf: seq<Byte>, r: Reference): Option<nat> {
    if r.kind == UInt.Code() then ReadUInt(buf, r.data, r.parentWidth) else None
  }

  function AsBool(buf: seq<Byte>, r: Reference): Option<bool> {
    if r.kind == Bool.Code() then
      var u :- ReadUInt(buf, r.data, r.parentWidth);
      Some(u != 0)
    else None
  }

  /** The bytes of a string or blob. */
  function AsBytes(buf: seq<Byte>, r: Reference): Option<seq<Byte>> {
    var p :- Indirect(buf, r.data, r.parentWidth);
    var n :- ReadUInt(buf, p - r.byteWidth, r.byteWidth);
    if 0 <= p && p + n <= |buf| then Some(buf[p..p + n]) else None
  }

  /** Where a vector's elements start, and how many there are. */
  function AsVector(buf: seq<Byte>, r: Reference): Option<(int, nat)> {
    var p :- Indirect(buf, r.data, r.parentWidth);
    var n :- ReadUInt(buf, p - r.byteWidth, r.byteWidth);
    Some((p, n))
  }

  /** `Vector::operator[]`, inside the bounds. */
  function ElementAt(buf: seq<Byte>, vec: int, n: nat, byteWidth: nat, i: nat): Option<Reference>
    requires i < n
  {
    var at := vec + n * byteWidth + i;
    if 0 <= at < |buf| then Some(FromPacked(vec + i * byteWidth, byteWidth, buf[at])) else None
  }

  function GetRoot(buf: seq<Byte>): Option<Reference> {
    if |buf| < 2 then None
    else
      var byteWidth := buf[|buf| - 1];
      Some(FromPacked(|buf| - 2 - byteWidth, byteWidth, buf[|buf| - 2]))
  }
}
