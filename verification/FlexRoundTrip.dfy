/** The chosen width always suffices, and every tree of values reads back as it was built. */
module FlexRoundTrip {
  import opened Wrappers
  import opened Bytes
  import opened FlexWidths
  import opened FlexBuffers

  // ----- the width suffices -----

  lemma {:induction false} WidestCovers(vs: seq<Value>, n: nat, bufSize: nat, stride: nat, prefix: nat, k: nat)
    requires k < n <= |vs|
    ensures vs[k].ElemWidth(bufSize, k * stride + prefix) <= WidestElem(vs, n, bufSize, stride, prefix)
  {
    if k < n - 1 {
      WidestCovers(vs, n - 1, bufSize, stride, prefix, k);
    }
  }

  /** Every offset the vector needs can be computed in 64 bits. */
  predicate VectorAddressable(bufSize: nat, n: nat, stride: nat) {
    Addressable(bufSize, n * stride + 3)
  }

  /** The value fits where it is going to be written in a vector of width `w`. */
  predicate FitsAt(v: Value, at: nat, w: BitWidth) {
    v.Valid(at) && if v.kind.Inline() then v.minWidth <= w else v.Field(at) < Limit(w)
  }

  /** Every element fits at its own place, `prefix` widths and `k` elements after the end of the buffer. */
  predicate ElementsFit(vs: seq<Value>, bufSize: nat, prefix: nat, w: BitWidth) {
    forall k {:trigger vs[k]} :: 0 <= k < |vs| ==> FitsAt(vs[k], OffsetLoc(bufSize, k + prefix, w), w)
  }

  lemma IndexGuess(k: nat, n: nat, stride: nat, prefix: nat)
    requires k < n && stride >= 1 && prefix <= 3
    ensures k + prefix <= k * stride + prefix <= n * stride + 3
  {
    assert k * stride >= k * 1;
    assert n * stride == k * stride + (n - k) * stride;
    assert (n - k) * stride >= 0;
  }

  lemma ElementFits(bufSize: nat, vs: seq<Value>, stride: nat, prefix: nat, w: BitWidth, k: nat)
    requires k < |vs| && vs[k].Valid(bufSize) && stride >= 1 && prefix <= 3 && VectorAddressable(bufSize, |vs|, stride)
    requires WidestElem(vs, |vs|, bufSize, stride, prefix) <= w
    ensures FitsAt(vs[k], OffsetLoc(bufSize, k + prefix, w), w)
  {
    WidestCovers(vs, |vs|, bufSize, stride, prefix, k);
    IndexGuess(k, |vs|, stride, prefix);
    ElemFits(vs[k], bufSize, k * stride + prefix, k + prefix, w);
  }

  /**
    The width that `CreateVector` picks before writing is enough for everything it
    then writes: the length, a map's key vector, and each element at its true place,
    although elements of maps were measured at twice their index and the offsets grow
    when one element widens the whole vector.
   */
  lemma WidthSuffices(bufSize: nat, vs: seq<Value>, stride: nat, forced: BitWidth, keys: Option<Value>)
    requires AllValid(vs, bufSize) && stride >= 1 && VectorAddressable(bufSize, |vs|, stride)
    requires keys.Some? ==> keys.value.Valid(bufSize) && !keys.value.kind.Inline()
    ensures var w := VectorWidth(bufSize, vs, stride, forced, keys);
            && |vs| < Limit(w)
            && (keys.Some? ==> FitsAt(keys.value, OffsetLoc(bufSize, 0, w), w))
            && ElementsFit(vs, bufSize, if keys.Some? then 3 else 1, w)
  {
    var w := VectorWidth(bufSize, vs, stride, forced, keys);
    var prefix := if keys.Some? then 3 else 1;
    LengthFits(|vs|, stride, bufSize);
    if keys.Some? {
      ElemFits(keys.value, bufSize, 0, 0, w);
    }
    forall k | 0 <= k < |vs|
      ensures FitsAt(vs[k], OffsetLoc(bufSize, k + prefix, w), w)
    {
      ElementFits(bufSize, vs, stride, prefix, w, k);
    }
  }

  lemma LengthFits(n: nat, stride: nat, bufSize: nat)
    requires stride >= 1 && VectorAddressable(bufSize, n, stride)
    ensures n < SIZE_T
  {
    assert n * stride >= n * 1;
  }

  lemma ElemFits(v: Value, bufSize: nat, guess: nat, index: nat, w: BitWidth)
    requires v.Valid(bufSize) && index <= guess && Addressable(bufSize, guess) && v.ElemWidth(bufSize, guess) <= w
    ensures FitsAt(v, OffsetLoc(bufSize, index, w), w)
  {
    assert index * ByteWidth(w) >= 0;
    if !v.kind.Inline() {
      WiderStillFits(v.bits, bufSize, guess, index, v.ElemWidth(bufSize, guess), w);
    }
  }

  // ----- trees -----

  datatype Tree =
    | TNull
    | TBool(b: bool)
    | TInt(i: int)
    | TUInt(u: nat)
    | TString(s: seq<Byte>)
    | TBlob(s: seq<Byte>)
    | TVector(elems: seq<Tree>)
  {
    /** The builder's parameter types: 64-bit integers and `size_t` lengths. */
    predicate Fits() {
      match this
      case TInt(i) => IsInt64(i)
      case TUInt(u) => u < SIZE_T
      case TVector(ts) => forall k :: 0 <= k < |ts| ==> ts[k].Fits()
      case _ => true
    }
  }

  /** The accessors, started at `r`, give back `t`. */
  ghost predicate Reads(buf: seq<Byte>, r: Reference, t: Tree)
    decreases t, 0
  {
    match t
    case TNull => r.kind == Null.Code()
    case TBool(b) => AsBool(buf, r) == Some(b)
    case TInt(i) => AsInt64(buf, r) == Some(i)
    case TUInt(u) => AsUInt64(buf, r) == Some(u)
    case TString(s) => r.kind == String.Code() && AsBytes(buf, r) == Some(s)
    case TBlob(s) => r.kind == Blob.Code() && AsBytes(buf, r) == Some(s)
    case TVector(ts) =>
      && r.kind == Vector.Code() && AsVector(buf, r).Some?
      && ElementsRead(buf, AsVector(buf, r).value.0, AsVector(buf, r).value.1, r.byteWidth, ts)
  }

  ghost predicate ElementsRead(buf: seq<Byte>, vec: int, n: nat, byteWidth: nat, ts: seq<Tree>)
    decreases ts
  {
    && n == |ts|
    && forall k {:trigger ElementReads(buf, vec, n, byteWidth, k, ts[k])} ::
         0 <= k < |ts| ==> ElementReads(buf, vec, n, byteWidth, k, ts[k])
  }

  ghost predicate ElementReads(buf: seq<Byte>, vec: int, n: nat, byteWidth: nat, k: nat, t: Tree)
    requires k < n
    decreases t, 1
  {
    var e := ElementAt(buf, vec, n, byteWidth, k);
    e.Some? && Reads(buf, e.value, t)
  }

  function KindOf(t: Tree): Kind {
    match t
    case TNull => Null
    case TBool(_) => Bool
    case TInt(_) => Int
    case TUInt(_) => UInt
    case TString(_) => String
    case TBlob(_) => Blob
    case TVector(_) => Vector
  }

  lemma ReadsKind(buf: seq<Byte>, r: Reference, t: Tree)
    requires Reads(buf, r, t)
    ensures r.kind == KindOf(t).Code()
  {
  }

  lemma SameKind(t: Tree, t': Tree)
    requires KindOf(t).Code() == KindOf(t').Code()
    ensures KindOf(t) == KindOf(t')
  {
  }

  /** What can be read is determined: two trees that both read from the same place are equal. */
  lemma {:induction false} ReadsUnique(buf: seq<Byte>, r: Reference, t: Tree, t': Tree)
    requires Reads(buf, r, t) && Reads(buf, r, t')
    ensures t == t'
    decreases t
  {
    ReadsKind(buf, r, t);
    ReadsKind(buf, r, t');
    SameKind(t, t');
    if t.TVector? {
      var v := AsVector(buf, r).value;
      ElementsUnique(buf, v.0, v.1, r.byteWidth, t.elems, t'.elems);
    }
  }

  lemma {:induction false} ElementsUnique(buf: seq<Byte>, vec: int, n: nat, byteWidth: nat, ts: seq<Tree>, ts': seq<Tree>)
    requires ElementsRead(buf, vec, n, byteWidth, ts) && ElementsRead(buf, vec, n, byteWidth, ts')
    ensures ts == ts'
    decreases ts
  {
    forall k | 0 <= k < n
      ensures ts[k] == ts'[k]
    {
      assert ElementReads(buf, vec, n, byteWidth, k, ts[k]);
      assert ElementReads(buf, vec, n, byteWidth, k, ts'[k]);
      ReadsUnique(buf, ElementAt(buf, vec, n, byteWidth, k).value, ts[k], ts'[k]);
    }
  }

  // ----- the buffer only grows at its end -----

  lemma ScalarStays(buf: seq<Byte>, more: seq<Byte>, at: int, n: nat)
    requires ReadScalar(buf, at, n).Some?
    ensures ReadScalar(buf + more, at, n) == ReadScalar(buf, at, n)
  {
    assert (buf + more)[at..at + n] == buf[at..at + n];
  }

  lemma BytesStay(buf: seq<Byte>, more: seq<Byte>, r: Reference)
    requires AsBytes(buf, r).Some?
    ensures AsBytes(buf + more, r) == AsBytes(buf, r)
  {
    ScalarStays(buf, more, r.data, SizedBytes(r.parentWidth));
    var p := Indirect(buf, r.data, r.parentWidth).value;
    ScalarStays(buf, more, p - r.byteWidth, SizedBytes(r.byteWidth));
    var n := ReadUInt(buf, p - r.byteWidth, r.byteWidth).value;
    assert (buf + more)[p..p + n] == buf[p..p + n];
  }

  lemma {:induction false} ReadsStay(buf: seq<Byte>, more: seq<Byte>, r: Reference, t: Tree)
    requires Reads(buf, r, t)
    ensures Reads(buf + more, r, t)
    decreases t
  {
    match t {
      case TNull =>
      case TBool(_) => ScalarStays(buf, more, r.data, SizedBytes(r.parentWidth));
      case TInt(_) => ScalarStays(buf, more, r.data, SizedBytes(r.parentWidth));
      case TUInt(_) => ScalarStays(buf, more, r.data, SizedBytes(r.parentWidth));
      case TString(_) => BytesStay(buf, more, r);
      case TBlob(_) => BytesStay(buf, more, r);
      case TVector(ts) =>
        ScalarStays(buf, more, r.data, SizedBytes(r.parentWidth));
        var p := Indirect(buf, r.data, r.parentWidth).value;
        ScalarStays(buf, more, p - r.byteWidth, SizedBytes(r.byteWidth));
        var n := AsVector(buf, r).value.1;
        ElementsStay(buf, more, p, n, r.byteWidth, ts);
    }
  }

  lemma {:induction false} ElementsStay(buf: seq<Byte>, more: seq<Byte>, vec: int, n: nat, byteWidth: nat, ts: seq<Tree>)
    requires ElementsRead(buf, vec, n, byteWidth, ts)
    ensures ElementsRead(buf + more, vec, n, byteWidth, ts)
    decreases ts
  {
    forall k | 0 <= k < |ts|
      ensures ElementReads(buf + more, vec, n, byteWidth, k, ts[k])
    {
      assert ElementReads(buf, vec, n, byteWidth, k, ts[k]);
      assert ElementAt(buf + more, vec, n, byteWidth, k) == ElementAt(buf, vec, n, byteWidth, k);
      ReadsStay(buf, more, ElementAt(buf, vec, n, byteWidth, k).value, ts[k]);
    }
  }

  // ----- what a value on the stack stands for -----

  /** A length of `ByteWidth(w)` bytes, then the data. */
  predicate SizedAt(buf: seq<Byte>, at: nat, w: BitWidth, s: seq<Byte>) {
    ReadScalar(buf, at - ByteWidth(w), ByteWidth(w)) == Some(|s|) && BytesAt(buf, at, s)
  }

  ghost predicate VectorAt(buf: seq<Byte>, at: nat, w: BitWidth, ts: seq<Tree>) {
    && ReadScalar(buf, at - ByteWidth(w), ByteWidth(w)) == Some(|ts|)
    && ElementsRead(buf, at, |ts|, ByteWidth(w), ts)
  }

  ghost predicate Denotes(buf: seq<Byte>, v: Value, t: Tree) {
    && v.Valid(|buf|)
    && match t
       case TNull => v.kind == Null
       case TBool(b) => v == Value(if b then 1 else 0, Bool, 0)
       case TInt(i) => IsInt64(i) && v == Value(Pattern(i), Int, WidthI(i))
       case TUInt(u) => v == Value(u, UInt, WidthU(u))
       case TString(s) => v.kind == String && SizedAt(buf, v.bits, v.minWidth, s)
       case TBlob(s) => v.kind == Blob && SizedAt(buf, v.bits, v.minWidth, s)
       case TVector(ts) => v.kind == Vector && VectorAt(buf, v.bits, v.minWidth, ts)
  }

  lemma DenotesStays(buf: seq<Byte>, more: seq<Byte>, v: Value, t: Tree)
    requires Denotes(buf, v, t)
    ensures Denotes(buf + more, v, t)
  {
    match t {
      case TString(s) =>
        ScalarStays(buf, more, v.bits - ByteWidth(v.minWidth), ByteWidth(v.minWidth));
        assert (buf + more)[v.bits..v.bits + |s|] == buf[v.bits..v.bits + |s|];
      case TBlob(s) =>
        ScalarStays(buf, more, v.bits - ByteWidth(v.minWidth), ByteWidth(v.minWidth));
        assert (buf + more)[v.bits..v.bits + |s|] == buf[v.bits..v.bits + |s|];
      case TVector(ts) =>
        ScalarStays(buf, more, v.bits - ByteWidth(v.minWidth), ByteWidth(v.minWidth));
        ElementsStay(buf, more, v.bits, |ts|, ByteWidth(v.minWidth), ts);
      case _ =>
    }
  }

  /** A signed value survives being stored at its own width or any wider one. */
  lemma SignSurvives(i: int, w: BitWidth)
    requires IsInt64(i) && WidthI(i) <= w
    ensures SignExtend(Pattern(i) % Limit(w), ByteWidth(w)) == i
  {
    LimitsGrow(WidthI(i), w);
    if i >= 0 {
      ModUnique(Pattern(i), Limit(w), 0, i);
    } else {
      LimitDivides(w);
      ModUnique(Pattern(i), Limit(w), SIZE_T / Limit(w) - 1, i + Limit(w));
    }
  }

  lemma LimitsGrow(v: BitWidth, w: BitWidth)
    requires v <= w
    ensures Limit(v) <= Limit(w)
  {
  }

  lemma LimitDivides(w: BitWidth)
    ensures Limit(w) * (SIZE_T / Limit(w)) == SIZE_T && SIZE_T / Limit(w) >= 1
  {
  }

  // ----- one value read back -----

  lemma PackedReads(v: Value, parent: BitWidth, at: int, n: nat)
    ensures FromPacked(at, n, v.Packed(parent)) == Reference(at, n, ByteWidth(v.StoredWidth(parent)), v.kind.Code())
  {
  }

  lemma StoredReads(buf: seq<Byte>, at: nat, x: nat, w: BitWidth)
    requires at + ByteWidth(w) <= |buf| && buf[at..at + ByteWidth(w)] == WriteLE(x, ByteWidth(w))
    ensures ReadUInt(buf, at, ByteWidth(w)) == Some(x % Limit(w))
    ensures x < Limit(w) ==> ReadUInt(buf, at, ByteWidth(w)) == Some(x)
  {
    WriteRead(x, ByteWidth(w));
    if x < Limit(w) {
      ModUnique(x, Limit(w), 0, x);
    }
  }

  lemma OffsetReads(buf: seq<Byte>, at: nat, v: Value, w: BitWidth)
    requires at + ByteWidth(w) <= |buf| && FitsAt(v, at, w) && !v.kind.Inline()
    requires buf[at..at + ByteWidth(w)] == WriteLE(v.Field(at), ByteWidth(w))
    ensures Indirect(buf, at, ByteWidth(w)).Some? && Indirect(buf, at, ByteWidth(w)).value == v.bits
  {
    StoredReads(buf, at, v.Field(at), w);
  }

  lemma InlineReads(buf: seq<Byte>, at: nat, v: Value, w: BitWidth, t: Tree, r: Reference)
    requires at + ByteWidth(w) <= |buf| && Denotes(buf, v, t) && v.kind.Inline() && v.minWidth <= w
    requires buf[at..at + ByteWidth(w)] == WriteLE(v.bits, ByteWidth(w))
    requires r.data == at && r.parentWidth == ByteWidth(w) && r.kind == v.kind.Code()
    ensures Reads(buf, r, t)
  {
    StoredReads(buf, at, v.bits, w);
    LimitsGrow(v.minWidth, w);
    if t.TInt? {
      SignSurvives(t.i, w);
    }
  }

  /** A value written at `at` with a width it fits is read back through a reference to `at`. */
  lemma FieldReads(buf: seq<Byte>, at: nat, v: Value, w: BitWidth, t: Tree, r: Reference)
    requires at + ByteWidth(w) <= |buf| && Denotes(buf, v, t) && FitsAt(v, at, w)
    requires buf[at..at + ByteWidth(w)] == WriteLE(v.Field(at), ByteWidth(w))
    requires r.data == at && r.parentWidth == ByteWidth(w) && r.kind == v.kind.Code()
    requires !v.kind.Inline() ==> r.byteWidth == ByteWidth(v.minWidth)
    ensures Reads(buf, r, t)
  {
    if v.kind.Inline() {
      InlineReads(buf, at, v, w, t, r);
    } else {
      OffsetReads(buf, at, v, w);
    }
  }

  // ----- blobs -----

  lemma AppendReads(front: seq<Byte>, x: nat, w: BitWidth, more: seq<Byte>)
    requires x < Limit(w)
    ensures var sized := front + WriteLE(x, ByteWidth(w));
            ReadScalar(sized + more, |sized| - ByteWidth(w), ByteWidth(w)) == Some(x)
  {
    var n := ByteWidth(w);
    var all := front + WriteLE(x, n) + more;
    assert all[|front|..|front| + n] == WriteLE(x, n);
    ReadWritten(all, |front|, x, n);
  }

  lemma BlobIsSized(buf: seq<Byte>, data: seq<Byte>, trailing: nat, kind: Kind)
    requires !kind.Inline() && |data| < SIZE_T
    ensures var (r, v) := CreateBlob(buf, data, trailing, kind);
            && buf <= r && v.kind == kind && v.Valid(|r|) && SizedAt(r, v.bits, v.minWidth, data)
  {
    var w := WidthU(|data|);
    var sized := Align(buf, w) + WriteLE(|data|, ByteWidth(w));
    var r := sized + (data + Zeros(trailing));
    AppendReads(Align(buf, w), |data|, w, data + Zeros(trailing));
    assert r[|sized|..|sized| + |data|] == data;
  }

  // ----- vectors -----

  lemma {:induction false} ElemsExtend(buf: seq<Byte>, vs: seq<Value>, w: BitWidth)
    requires AllValid(vs, |buf|)
    ensures buf <= WriteElems(buf, vs, w)
  {
    if vs != [] {
      ElemsExtend(buf, vs[..|vs| - 1], w);
    }
  }

  /** Element `k` lies `k` widths after the start. */
  lemma {:induction false} ElemWritten(buf: seq<Byte>, vs: seq<Value>, w: BitWidth, k: nat, at: nat)
    requires AllValid(vs, |buf|) && k < |vs| && at == |buf| + k * ByteWidth(w)
    ensures at + ByteWidth(w) <= |WriteElems(buf, vs, w)| && vs[k].Valid(at)
    ensures WriteElems(buf, vs, w)[at..at + ByteWidth(w)] == WriteLE(vs[k].Field(at), ByteWidth(w))
  {
    var n := |vs| - 1;
    var front := WriteElems(buf, vs[..n], w);
    var last := WriteLE(vs[n].Field(|front|), ByteWidth(w));
    TimesNext(n, ByteWidth(w));
    assert WriteElems(buf, vs, w) == front + last;
    if k < n {
      ElemWritten(buf, vs[..n], w, k, at);
      SliceStays(front, last, at, at + ByteWidth(w));
    } else {
      assert at == |front|;
      assert (front + last)[at..at + ByteWidth(w)] == last;
    }
  }

  lemma {:induction false} TypeWritten(vs: seq<Value>, w: BitWidth, k: nat)
    requires k < |vs|
    ensures PackedTypes(vs, w)[k] == vs[k].Packed(w)
  {
    if k < |vs| - 1 {
      TypeWritten(vs[..|vs| - 1], w, k);
    }
  }

  ghost predicate AllDenote(buf: seq<Byte>, vs: seq<Value>, ts: seq<Tree>) {
    && |vs| == |ts|
    && forall k {:trigger Denotes(buf, vs[k], ts[k])} :: 0 <= k < |vs| ==> Denotes(buf, vs[k], ts[k])
  }

  lemma AllDenoteStays(buf: seq<Byte>, more: seq<Byte>, vs: seq<Value>, ts: seq<Tree>)
    requires AllDenote(buf, vs, ts)
    ensures AllDenote(buf + more, vs, ts)
  {
    forall k | 0 <= k < |vs|
      ensures Denotes(buf + more, vs[k], ts[k])
    {
      DenotesStays(buf, more, vs[k], ts[k]);
    }
  }

  /** The finished vector's bytes: where its elements and their types are. */
  lemma ElementLies(sized: seq<Byte>, vs: seq<Value>, w: BitWidth, k: nat, at: nat)
    requires AllValid(vs, |sized|) && k < |vs| && at == |sized| + k * ByteWidth(w)
    ensures var r := WriteElems(sized, vs, w) + PackedTypes(vs, w);
            && at + ByteWidth(w) <= |r| && vs[k].Valid(at)
            && r[at..at + ByteWidth(w)] == WriteLE(vs[k].Field(at), ByteWidth(w))
            && ElementAt(r, |sized|, |vs|, ByteWidth(w), k) ==
               Some(Reference(at, ByteWidth(w), ByteWidth(vs[k].StoredWidth(w)), vs[k].kind.Code()))
  {
    var elems := WriteElems(sized, vs, w);
    ElemWritten(sized, vs, w, k, at);
    SliceStays(elems, PackedTypes(vs, w), at, at + ByteWidth(w));
    TypeLies(elems, |sized|, vs, w, k, at);
  }

  lemma SliceStays(front: seq<Byte>, more: seq<Byte>, lo: nat, hi: nat)
    requires lo <= hi <= |front|
    ensures (front + more)[lo..hi] == front[lo..hi]
  {
  }

  lemma TypeLies(elems: seq<Byte>, start: nat, vs: seq<Value>, w: BitWidth, k: nat, at: nat)
    requires k < |vs| && |elems| == start + |vs| * ByteWidth(w) && at == start + k * ByteWidth(w)
    ensures ElementAt(elems + PackedTypes(vs, w), start, |vs|, ByteWidth(w), k) ==
            Some(Reference(at, ByteWidth(w), ByteWidth(vs[k].StoredWidth(w)), vs[k].kind.Code()))
  {
    TypeWritten(vs, w, k);
    assert (elems + PackedTypes(vs, w))[|elems| + k] == vs[k].Packed(w);
    PackedReads(vs[k], w, at, ByteWidth(w));
  }

  lemma ElementIsRead(sized: seq<Byte>, vs: seq<Value>, w: BitWidth, k: nat, at: nat, t: Tree)
    requires AllValid(vs, |sized|) && k < |vs| && at == |sized| + k * ByteWidth(w)
    requires FitsAt(vs[k], at, w)
    requires Denotes(WriteElems(sized, vs, w) + PackedTypes(vs, w), vs[k], t)
    ensures ElementReads(WriteElems(sized, vs, w) + PackedTypes(vs, w), |sized|, |vs|, ByteWidth(w), k, t)
  {
    var r := WriteElems(sized, vs, w) + PackedTypes(vs, w);
    ElementLies(sized, vs, w, k, at);
    FieldReads(r, at, vs[k], w, t, ElementAt(r, |sized|, |vs|, ByteWidth(w), k).value);
  }

  lemma ElementsAreRead(buf: seq<Byte>, vs: seq<Value>, ts: seq<Tree>, w: BitWidth, sized: seq<Byte>)
    requires AllDenote(buf, vs, ts) && AllValid(vs, |buf|) && buf <= sized && |sized| == OffsetLoc(|buf|, 1, w)
    requires ElementsFit(vs, |buf|, 1, w)
    ensures ElementsRead(WriteElems(sized, vs, w) + PackedTypes(vs, w), |sized|, |vs|, ByteWidth(w), ts)
  {
    var r := WriteElems(sized, vs, w) + PackedTypes(vs, w);
    ElemsExtend(sized, vs, w);
    var more := r[|buf|..];
    assert r == buf + more;
    AllDenoteStays(buf, more, vs, ts);
    forall k | 0 <= k < |ts|
      ensures ElementReads(r, |sized|, |vs|, ByteWidth(w), k, ts[k])
    {
      assert Denotes(r, vs[k], ts[k]);
      TimesNext(k, ByteWidth(w));
      ElementIsRead(sized, vs, w, k, |sized| + k * ByteWidth(w), ts[k]);
    }
  }

  lemma VectorExtends(buf: seq<Byte>, sized: seq<Byte>, vs: seq<Value>, w: BitWidth)
    requires AllValid(vs, |sized|) && buf <= sized
    ensures buf <= sized <= WriteElems(sized, vs, w) + PackedTypes(vs, w)
  {
    ElemsExtend(sized, vs, w);
  }

  lemma VectorHolds(buf: seq<Byte>, vs: seq<Value>, ts: seq<Tree>, w: BitWidth, sized: seq<Byte>)
    requires AllDenote(buf, vs, ts) && AllValid(vs, |buf|) && |vs| < Limit(w)
    requires sized == Align(buf, w) + WriteLE(|vs|, ByteWidth(w))
    requires ElementsFit(vs, |buf|, 1, w)
    ensures var r := WriteElems(sized, vs, w) + PackedTypes(vs, w);
            buf <= r && |sized| <= |r| && VectorAt(r, |sized|, w, ts)
  {
    var r := WriteElems(sized, vs, w) + PackedTypes(vs, w);
    ElementsAreRead(buf, vs, ts, w, sized);
    VectorExtends(buf, sized, vs, w);
    SizeReads(Align(buf, w), |vs|, w, r);
  }

  lemma SizeReads(front: seq<Byte>, n: nat, w: BitWidth, r: seq<Byte>)
    requires n < Limit(w) && front + WriteLE(n, ByteWidth(w)) <= r
    ensures ReadScalar(r, |front|, ByteWidth(w)) == Some(n)
  {
    var sized := front + WriteLE(n, ByteWidth(w));
    assert r == sized + r[|sized|..];
    AppendReads(front, n, w, r[|sized|..]);
  }

  /** A vector of values that denote trees denotes the vector of these trees. */
  lemma VectorDenotes(buf: seq<Byte>, vs: seq<Value>, ts: seq<Tree>, forced: BitWidth)
    requires AllDenote(buf, vs, ts) && AllValid(vs, |buf|) && VectorAddressable(|buf|, |vs|, 1)
    ensures var (r, v) := CreateVector(buf, vs, 1, forced, None);
            buf <= r && Denotes(r, v, TVector(ts))
  {
    var w := VectorWidth(|buf|, vs, 1, forced, None);
    WidthSuffices(|buf|, vs, 1, forced, None);
    VectorHolds(buf, vs, ts, w, Align(buf, w) + WriteLE(|vs|, ByteWidth(w)));
  }

  // ----- whole trees -----

  /** What the builder's calls for a tree leave: the buffer, and one value on the stack. */
  function Build(buf: seq<Byte>, forced: BitWidth, t: Tree): (r: (seq<Byte>, Value))
    requires t.Fits()
    ensures r.1.Valid(|r.0|) && |r.0| >= |buf|
    decreases t
  {
    match t
    case TNull => (buf, Value(0, Null, 0))
    case TBool(b) => (buf, Value(if b then 1 else 0, Bool, 0))
    case TInt(i) => (buf, Value(Pattern(i), Int, WidthI(i)))
    case TUInt(u) => (buf, Value(u, UInt, WidthU(u)))
    case TString(s) => CreateBlob(buf, s, 1, String)
    case TBlob(s) => CreateBlob(buf, s, 0, Blob)
    case TVector(ts) => BuildVector(buf, forced, ts)
  }

  /** Its elements, then `EndVector`. */
  function BuildVector(buf: seq<Byte>, forced: BitWidth, ts: seq<Tree>): (r: (seq<Byte>, Value))
    requires forall k :: 0 <= k < |ts| ==> ts[k].Fits()
    ensures r.1.Valid(|r.0|) && |r.0| >= |buf|
    decreases ts, 1
  {
    var (b, vs) := BuildAll(buf, forced, ts);
    CreateVector(b, vs, 1, forced, None)
  }

  function BuildAll(buf: seq<Byte>, forced: BitWidth, ts: seq<Tree>): (r: (seq<Byte>, seq<Value>))
    requires forall k :: 0 <= k < |ts| ==> ts[k].Fits()
    ensures |r.1| == |ts| && AllValid(r.1, |r.0|) && |r.0| >= |buf|
    decreases ts, 0
  {
    if ts == [] then (buf, [])
    else
      var n := |ts| - 1;
      var (b, vs) := BuildAll(buf, forced, ts[..n]);
      var (b', v) := Build(b, forced, ts[n]);
      (b', vs + [v])
  }

  /** Below this size no offset computation wraps around 64 bits. */
  const MAX_FLEX: nat := 0x0800_0000_0000_0000

  lemma {:induction false} BuildDenotes(buf: seq<Byte>, forced: BitWidth, t: Tree)
    requires t.Fits() && |Build(buf, forced, t).0| < MAX_FLEX
    ensures var (r, v) := Build(buf, forced, t); buf <= r && Denotes(r, v, t)
    decreases t
  {
    match t {
      case TString(s) => BlobFits(buf, s, 1, String); BlobIsSized(buf, s, 1, String);
      case TBlob(s) => BlobFits(buf, s, 0, Blob); BlobIsSized(buf, s, 0, Blob);
      case TVector(ts) =>
        var (b, vs) := BuildAll(buf, forced, ts);
        BuildAllDenotes(buf, forced, ts);
        VectorDenotes(b, vs, ts, forced);
      case _ =>
    }
  }

  lemma BlobFits(buf: seq<Byte>, data: seq<Byte>, trailing: nat, kind: Kind)
    requires !kind.Inline()
    ensures |CreateBlob(buf, data, trailing, kind).0| >= |data|
  {
  }

  lemma OneMoreDenotes(b: seq<Byte>, r: seq<Byte>, vs: seq<Value>, ts: seq<Tree>, v: Value, t: Tree)
    requires b <= r && AllDenote(b, vs, ts) && Denotes(r, v, t)
    ensures AllDenote(r, vs + [v], ts + [t])
  {
    assert r == b + r[|b|..];
    AllDenoteStays(b, r[|b|..], vs, ts);
    forall k | 0 <= k <= |vs|
      ensures Denotes(r, (vs + [v])[k], (ts + [t])[k])
    {
      if k < |vs| {
        assert Denotes(r, vs[k], ts[k]);
      }
    }
  }

  lemma {:induction false} BuildAllDenotes(buf: seq<Byte>, forced: BitWidth, ts: seq<Tree>)
    requires (forall k :: 0 <= k < |ts| ==> ts[k].Fits()) && |BuildAll(buf, forced, ts).0| < MAX_FLEX
    ensures var (r, vs) := BuildAll(buf, forced, ts); buf <= r && AllDenote(r, vs, ts)
    decreases ts
  {
    if ts != [] {
      var n := |ts| - 1;
      var (b, vs) := BuildAll(buf, forced, ts[..n]);
      var (r, v) := Build(b, forced, ts[n]);
      BuildAllDenotes(buf, forced, ts[..n]);
      BuildDenotes(b, forced, ts[n]);
      OneMoreDenotes(b, r, vs, ts[..n], v, ts[n]);
      assert ts == ts[..n] + [ts[n]];
    }
  }

  /**
    Every finite tree of nulls, booleans, integers, strings, blobs and untyped
    vectors, built and finished, is what the accessors give back from the root.
   */
  lemma TreeRoundTrip(forced: BitWidth, t: Tree)
    requires t.Fits() && |Build([], forced, t).0| < MAX_FLEX
    ensures var (b, v) := Build([], forced, t);
            var root := GetRoot(Finish(b, v));
            root.Some? && Reads(Finish(b, v), root.value, t)
  {
    var (b, v) := Build([], forced, t);
    BuildDenotes([], forced, t);
    RootReads(b, v, t);
  }

  lemma RootReads(buf: seq<Byte>, v: Value, t: Tree)
    requires Denotes(buf, v, t) && |buf| < MAX_FLEX
    ensures var root := GetRoot(Finish(buf, v)); root.Some? && Reads(Finish(buf, v), root.value, t)
  {
    var w := v.ElemWidth(|buf|, 0);
    var aligned := Align(buf, w);
    var r := Finish(buf, v);
    ElemFits(v, |buf|, 0, 0, w);
    assert r[|aligned|..|aligned| + ByteWidth(w)] == WriteLE(v.Field(|aligned|), ByteWidth(w));
    PackedReads(v, 0, |aligned|, ByteWidth(w));
    assert r == buf + r[|buf|..];
    DenotesStays(buf, r[|buf|..], v, t);
    FieldReads(r, |aligned|, v, w, t, GetRoot(r).value);
  }
}
