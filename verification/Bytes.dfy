/** Little-endian scalars over byte strings (base.h: ReadScalar, WriteScalar, PaddingBytes). */
module Bytes {
  import opened Wrappers

  type Byte = b: int | 0 <= b < 256

  const SIZE_T: int := 0x1_0000_0000_0000_0000
  const U32: int := 0x1_0000_0000
  const I32: int := 0x8000_0000

  /** FLATBUFFERS_MAX_BUFFER_SIZE, the largest soffset_t. */
  const MAX_BUFFER_SIZE: nat := 0x7fff_ffff

  function Pow256(n: nat): (r: nat)
    ensures r >= 1
  {
    if n == 0 then 1 else 256 * Pow256(n - 1)
  }

  lemma Pow256Values()
    ensures Pow256(1) == 0x100
    ensures Pow256(2) == 0x1_0000
    ensures Pow256(4) == U32
    ensures Pow256(8) == SIZE_T
  {
    assert Pow256(2) == 256 * Pow256(1);
    assert Pow256(3) == 256 * Pow256(2);
    assert Pow256(4) == 256 * Pow256(3);
    assert Pow256(5) == 256 * Pow256(4);
    assert Pow256(6) == 256 * Pow256(5);
    assert Pow256(7) == 256 * Pow256(6);
  }

  function Zeros(n: nat): (s: seq<Byte>)
    ensures |s| == n
  {
    seq(n, _ => 0)
  }

  /**
    The low `n` bytes of `v`, least significant first. Writing and reading are
    split into two mutually recursive steps, so that proofs that only move
    scalars around do not unfold them; the lemmas below say what they compute.
   */
  function WriteLE(v: nat, n: nat): (s: seq<Byte>)
    ensures |s| == n
    decreases n, 1
  {
    WriteBytes(v, n)
  }

  function WriteBytes(v: nat, n: nat): (s: seq<Byte>)
    ensures |s| == n
    decreases n, 0
  {
    if n == 0 then [] else [v % 256] + WriteLE(v / 256, n - 1)
  }

  function ReadLE(s: seq<Byte>): nat
    decreases |s|, 1
  {
    ReadBytes(s)
  }

  function ReadBytes(s: seq<Byte>): nat
    decreases |s|, 0
  {
    if s == [] then 0 else s[0] + 256 * ReadLE(s[1..])
  }

  lemma WriteStep(v: nat, n: nat)
    requires n > 0
    ensures WriteLE(v, n) == [v % 256] + WriteLE(v / 256, n - 1)
  {
  }

  lemma ReadStep(s: seq<Byte>)
    requires s != []
    ensures ReadLE(s) == s[0] + 256 * ReadLE(s[1..])
  {
  }

  lemma {:induction false} ReadLEBound(s: seq<Byte>)
    ensures ReadLE(s) < Pow256(|s|)
  {
    if s != [] {
      ReadStep(s);
      ReadLEBound(s[1..]);
    }
  }

  lemma {:induction false} DivModStep(v: nat, m: nat)
    requires m >= 1
    ensures v % (256 * m) == v % 256 + 256 * ((v / 256) % m)
    ensures v / (256 * m) == v / 256 / m
  {
    var q, r := (v / 256) / m, (v / 256) % m;
    assert v / 256 == m * q + r;
    assert v == 256 * (m * q + r) + v % 256;
    assert 256 * (m * q + r) == (256 * m) * q + 256 * r;
    ModUnique(v, 256 * m, q, v % 256 + 256 * r);
  }

  lemma ModUnique(v: nat, d: nat, q: nat, r: nat)
    requires d >= 1 && v == d * q + r && r < d
    ensures v % d == r && v / d == q
  {
    MulGap(d, q - v / d);
    MulGap(d, v / d - q);
    assert d * (q - v / d) == v % d - r;
  }

  lemma SumOfMultiples(x: nat, y: nat, d: nat)
    requires d > 0 && x % d == 0 && y % d == 0
    ensures (x + y) % d == 0
  {
    assert x + y == d * (x / d + y / d);
    ModUnique(x + y, d, x / d + y / d, 0);
  }

  lemma DifferenceOfMultiples(x: nat, y: nat, d: nat)
    requires d > 0 && x % d == 0 && y % d == 0 && y <= x
    ensures (x - y) % d == 0
  {
    MulGap(d, y / d - x / d);
    assert x - y == d * (x / d - y / d);
    ModUnique(x - y, d, x / d - y / d, 0);
  }

  lemma MultipleOfMultiple(x: nat, d: nat, e: nat)
    requires d > 0 && e > 0 && x % d == 0 && d % e == 0
    ensures x % e == 0
  {
    assert x == e * ((d / e) * (x / d));
    ModUnique(x, e, (d / e) * (x / d), 0);
  }

  lemma MulGap(d: nat, k: int)
    ensures k >= 1 ==> d * k >= d
    ensures d * -k == -(d * k)
  {
  }

  /** Byte `i` counts the 256^i. */
  lemma {:induction false} ByteAt(v: nat, n: nat, i: nat)
    requires i < n
    ensures WriteLE(v, n)[i] == v / Pow256(i) % 256
  {
    WriteStep(v, n);
    if i > 0 {
      ByteAt(v / 256, n - 1, i - 1);
      DivModStep(v, Pow256(i - 1));
    }
  }

  /** Writing and reading back keeps exactly the value's low bytes. */
  lemma {:induction false} WriteRead(v: nat, n: nat)
    ensures ReadLE(WriteLE(v, n)) == v % Pow256(n)
  {
    if n > 0 {
      WriteStep(v, n);
      ReadStep(WriteLE(v, n));
      WriteRead(v / 256, n - 1);
      assert WriteLE(v, n)[1..] == WriteLE(v / 256, n - 1);
      DivModStep(v, Pow256(n - 1));
    }
  }

  /** Bytes are determined by their length and value. */
  lemma {:induction false} ReadWrite(s: seq<Byte>)
    ensures WriteLE(ReadLE(s), |s|) == s
  {
    if s != [] {
      ReadStep(s);
      WriteStep(ReadLE(s), |s|);
      ReadWrite(s[1..]);
      ModUnique(ReadLE(s), 256, ReadLE(s[1..]), s[0]);
      assert s == [s[0]] + s[1..];
    }
  }

  /** The value of a 32-bit two's complement pattern, and back. */
  function ToSigned32(u: nat): int {
    if u < I32 then u else u - U32
  }

  function FromSigned32(i: int): (u: nat)
    ensures u < U32
  {
    i % U32
  }

  lemma SignedRoundTrip(i: int)
    requires -I32 <= i < I32
    ensures ToSigned32(FromSigned32(i)) == i
  {
    if i < 0 {
      assert (i + U32) % U32 == i % U32;
    }
  }

  /** Reads `n` bytes at `p`; `None` when they do not all lie in the buffer. */
  function ReadScalar(buf: seq<Byte>, p: int, n: nat): Option<nat> {
    if 0 <= p && p + n <= |buf| then Some(ReadLE(buf[p..p + n])) else None
  }

  predicate BytesAt(buf: seq<Byte>, p: nat, s: seq<Byte>) {
    p + |s| <= |buf| && buf[p..p + |s|] == s
  }

  lemma BytesUnderPrefix(pre: seq<Byte>, buf: seq<Byte>, p: nat, s: seq<Byte>)
    requires BytesAt(buf, p, s)
    ensures BytesAt(pre + buf, |pre| + p, s)
  {
    assert (pre + buf)[|pre| + p..|pre| + p + |s|] == buf[p..p + |s|];
  }

  /** Overwrites the bytes of `buf` from `p` on. */
  function Patch(buf: seq<Byte>, p: nat, s: seq<Byte>): (r: seq<Byte>)
    requires p + |s| <= |buf|
    ensures |r| == |buf|
  {
    buf[..p] + s + buf[p + |s|..]
  }

  /** How many bytes to add to `bufSize` to reach a multiple of `scalarSize`. */
  function PaddingBytes(bufSize: nat, scalarSize: nat): (p: nat)
    requires scalarSize > 0
    ensures p < scalarSize
  {
    (scalarSize - bufSize % scalarSize) % scalarSize
  }

  lemma PaddingAligns(bufSize: nat, scalarSize: nat)
    requires scalarSize > 0
    ensures (bufSize + PaddingBytes(bufSize, scalarSize)) % scalarSize == 0
  {
    var q, r := bufSize / scalarSize, bufSize % scalarSize;
    assert bufSize == scalarSize * q + r;
    if r == 0 {
      assert PaddingBytes(bufSize, scalarSize) == 0;
    } else {
      ModUnique(scalarSize - r, scalarSize, 0, scalarSize - r);
      assert bufSize + PaddingBytes(bufSize, scalarSize) == scalarSize * (q + 1);
      ModUnique(scalarSize * (q + 1), scalarSize, q + 1, 0);
    }
  }

  /** And no smaller padding does. */
  lemma PaddingIsLeast(bufSize: nat, scalarSize: nat, p: nat)
    requires scalarSize > 0 && (bufSize + p) % scalarSize == 0
    ensures PaddingBytes(bufSize, scalarSize) <= p
  {
    var least := PaddingBytes(bufSize, scalarSize);
    PaddingAligns(bufSize, scalarSize);
    if p < least {
      var d := least - p;
      DifferenceOfMultiples(bufSize + least, bufSize + p, scalarSize);
      assert (bufSize + least) - (bufSize + p) == d;
      ModUnique(d, scalarSize, 0, d);
    }
  }

  /** The source's mask expression, on 64-bit words, is the least such padding. */
  lemma PaddingMask(bufSize: bv64, scalarSize: bv64)
    requires scalarSize in {1, 2, 4, 8, 16, 32}
    ensures (bufSize + ((!bufSize + 1) & (scalarSize - 1))) & (scalarSize - 1) == 0
    ensures (!bufSize + 1) & (scalarSize - 1) < scalarSize
    ensures bufSize & (scalarSize - 1) == 0 ==> (!bufSize + 1) & (scalarSize - 1) == 0
  {
  }

  /** `data` is `base` with bytes added in front. */
  predicate EndsWith(data: seq<Byte>, base: seq<Byte>) {
    |base| <= |data| && data[|data| - |base|..] == base
  }

  lemma EndsWithPrefix(pre: seq<Byte>, base: seq<Byte>)
    ensures EndsWith(pre + base, base)
  {
  }

  // ----- reading under a prefix -----

  /** Prepending bytes moves every readable scalar by the length of the prefix. */
  lemma ReadUnderPrefix(pre: seq<Byte>, buf: seq<Byte>, p: int, n: nat)
    requires ReadScalar(buf, p, n).Some?
    ensures ReadScalar(pre + buf, |pre| + p, n) == ReadScalar(buf, p, n)
  {
    assert (pre + buf)[|pre| + p..|pre| + p + n] == buf[p..p + n];
  }

  /** Reading inside a slice is reading the whole at the slice's position. */
  lemma ReadSlice(buf: seq<Byte>, p: nat, n: nat, q: nat, k: nat)
    requires p + n <= |buf| && q + k <= n
    ensures ReadScalar(buf[p..p + n], q, k) == ReadScalar(buf, p + q, k)
  {
    var s := buf[p..p + n];
    var left, right := s[q..q + k], buf[p + q..p + q + k];
    forall i | 0 <= i < k
      ensures left[i] == right[i]
    {
      assert s[q + i] == buf[p + q + i];
    }
    assert left == right;
  }

  /** A scalar whose bytes are at `p` reads as itself. */
  lemma ReadWritten(buf: seq<Byte>, p: nat, v: nat, n: nat)
    requires v < Pow256(n) && p + n <= |buf| && buf[p..p + n] == WriteLE(v, n)
    ensures ReadScalar(buf, p, n) == Some(v)
  {
    WriteRead(v, n);
    ModUnique(v, Pow256(n), 0, v);
  }

  lemma ReadHead(v: nat, n: nat, rest: seq<Byte>)
    requires v < Pow256(n)
    ensures ReadScalar(WriteLE(v, n) + rest, 0, n) == Some(v)
  {
    assert (WriteLE(v, n) + rest)[0..n] == WriteLE(v, n);
    ReadWritten(WriteLE(v, n) + rest, 0, v, n);
  }
}
