/** Two stacks sharing one growing buffer (vector_downward.h, allocator.h). */
module Downward {
  import opened Bytes

  /** The smallest multiple of `align` that is at least `n`. */
  function RoundUp(n: nat, align: nat): (r: nat)
    requires align > 0
    ensures n <= r < n + align
  {
    n + PaddingBytes(n, align)
  }

  /** The capacity that `reallocate` chooses to make room for `len` more bytes: the next multiple of the alignment. */
  function GrownCapacity(reserved: nat, len: nat, initialSize: nat, align: nat): (r: nat)
    requires align > 0
    ensures r >= reserved + len && r >= reserved + (if reserved != 0 then reserved / 2 else initialSize)
    ensures r < reserved + len + align || r < reserved + (if reserved != 0 then reserved / 2 else initialSize) + align
    ensures r % align == 0
  {
    var step := if reserved != 0 then reserved / 2 else initialSize;
    var wanted := reserved + if len > step then len else step;
    PaddingAligns(wanted, align);
    RoundUp(wanted, align)
  }

  lemma PatchHead(data: seq<Byte>, s: seq<Byte>)
    requires |s| <= |data|
    ensures Patch(data, 0, s) == s + data[|s|..]
  {
  }

  /**
    `buf[cur..]` holds the data stack, which grows towards lower indices, and
    `buf[..scratch]` the scratch stack, which grows towards higher ones.
    Pointers of the source are indices into `buf` here.
   */
  class VectorDownward {
    const initialSize: nat
    const bufferMinalign: nat
    var reserved: nat
    var size: nat
    var buf: array?<Byte>
    var cur: nat
    var scratch: nat

    ghost predicate Valid()
      reads this
    {
      && bufferMinalign > 0
      && scratch <= cur
      && cur + size == reserved
      && (if buf == null then reserved == 0 else buf.Length == reserved)
    }

    ghost function Repr(): set<object>
      reads this
    {
      if buf == null then {this} else {this, buf}
    }

    /** The data bytes, lowest address first. */
    ghost function Data(): (s: seq<Byte>)
      requires Valid()
      reads this, buf
      ensures |s| == size
    {
      if buf == null then [] else buf[cur..]
    }

    ghost function Scratch(): (s: seq<Byte>)
      requires Valid()
      reads this, buf
      ensures |s| == scratch
    {
      if buf == null then [] else buf[..scratch]
    }

    constructor (initialSize: nat, bufferMinalign: nat)
      requires bufferMinalign > 0
      ensures Valid() && fresh(Repr())
      ensures Data() == [] && Scratch() == []
    {
      this.initialSize, this.bufferMinalign := initialSize, bufferMinalign;
      reserved, size, cur, scratch := 0, 0, 0, 0;
      buf := null;
    }

    /** Moves both stacks into a larger buffer that has at least `len` free bytes. */
    method Reallocate(len: nat)
      requires Valid() && len > 0
      modifies this
      ensures Valid() && fresh(Repr() - {this})
      ensures Data() == old(Data()) && Scratch() == old(Scratch())
      ensures cur - scratch >= len && reserved > old(reserved)
      ensures reserved % bufferMinalign == 0
      ensures reserved == GrownCapacity(old(reserved), len, initialSize, bufferMinalign)
    {
      var oldReserved := reserved;
      var oldSize := size;
      var oldScratchSize := scratch;
      reserved := GrownCapacity(oldReserved, len, initialSize, bufferMinalign);
      var newBuf := new Byte[reserved];
      if buf != null {
        MemcpyDownward(buf, newBuf, oldSize, oldScratchSize);
      }
      buf := newBuf;
      cur := reserved - oldSize;
      scratch := oldScratchSize;
    }

    /** Copies the two ends of the old region to the two ends of the new one. */
    static method MemcpyDownward(oldP: array<Byte>, newP: array<Byte>, inUseBack: nat, inUseFront: nat)
      requires oldP != newP && oldP.Length < newP.Length
      requires inUseBack + inUseFront <= oldP.Length
      modifies newP
      ensures newP[newP.Length - inUseBack..] == oldP[oldP.Length - inUseBack..]
      ensures newP[..inUseFront] == oldP[..inUseFront]
    {
      forall i | 0 <= i < inUseBack {
        newP[newP.Length - inUseBack + i] := oldP[oldP.Length - inUseBack + i];
      }
      forall i | 0 <= i < inUseFront {
        newP[i] := oldP[i];
      }
    }

    method EnsureSpace(len: nat)
      requires Valid()
      modifies this
      ensures Valid() && fresh(Repr() - old(Repr()))
      ensures Data() == old(Data()) && Scratch() == old(Scratch())
      ensures cur - scratch >= len
    {
      if len > cur - scratch {
        Reallocate(len);
      }
    }

    /** Grows the data stack by `len` bytes of unspecified value. */
    method MakeSpace(len: nat)
      requires Valid()
      modifies this
      ensures Valid() && fresh(Repr() - old(Repr()))
      ensures |Data()| == len + |old(Data())| && Data()[len..] == old(Data())
      ensures Scratch() == old(Scratch())
      ensures len > 0 ==> buf != null
    {
      if len > 0 {
        EnsureSpace(len);
        cur := cur - len;
        size := size + len;
      }
    }

    /** Overwrites data bytes in place, `at` bytes above the top of the data stack. */
    method Poke(at: nat, bytes: seq<Byte>)
      requires Valid() && at + |bytes| <= size
      modifies this, buf
      ensures Valid() && Repr() == old(Repr())
      ensures Data() == Patch(old(Data()), at, bytes)
      ensures Scratch() == old(Scratch())
    {
      if bytes != [] {
        forall i | 0 <= i < |bytes| {
          buf[cur + at + i] := bytes[i];
        }
      }
    }

    method Push(bytes: seq<Byte>)
      requires Valid()
      modifies this, buf
      ensures Valid() && fresh(Repr() - old(Repr()))
      ensures Data() == bytes + old(Data())
      ensures Scratch() == old(Scratch())
    {
      if |bytes| > 0 {
        MakeSpace(|bytes|);
        ghost var grown := Data();
        Poke(0, bytes);
        PatchHead(grown, bytes);
      }
    }

    /** `push_small` of a little-endian scalar of `n` bytes. */
    method PushSmall(v: nat, n: nat)
      requires Valid()
      modifies this, buf
      ensures Valid() && fresh(Repr() - old(Repr()))
      ensures Data() == WriteLE(v, n) + old(Data())
      ensures Scratch() == old(Scratch())
    {
      MakeSpace(n);
      ghost var grown := Data();
      Poke(0, WriteLE(v, n));
      PatchHead(grown, WriteLE(v, n));
    }

    method Fill(zeroPadBytes: nat)
      requires Valid()
      modifies this, buf
      ensures Valid() && fresh(Repr() - old(Repr()))
      ensures Data() == Zeros(zeroPadBytes) + old(Data())
      ensures Scratch() == old(Scratch())
    {
      MakeSpace(zeroPadBytes);
      ghost var rest := Data()[zeroPadBytes..];
      for i := 0 to zeroPadBytes
        invariant Valid() && Scratch() == old(Scratch())
        invariant fresh(Repr() - old(Repr()))
        invariant zeroPadBytes > 0 ==> buf != null
        invariant size == zeroPadBytes + |rest| && Data()[zeroPadBytes..] == rest
        invariant Data()[..i] == Zeros(i)
      {
        buf[cur + i] := 0;
        assert Data()[..i + 1] == Data()[..i] + [0];
        assert Zeros(i + 1) == Zeros(i) + [0];
        assert Data()[zeroPadBytes..] == rest;
      }
      assert Data() == Data()[..zeroPadBytes] + Data()[zeroPadBytes..];
    }

    method Pop(bytesToRemove: nat)
      requires Valid() && bytesToRemove <= size
      modifies this
      ensures Valid() && Repr() == old(Repr())
      ensures Data() == old(Data())[bytesToRemove..]
      ensures Scratch() == old(Scratch())
    {
      cur := cur + bytesToRemove;
      size := size - bytesToRemove;
    }

    method ScratchPushSmall(bytes: seq<Byte>)
      requires Valid()
      modifies this, buf
      ensures Valid() && fresh(Repr() - old(Repr()))
      ensures Scratch() == old(Scratch()) + bytes
      ensures Data() == old(Data())
    {
      EnsureSpace(|bytes|);
      if bytes != [] {
        forall i | 0 <= i < |bytes| {
          buf[scratch + i] := bytes[i];
        }
        scratch := scratch + |bytes|;
      }
    }

    method ScratchPop(bytesToRemove: nat)
      requires Valid() && bytesToRemove <= scratch
      modifies this
      ensures Valid() && Repr() == old(Repr())
      ensures Scratch() == old(Scratch())[..old(scratch) - bytesToRemove]
      ensures Data() == old(Data())
    {
      scratch := scratch - bytesToRemove;
    }

    method ClearScratch()
      requires Valid()
      modifies this
      ensures Valid() && Repr() == old(Repr())
      ensures Scratch() == [] && Data() == old(Data())
    {
      scratch := 0;
    }

    /** `n` bytes of the data stack starting `offset` bytes before its end (`data_at`). */
    method DataAt(offset: nat, n: nat) returns (bytes: seq<Byte>)
      requires Valid() && n <= offset <= size
      ensures bytes == Data()[size - offset..size - offset + n]
    {
      bytes := if buf == null then [] else buf[reserved - offset..reserved - offset + n];
    }

    method ScratchAt(at: nat, n: nat) returns (bytes: seq<Byte>)
      requires Valid() && at + n <= scratch
      ensures bytes == Scratch()[at..at + n]
    {
      bytes := if buf == null then [] else buf[at..at + n];
    }
  }
}
