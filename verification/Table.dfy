/** Reading a finished buffer from the front (table.h, buffer.h, vector.h). */
module Tables {
  import opened Wrappers
  import opened Bytes

  /** What a pointer-valued accessor returns: `nullptr`, or a position in the buffer. */
  datatype Pointer = Null | At(pos: int)

  function GetRoot(buf: seq<Byte>): Option<int> {
    var o :- ReadScalar(buf, 0, 4);
    Some(o)
  }

  function GetVTable(buf: seq<Byte>, table: int): Option<int> {
    var s :- ReadScalar(buf, table, 4);
    Some(table - ToSigned32(s))
  }

  /** The field's offset inside the table, 0 when the table does not have it. */
  function GetOptionalFieldOffset(buf: seq<Byte>, table: int, field: nat): Option<nat> {
    var vtable :- GetVTable(buf, table);
    var vtsize :- ReadScalar(buf, vtable, 2);
    if field < vtsize then ReadScalar(buf, vtable + field, 2) else Some(0)
  }

  function GetField(buf: seq<Byte>, table: int, field: nat, size: nat, defaultVal: nat): Option<nat> {
    var f :- GetOptionalFieldOffset(buf, table, field);
    if f != 0 then ReadScalar(buf, table + f, size) else Some(defaultVal)
  }

  function GetPointer(buf: seq<Byte>, table: int, field: nat): Option<Pointer> {
    var f :- GetOptionalFieldOffset(buf, table, field);
    if f != 0 then
      var o :- ReadScalar(buf, table + f, 4);
      Some(At(table + f + o))
    else Some(Null)
  }

  function VectorSize(buf: seq<Byte>, vec: int): Option<nat> {
    ReadScalar(buf, vec, 4)
  }

  /** `Vector<Offset<T>>::Get`: follows the offset stored in element `i`. */
  function GetIndirect(buf: seq<Byte>, vec: int, i: nat): Option<int> {
    var at := vec + 4 + 4 * i;
    var o :- ReadScalar(buf, at, 4);
    Some(at + o)
  }

  // ----- reading under a prefix -----

  lemma FieldOffsetUnderPrefix(pre: seq<Byte>, buf: seq<Byte>, table: int, field: nat)
    requires GetOptionalFieldOffset(buf, table, field).Some?
    ensures GetVTable(pre + buf, |pre| + table) == Some(|pre| + GetVTable(buf, table).value)
    ensures GetOptionalFieldOffset(pre + buf, |pre| + table, field) == GetOptionalFieldOffset(buf, table, field)
  {
    ReadUnderPrefix(pre, buf, table, 4);
    var vtable := GetVTable(buf, table).value;
    ReadUnderPrefix(pre, buf, vtable, 2);
    if field < ReadScalar(buf, vtable, 2).value {
      ReadUnderPrefix(pre, buf, vtable + field, 2);
    }
  }
}
