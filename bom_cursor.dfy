/** The byte cursor of `parse`: one mutable offset over the immutable input
    buffer, advanced by every read. Each reader is proved to return what the
    matching BomLayout function describes and to leave the cursor where that
    function says the field ends. */
module BomCursor {
  import opened BomWire
  import BomLayout

  class Cursor {
    /** The bytes the DataView covers. */
    const data: Bytes
    /** The `pos` variable the read helpers share. */
    var pos: nat

    ghost predicate Valid()
      reads this
    {
      pos <= |data|
    }

    constructor (buffer: Bytes)
      ensures Valid() && data == buffer && pos == 0
    {
      data := buffer;
      pos := 0;
    }

    method ReadUint8() returns (r: Result<uint8>)
      requires Valid()
      modifies this
      ensures Valid()
      ensures Agrees(r, pos, BomLayout.U8At(data, old(pos)))
    {
      if pos + 1 > |data| {
        return Err(Truncated);
      }
      r := Ok(data[pos]);
      pos := pos + 1;
    }

    method ReadUint16() returns (r: Result<uint16>)
      requires Valid()
      modifies this
      ensures Valid()
      ensures Agrees(r, pos, BomLayout.U16At(data, old(pos)))
    {
      if pos + 2 > |data| {
        return Err(Truncated);
      }
      r := Ok(Le16(data[pos], data[pos + 1]));
      pos := pos + 2;
    }

    method ReadUint32() returns (r: Result<uint32>)
      requires Valid()
      modifies this
      ensures Valid()
      ensures Agrees(r, pos, BomLayout.U32At(data, old(pos)))
    {
      if pos + 4 > |data| {
        return Err(Truncated);
      }
      r := Ok(Le32(data[pos], data[pos + 1], data[pos + 2], data[pos + 3]));
      pos := pos + 4;
    }

    method ReadFloat32() returns (r: Result<F32>)
      requires Valid()
      modifies this
      ensures Valid()
      ensures Agrees(r, pos, BomLayout.F32At(data, old(pos)))
    {
      if pos + 4 > |data| {
        return Err(Truncated);
      }
      r := Ok(Le32(data[pos], data[pos + 1], data[pos + 2], data[pos + 3]));
      pos := pos + 4;
    }

    /** `length` bytes as a string, one character per byte; an empty read never touches the buffer. */
    method ReadString(length: nat) returns (r: Result<Bytes>)
      requires Valid()
      modifies this
      ensures Valid()
      ensures Agrees(r, pos, BomLayout.StringAt(data, old(pos), length))
    {
      if length > 0 {
        if pos + length > |data| {
          return Err(Truncated);
        }
        r := Ok(data[pos..pos + length]);
      } else {
        r := Ok([]);
      }
      pos := pos + length;
    }

    /** An aligned cursor takes a view onto the buffer; an unaligned one copies element by element. */
    method ReadUint16Array(length: nat) returns (r: Result<seq<uint16>>)
      requires Valid()
      modifies this
      ensures Valid()
      ensures Agrees(r, pos, BomLayout.U16ArrayAt(data, old(pos), length))
    {
      var start, bytes := pos, data;
      if pos % 2 == 0 {
        // Aligned access
        if pos + 2 * length > |data| {
          return Err(Truncated);
        }
        var view := seq(length, i requires 0 <= i < length => Le16(bytes[start + 2 * i], bytes[start + 2 * i + 1]));
        assert view == BomLayout.U16ArrayAt(data, start, length).value.value;
        r := Ok(view);
        pos := pos + 2 * length;
        return;
      }
      // Unaligned access
      var value := new uint16[length];
      var i := 0;
      while i < length
        invariant 0 <= i <= length
        invariant pos == start + 2 * i <= |data|
        invariant forall k :: 0 <= k < i ==> value[k] == Le16(data[start + 2 * k], data[start + 2 * k + 1])
      {
        var element := ReadUint16();
        if element.Err? {
          return Err(element.error);
        }
        value[i] := element.value;
        i := i + 1;
      }
      assert value[..] == BomLayout.U16ArrayAt(data, start, length).value.value;
      r := Ok(value[..]);
    }

    /** An aligned cursor takes a view onto the buffer; an unaligned one copies element by element. */
    method ReadFloat32Array(length: nat) returns (r: Result<seq<F32>>)
      requires Valid()
      modifies this
      ensures Valid()
      ensures Agrees(r, pos, BomLayout.F32ArrayAt(data, old(pos), length))
    {
      var start, bytes := pos, data;
      if pos % 4 == 0 {
        // Aligned access
        if pos + 4 * length > |data| {
          return Err(Truncated);
        }
        var view := seq(length, i requires 0 <= i < length =>
          Le32(bytes[start + 4 * i], bytes[start + 4 * i + 1], bytes[start + 4 * i + 2], bytes[start + 4 * i + 3]));
        assert view == BomLayout.F32ArrayAt(data, start, length).value.value;
        r := Ok(view);
        pos := pos + 4 * length;
        return;
      }
      // Unaligned access
      var value := new F32[length];
      var i := 0;
      while i < length
        invariant 0 <= i <= length
        invariant pos == start + 4 * i <= |data|
        invariant forall k :: 0 <= k < i ==>
          value[k] == Le32(data[start + 4 * k], data[start + 4 * k + 1], data[start + 4 * k + 2], data[start + 4 * k + 3])
      {
        var element := ReadFloat32();
        if element.Err? {
          return Err(element.error);
        }
        value[i] := element.value;
        i := i + 1;
      }
      assert value[..] == BomLayout.F32ArrayAt(data, start, length).value.value;
      r := Ok(value[..]);
    }
  }
}
