/** The growing byte buffer `UnboundedBuffer`, as a queue of bytes. */
module UnboundedBuffers {
  import opened Bytes

  const SIZE_MAX: nat := 0xFFFF_FFFF_FFFF_FFFF
  const MAX_BUFFER_SIZE: nat := SIZE_MAX / 2

  /** The size the growth loop stops at: the first one with room for `need` bytes,
      or the first one above the limit. */
  function Grown(size: nat, need: nat): (r: nat)
    ensures r >= size && (size <= SIZE_MAX ==> r <= SIZE_MAX)
    ensures need <= MAX_BUFFER_SIZE + 1 ==> r >= need
    decreases if need > size then need - size else 0
  {
    if need <= size then size
    else if size < 64 then Grown(64, need)
    else if size <= MAX_BUFFER_SIZE then Grown(size + size / 2, need)
    else size
  }

  /** Growth at most adds half: the result stays below one and a half times the
      larger of the need and the old size, once past the first 64 bytes. */
  lemma {:induction false} GrownIsTight(size: nat, need: nat)
    ensures need > 64 && need >= size ==> 2 * Grown(size, need) < 3 * need + 1
    decreases if need > size then need - size else 0
  {
    if need > size {
      if size < 64 {
        GrownIsTight(64, need);
      } else if size <= MAX_BUFFER_SIZE && size + size / 2 <= need {
        GrownIsTight(size + size / 2, need);
      }
    }
  }

  class UnboundedBuffer {
    var readPos: nat
    var writePos: nat
    var buffer: seq<Byte>

    ghost predicate Valid()
      reads this
    {
      readPos <= writePos <= |buffer| <= SIZE_MAX
    }

    /** The bytes that were pushed and not yet read. */
    ghost function Contents(): seq<Byte>
      requires Valid()
      reads this
    {
      buffer[readPos..writePos]
    }

    constructor ()
      ensures Valid() && Contents() == []
    {
      readPos, writePos, buffer := 0, 0, [];
    }

    function ReadableSize(): (n: nat)
      requires Valid()
      reads this
      ensures n == |Contents()|
    {
      writePos - readPos
    }

    predicate IsEmpty()
      requires Valid()
      reads this
      ensures IsEmpty() <==> Contents() == []
    {
      ReadableSize() == 0
    }

    function WriteableSize(): nat
      requires Valid()
      reads this
    {
      |buffer| - writePos
    }

    method AdjustWritePtr(n: nat)
      requires Valid() && n <= WriteableSize()
      modifies this`writePos
      ensures Valid() && Contents() == old(Contents()) + buffer[old(writePos)..old(writePos) + n]
    {
      writePos := writePos + n;
    }

    method AdjustReadPtr(n: nat)
      requires Valid() && n <= ReadableSize()
      modifies this`readPos
      ensures Valid() && Contents() == old(Contents())[n..]
    {
      readPos := readPos + n;
    }

    /** Makes room for `n` bytes. The readable bytes stay; the room is there
        whenever the total is within the limit. */
    method AssureSpace(n: nat)
      requires Valid()
      modifies this
      ensures Valid() && Contents() == old(Contents())
      ensures ReadableSize() + n <= MAX_BUFFER_SIZE + 1 ==> n <= WriteableSize()
      ensures |buffer| == if n <= old(WriteableSize()) then old(|buffer|) else Grown(old(|buffer|), ReadableSize() + n)
      ensures n > old(WriteableSize()) ==> readPos == 0
    {
      if n <= WriteableSize() {
        return;
      }
      Grow(n);
      if readPos > 0 {
        var dataSize := ReadableSize();
        buffer := buffer[readPos..writePos] + buffer[dataSize..];
        readPos := 0;
        writePos := dataSize;
      }
    }

    /** The growth loop. */
    method Grow(n: nat)
      requires Valid()
      modifies this`buffer
      ensures Valid() && Contents() == old(Contents()) && |buffer| == Grown(old(|buffer|), ReadableSize() + n)
    {
      var maxSize := |buffer|;
      while n > WriteableSize() + readPos
        invariant Valid() && maxSize == |buffer| && old(buffer) <= buffer
        invariant Grown(maxSize, ReadableSize() + n) == Grown(old(|buffer|), ReadableSize() + n)
        decreases ReadableSize() + n - maxSize
      {
        if maxSize < 64 {
          maxSize := 64;
        } else if maxSize <= MAX_BUFFER_SIZE {
          maxSize := maxSize + maxSize / 2;
        } else {
          break;
        }
        buffer := Resized(buffer, maxSize, 0);
      }
    }

    /** Writes behind the readable bytes without making them readable. */
    method PushDataAt(data: seq<Byte>, offset: nat) returns (n: nat)
      requires Valid() && ReadableSize() + |data| + offset <= MAX_BUFFER_SIZE + 1
      modifies this
      ensures Valid() && Contents() == old(Contents())
      ensures n == if old(ReadableSize()) == MAX_BUFFER_SIZE then 0 else |data|
      ensures n > 0 ==> offset + n <= WriteableSize()
                        && buffer[writePos + offset..writePos + offset + n] == data
    {
      if |data| == 0 {
        return 0;
      }
      if ReadableSize() == MAX_BUFFER_SIZE {
        return 0;
      }
      AssureSpace(|data| + offset);
      buffer := buffer[..writePos + offset] + data + buffer[writePos + offset + |data|..];
      n := |data|;
    }

    /** Appends, unless the buffer is already full. */
    method PushData(data: seq<Byte>) returns (n: nat)
      requires Valid() && ReadableSize() + |data| <= MAX_BUFFER_SIZE + 1
      modifies this
      ensures Valid() && n == if old(ReadableSize()) == MAX_BUFFER_SIZE then 0 else |data|
      ensures Contents() == old(Contents()) + data[..n]
    {
      n := PushDataAt(data, 0);
      AdjustWritePtr(n);
    }

    /** A copy of up to `size` readable bytes from `offset` on. The sum of the two is a
        `size_t`: when it wraps around, the copy is not cut to what is readable and
        would run past it. `within` is false exactly then. */
    method PeekDataAt(size: nat, offset: nat) returns (out: seq<Byte>, within: bool)
      requires Valid() && size <= SIZE_MAX && offset <= SIZE_MAX
      ensures within <==> size + offset <= SIZE_MAX || offset >= ReadableSize()
      ensures within && offset < ReadableSize() ==>
        out == Contents()[offset..if size + offset > ReadableSize() then ReadableSize() else size + offset]
      ensures offset >= ReadableSize() ==> out == []
    {
      var n := size;
      var dataSize := ReadableSize();
      out, within := [], true;
      if n == 0 || dataSize <= offset {
        assert offset < dataSize ==> Contents()[offset..offset] == [];
        return;
      }
      if (n + offset) % (SIZE_MAX + 1) > dataSize {
        n := dataSize - offset;
      }
      if n > dataSize - offset {
        within := false;
        return;
      }
      out := buffer[readPos + offset..readPos + offset + n];
      assert forall k :: 0 <= k < n ==> out[k] == Contents()[offset + k];
    }

    /** Takes up to `size` bytes off the front. */
    method PeekData(size: nat) returns (out: seq<Byte>)
      requires Valid() && size <= SIZE_MAX
      modifies this`readPos
      ensures Valid() && out + Contents() == old(Contents())
      ensures |out| == if size > old(ReadableSize()) then old(ReadableSize()) else size
    {
      var within;
      out, within := PeekDataAt(size, 0);
      AdjustReadPtr(|out|);
    }

    /** Drops the free space, if asked to or if at least half is free. */
    method Shrink(tight: bool)
      requires Valid()
      modifies this
      ensures Valid() && Contents() == old(Contents())
      ensures if tight || ReadableSize() <= old(|buffer|) / 2 then |buffer| == ReadableSize() else buffer == old(buffer)
    {
      if |buffer| == 0 {
        return;
      }
      var oldCap := |buffer|;
      var dataSize := ReadableSize();
      if !tight && dataSize > oldCap / 2 {
        return;
      }
      buffer := buffer[readPos..writePos];
      readPos := 0;
      writePos := dataSize;
    }

    method Clear()
      requires Valid()
      modifies this`readPos, this`writePos
      ensures Valid() && Contents() == []
    {
      readPos, writePos := 0, 0;
    }

    method Swap(other: UnboundedBuffer)
      requires Valid() && other.Valid()
      modifies this, other
      ensures Valid() && other.Valid()
      ensures Contents() == old(other.Contents()) && other.Contents() == old(Contents())
    {
      buffer, other.buffer := other.buffer, buffer;
      readPos, other.readPos := other.readPos, readPos;
      writePos, other.writePos := other.writePos, writePos;
    }
  }
}
