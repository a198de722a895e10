/** The fixed ring `CircularBuffer`, as a bounded queue of bytes. */
module CircularBuffers {
  import opened Bytes

  ghost predicate PowerOfTwo(n: nat) { exists k: nat :: n == Pow2(k) }

  function Pow2(k: nat): (n: nat)
    ensures n >= 1
  {
    if k == 0 then 1 else 2 * Pow2(k - 1)
  }

  /** The least power of two that is at least `size`; zero stays zero. */
  method RoundUp2Power(size: nat) returns (r: nat)
    ensures size == 0 ==> r == 0
    ensures size > 0 ==> PowerOfTwo(r) && r >= size && (r == 1 || r < 2 * size)
  {
    if size == 0 {
      return 0;
    }
    r := 1;
    ghost var k := 0;
    while r < size
      invariant r == Pow2(k) && (r == 1 || r < 2 * size)
      decreases size - r
    {
      r := r * 2;
      k := k + 1;
    }
  }

  /** The largest ring for which the copy lengths fit in the `int` they are
      computed in. */
  const MAX_RING: nat := 0x8000_0000

  /** A position taken around the ring. The mask of the code is the remainder,
      since the capacity is a power of two. */
  function Around(x: int, m: nat): (r: nat)
    requires m > 0 && 0 - m <= x < 2 * m
    ensures r == if x < 0 then x + m else if x < m then x else x - m
  {
    RemainderIs(x, m, if x < 0 then -1 else if x < m then 0 else 1);
    x % m
  }

  lemma RemainderIs(x: int, m: nat, q: int)
    requires m > 0 && 0 <= x - q * m < m
    ensures x % m == x - q * m
  {
    var d := x / m - q;
    assert x == x / m * m + x % m;
    assert d * m == x - q * m - x % m;
    assert d >= 1 ==> d * m >= m;
    assert d <= -1 ==> d * m <= -1 * m;
  }

  /** What a ring holds between its two positions. */
  function Held(b: seq<Byte>, r: nat, w: nat): (s: seq<Byte>)
    requires r < |b| && w < |b|
    ensures |s| == Around(w - r, |b|)
  {
    if r <= w then b[r..w] else b[r..] + b[..w]
  }

  lemma HeldAt(b: seq<Byte>, r: nat, w: nat, k: nat)
    requires r < |b| && w < |b| && k < |Held(b, r, w)|
    ensures Held(b, r, w)[k] == b[Around(r + k, |b|)]
  {
  }

  lemma HeldAfter(b: seq<Byte>, r: nat, w: nat, n: nat)
    requires r < |b| && w < |b| && n <= |Held(b, r, w)|
    ensures Held(b, Around(r + n, |b|), w) == Held(b, r, w)[n..]
  {
  }

  /** The first `n` bytes held, when they do not go around the end. */
  lemma HeldStraight(b: seq<Byte>, r: nat, w: nat, n: nat)
    requires r < |b| && w < |b| && n <= |Held(b, r, w)| && r + n <= |b|
    ensures Held(b, r, w)[..n] == b[r..r + n] == Flat([b[r..r + n]])
  {
    assert Flat([b[r..r + n]]) == b[r..r + n] + Flat([]);
  }

  /** The first bytes held, when they go around the end by `n`. */
  lemma HeldTurned(b: seq<Byte>, r: nat, w: nat, n: nat)
    requires w < r < |b| && n <= w
    ensures Held(b, r, w)[..|b| - r + n] == b[r..] + b[..n] == Flat([b[r..], b[..n]])
  {
    assert Flat([b[r..], b[..n]]) == b[r..] + Flat([b[..n]]);
    assert Flat([b[..n]]) == b[..n] + Flat([]);
  }

  /** A change to nothing but the `n` places from `w` on keeps the held part, if
      those places are free. */
  lemma HeldKept(b: seq<Byte>, b': seq<Byte>, r: nat, w: nat, n: nat)
    requires r < |b| == |b'| && w < |b| && |Held(b, r, w)| + n < |b|
    requires forall k :: 0 <= k < |b| && !Within(k, w, n, |b|) ==> b'[k] == b[k]
    ensures Held(b', r, w) == Held(b, r, w)
  {
    forall k | 0 <= k < |Held(b, r, w)|
      ensures Held(b', r, w)[k] == Held(b, r, w)[k]
    {
      HeldAt(b, r, w, k);
      HeldAt(b', r, w, k);
    }
  }

  /** `k` is among the `n` places from `w` on. */
  predicate Within(k: nat, w: nat, n: nat, m: nat) { w <= k < w + n || k + m < w + n }

  /** `data` stands in the ring from `w` on. */
  predicate Laid(b: seq<Byte>, w: nat, data: seq<Byte>)
    requires w < |b|
  {
    |data| <= |b| && forall k :: 0 <= k < |data| ==> b[Around(w + k, |b|)] == data[k]
  }

  /** Bytes written from `w` on, none of them in the held part, extend it. */
  lemma HeldBefore(b: seq<Byte>, b': seq<Byte>, r: nat, w: nat, data: seq<Byte>)
    requires r < |b| == |b'| && w < |b| && |Held(b, r, w)| + |data| < |b|
    requires Held(b', r, w) == Held(b, r, w) && Laid(b', w, data)
    ensures Held(b', r, Around(w + |data|, |b|)) == Held(b, r, w) + data
  {
    var s, n := Held(b', r, Around(w + |data|, |b|)), |Held(b, r, w)|;
    forall k | 0 <= k < |s|
      ensures s[k] == (Held(b, r, w) + data)[k]
    {
      HeldAt(b', r, Around(w + |data|, |b|), k);
      if k < n {
        HeldAt(b', r, w, k);
      } else {
        assert Around(r + k, |b|) == Around(w + (k - n), |b|);
      }
    }
  }

  /** Up to `max` bytes from `offset` on. */
  function Window(s: seq<Byte>, offset: nat, max: nat): seq<Byte> {
    if max == 0 || offset >= |s| then []
    else var rest := s[offset..]; rest[..if max < |rest| then max else |rest|]
  }

  /** One byte of the ring stays free. */
  class CircularBuffer {
    const maxSize: nat
    var readPos: nat
    var writePos: nat
    const buffer: array<Byte>

    ghost predicate Valid()
      reads this
    {
      PowerOfTwo(maxSize) && maxSize <= MAX_RING && buffer.Length == maxSize
      && readPos < maxSize && writePos < maxSize
    }

    ghost function Contents(): seq<Byte>
      requires Valid()
      reads this, buffer
    {
      Held(buffer[..], readPos, writePos)
    }

    constructor (size: nat)
      requires 0 < size <= MAX_RING / 2
      ensures Valid() && Contents() == [] && fresh(buffer) && size <= maxSize < 2 * size + 1
    {
      var rounded := RoundUp2Power(size);
      maxSize, readPos, writePos := rounded, 0, 0;
      buffer := new Byte[rounded];
    }

    function ReadableSize(): (n: nat)
      requires Valid()
      reads this, buffer
      ensures n == |Contents()| && n < maxSize
    {
      Around(writePos - readPos, maxSize)
    }

    function WriteableSize(): nat
      requires Valid()
      reads this, buffer
    {
      maxSize - ReadableSize() - 1
    }

    predicate IsEmpty()
      requires Valid()
      reads this, buffer
      ensures IsEmpty() <==> Contents() == []
    {
      writePos == readPos
    }

    method AdjustReadPtr(n: nat)
      requires Valid() && n <= ReadableSize()
      modifies this`readPos
      ensures Valid() && Contents() == old(Contents())[n..]
    {
      HeldAfter(buffer[..], readPos, writePos, n);
      readPos := Around(readPos + n, maxSize);
    }

    /** Appends all of `data`, or nothing when there is no room for it. */
    method PushData(data: seq<Byte>) returns (ok: bool)
      requires Valid()
      modifies this`writePos, buffer
      ensures Valid() && ok == (|data| <= old(WriteableSize()))
      ensures Contents() == if ok then old(Contents()) + data else old(Contents())
    {
      ok := PushDataAt(data);
      if ok {
        HeldBefore(old(buffer[..]), buffer[..], readPos, writePos, data);
        writePos := Around(writePos + |data|, maxSize);
      }
    }

    /** Copies `data` behind the readable bytes, around the end if need be. */
    method PushDataAt(data: seq<Byte>) returns (ok: bool)
      requires Valid()
      modifies buffer
      ensures ok == (|data| <= old(WriteableSize()))
      ensures Contents() == old(Contents())
      ensures ok ==> Laid(buffer[..], writePos, data)
    {
      if |data| == 0 {
        return true;
      }
      if |data| > WriteableSize() {
        return false;
      }
      LayOut(data);
      HeldKept(old(buffer[..]), buffer[..], readPos, writePos, |data|);
      ok := true;
    }

    /** The copies of a push: one, or two around the end. */
    method LayOut(data: seq<Byte>)
      requires Valid() && |data| <= WriteableSize()
      modifies buffer
      ensures Laid(buffer[..], writePos, data)
      ensures forall k :: 0 <= k < maxSize && !Within(k, writePos, |data|, maxSize) ==> buffer[k] == old(buffer[k])
    {
      if readPos > writePos {
        CopyIn(writePos, data);
      } else {
        var availBytes1 := maxSize - writePos;
        if availBytes1 >= |data| + 1 {
          CopyIn(writePos, data);
        } else {
          CopyIn(writePos, data[..availBytes1]);
          var bytesLeft := |data| - availBytes1;
          if bytesLeft > 0 {
            CopyIn(0, data[availBytes1..]);
          }
        }
      }
    }

    /** `memcpy` into the ring. */
    method CopyIn(at: nat, data: seq<Byte>)
      requires at + |data| <= buffer.Length
      modifies buffer
      ensures forall k :: 0 <= k < buffer.Length ==>
        buffer[k] == if at <= k < at + |data| then data[k - at] else old(buffer[k])
    {
      for n := 0 to |data|
        invariant forall k :: 0 <= k < buffer.Length ==>
          buffer[k] == if at <= k < at + n then data[k - at] else old(buffer[k])
      {
        buffer[at + n] := data[n];
      }
    }

    /** Up to two segments that hold the next `max` readable bytes from `offset` on, in
        order. */
    method GetDatum(max: nat, offset: nat) returns (segments: seq<seq<Byte>>)
      requires Valid()
      ensures |segments| <= 2
      ensures Flat(segments) == Window(Contents(), offset, max)
    {
      if max == 0 || offset >= ReadableSize() {
        return [];
      }
      HeldAfter(buffer[..], readPos, writePos, offset);
      segments := Segments(Around(readPos + offset, maxSize), max);
    }

    /** The first `max` bytes held from position `from` on. */
    method Segments(from: nat, max: nat) returns (segments: seq<seq<Byte>>)
      requires Valid() && from < maxSize && from != writePos
      ensures |segments| <= 2
      ensures var held := Held(buffer[..], from, writePos);
        Flat(segments) == held[..if max < |held| then max else |held|]
    {
      ghost var held := Around(writePos - from, maxSize);
      ghost var n := if max < held then max else held;
      if from < writePos {
        var len := if max < writePos - from then max else writePos - from;
        segments := [buffer[from..from + len]];
        HeldStraight(buffer[..], from, writePos, n);
      } else {
        var left := if max > maxSize - from then maxSize - from else max;
        segments := [buffer[from..from + left]];
        var right := max - left;
        if right > 0 && writePos > 0 {
          if right > writePos {
            right := writePos;
          }
          segments := segments + [buffer[..right]];
          HeldTurned(buffer[..], from, writePos, right);
        } else {
          HeldStraight(buffer[..], from, writePos, n);
        }
      }
    }
  }
}
