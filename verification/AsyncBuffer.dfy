/** The send buffer's three stages, and what leaves them over a whole run. */
module SendQueue {
  import opened Bytes

  /** Bytes leave from `tmp`, then `ring`, then `back`. */
  datatype Stages = Stages(tmp: seq<Byte>, ring: seq<Byte>, back: seq<Byte>)

  function Contents(s: Stages): seq<Byte> { s.tmp + s.ring + s.back }

  /** A write goes to the ring only when nothing waits behind it and all fits. */
  function Stored(s: Stages, capacity: nat, data: seq<Byte>): Stages {
    if s.back != [] || capacity - |s.ring| - 1 < |data| then s.(back := s.back + data)
    else s.(ring := s.ring + data)
  }

  /** What the socket is given to send; the back buffer moves up only when the
      rest is gone and its lock is free. */
  function Offered(s: Stages, acquired: bool): (Stages, seq<Byte>) {
    if s.tmp != [] then (s, s.tmp)
    else if s.ring != [] then (s, s.ring)
    else if s.back != [] && acquired then (Stages(s.back, s.ring, s.tmp), s.back)
    else (s, [])
  }

  /** The stage the next bytes leave from. */
  function Head(s: Stages): seq<Byte> { if s.tmp != [] then s.tmp else s.ring }

  function Skipped(s: Stages, n: nat): Stages
    requires n <= |Head(s)|
  {
    if s.tmp != [] then s.(tmp := s.tmp[n..]) else s.(ring := s.ring[n..])
  }

  // ----- Runs -----

  /** A call by one of the threads; `Send` is the socket sending that many of the
      offered bytes and skipping them. */
  datatype Call = Write(data: seq<Byte>) | Process(acquired: bool) | Send(n: nat)

  /** The stages, the bytes offered and not yet skipped, and the bytes sent. */
  datatype Sender = Sender(stages: Stages, offered: seq<Byte>, sent: seq<Byte>)

  ghost predicate Consistent(x: Sender) { x.offered <= Head(x.stages) }

  function Apply(x: Sender, capacity: nat, c: Call): (y: Sender)
    requires Consistent(x) && (c.Send? ==> c.n <= |x.offered|)
    ensures Consistent(y)
  {
    match c
    case Write(data) => x.(stages := Stored(x.stages, capacity, data))
    case Process(acquired) =>
      var (stages, offered) := Offered(x.stages, acquired);
      x.(stages := stages, offered := offered)
    case Send(n) => Sender(Skipped(x.stages, n), x.offered[n..], x.sent + x.offered[..n])
  }

  const IDLE := Sender(Stages([], [], []), [], [])

  /** Whole calls in any order; only offered bytes are ever sent. */
  ghost predicate Legal(calls: seq<Call>, capacity: nat)
    decreases |calls|, 0
  {
    calls == [] ||
    var (before, last) := (calls[..|calls| - 1], calls[|calls| - 1]);
    Legal(before, capacity) && (last.Send? ==> last.n <= |After(before, capacity).offered|)
  }

  ghost function After(calls: seq<Call>, capacity: nat): (x: Sender)
    requires Legal(calls, capacity)
    ensures Consistent(x)
    decreases |calls|, 1
  {
    if calls == [] then IDLE
    else Apply(After(calls[..|calls| - 1], capacity), capacity, calls[|calls| - 1])
  }

  function Written(calls: seq<Call>): seq<Byte> {
    if calls == [] then []
    else
      var last := calls[|calls| - 1];
      Written(calls[..|calls| - 1]) + if last.Write? then last.data else []
  }

  lemma ApplyConserves(x: Sender, capacity: nat, c: Call)
    requires Consistent(x) && (c.Send? ==> c.n <= |x.offered|)
    ensures var y := Apply(x, capacity, c);
            y.sent + Contents(y.stages) == x.sent + Contents(x.stages) + if c.Write? then c.data else []
  {
    if c.Send? {
      assert x.offered[..c.n] + Contents(x.stages)[c.n..] == Contents(x.stages);
      assert Contents(Skipped(x.stages, c.n)) == Contents(x.stages)[c.n..];
    }
  }

  /** After any calls, the bytes sent and then the bytes held are the bytes
      written, in the order they were written. */
  lemma {:induction false} FirstInFirstOut(calls: seq<Call>, capacity: nat)
    requires Legal(calls, capacity)
    ensures After(calls, capacity).sent + Contents(After(calls, capacity).stages) == Written(calls)
    decreases |calls|
  {
    if calls != [] {
      var (before, last) := (calls[..|calls| - 1], calls[|calls| - 1]);
      FirstInFirstOut(before, capacity);
      ApplyConserves(After(before, capacity), capacity, last);
    }
  }

  /** The ring never overflows: one byte of it stays free. */
  lemma {:induction false} RingFits(calls: seq<Call>, capacity: nat)
    requires Legal(calls, capacity) && capacity > 0
    ensures |After(calls, capacity).stages.ring| < capacity
    decreases |calls|
  {
    if calls != [] {
      RingFits(calls[..|calls| - 1], capacity);
    }
  }

  /** At no time so far was the ring too small for all that was held. */
  ghost predicate Light(calls: seq<Call>, capacity: nat)
    requires Legal(calls, capacity)
    decreases |calls|
  {
    |Contents(After(calls, capacity).stages)| < capacity &&
    (calls == [] || Light(calls[..|calls| - 1], capacity))
  }

  /** As long as it is large enough, the ring is the only stage in use. */
  lemma {:induction false} RingSuffices(calls: seq<Call>, capacity: nat)
    requires Legal(calls, capacity) && Light(calls, capacity)
    ensures After(calls, capacity).stages.ring == Contents(After(calls, capacity).stages)
    decreases |calls|
  {
    if calls != [] {
      var (before, last) := (calls[..|calls| - 1], calls[|calls| - 1]);
      RingSuffices(before, capacity);
      OnlyRing(After(before, capacity), capacity, last);
    }
  }

  lemma OnlyRing(x: Sender, capacity: nat, c: Call)
    requires Consistent(x) && (c.Send? ==> c.n <= |x.offered|)
    requires x.stages.ring == Contents(x.stages) && |Contents(Apply(x, capacity, c).stages)| < capacity
    ensures Apply(x, capacity, c).stages.ring == Contents(Apply(x, capacity, c).stages)
  {
    assert |x.stages.tmp| + |x.stages.ring| + |x.stages.back| == |Contents(x.stages)|;
    assert x.stages.tmp == [] && x.stages.back == [];
  }

  /** Offering everything and skipping all of it. */
  function Drained(s: Stages): Stages {
    var (t, offered) := Offered(s, true);
    Skipped(t, |offered|)
  }

  /** Three rounds empty the buffer, whatever it holds. */
  lemma ThreeRoundsDrain(s: Stages)
    ensures Contents(Drained(Drained(Drained(s)))) == []
    ensures Contents(s) != [] ==> Offered(s, true).1 != []
  {
  }
}

/** The send buffer `AsyncBuffer` itself. */
module AsyncBuffers {
  import opened Bytes
  import opened UnboundedBuffers
  import opened CircularBuffers
  import Q = SendQueue

  /** The most segments a gather list holds. */
  const MAX_IOVEC: nat := 16

  class AsyncBuffer {
    const buffer: CircularBuffer
    const tmpBuf: UnboundedBuffer
    const backBuf: UnboundedBuffer
    var backBytes: nat

    ghost predicate Valid()
      reads this, buffer, tmpBuf, backBuf
    {
      tmpBuf != backBuf && buffer.Valid() && tmpBuf.Valid() && backBuf.Valid()
      && backBytes == backBuf.ReadableSize()
    }

    ghost function View(): Q.Stages
      requires Valid()
      reads this, buffer, buffer.buffer, tmpBuf, backBuf
    {
      Q.Stages(tmpBuf.Contents(), buffer.Contents(), backBuf.Contents())
    }

    constructor (size: nat)
      requires 0 < size <= MAX_RING / 2
      ensures Valid() && View() == Q.IDLE.stages && buffer.maxSize >= size
      ensures fresh(buffer) && fresh(buffer.buffer) && fresh(tmpBuf) && fresh(backBuf)
    {
      buffer := new CircularBuffer(size);
      tmpBuf := new UnboundedBuffer();
      backBuf := new UnboundedBuffer();
      backBytes := 0;
    }

    method Write(data: seq<seq<Byte>>)
      requires Valid() && |data| <= MAX_IOVEC && backBuf.ReadableSize() + |Flat(data)| <= MAX_BUFFER_SIZE
      modifies this, buffer, buffer.buffer, backBuf
      ensures Valid() && View() == Q.Stored(old(View()), buffer.maxSize, Flat(data))
    {
      var len := TotalBytes(data);
      if backBytes > 0 || buffer.WriteableSize() < len {
        WriteBack(data);
        backBytes := backBytes + len;
        return;
      }
      WriteRing(data);
    }

    method WriteBack(data: seq<seq<Byte>>)
      requires backBuf.Valid() && backBuf.ReadableSize() + |Flat(data)| <= MAX_BUFFER_SIZE
      modifies backBuf
      ensures backBuf.Valid() && backBuf.Contents() == old(backBuf.Contents()) + Flat(data)
    {
      for i := 0 to |data|
        invariant backBuf.Valid() && backBuf.Contents() == old(backBuf.Contents()) + Flat(data[..i])
      {
        FlatPrefix(data, i);
        var _ := backBuf.PushData(data[i]);
      }
      assert data[..|data|] == data;
    }

    method WriteRing(data: seq<seq<Byte>>)
      requires buffer.Valid() && |Flat(data)| <= buffer.WriteableSize()
      modifies buffer, buffer.buffer
      ensures buffer.Valid() && buffer.Contents() == old(buffer.Contents()) + Flat(data)
    {
      ghost var contents := buffer.Contents();
      for i := 0 to |data|
        invariant buffer.Valid() && buffer.Contents() == contents + Flat(data[..i])
      {
        FlatAfter(contents, data, i);
        PushPart(data[i], contents + Flat(data[..i]));
      }
      assert data[..|data|] == data;
    }

    /** One part of a write that fits. */
    method PushPart(part: seq<Byte>, ghost contents: seq<Byte>)
      requires buffer.Valid() && buffer.Contents() == contents && |contents| + |part| < buffer.maxSize
      modifies buffer, buffer.buffer
      ensures buffer.Valid() && buffer.Contents() == contents + part
    {
      var _ := buffer.PushData(part);
    }

    /** The segments to send next. `acquired` is the outcome of trying the lock. */
    method ProcessBuffer(acquired: bool) returns (data: seq<seq<Byte>>)
      requires Valid()
      modifies this, tmpBuf, backBuf
      ensures Valid() && |data| <= 2
      ensures View() == Q.Offered(old(View()), acquired).0
      ensures Flat(data) == Q.Offered(old(View()), acquired).1
    {
      data := [];
      if !tmpBuf.IsEmpty() {
        data := [tmpBuf.buffer[tmpBuf.readPos..tmpBuf.writePos]];
        assert Flat(data) == data[0];
      } else if !buffer.IsEmpty() {
        data := buffer.GetDatum(buffer.ReadableSize(), 0);
      } else if backBytes > 0 && acquired {
        backBytes := 0;
        tmpBuf.Swap(backBuf);
        data := [tmpBuf.buffer[tmpBuf.readPos..tmpBuf.writePos]];
        assert Flat(data) == data[0];
      }
    }

    method Skip(size: nat)
      requires Valid() && size <= |Q.Head(View())|
      modifies tmpBuf, buffer
      ensures Valid() && View() == Q.Skipped(old(View()), size)
    {
      if !tmpBuf.IsEmpty() {
        tmpBuf.AdjustReadPtr(size);
      } else {
        buffer.AdjustReadPtr(size);
      }
    }
  }

  method TotalBytes(data: seq<seq<Byte>>) returns (n: nat)
    ensures n == |Flat(data)|
  {
    n := 0;
    for i := 0 to |data|
      invariant n == |Flat(data[..i])|
    {
      FlatPrefix(data, i);
      n := n + |data[i]|;
    }
    assert data[..|data|] == data;
  }

  lemma FlatAfter(c: seq<Byte>, data: seq<seq<Byte>>, i: nat)
    requires i < |data|
    ensures c + Flat(data[..i]) + data[i] == c + Flat(data[..i + 1])
    ensures |Flat(data[..i])| + |data[i]| <= |Flat(data)|
  {
    FlatPrefix(data, i);
    assert c + Flat(data[..i]) + data[i] == c + (Flat(data[..i]) + data[i]);
  }

  lemma FlatPrefix(data: seq<seq<Byte>>, i: nat)
    requires i < |data|
    ensures Flat(data[..i + 1]) == Flat(data[..i]) + data[i]
    ensures |Flat(data[..i + 1])| <= |Flat(data)|
  {
    assert data[..i + 1] == data[..i] + [data[i]];
    FlatAppend(data[..i], data[i]);
    FlatConcat(data[..i + 1], data[i + 1..]);
    assert data == data[..i + 1] + data[i + 1..];
  }

  lemma {:induction false} FlatConcat(a: seq<seq<Byte>>, b: seq<seq<Byte>>)
    ensures Flat(a + b) == Flat(a) + Flat(b)
  {
    if a == [] {
      assert a + b == b;
    } else {
      FlatConcat(a[1..], b);
      assert (a + b)[0] == a[0] && (a + b)[1..] == a[1..] + b;
      assert a[0] + (Flat(a[1..]) + Flat(b)) == (a[0] + Flat(a[1..])) + Flat(b);
    }
  }
}
