/** The parser object `ProtoParser` and the reply formatters. */
module RespParser {
  import opened Bytes
  import opened UnboundedBuffers
  import R = RespSpec
  import opened RespSpec

  /** A cursor into `data`, whose length is the end of the input. */
  method GetIntUntilCRLF(data: seq<Byte>, ptr: nat) returns (n: Number)
    requires ptr <= |data|
    ensures n == GetInt(data, ptr)
  {
    if |data| - ptr < 3 {
      return Number(Wait, ptr, 0);
    }
    var i, value: nat := ptr, 0;
    while i < |data|
      invariant ptr <= i <= |data|
      invariant ReadDigits(data, ptr, i, value) == ReadDigits(data, ptr, ptr, 0)
    {
      if IsDigit(data[i]) {
        if value * 10 + (data[i] - ZERO) > INT_MAX {
          return Number(Overflow, ptr, 0);
        }
        value := value * 10;
        value := value + (data[i] - ZERO);
      } else {
        if data[i] != CR || (i + 1 < |data| && data[i + 1] != LF) {
          return Number(Error, ptr, 0);
        }
        if i + 1 == |data| {
          return Number(Wait, ptr, 0);
        }
        break;
      }
      i := i + 1;
    }
    n := Number(Ok, i + 2, value);
  }

  class ProtoParser {
    var multi: int
    var paramLen: int
    var numOfParam: nat
    var params: seq<seq<Byte>>

    ghost function View(): Parser
      reads this
    {
      Parser(multi, paramLen, numOfParam, params)
    }

    ghost predicate Valid()
      reads this
    {
      Formed(View())
    }

    constructor ()
      ensures Valid() && View() == Parser(-1, -1, 0, [])
    {
      multi, paramLen, numOfParam, params := -1, -1, 0, [];
    }

    /** Forgets the request, but keeps up to three old strings. */
    method Reset()
      modifies this
      ensures Valid() && View() == R.Reset(old(View()))
    {
      multi := -1;
      paramLen := -1;
      numOfParam := 0;
      while |params| > 3
        invariant multi == -1 && paramLen == -1 && numOfParam == 0
        invariant params <= old(params) && (|params| < |old(params)| ==> |params| >= 3)
      {
        params := params[..|params| - 1];
      }
    }

    method ParseRequest(data: seq<Byte>, ptr: nat) returns (result: ParseResult, ptr': nat)
      requires Valid() && ptr <= |data| + 2
      modifies this
      ensures Valid() && Outcome(result, View(), ptr') == ReadRequest(old(View()), data, ptr)
    {
      ptr' := ptr;
      if multi == -1 {
        var n := ParseMulti(data, ptr);
        ptr' := n.ptr;
        if n.result != Ok {
          return n.result, ptr';
        }
        multi := n.value;
      }
      result, ptr' := ParseStrlist(data, ptr');
    }

    static method ParseMulti(data: seq<Byte>, ptr: nat) returns (n: Number)
      requires ptr <= |data| + 2
      ensures n == ReadMulti(data, ptr)
    {
      if |data| - ptr < 3 {
        return Number(Wait, ptr, 0);
      }
      if data[ptr] != STAR {
        return Number(Error, ptr, 0);
      }
      n := GetIntUntilCRLF(data, ptr + 1);
    }

    method ParseStrlist(data: seq<Byte>, ptr: nat) returns (result: ParseResult, ptr': nat)
      requires Valid() && ptr <= |data| + 2
      modifies this
      ensures Valid() && Outcome(result, View(), ptr') == ReadStrlist(old(View()), data, ptr)
    {
      ptr' := ptr;
      while numOfParam < multi
        invariant Valid() && ptr' <= |data| + 2
        invariant ReadStrlist(View(), data, ptr') == ReadStrlist(old(View()), data, ptr)
        decreases multi - numOfParam
      {
        if |params| < numOfParam + 1 {
          params := Resized(params, numOfParam + 1, []);
        }
        result, ptr' := ParseStr(data, ptr');
        if result != Ok {
          return;
        }
        numOfParam := numOfParam + 1;
      }
      params := Resized(params, numOfParam, []);
      result := Ok;
    }

    method ParseStr(data: seq<Byte>, ptr: nat) returns (result: ParseResult, ptr': nat)
      requires Valid() && ptr <= |data| + 2 && numOfParam < |params|
      modifies this
      ensures Valid() && multi == old(multi) && numOfParam == old(numOfParam) && ptr' <= |data| + 2
      ensures Outcome(result, View(), ptr') == ReadStr(old(View()), data, ptr)
    {
      ptr' := ptr;
      if paramLen == -1 {
        var n := ParseStrlen(data, ptr);
        ptr' := n.ptr;
        if n.result != Ok {
          return n.result, ptr';
        }
        paramLen := n.value;
      }
      result, ptr' := ParseStrval(data, ptr');
    }

    method ParseStrval(data: seq<Byte>, ptr: nat) returns (result: ParseResult, ptr': nat)
      requires ptr <= |data| + 2 && paramLen >= 0 && numOfParam < |params|
      modifies this`paramLen, this`params
      ensures Outcome(result, View(), ptr') == ReadStrval(old(View()), data, ptr)
      ensures ptr' <= |data| + 2 && paramLen >= -1
    {
      ptr' := ptr;
      if paramLen + 2 > INT_MAX {
        return Overflow, ptr';
      }
      if ToInt(|data| - ptr) < paramLen + 2 {
        return Wait, ptr';
      }
      var tail := ptr + paramLen;
      if data[tail] != CR || data[tail + 1] != LF {
        return Error, ptr';
      }
      params := params[numOfParam := data[ptr..tail]];
      ptr' := tail + 2;
      paramLen := -1;
      result := Ok;
    }

    static method ParseStrlen(data: seq<Byte>, ptr: nat) returns (n: Number)
      requires ptr <= |data| + 2
      ensures n == ReadStrlen(data, ptr) && n.ptr <= |data| + 2
    {
      if |data| - ptr < 3 {
        return Number(Wait, ptr, 0);
      }
      if data[ptr] != DOLLAR {
        return Number(Error, ptr, 0);
      }
      n := GetIntUntilCRLF(data, ptr + 1);
      if n.result != Ok {
        n := n.(ptr := n.ptr - 1);
      }
    }
  }

  // ----- Formatting -----

  /** Appends one bulk string to the reply, if there is one. */
  method FormatBulk(str: seq<Byte>, reply: UnboundedBuffer?) returns (size: nat)
    requires reply != null ==> reply.Valid() && reply.ReadableSize() + |Bulk(str)| <= MAX_BUFFER_SIZE
    modifies reply
    ensures reply == null ==> size == 0
    ensures reply != null ==>
      reply.Valid() && reply.Contents() == old(reply.Contents()) + Bulk(str) && size == |Bulk(str)|
  {
    if reply == null {
      return 0;
    }
    ghost var contents := reply.Contents();
    var oldSize := reply.ReadableSize();
    Put(reply, [DOLLAR]);
    Put(reply, Decimal(|str|) + CRLF);
    if |str| > 0 {
      Put(reply, str);
    }
    Put(reply, CRLF);
    BulkParts(contents, str);
    size := reply.ReadableSize() - oldSize;
  }

  /** `PushData` on a reply with room left. */
  method Put(reply: UnboundedBuffer, data: seq<Byte>)
    requires reply.Valid() && reply.ReadableSize() + |data| <= MAX_BUFFER_SIZE
    modifies reply
    ensures reply.Valid() && reply.Contents() == old(reply.Contents()) + data
  {
    var _ := reply.PushData(data);
  }

  lemma BulkParts(c: seq<Byte>, s: seq<Byte>)
    ensures c + Bulk(s) == c + [DOLLAR] + (Decimal(|s|) + CRLF) + s + CRLF
    ensures s == [] ==> c + Bulk(s) == c + [DOLLAR] + (Decimal(|s|) + CRLF) + CRLF
  {
    FourParts(c, [DOLLAR], Decimal(|s|), CRLF, s);
    var head := c + [DOLLAR] + (Decimal(|s|) + CRLF);
    assert s == [] ==> head + s == head;
  }

  lemma FourParts(c: seq<Byte>, m: seq<Byte>, d: seq<Byte>, e: seq<Byte>, s: seq<Byte>)
    ensures c + (m + d + e + s + e) == c + m + (d + e) + s + e
  {
  }

  method PreFormatMultiBulk(nBulk: nat, reply: UnboundedBuffer?) returns (size: nat)
    requires reply != null ==> reply.Valid() && reply.ReadableSize() + |Header(STAR, nBulk)| <= MAX_BUFFER_SIZE
    modifies reply
    ensures reply == null ==> size == 0
    ensures reply != null ==>
      reply.Valid() && reply.Contents() == old(reply.Contents()) + Header(STAR, nBulk)
      && size == |Header(STAR, nBulk)|
  {
    if reply == null {
      return 0;
    }
    var oldSize := reply.ReadableSize();
    Put(reply, [STAR]);
    Put(reply, Decimal(nBulk) + CRLF);
    assert Header(STAR, nBulk) == [STAR] + (Decimal(nBulk) + CRLF);
    size := reply.ReadableSize() - oldSize;
  }

  /** Appends the bulk strings of a list, without its count. */
  method FormatMultiBulk(vs: seq<seq<Byte>>, reply: UnboundedBuffer?) returns (size: nat)
    requires reply != null ==> reply.Valid() && reply.ReadableSize() + |Bulks(vs, 0)| <= MAX_BUFFER_SIZE
    modifies reply
    ensures reply == null ==> size == 0
    ensures reply != null ==>
      reply.Valid() && reply.Contents() == old(reply.Contents()) + Bulks(vs, 0) && size == |Bulks(vs, 0)|
  {
    size := 0;
    for k := 0 to |vs|
      invariant reply == null ==> size == 0
      invariant reply != null ==>
        reply.Valid() && reply.Contents() + Bulks(vs, k) == old(reply.Contents()) + Bulks(vs, 0)
        && size + |Bulks(vs, k)| == |Bulks(vs, 0)|
    {
      var n := FormatBulk(vs[k], reply);
      size := size + n;
    }
  }
}
