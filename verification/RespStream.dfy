/** Requests that arrive in parts. */
module RespStream {
  import opened Bytes
  import opened RespSpec
  import opened RespRoundTrip
  import opened RespGrammar

  // ----- Verdicts stand -----

  /** A verdict with the cursor inside the input. */
  predicate Final(result: ParseResult, ptr: nat, data: seq<Byte>) { result != Wait && ptr <= |data| }

  lemma {:induction false} DigitsStand(data: seq<Byte>, ext: seq<Byte>, start: nat, i: nat, v: nat)
    requires start <= i <= |data|
    ensures var n := ReadDigits(data, start, i, v);
      && (Final(n.result, n.ptr, data) ==> ReadDigits(data + ext, start, i, v) == n)
      && (n.result == Ok ==> v <= n.value)
      && (n.result == Ok && n.ptr > |data| ==>
            ReadDigits(data + ext, start, i, v) == ReadDigits(data + ext, start, |data|, n.value))
    decreases |data| - i
  {
    if i < |data| {
      assert (data + ext)[i] == data[i] && (i + 1 < |data| ==> (data + ext)[i + 1] == data[i + 1]);
      if IsDigit(data[i]) {
        DigitsStand(data, ext, start, i + 1, v * 10 + (data[i] - ZERO));
      }
    }
  }

  lemma StrlenStands(data: seq<Byte>, ext: seq<Byte>, ptr: nat)
    requires ptr <= |data| + 2
    ensures var n := ReadStrlen(data, ptr);
      Final(n.result, n.ptr, data) ==> ReadStrlen(data + ext, ptr) == n
  {
    if |data| - ptr >= 3 {
      assert (data + ext)[ptr] == data[ptr];
      DigitsStand(data, ext, ptr + 1, ptr + 1, 0);
    }
  }

  lemma StrvalStands(p: Parser, data: seq<Byte>, ext: seq<Byte>, ptr: nat)
    requires ptr <= |data| + 2 && p.paramLen >= 0 && p.numOfParam < |p.params| && |data + ext| - ptr <= INT_MAX
    ensures var o := ReadStrval(p, data, ptr);
      Final(o.result, o.ptr, data) ==> ReadStrval(p, data + ext, ptr) == o
  {
    var o, tail := ReadStrval(p, data, ptr), ptr + p.paramLen;
    if Final(o.result, o.ptr, data) && o.result != Overflow {
      assert (data + ext)[tail] == data[tail] && (data + ext)[tail + 1] == data[tail + 1];
      assert (data + ext)[ptr..tail] == data[ptr..tail];
    }
  }

  lemma StrStands(p: Parser, data: seq<Byte>, ext: seq<Byte>, ptr: nat)
    requires Formed(p) && p.numOfParam < |p.params| && ptr <= |data| + 2 && |data + ext| - ptr <= INT_MAX
    ensures var o := ReadStr(p, data, ptr);
      Final(o.result, o.ptr, data) ==> ReadStr(p, data + ext, ptr) == o
  {
    if p.paramLen == -1 {
      StrlenStands(data, ext, ptr);
      LengthBehind(data, ptr);
      var n := ReadStrlen(data, ptr);
      if n.result == Ok {
        StrvalStands(p.(paramLen := n.value), data, ext, n.ptr);
      }
    } else {
      StrvalStands(p, data, ext, ptr);
    }
  }

  lemma LengthBehind(data: seq<Byte>, ptr: nat)
    requires ptr <= |data| + 2
    ensures ReadStrlen(data, ptr).ptr >= ptr
  {
    if |data| - ptr >= 3 && GetInt(data, ptr + 1).result == Ok {
      var stop := NumberTaken(data, ptr + 1);
    }
  }

  /** A string that is read leaves the cursor inside the input, further on. */
  lemma StrInside(p: Parser, data: seq<Byte>, ptr: nat)
    requires Formed(p) && p.numOfParam < |p.params| && ptr <= |data| + 2 && ReadStr(p, data, ptr).result == Ok
    ensures ptr < ReadStr(p, data, ptr).ptr <= |data|
  {
    LengthBehind(data, ptr);
  }

  /** One turn of the loop over the strings: a string `one`, and the outcome `rest` behind it. */
  ghost predicate Turn(p: Parser, data: seq<Byte>, one: Outcome, rest: Outcome) {
    one.result == Ok ==>
      && Formed(one.parser) && one.parser.multi == p.multi && one.ptr <= |data|
      && rest == ReadStrlist(one.parser.(numOfParam := p.numOfParam + 1), data, one.ptr)
  }

  lemma OneTurn(p: Parser, data: seq<Byte>, ptr: nat, one: Outcome, rest: Outcome) returns (o: Outcome)
    requires Formed(p) && ptr <= |data| + 2 && p.numOfParam < p.multi && one == ReadStr(Roomy(p), data, ptr)
    requires Turn(p, data, one, rest)
    ensures o == ReadStrlist(p, data, ptr) && o == if one.result == Ok then rest else one
  {
    o := ReadStrlist(p, data, ptr);
  }

  lemma FirstString(p: Parser, data: seq<Byte>, ptr: nat) returns (one: Outcome, rest: Outcome)
    requires Formed(p) && ptr <= |data| + 2 && p.numOfParam < p.multi
    ensures one == ReadStr(Roomy(p), data, ptr) && Turn(p, data, one, rest)
    ensures one.parser.multi == p.multi && ptr <= one.ptr && (one.result == Ok ==> ptr < one.ptr)
  {
    one := ReadStr(Roomy(p), data, ptr);
    rest := one;
    LengthBehind(data, ptr);
    if one.result == Ok {
      StrInside(Roomy(p), data, ptr);
      rest := ReadStrlist(one.parser.(numOfParam := p.numOfParam + 1), data, one.ptr);
    }
  }

  lemma {:induction false} StrlistStands(p: Parser, data: seq<Byte>, ext: seq<Byte>, ptr: nat)
      returns (o: Outcome, o': Outcome)
    requires Formed(p) && ptr <= |data| + 2 && |data + ext| - ptr <= INT_MAX
    ensures o == ReadStrlist(p, data, ptr) && o' == ReadStrlist(p, data + ext, ptr)
    ensures o.ptr >= ptr && o.parser.multi == p.multi && (Final(o.result, o.ptr, data) ==> o' == o)
    decreases p.multi - p.numOfParam
  {
    if p.numOfParam < p.multi {
      var one, rest := FirstString(p, data, ptr);
      var one', rest' := FirstString(p, data + ext, ptr);
      StrStands(Roomy(p), data, ext, ptr);
      if one.result == Ok {
        rest, rest' := StrlistStands(one.parser.(numOfParam := p.numOfParam + 1), data, ext, one.ptr);
      }
      o := OneTurn(p, data, ptr, one, rest);
      o' := OneTurn(p, data + ext, ptr, one', rest');
    } else {
      o, o' := ReadStrlist(p, data, ptr), ReadStrlist(p, data + ext, ptr);
    }
  }

  lemma MultiStands(data: seq<Byte>, ext: seq<Byte>, ptr: nat)
    requires ptr <= |data|
    ensures var n := ReadMulti(data, ptr);
      n.ptr >= ptr && (Final(n.result, n.ptr, data) ==> ReadMulti(data + ext, ptr) == n)
  {
    if |data| - ptr >= 3 {
      assert (data + ext)[ptr] == data[ptr];
      DigitsStand(data, ext, ptr + 1, ptr + 1, 0);
      if GetInt(data, ptr + 1).result == Ok {
        var stop := NumberTaken(data, ptr + 1);
      }
    }
  }

  /** A verdict other than "wait" with the cursor inside the input stands, whatever
      arrives later, as long as no more than `INT_MAX` bytes are there in all. */
  lemma VerdictStands(p: Parser, data: seq<Byte>, ext: seq<Byte>, ptr: nat)
    requires Formed(p) && ptr <= |data| && |data + ext| - ptr <= INT_MAX
    ensures var o := ReadRequest(p, data, ptr);
      Final(o.result, o.ptr, data) ==> ReadRequest(p, data + ext, ptr) == o
  {
    var o, o' := ReadRequest(p, data, ptr), ReadRequest(p, data + ext, ptr);
    if p.multi == -1 {
      var n := ReadMulti(data, ptr);
      MultiStands(data, ext, ptr);
      if n.result == Ok {
        var now, later := StrlistStands(p.(multi := n.value), data, ext, n.ptr);
      }
    } else {
      var now, later := StrlistStands(p, data, ext, ptr);
    }
  }

  // ----- Waiting -----

  lemma StrResumes(p: Parser, data: seq<Byte>, ext: seq<Byte>, ptr: nat)
    requires Formed(p) && p.numOfParam < |p.params| && ptr <= |data| + 2 && |data + ext| - ptr <= INT_MAX
    ensures var o := ReadStr(p, data, ptr);
      o.result == Wait && o.ptr <= |data| ==>
        Formed(o.parser) && o.parser == p.(paramLen := o.parser.paramLen)
        && ReadStr(o.parser, data + ext, o.ptr) == ReadStr(p, data + ext, ptr)
  {
    StrlenStands(data, ext, ptr);
  }

  lemma TurnResumes(p: Parser, data: seq<Byte>, ext: seq<Byte>, ptr: nat, one: Outcome, one': Outcome,
                    rest: Outcome, o: Outcome)
    requires Formed(p) && ptr <= |data| + 2 && |data + ext| - ptr <= INT_MAX && p.numOfParam < p.multi
    requires one == ReadStr(Roomy(p), data, ptr) && one.result == Wait && one.ptr <= |data|
    requires one' == ReadStr(Roomy(p), data + ext, ptr) && Turn(p, data + ext, one', rest)
    requires o == if one'.result == Ok then rest else one'
    ensures Formed(one.parser) && one.parser.multi == p.multi && o == ReadStrlist(one.parser, data + ext, one.ptr)
  {
    StrResumes(Roomy(p), data, ext, ptr);
    assert Roomy(one.parser) == one.parser && Turn(one.parser, data + ext, one', rest);
    var again := OneTurn(one.parser, data + ext, one.ptr, one', rest);
  }

  lemma {:induction false} StrlistResumes(p: Parser, data: seq<Byte>, ext: seq<Byte>, ptr: nat)
      returns (o: Outcome, o': Outcome)
    requires Formed(p) && ptr <= |data| + 2 && |data + ext| - ptr <= INT_MAX
    ensures o == ReadStrlist(p, data, ptr) && o' == ReadStrlist(p, data + ext, ptr)
    ensures o.result == Wait && o.ptr <= |data| ==>
      Formed(o.parser) && o.parser.multi == p.multi && o' == ReadStrlist(o.parser, data + ext, o.ptr)
    decreases p.multi - p.numOfParam
  {
    if p.numOfParam < p.multi {
      var one, rest := FirstString(p, data, ptr);
      var one', rest' := FirstString(p, data + ext, ptr);
      StrStands(Roomy(p), data, ext, ptr);
      if one.result == Ok {
        rest, rest' := StrlistResumes(one.parser.(numOfParam := p.numOfParam + 1), data, ext, one.ptr);
      }
      o := OneTurn(p, data, ptr, one, rest);
      o' := OneTurn(p, data + ext, ptr, one', rest');
      if one.result == Wait && one.ptr <= |data| {
        TurnResumes(p, data, ext, ptr, one, one', rest', o');
      }
    } else {
      o, o' := ReadStrlist(p, data, ptr), ReadStrlist(p, data + ext, ptr);
    }
  }

  /** A parser that waits inside the input goes on with what arrives later as if the whole
      had been there at once, unless it lost the mark of a request count. */
  lemma Resumes(p: Parser, data: seq<Byte>, ext: seq<Byte>, ptr: nat)
    requires Formed(p) && ptr <= |data| && |data + ext| - ptr <= INT_MAX
    ensures var o := ReadRequest(p, data, ptr);
      o.result == Wait && o.ptr <= |data| && (o.parser.multi == -1 ==> o.ptr == ptr) ==>
        Formed(o.parser) && ReadRequest(o.parser, data + ext, o.ptr) == ReadRequest(p, data + ext, ptr)
  {
    if p.multi != -1 {
      var now, later := StrlistResumes(p, data, ext, ptr);
    } else {
      var n := ReadMulti(data, ptr);
      MultiStands(data, ext, ptr);
      if n.result == Ok {
        var q := p.(multi := n.value);
        var now, later := StrlistStands(q, data, ext, n.ptr);
        now, later := StrlistResumes(q, data, ext, n.ptr);
      }
    }
  }

  // ----- Waiting means that more can be read -----

  /** Bytes that no number and no line end holds. */
  function Junk(n: nat): seq<Byte> { seq(n, _ => STAR) }

  lemma {:induction false} JunkDigits(data: seq<Byte>, n: nat, start: nat, i: nat, v: nat)
    requires start <= i <= |data| && n > 0
    requires ReadDigits(data, start, i, v).result == Wait || i == |data|
    ensures ReadDigits(data + Junk(n), start, i, v).result == Error
    decreases |data| - i
  {
    var more := data + Junk(n);
    if i < |data| {
      assert more[i] == data[i];
      if IsDigit(data[i]) {
        JunkDigits(data, n, start, i + 1, v * 10 + (data[i] - ZERO));
      }
    }
  }

  /** A number cut short and junk behind it: an error, or the line end alone. */
  lemma JunkNumber(data: seq<Byte>, n: nat, from: nat)
    requires from <= |data| && n >= 3 && GetInt(data, from).result == Wait
    ensures var m := GetInt(data + Junk(n), from);
      m.result == Error || (m == Number(Ok, |data|, 0) && from + 2 == |data|)
  {
    var more := data + Junk(n);
    if |data| - from >= 3 {
      JunkDigits(data, n, from, from, 0);
    } else {
      assert forall k :: from <= k < |data| ==> more[k] == data[k];
      if from == |data| || !IsDigit(more[from]) {
        JunkDigits(data, n, from, |data|, 0);
      } else {
        JunkDigit(data, n, from);
      }
    }
  }

  lemma JunkDigit(data: seq<Byte>, n: nat, from: nat)
    requires from < |data| <= from + 2 && n >= 3 && IsDigit(data[from])
    ensures ReadDigits(data + Junk(n), from, from, 0).result == Error
  {
    var more, d := data + Junk(n), data[from] - ZERO;
    assert more[from] == data[from] && (from + 1 < |data| ==> more[from + 1] == data[from + 1]);
    assert ReadDigits(more, from, from, 0) == ReadDigits(more, from, from + 1, d);
    if from + 1 == |data| {
      JunkDigits(data, n, from, |data|, d);
    } else if IsDigit(data[from + 1]) {
      JunkDigits(data, n, from, |data|, d * 10 + (data[from + 1] - ZERO));
    }
  }

  /** A string that waits at its own beginning becomes an error when junk follows. */
  lemma JunkString(p: Parser, data: seq<Byte>, ptr: nat) returns (n: nat)
    requires Formed(p) && p.numOfParam < |p.params| && ptr <= |data| && |data| - ptr <= INT_MAX
    requires ReadStr(p, data, ptr) == Outcome(Wait, p, ptr)
    ensures ReadStr(p, data + Junk(n), ptr).result == Error
  {
    if p.paramLen == -1 {
      n := 5;
      if ptr < |data| && data[ptr] == DOLLAR {
        JunkNumber(data, n, ptr + 1);
        assert (data + Junk(n))[ptr] == DOLLAR && (data + Junk(n))[|data|] == STAR;
      }
    } else {
      n := p.paramLen + 2 - (|data| - ptr);
      assert (data + Junk(n))[ptr + p.paramLen + 1] == STAR;
    }
  }

  lemma JunkStrlist(p: Parser, data: seq<Byte>, ptr: nat) returns (n: nat)
    requires Formed(p) && ptr <= |data| && |data| - ptr <= INT_MAX
    requires ReadStrlist(p, data, ptr) == Outcome(Wait, p, ptr)
    ensures ReadStrlist(p, data + Junk(n), ptr).result == Error
  {
    var one, rest := FirstString(p, data, ptr);
    var o := OneTurn(p, data, ptr, one, rest);
    if one.result == Ok {
      var now, later := StrlistStands(one.parser.(numOfParam := p.numOfParam + 1), data, [], one.ptr);
      assert false;
    }
    n := JunkString(Roomy(p), data, ptr);
    var one', rest' := FirstString(p, data + Junk(n), ptr);
    var o' := OneTurn(p, data + Junk(n), ptr, one', rest');
  }

  /** The cursor never goes back, and the count is known once it is read. */
  lemma Forward(p: Parser, data: seq<Byte>, ptr: nat)
    requires Formed(p) && ptr <= |data| && |data| - ptr <= INT_MAX
    ensures var o := ReadRequest(p, data, ptr);
      o.ptr >= ptr && (o.parser.multi == -1 ==> p.multi == -1 && ReadMulti(data, ptr).result != Ok)
  {
    if p.multi == -1 {
      var n := ReadMulti(data, ptr);
      MultiStands(data, [], ptr);
      if n.result == Ok {
        var now, later := StrlistStands(p.(multi := n.value), data, [], n.ptr);
      }
    } else {
      var now, later := StrlistStands(p, data, [], ptr);
    }
  }

  lemma JunkCount(p: Parser, data: seq<Byte>, n: nat, at: nat)
    requires Formed(p) && p.multi == -1 && at <= |data| && n >= 5
    requires at < |data| && data[at] == STAR ==> GetInt(data, at + 1).result == Wait
    ensures ReadRequest(p, data + Junk(n), at).result != Wait
  {
    var more := data + Junk(n);
    if at < |data| && data[at] == STAR {
      JunkNumber(data, n, at + 1);
      assert more[at] == STAR;
    } else if at == |data| {
      assert more[at] == STAR && more[at + 1] == STAR;
    } else {
      assert more[at] == data[at];
    }
  }

  /** A parser that waits inside the input is not at the end of its verdicts: there are
      bytes with which it no longer waits. */
  lemma WaitIsOpen(p: Parser, data: seq<Byte>, ptr: nat) returns (n: nat)
    requires Formed(p) && ptr <= |data| && |data| - ptr <= INT_MAX
    requires var o := ReadRequest(p, data, ptr); o.result == Wait && o.ptr <= |data|
    ensures var o := ReadRequest(p, data, ptr);
      Formed(o.parser) && ReadRequest(o.parser, data + Junk(n), o.ptr).result != Wait
  {
    var o := ReadRequest(p, data, ptr);
    Forward(p, data, ptr);
    if o.parser.multi == -1 {
      n := 5;
      JunkCount(p, data, n, o.ptr);
    } else {
      assert data + [] == data;
      Resumes(p, data, [], ptr);
      n := JunkStrlist(o.parser, data, o.ptr);
    }
  }

  // ----- Errors -----

  /** A length that ran to the end of the input only grows. */
  lemma StrlenGrows(data: seq<Byte>, ext: seq<Byte>, ptr: nat)
    requires ptr <= |data| + 2
    ensures var n, n' := ReadStrlen(data, ptr), ReadStrlen(data + ext, ptr);
      n.result == Ok && n'.result == Ok ==> n'.value >= n.value
  {
    StrlenStands(data, ext, ptr);
    if |data| - ptr >= 3 && data[ptr] == DOLLAR {
      DigitsStand(data, ext, ptr + 1, ptr + 1, 0);
      var n := GetInt(data, ptr + 1);
      if n.result == Ok && n.ptr > |data| {
        DigitsStand(data + ext, [], ptr + 1, |data|, n.value);
      }
    }
  }

  /** `o` fails for good: `o'` on the longer input is no success, and an error is the same. */
  predicate FailsFor(o: Outcome, o': Outcome, data: seq<Byte>) {
    && (o.result == Error ==> o.ptr <= |data|)
    && (o.result == Overflow ==> o'.result != Ok)
  }

  lemma StrFails(p: Parser, data: seq<Byte>, ext: seq<Byte>, ptr: nat)
    requires Formed(p) && p.numOfParam < |p.params| && ptr <= |data| + 2 && |data + ext| - ptr <= INT_MAX
    ensures FailsFor(ReadStr(p, data, ptr), ReadStr(p, data + ext, ptr), data)
  {
    if p.paramLen == -1 {
      StrlenStands(data, ext, ptr);
      StrlenGrows(data, ext, ptr);
    }
  }

  lemma {:induction false} StrlistFails(p: Parser, data: seq<Byte>, ext: seq<Byte>, ptr: nat)
      returns (o: Outcome, o': Outcome)
    requires Formed(p) && ptr <= |data| + 2 && |data + ext| - ptr <= INT_MAX
    ensures o == ReadStrlist(p, data, ptr) && o' == ReadStrlist(p, data + ext, ptr) && FailsFor(o, o', data)
    ensures ptr > |data| && p.paramLen == -1 ==> o.result == Wait || o.result == Ok
    decreases p.multi - p.numOfParam
  {
    if p.numOfParam < p.multi {
      var one, rest := FirstString(p, data, ptr);
      var one', rest' := FirstString(p, data + ext, ptr);
      StrStands(Roomy(p), data, ext, ptr);
      StrFails(Roomy(p), data, ext, ptr);
      if one.result == Ok {
        rest, rest' := StrlistFails(one.parser.(numOfParam := p.numOfParam + 1), data, ext, one.ptr);
      }
      o := OneTurn(p, data, ptr, one, rest);
      o' := OneTurn(p, data + ext, ptr, one', rest');
    } else {
      o, o' := ReadStrlist(p, data, ptr), ReadStrlist(p, data + ext, ptr);
    }
  }

  lemma Fails(p: Parser, data: seq<Byte>, ext: seq<Byte>, ptr: nat)
    requires Formed(p) && p.paramLen == -1 && ptr <= |data| && |data + ext| - ptr <= INT_MAX
    ensures FailsFor(ReadRequest(p, data, ptr), ReadRequest(p, data + ext, ptr), data)
  {
    if p.multi == -1 {
      var n := ReadMulti(data, ptr);
      MultiStands(data, ext, ptr);
      if n.result == Ok {
        var now, later := StrlistFails(p.(multi := n.value), data, ext, n.ptr);
      }
    } else {
      var now, later := StrlistFails(p, data, ext, ptr);
    }
  }

  /** Bytes that are no beginning of a request are an error from then on. */
  lemma ErrorStays(p: Parser, data: seq<Byte>, ext: seq<Byte>, ptr: nat)
    requires Formed(p) && p.paramLen == -1 && ptr <= |data| && |data + ext| - ptr <= INT_MAX
    requires ReadRequest(p, data, ptr).result == Error
    ensures ReadRequest(p, data + ext, ptr) == ReadRequest(p, data, ptr)
  {
    Fails(p, data, ext, ptr);
    VerdictStands(p, data, ext, ptr);
  }

  // ----- Prefixes of requests -----

  lemma {:induction false} FirstDigit(n: nat)
    ensures n > 0 ==> Decimal(n)[0] != ZERO
    ensures n == 0 ==> Decimal(n) == [ZERO]
  {
    if n >= 10 {
      FirstDigit(n / 10);
    }
  }

  lemma NoZeros(data: seq<Byte>, cut: nat, at: nat, n: nat)
    requires Holds(data, at, Header(STAR, n)) && cut <= |data|
    ensures !ZerosToTheEnd(data[..cut], at)
  {
    var h := Header(STAR, n);
    FirstDigit(n);
    assert h[1] == Decimal(n)[0];
    assert data[at + 1] == data[at..at + |h|][1] && data[at + 2] == data[at..at + |h|][2];
    assert at + 2 < cut ==> data[..cut][at + 1] == data[at + 1] && data[..cut][at + 2] == data[at + 2];
  }

  lemma {:induction false} BulksLong(list: seq<seq<Byte>>, k: nat, j: nat, all: seq<Byte>)
    requires k <= j <= |list| && all == Bulks(list, k)
    ensures |list| - k <= |all| && (j < |list| ==> |list[j]| <= |all|)
    decreases |list| - k
  {
    if k < |list| {
      var rest := Bulks(list, k + 1);
      assert all == Bulk(list[k]) + rest;
      BulkLong(list[k]);
      BulksLong(list, k + 1, if j == k then k + 1 else j, rest);
    }
  }

  lemma BulkLong(s: seq<Byte>)
    ensures |Bulk(s)| > |s|
  {
  }

  lemma ShortFits(list: seq<seq<Byte>>)
    requires |Request(list)| <= INT_MAX
    ensures FitsInt(list)
  {
    forall j | 0 <= j <= |list|
      ensures |list| <= INT_MAX && (j < |list| ==> |list[j]| <= INT_MAX)
    {
      BulksLong(list, 0, j, Bulks(list, 0));
    }
    BulksLong(list, 0, 0, Bulks(list, 0));
  }

  /** Every request cut short waits for more. */
  lemma PrefixWaits(p: Parser, data: seq<Byte>, at: nat, list: seq<seq<Byte>>, cut: nat)
    requires Holds(data, at, Request(list)) && |Request(list)| <= INT_MAX
    requires at <= cut < at + |Request(list)|
    ensures ReadRequest(Reset(p), data[..cut], at).result == Wait
  {
    var end := at + |Request(list)|;
    var pre, ext := data[..cut], data[cut..end];
    assert pre + ext == data[..end];
    assert data[..end][at..end] == data[at..end];
    ShortFits(list);
    RoundTrip(p, data[..end], at, list);
    VerdictStands(Reset(p), pre, ext, at);
    Fails(Reset(p), pre, ext, at);
    var o := OnlyRequests(p, pre, at);
    HoldsBoth(data, at, Header(STAR, |list|), Bulks(list, 0));
    NoZeros(data, cut, at, |list|);
  }

  /** A count cut behind its mark is lost: a request that would be accepted as a whole is
      not accepted from where the parser waits. */
  lemma CountLost(p: Parser, data: seq<Byte>, ext: seq<Byte>, ptr: nat)
    requires Formed(p) && p.paramLen == -1 && ptr <= |data| && |data + ext| - ptr <= INT_MAX
    requires var o := ReadRequest(p, data, ptr); o.result == Wait && o.parser.multi == -1 && o.ptr != ptr
    requires ReadRequest(p, data + ext, ptr).result == Ok
    ensures var o := ReadRequest(p, data, ptr);
      o.parser == p && o.ptr == ptr + 1 && ReadRequest(p, data + ext, ptr + 1).result != Ok
  {
    if p.multi != -1 {
      var now, later := StrlistStands(p, data, ext, ptr);
      assert false;
    }
    var n := ReadMulti(data, ptr);
    MultiStands(data, ext, ptr);
    if n.result == Ok {
      var now, later := StrlistStands(p.(multi := n.value), data, ext, n.ptr);
      assert false;
    }
    var more := GetInt(data + ext, ptr + 1);
    assert more.result == Ok;
    assert (data + ext)[ptr + 1] != STAR;
  }
}
