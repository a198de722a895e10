/** The request printer and the request parser of the Redis serialization
    protocol: what each computes, and that the second undoes the first. */
module RespSpec {
  import opened Bytes

  const STAR: Byte := '*' as int
  const DOLLAR: Byte := '$' as int
  const ZERO: Byte := '0' as int
  const CR: Byte := 13
  const LF: Byte := 10
  const CRLF: seq<Byte> := [CR, LF]

  const INT_MAX: nat := 0x7FFF_FFFF

  /** The `int` a 64-bit difference is cast to. */
  function ToInt(x: int): (r: int)
    ensures r <= INT_MAX && (x >= 0 - INT_MAX ==> r <= x) && (0 - INT_MAX <= x <= INT_MAX ==> r == x)
  {
    var m := x % 0x1_0000_0000;
    if m <= INT_MAX then m else m - 0x1_0000_0000
  }

  // ----- Printing -----

  function Decimal(n: nat): (s: seq<Byte>)
    ensures |s| >= 1 && forall k :: 0 <= k < |s| ==> IsDigit(s[k])
  {
    if n < 10 then [ZERO + n] else Decimal(n / 10) + [ZERO + n % 10]
  }

  predicate IsDigit(b: Byte) { ZERO <= b <= ZERO + 9 }

  function Header(mark: Byte, n: nat): seq<Byte> { [mark] + Decimal(n) + CRLF }

  function Bulk(s: seq<Byte>): seq<Byte> { Header(DOLLAR, |s|) + s + CRLF }

  /** The bulk strings from index `k` on. */
  function Bulks(list: seq<seq<Byte>>, k: nat): seq<Byte>
    requires k <= |list|
    decreases |list| - k
  {
    if k == |list| then [] else Bulk(list[k]) + Bulks(list, k + 1)
  }

  function Request(list: seq<seq<Byte>>): seq<Byte> { Header(STAR, |list|) + Bulks(list, 0) }

  // ----- Parsing -----

  /** `Overflow` marks the runs in which a C `int` overflows, which the language
      leaves undefined. */
  datatype ParseResult = Ok | Wait | Error | Overflow

  /** A number read: how it went, the cursor, and the value if it went well. */
  datatype Number = Number(result: ParseResult, ptr: nat, value: nat)

  /** The digits from `i` on, after those that gave `value`; `start` is where the
      cursor stays unless the number is complete. Digits that run to the end of the
      input pass for a complete number. */
  function ReadDigits(data: seq<Byte>, start: nat, i: nat, value: nat): (n: Number)
    requires start <= i <= |data|
    ensures n.ptr <= |data| + 2 && (n.result != Ok ==> n.ptr == start)
    decreases |data| - i
  {
    if i == |data| then Number(Ok, i + 2, value)
    else if IsDigit(data[i]) then
      var more := value * 10 + (data[i] - ZERO);
      if more > INT_MAX then Number(Overflow, start, 0) else ReadDigits(data, start, i + 1, more)
    else if data[i] != CR || (i + 1 < |data| && data[i + 1] != LF) then Number(Error, start, 0)
    else if i + 1 == |data| then Number(Wait, start, 0)
    else Number(Ok, i + 2, value)
  }

  function GetInt(data: seq<Byte>, ptr: nat): Number
    requires ptr <= |data|
  {
    if |data| - ptr < 3 then Number(Wait, ptr, 0) else ReadDigits(data, ptr, ptr, 0)
  }

  /** The request count; a count that fails leaves the cursor behind the mark. */
  function ReadMulti(data: seq<Byte>, ptr: nat): Number
    requires ptr <= |data| + 2
  {
    if |data| - ptr < 3 then Number(Wait, ptr, 0)
    else if data[ptr] != STAR then Number(Error, ptr, 0)
    else GetInt(data, ptr + 1)
  }

  /** A string length; one that fails leaves the cursor at the mark. */
  function ReadStrlen(data: seq<Byte>, ptr: nat): Number
    requires ptr <= |data| + 2
  {
    if |data| - ptr < 3 then Number(Wait, ptr, 0)
    else if data[ptr] != DOLLAR then Number(Error, ptr, 0)
    else
      var n := GetInt(data, ptr + 1);
      if n.result == Ok then n else n.(ptr := ptr)
  }

  /** The fields of the parser; -1 stands for a count or length not yet read. */
  datatype Parser = Parser(multi: int, paramLen: int, numOfParam: nat, params: seq<seq<Byte>>)

  /** A parser after a call, with the call's result and the cursor. */
  datatype Outcome = Outcome(result: ParseResult, parser: Parser, ptr: nat)

  /** Forgets the request, but keeps up to three old strings. */
  function Reset(p: Parser): (r: Parser)
    ensures r == Parser(-1, -1, 0, r.params) && r.params <= p.params
    ensures |r.params| == 3 || (|r.params| < 3 && r.params == p.params)
  {
    Parser(-1, -1, 0, if |p.params| > 3 then p.params[..3] else p.params)
  }

  predicate Formed(p: Parser) { p.multi >= -1 && p.paramLen >= -1 }

  /** The value of the string whose length has been read. */
  function ReadStrval(p: Parser, data: seq<Byte>, ptr: nat): Outcome
    requires ptr <= |data| + 2 && p.paramLen >= 0 && p.numOfParam < |p.params|
  {
    if p.paramLen + 2 > INT_MAX then Outcome(Overflow, p, ptr)
    else if ToInt(|data| - ptr) < p.paramLen + 2 then Outcome(Wait, p, ptr)
    else
      var tail := ptr + p.paramLen;
      if data[tail] != CR || data[tail + 1] != LF then Outcome(Error, p, ptr)
      else Outcome(Ok, p.(paramLen := -1, params := p.params[p.numOfParam := data[ptr..tail]]), tail + 2)
  }

  /** One string: its length, unless that has been read before, and its value. */
  function ReadStr(p: Parser, data: seq<Byte>, ptr: nat): Outcome
    requires Formed(p) && p.numOfParam < |p.params| && ptr <= |data| + 2
  {
    if p.paramLen == -1 then
      var n := ReadStrlen(data, ptr);
      if n.result != Ok then Outcome(n.result, p, n.ptr)
      else ReadStrval(p.(paramLen := n.value), data, n.ptr)
    else ReadStrval(p, data, ptr)
  }

  /** The parser with room for the next string. */
  function Roomy(p: Parser): (q: Parser)
    ensures q == p.(params := q.params) && p.numOfParam < |q.params|
  {
    if |p.params| < p.numOfParam + 1 then p.(params := Resized(p.params, p.numOfParam + 1, [])) else p
  }

  /** The strings still missing. */
  function ReadStrlist(p: Parser, data: seq<Byte>, ptr: nat): Outcome
    requires Formed(p) && ptr <= |data| + 2
    decreases p.multi - p.numOfParam
  {
    if p.numOfParam < p.multi then
      var one := ReadStr(Roomy(p), data, ptr);
      if one.result != Ok then one
      else ReadStrlist(one.parser.(numOfParam := p.numOfParam + 1), data, one.ptr)
    else Outcome(Ok, p.(params := Resized(p.params, p.numOfParam, [])), ptr)
  }

  function ReadRequest(p: Parser, data: seq<Byte>, ptr: nat): Outcome
    requires Formed(p) && ptr <= |data| + 2
  {
    if p.multi == -1 then
      var n := ReadMulti(data, ptr);
      if n.result != Ok then Outcome(n.result, p, n.ptr)
      else ReadStrlist(p.(multi := n.value), data, n.ptr)
    else ReadStrlist(p, data, ptr)
  }
}

/** The parser undoes the printer. */
module RespRoundTrip {
  import opened Bytes
  import opened RespSpec

  /** The input holds `s` at position `at`. */
  predicate Holds(data: seq<Byte>, at: nat, s: seq<Byte>) {
    at + |s| <= |data| && data[at..at + |s|] == s
  }

  lemma HoldsBoth(data: seq<Byte>, at: nat, a: seq<Byte>, b: seq<Byte>)
    requires Holds(data, at, a + b)
    ensures Holds(data, at, a) && Holds(data, at + |a|, b)
  {
    var s := data[at..at + |a + b|];
    assert data[at..at + |a|] == s[..|a|];
    assert data[at + |a|..at + |a| + |b|] == s[|a|..];
  }

  lemma {:induction false} DigitsRead(data: seq<Byte>, start: nat, at: nat, n: nat)
    requires start <= at && Holds(data, at, Decimal(n)) && n <= INT_MAX
    ensures ReadDigits(data, start, at, 0) == ReadDigits(data, start, at + |Decimal(n)|, n)
    decreases n
  {
    if n < 10 {
      assert data[at] == data[at..at + 1][0];
    } else {
      HoldsBoth(data, at, Decimal(n / 10), [ZERO + n % 10]);
      DigitsRead(data, start, at, n / 10);
      var last := at + |Decimal(n / 10)|;
      assert data[last] == data[last..last + 1][0];
    }
  }

  lemma HeaderRead(data: seq<Byte>, at: nat, mark: Byte, n: nat)
    requires Holds(data, at, Header(mark, n)) && n <= INT_MAX
    ensures |data| - at >= 4 && data[at] == mark
    ensures GetInt(data, at + 1) == Number(Ok, at + |Header(mark, n)|, n)
  {
    HoldsBoth(data, at, [mark] + Decimal(n), CRLF);
    HoldsBoth(data, at, [mark], Decimal(n));
    assert data[at] == data[at..at + 1][0];
    DigitsRead(data, at + 1, at + 1, n);
    var end := at + 1 + |Decimal(n)|;
    assert data[end] == data[end..end + 2][0] && data[end + 1] == data[end..end + 2][1];
  }

  /** The cast of the number of bytes left still covers the value and its end. */
  predicate Reached(left: nat, length: nat) { ToInt(left) >= length + 2 }

  /** The outcome when a step with outcome `rest` follows if `reached`. */
  predicate Follows(o: Outcome, reached: bool, rest: Outcome) {
    if reached then o == rest else o.result != Ok
  }

  lemma BulkRead(p: Parser, data: seq<Byte>, at: nat, s: seq<Byte>, left: nat)
    requires Formed(p) && p.paramLen == -1 && p.numOfParam < |p.params|
    requires Holds(data, at, Bulk(s)) && |s| <= INT_MAX && |data| == at + |Header(DOLLAR, |s|)| + left
    ensures Follows(ReadStr(p, data, at), Reached(left, |s|),
                    Outcome(Ok, p.(params := p.params[p.numOfParam := s]), at + |Bulk(s)|))
  {
    HoldsBoth(data, at, Header(DOLLAR, |s|) + s, CRLF);
    HoldsBoth(data, at, Header(DOLLAR, |s|), s);
    HeaderRead(data, at, DOLLAR, |s|);
    var tail := at + |Header(DOLLAR, |s|)| + |s|;
    assert data[tail] == data[tail..tail + 2][0] && data[tail + 1] == data[tail..tail + 2][1];
  }

  /** The bytes from the value of string `k` to the end of the input, when `after`
      bytes follow the request. */
  function Left(list: seq<seq<Byte>>, k: nat, after: nat): nat
    requires k < |list|
  {
    |list[k]| + 2 + |Bulks(list, k + 1)| + after
  }

  /** Every value from string `k` on is reached. */
  predicate AllReached(list: seq<seq<Byte>>, k: nat, after: nat)
    requires k <= |list|
    decreases |list| - k
  {
    k == |list| || (Reached(Left(list, k, after), |list[k]|) && AllReached(list, k + 1, after))
  }

  predicate FitsInt(list: seq<seq<Byte>>) {
    |list| <= INT_MAX && forall k :: 0 <= k < |list| ==> |list[k]| <= INT_MAX
  }

  /** A parser at string `k` of `list`, with the strings before it in place. */
  predicate AtString(p: Parser, list: seq<seq<Byte>>, k: nat) {
    p.multi == |list| && p.paramLen == -1 && p.numOfParam == k <= |list|
    && k <= |p.params| && p.params[..k] == list[..k]
  }

  /** The parser after string `k` has been read. */
  function Next(p: Parser, list: seq<seq<Byte>>, k: nat): (q: Parser)
    requires AtString(p, list, k) && k < |list|
    ensures AtString(q, list, k + 1)
  {
    var params := Roomy(p).params[k := list[k]];
    assert params[..k + 1] == list[..k + 1];
    p.(params := params, numOfParam := k + 1)
  }

  lemma StringRead(p: Parser, data: seq<Byte>, at: nat, list: seq<seq<Byte>>, k: nat, left: nat, rest: Outcome)
      returns (o: Outcome)
    requires AtString(p, list, k) && k < |list| && |list[k]| <= INT_MAX && Holds(data, at, Bulk(list[k]))
    requires |data| == at + |Header(DOLLAR, |list[k]|)| + left
    requires rest == ReadStrlist(Next(p, list, k), data, at + |Bulk(list[k])|)
    ensures o == ReadStrlist(p, data, at) && Follows(o, Reached(left, |list[k]|), rest)
  {
    var q := Roomy(p);
    BulkRead(q, data, at, list[k], left);
    var read := Outcome(Ok, q.(params := q.params[k := list[k]]), at + |Bulk(list[k])|);
    o := StrlistStep(p, data, at, Reached(left, |list[k]|), read, rest);
  }

  /** One turn of the loop over the strings. */
  lemma StrlistStep(p: Parser, data: seq<Byte>, at: nat, reached: bool, read: Outcome, rest: Outcome)
      returns (o: Outcome)
    requires Formed(p) && at <= |data| + 2 && p.numOfParam < p.multi
    requires Follows(ReadStr(Roomy(p), data, at), reached, read)
    requires read.result == Ok && Formed(read.parser) && read.parser.multi == p.multi && read.ptr <= |data| + 2
    requires rest == ReadStrlist(read.parser.(numOfParam := p.numOfParam + 1), data, read.ptr)
    ensures o == ReadStrlist(p, data, at) && Follows(o, reached, rest)
  {
    o := ReadStrlist(p, data, at);
  }

  /** The parser that holds exactly `list`. */
  function Holding(list: seq<seq<Byte>>): Parser { Parser(|list|, -1, |list|, list) }

  /** The outcome is the whole list with the cursor at `end` if the strings from `k`
      on are reached, and no success otherwise. */
  predicate Yields(o: Outcome, list: seq<seq<Byte>>, k: nat, after: nat, end: nat)
    requires k <= |list|
  {
    if AllReached(list, k, after) then o == Outcome(Ok, Holding(list), end) else o.result != Ok
  }

  lemma YieldsOneMore(o: Outcome, rest: Outcome, list: seq<seq<Byte>>, k: nat, after: nat, end: nat)
    requires k < |list| && Follows(o, Reached(Left(list, k, after), |list[k]|), rest)
    requires Yields(rest, list, k + 1, after, end)
    ensures Yields(o, list, k, after, end)
  {
  }

  lemma {:induction false} StrlistRead(p: Parser, data: seq<Byte>, at: nat, list: seq<seq<Byte>>, k: nat,
                                       end: nat, after: nat)
      returns (o: Outcome)
    requires FitsInt(list) && AtString(p, list, k) && Holds(data, at, Bulks(list, k))
    requires end == at + |Bulks(list, k)| && |data| == end + after
    ensures o == ReadStrlist(p, data, at) && Yields(o, list, k, after, end)
    decreases |list| - k
  {
    if k < |list| {
      HoldsBoth(data, at, Bulk(list[k]), Bulks(list, k + 1));
      var rest := StrlistRead(Next(p, list, k), data, at + |Bulk(list[k])|, list, k + 1, end, after);
      o := StringRead(p, data, at, list, k, Left(list, k, after), rest);
      YieldsOneMore(o, rest, list, k, after, end);
    } else {
      o := StrlistDone(p, data, at, list, after);
    }
  }

  lemma StrlistDone(p: Parser, data: seq<Byte>, at: nat, list: seq<seq<Byte>>, after: nat) returns (o: Outcome)
    requires AtString(p, list, |list|) && at <= |data| + 2
    ensures o == ReadStrlist(p, data, at) && Yields(o, list, |list|, after, at)
  {
    o := ReadStrlist(p, data, at);
    assert list[..|list|] == list;
  }

  lemma CountRead(p: Parser, data: seq<Byte>, at: nat, n: nat, o: Outcome)
    requires Holds(data, at, Header(STAR, n)) && n <= INT_MAX
    requires o == ReadStrlist(Reset(p).(multi := n), data, at + |Header(STAR, n)|)
    ensures o == ReadRequest(Reset(p), data, at)
  {
    HeaderRead(data, at, STAR, n);
  }

  /** Parsing a printed request, with any bytes before it and `after` bytes behind
      it and from any reset parser: it succeeds exactly when every value is still
      reached by the cast, and then the parser holds exactly the strings that were
      printed and the cursor stands exactly behind the request. */
  lemma RoundTripExactly(p: Parser, data: seq<Byte>, at: nat, list: seq<seq<Byte>>, end: nat, after: nat)
      returns (o: Outcome)
    requires FitsInt(list) && Holds(data, at, Request(list))
    requires end == at + |Request(list)| && |data| == end + after
    ensures o == ReadRequest(Reset(p), data, at) && Yields(o, list, 0, after, end)
  {
    var mid := at + |Header(STAR, |list|)|;
    HoldsBoth(data, at, Header(STAR, |list|), Bulks(list, 0));
    o := StringsRead(p, data, mid, list, end, after);
    CountRead(p, data, at, |list|, o);
  }

  lemma StringsRead(p: Parser, data: seq<Byte>, at: nat, list: seq<seq<Byte>>, end: nat, after: nat)
      returns (o: Outcome)
    requires FitsInt(list) && Holds(data, at, Bulks(list, 0))
    requires end == at + |Bulks(list, 0)| && |data| == end + after
    ensures o == ReadStrlist(Reset(p).(multi := |list|), data, at) && Yields(o, list, 0, after, end)
  {
    var q := Reset(p).(multi := |list|);
    assert q.params[..0] == list[..0];
    o := StrlistRead(q, data, at, list, 0, end, after);
  }

  /** In particular it succeeds on any input of up to `INT_MAX` bytes. */
  lemma RoundTrip(p: Parser, data: seq<Byte>, at: nat, list: seq<seq<Byte>>)
    requires FitsInt(list) && Holds(data, at, Request(list)) && |data| - at <= INT_MAX
    ensures ReadRequest(Reset(p), data, at)
         == Outcome(Ok, Holding(list), at + |Request(list)|)
  {
    var end := at + |Request(list)|;
    var after := |data| - end;
    var _ := RoundTripExactly(p, data, at, list, end, after);
    ShortIsReached(list, 0, after);
  }

  lemma {:induction false} ShortIsReached(list: seq<seq<Byte>>, k: nat, after: nat)
    requires k <= |list| && |Bulks(list, k)| + after <= INT_MAX
    ensures AllReached(list, k, after)
    decreases |list| - k
  {
    if k < |list| {
      ShortIsReached(list, k + 1, after);
    }
  }

  /** One empty string and two gigabytes behind it: never parsed. */
  lemma FarTail(p: Parser, rest: seq<Byte>)
    requires |rest| == INT_MAX
    ensures ReadRequest(Reset(p), Request([[]]) + rest, 0).result != Ok
  {
    var list: seq<seq<Byte>> := [[]];
    var _ := RoundTripExactly(p, Request(list) + rest, 0, list, |Request(list)|, |rest|);
    assert Left(list, 0, |rest|) == INT_MAX + 2;
    assert !Reached(Left(list, 0, |rest|), |list[0]|);
  }
}
