/** Which inputs the parser accepts: requests, and nothing else. */
module RespGrammar {
  import opened Bytes
  import opened RespSpec
  import opened RespRoundTrip

  // ----- The grammar -----

  predicate AllDigits(ds: seq<Byte>) { forall k :: 0 <= k < |ds| ==> IsDigit(ds[k]) }

  /** The number that decimal digits stand for; no digits stand for zero. */
  function Value(ds: seq<Byte>): nat
    requires AllDigits(ds)
  {
    if ds == [] then 0 else Value(ds[..|ds| - 1]) * 10 + (ds[|ds| - 1] - ZERO)
  }

  /** Digits of `v` from `from` to `stop` and a line end. Leading zeros are allowed, and
      no digits at all for zero, as long as three bytes are left. */
  predicate IsNumber(data: seq<Byte>, from: nat, stop: nat, v: nat) {
    && from <= stop && stop + 2 <= |data| && |data| - from >= 3
    && AllDigits(data[from..stop]) && Value(data[from..stop]) == v
    && data[stop] == CR && data[stop + 1] == LF
  }

  /** A bulk string `s` from `from` to `end`, whose length ends at `d`. */
  predicate IsBulkAt(data: seq<Byte>, from: nat, d: nat, s: seq<Byte>, end: nat) {
    && from < |data| && data[from] == DOLLAR && IsNumber(data, from + 1, d, |s|)
    && Holds(data, d + 2, s) && Holds(data, d + 2 + |s|, CRLF) && end == d + |s| + 4
  }

  ghost predicate IsBulk(data: seq<Byte>, from: nat, s: seq<Byte>, end: nat) {
    exists d: nat :: IsBulkAt(data, from, d, s, end)
  }

  /** The bulk strings of `list`, one after the other. */
  ghost predicate AreBulks(data: seq<Byte>, from: nat, list: seq<seq<Byte>>, end: nat)
    decreases |list|
  {
    if list == [] then from == end
    else exists mid: nat :: IsBulk(data, from, list[0], mid) && AreBulks(data, mid, list[1..], end)
  }

  ghost predicate IsRequestAt(data: seq<Byte>, at: nat, d: nat, list: seq<seq<Byte>>, end: nat) {
    && at < |data| && data[at] == STAR && IsNumber(data, at + 1, d, |list|)
    && AreBulks(data, d + 2, list, end)
  }

  /** The input holds a request for `list` from `at` to `end`. */
  ghost predicate IsRequest(data: seq<Byte>, at: nat, list: seq<seq<Byte>>, end: nat) {
    exists d: nat :: IsRequestAt(data, at, d, list, end)
  }

  // ----- Numbers -----

  lemma OneDigit(data: seq<Byte>, from: nat, i: nat)
    requires from <= i < |data| && AllDigits(data[from..i]) && IsDigit(data[i])
    ensures AllDigits(data[from..i + 1])
    ensures Value(data[from..i + 1]) == Value(data[from..i]) * 10 + (data[i] - ZERO)
  {
    var ds := data[from..i + 1];
    assert ds[..|ds| - 1] == data[from..i] && ds[|ds| - 1] == data[i];
  }

  lemma {:induction false} DigitsTaken(data: seq<Byte>, from: nat, i: nat) returns (stop: nat)
    requires from <= i <= |data| && AllDigits(data[from..i]) && Value(data[from..i]) <= INT_MAX
    requires ReadDigits(data, from, i, Value(data[from..i])).result == Ok
    ensures var n := ReadDigits(data, from, i, Value(data[from..i]));
      && n.ptr == stop + 2 && from <= stop <= |data| && AllDigits(data[from..stop])
      && Value(data[from..stop]) == n.value <= INT_MAX
    ensures stop < |data| ==> stop + 2 <= |data| && data[stop] == CR && data[stop + 1] == LF
    decreases |data| - i
  {
    if i < |data| && IsDigit(data[i]) {
      OneDigit(data, from, i);
      stop := DigitsTaken(data, from, i + 1);
    } else {
      stop := i;
    }
  }

  /** A number that is read is one, or runs to the end of the input. */
  lemma NumberTaken(data: seq<Byte>, from: nat) returns (stop: nat)
    requires from <= |data| && GetInt(data, from).result == Ok
    ensures GetInt(data, from).ptr == stop + 2 && GetInt(data, from).value <= INT_MAX
    ensures stop < |data| ==> IsNumber(data, from, stop, GetInt(data, from).value)
    ensures stop >= |data| ==>
      && stop == |data| && |data| - from >= 3 && AllDigits(data[from..])
      && Value(data[from..]) == GetInt(data, from).value
  {
    assert data[from..from] == [];
    stop := DigitsTaken(data, from, from);
    assert data[from..|data|] == data[from..];
  }

  lemma {:induction false} ValueGrows(data: seq<Byte>, from: nat, i: nat, stop: nat)
    requires from <= i <= stop <= |data| && AllDigits(data[from..stop])
    ensures AllDigits(data[from..i]) && Value(data[from..i]) <= Value(data[from..stop])
    decreases stop
  {
    if i < stop {
      assert data[from..stop][stop - 1 - from] == data[stop - 1];
      assert data[from..stop - 1] == data[from..stop][..stop - 1 - from];
      ValueGrows(data, from, i, stop - 1);
      OneDigit(data, from, stop - 1);
    }
  }

  lemma {:induction false} DigitsAccepted(data: seq<Byte>, from: nat, i: nat, stop: nat)
    requires from <= i <= stop && stop + 2 <= |data| && AllDigits(data[from..stop]) && AllDigits(data[from..i])
    requires Value(data[from..stop]) <= INT_MAX && data[stop] == CR && data[stop + 1] == LF
    ensures ReadDigits(data, from, i, Value(data[from..i])) == Number(Ok, stop + 2, Value(data[from..stop]))
    decreases |data| - i
  {
    if i < stop {
      assert data[i] == data[from..stop][i - from];
      OneDigit(data, from, i);
      ValueGrows(data, from, i + 1, stop);
      DigitsAccepted(data, from, i + 1, stop);
    }
  }

  lemma NumberAccepted(data: seq<Byte>, from: nat, stop: nat, v: nat)
    requires IsNumber(data, from, stop, v) && v <= INT_MAX
    ensures GetInt(data, from) == Number(Ok, stop + 2, v)
  {
    assert data[from..from] == [];
    DigitsAccepted(data, from, from, stop);
  }

  /** Some of the digits at `from` stand for more than an `int` holds. */
  ghost predicate TooLarge(data: seq<Byte>, from: nat, stop: nat) {
    from <= stop <= |data| && AllDigits(data[from..stop]) && Value(data[from..stop]) > INT_MAX
  }

  lemma {:induction false} DigitsOverflow(data: seq<Byte>, from: nat, i: nat, stop: nat)
    requires from <= i <= stop <= |data| && AllDigits(data[from..i]) && Value(data[from..i]) <= INT_MAX
    requires TooLarge(data, from, stop)
    ensures ReadDigits(data, from, i, Value(data[from..i])).result == Overflow
    decreases stop - i
  {
    if i == stop {
      assert false;
    }
    assert data[i] == data[from..stop][i - from];
    OneDigit(data, from, i);
    if Value(data[from..i + 1]) <= INT_MAX {
      DigitsOverflow(data, from, i + 1, stop);
    }
  }

  lemma {:induction false} OverflowDigits(data: seq<Byte>, from: nat, i: nat) returns (stop: nat)
    requires from <= i <= |data| && AllDigits(data[from..i]) && Value(data[from..i]) <= INT_MAX
    requires ReadDigits(data, from, i, Value(data[from..i])).result == Overflow
    ensures TooLarge(data, from, stop)
    decreases |data| - i
  {
    OneDigit(data, from, i);
    if Value(data[from..i + 1]) <= INT_MAX {
      stop := OverflowDigits(data, from, i + 1);
    } else {
      stop := i + 1;
    }
  }

  /** Reading a number overflows exactly when its digits, or the first of them, stand for
      more than an `int` holds. */
  lemma OverflowExactly(data: seq<Byte>, from: nat)
    requires from + 3 <= |data|
    ensures GetInt(data, from).result == Overflow <==> exists stop: nat :: TooLarge(data, from, stop)
  {
    assert data[from..from] == [];
    if GetInt(data, from).result == Overflow {
      var stop := OverflowDigits(data, from, from);
    }
    forall stop: nat | TooLarge(data, from, stop)
      ensures GetInt(data, from).result == Overflow
    {
      DigitsOverflow(data, from, from, stop);
    }
  }

  // ----- Only requests are accepted -----

  /** A string that is read is one. */
  lemma BulkTaken(p: Parser, data: seq<Byte>, ptr: nat) returns (d: nat, s: seq<Byte>)
    requires Formed(p) && p.paramLen == -1 && p.numOfParam < |p.params| && ptr <= |data| + 2
    requires ReadStr(p, data, ptr).result == Ok
    ensures IsBulkAt(data, ptr, d, s, ReadStr(p, data, ptr).ptr) && ReadStr(p, data, ptr).ptr <= |data|
    ensures ReadStr(p, data, ptr).parser == p.(params := p.params[p.numOfParam := s])
  {
    var n := ReadStrlen(data, ptr);
    d := NumberTaken(data, ptr + 1);
    s := [];
    if d < |data| {
      var value := d + 2;
      s := data[value..value + n.value];
      var tail := value + n.value;
      assert data[tail..tail + 2] == CRLF;
    }
  }

  /** A parser that has read `k` strings. */
  predicate Reading(p: Parser, k: nat) {
    p.multi >= k && p.paramLen == -1 && p.numOfParam == k <= |p.params|
  }

  /** `o` is a success that reads `list` behind what `p` has, from `ptr` on. */
  ghost predicate Took(p: Parser, data: seq<Byte>, ptr: nat, o: Outcome, list: seq<seq<Byte>>) {
    && p.numOfParam <= |p.params|
    && o.parser == Holding(p.params[..p.numOfParam] + list) && p.multi == p.numOfParam + |list|
    && AreBulks(data, ptr, list, o.ptr) && (list != [] ==> o.ptr <= |data|)
  }

  lemma TookMore(p: Parser, q: Parser, data: seq<Byte>, ptr: nat, mid: nat, o: Outcome, s: seq<Byte>,
                 list: seq<seq<Byte>>)
    requires Reading(p, p.numOfParam) && Reading(q, p.numOfParam + 1) && q.multi == p.multi
    requires q.params[..q.numOfParam] == p.params[..p.numOfParam] + [s]
    requires IsBulk(data, ptr, s, mid) && mid <= |data| && Took(q, data, mid, o, list)
    ensures Took(p, data, ptr, o, [s] + list)
  {
    var all := [s] + list;
    assert all[0] == s && all[1..] == list;
    assert p.params[..p.numOfParam] + all == q.params[..q.numOfParam] + list;
    assert list == [] ==> o.ptr == mid;
  }

  lemma {:induction false} StrlistTaken(p: Parser, data: seq<Byte>, ptr: nat, o: Outcome) returns (list: seq<seq<Byte>>)
    requires Reading(p, p.numOfParam) && ptr <= |data| + 2 && o == ReadStrlist(p, data, ptr) && o.result == Ok
    ensures Took(p, data, ptr, o, list)
    decreases p.multi - p.numOfParam
  {
    if p.numOfParam < p.multi {
      var one := ReadStr(Roomy(p), data, ptr);
      var d, s := BulkTaken(Roomy(p), data, ptr);
      var q := one.parser.(numOfParam := p.numOfParam + 1);
      var rest := StrlistTaken(q, data, one.ptr, o);
      assert q.params[..q.numOfParam] == p.params[..p.numOfParam] + [s];
      TookMore(p, q, data, ptr, one.ptr, o, s, rest);
      list := [s] + rest;
    } else {
      list := [];
      assert p.params[..p.numOfParam] + list == p.params[..p.numOfParam];
    }
  }

  /** The one other input that is accepted: a star and then zeros, at least three, up to
      the end of the input. */
  predicate ZerosToTheEnd(data: seq<Byte>, at: nat) {
    at + 4 <= |data| && data[at] == STAR && forall k :: at < k < |data| ==> data[k] == ZERO
  }

  lemma {:induction false} ZeroValue(ds: seq<Byte>)
    requires AllDigits(ds)
    ensures Value(ds) == 0 <==> forall k :: 0 <= k < |ds| ==> ds[k] == ZERO
  {
    if ds != [] {
      var init := ds[..|ds| - 1];
      ZeroValue(init);
      assert forall k :: 0 <= k < |init| ==> init[k] == ds[k];
    }
  }

  /** A request that is read: its count ends at `d`. */
  lemma RequestTaken(p: Parser, data: seq<Byte>, at: nat, o: Outcome) returns (d: nat, list: seq<seq<Byte>>)
    requires at <= |data| + 2 && o == ReadRequest(Reset(p), data, at) && o.result == Ok
    ensures o.parser == Holding(list) && AreBulks(data, d + 2, list, o.ptr)
    ensures at + 4 <= |data| && data[at] == STAR
    ensures d < |data| ==> IsNumber(data, at + 1, d, |list|)
    ensures d >= |data| ==> d == |data| && AllDigits(data[at + 1..]) && Value(data[at + 1..]) == |list|
  {
    d := NumberTaken(data, at + 1);
    var n := ReadMulti(data, at);
    var q := Reset(p).(multi := n.value);
    list := StrlistTaken(q, data, n.ptr, o);
    assert q.params[..0] + list == list;
  }

  /** Whatever a reset parser accepts with the cursor inside the input is a request, the
      strings are exactly its strings, and the cursor stands right behind it. The cursor
      leaves the input only on zeros up to its end. */
  lemma OnlyRequests(p: Parser, data: seq<Byte>, at: nat) returns (o: Outcome)
    requires at <= |data| + 2
    ensures o == ReadRequest(Reset(p), data, at)
    ensures o.result == Ok && o.ptr <= |data| ==>
      o.parser == Holding(o.parser.params) && IsRequest(data, at, o.parser.params, o.ptr)
    ensures o.result == Ok && o.ptr > |data| ==>
      o.parser == Holding([]) && o.ptr == |data| + 2 && ZerosToTheEnd(data, at)
  {
    o := ReadRequest(Reset(p), data, at);
    if o.result == Ok {
      var d, list := RequestTaken(p, data, at, o);
      if d < |data| {
        assert IsRequestAt(data, at, d, list, o.ptr);
        BulksWithin(data, d + 2, list, o.ptr);
      } else {
        PastTheEnd(data, at, d + 2, list, o.ptr);
      }
    }
  }

  lemma PastTheEnd(data: seq<Byte>, at: nat, ptr: nat, list: seq<seq<Byte>>, end: nat)
    requires at + 4 <= |data| && data[at] == STAR && ptr == |data| + 2 && AreBulks(data, ptr, list, end)
    requires AllDigits(data[at + 1..]) && Value(data[at + 1..]) == |list|
    ensures list == [] && end == |data| + 2 && ZerosToTheEnd(data, at)
  {
    ZeroValue(data[at + 1..]);
    assert list == [];
    assert forall k :: at < k < |data| ==> data[k] == data[at + 1..][k - at - 1];
  }

  lemma {:induction false} BulksWithin(data: seq<Byte>, from: nat, list: seq<seq<Byte>>, end: nat)
    requires from <= |data| && AreBulks(data, from, list, end)
    ensures from + 5 * |list| <= end <= |data|
    ensures forall k :: 0 <= k < |list| ==> |list[k]| + 4 <= end - from
    decreases |list|
  {
    if list != [] {
      var mid: nat :| IsBulk(data, from, list[0], mid) && AreBulks(data, mid, list[1..], end);
      BulksWithin(data, mid, list[1..], end);
      forall k | 0 <= k < |list|
        ensures |list[k]| + 4 <= end - from
      {
        if k > 0 {
          assert list[1..][k - 1] == list[k];
        }
      }
    }
  }

  // ----- All requests are accepted -----

  lemma BulkAccepted(p: Parser, data: seq<Byte>, ptr: nat, d: nat, s: seq<Byte>, end: nat)
    requires Formed(p) && p.paramLen == -1 && p.numOfParam < |p.params|
    requires IsBulkAt(data, ptr, d, s, end) && |data| - ptr <= INT_MAX
    ensures ReadStr(p, data, ptr) == Outcome(Ok, p.(params := p.params[p.numOfParam := s]), end)
  {
    NumberAccepted(data, ptr + 1, d, |s|);
    var tail := d + 2 + |s|;
    assert data[tail] == data[tail..tail + 2][0] && data[tail + 1] == data[tail..tail + 2][1];
  }

  /** `o` is the success that reads `list` behind what `p` has, up to `end`. */
  predicate Gave(p: Parser, list: seq<seq<Byte>>, end: nat, o: Outcome) {
    p.numOfParam <= |p.params| && o == Outcome(Ok, Holding(p.params[..p.numOfParam] + list), end)
  }

  lemma {:induction false} StrlistAccepted(p: Parser, data: seq<Byte>, ptr: nat, list: seq<seq<Byte>>, end: nat)
      returns (o: Outcome)
    requires Reading(p, p.numOfParam) && p.multi == p.numOfParam + |list| && ptr <= |data|
    requires AreBulks(data, ptr, list, end) && |data| - ptr <= INT_MAX
    ensures o == ReadStrlist(p, data, ptr) && Gave(p, list, end, o)
    decreases |list|
  {
    if list == [] {
      o := ReadStrlist(p, data, ptr);
      assert p.params[..p.numOfParam] + list == p.params[..p.numOfParam];
    } else {
      var d, mid := FirstBulk(data, ptr, list, end);
      o := StrlistAccepted(Extended(p, list[0]), data, mid, list[1..], end);
      GaveMore(p, list, end, o);
      FirstAccepted(p, data, ptr, d, list[0], mid, o);
    }
  }

  lemma FirstBulk(data: seq<Byte>, ptr: nat, list: seq<seq<Byte>>, end: nat) returns (d: nat, mid: nat)
    requires list != [] && AreBulks(data, ptr, list, end)
    ensures IsBulkAt(data, ptr, d, list[0], mid) && AreBulks(data, mid, list[1..], end)
    ensures ptr < mid <= |data|
  {
    mid :| IsBulk(data, ptr, list[0], mid) && AreBulks(data, mid, list[1..], end);
    d :| IsBulkAt(data, ptr, d, list[0], mid);
  }

  lemma GaveMore(p: Parser, list: seq<seq<Byte>>, end: nat, o: Outcome)
    requires Reading(p, p.numOfParam) && list != [] && Gave(Extended(p, list[0]), list[1..], end, o)
    ensures Gave(p, list, end, o)
  {
    assert p.params[..p.numOfParam] + [list[0]] + list[1..] == p.params[..p.numOfParam] + list;
  }

  /** The parser once it has read one more string. */
  function Extended(p: Parser, s: seq<Byte>): (q: Parser)
    requires Reading(p, p.numOfParam)
    ensures q == p.(params := q.params, numOfParam := p.numOfParam + 1) && |q.params| >= q.numOfParam
    ensures q.params[..q.numOfParam] == p.params[..p.numOfParam] + [s]
  {
    var r := Roomy(p);
    r.(params := r.params[p.numOfParam := s], numOfParam := p.numOfParam + 1)
  }

  lemma FirstAccepted(p: Parser, data: seq<Byte>, ptr: nat, d: nat, s: seq<Byte>, mid: nat, o: Outcome)
    requires Reading(p, p.numOfParam) && p.numOfParam < p.multi && ptr <= |data| && |data| - ptr <= INT_MAX
    requires IsBulkAt(data, ptr, d, s, mid) && o == ReadStrlist(Extended(p, s), data, mid)
    ensures o == ReadStrlist(p, data, ptr)
  {
    var r := Roomy(p);
    BulkAccepted(r, data, ptr, d, s, mid);
    var o' := StrlistStep(p, data, ptr, true, Outcome(Ok, r.(params := r.params[p.numOfParam := s]), mid), o);
  }

  /** Every request in an input of up to `INT_MAX` bytes is accepted, with exactly its
      strings and the cursor right behind it. */
  lemma RequestsAccepted(p: Parser, data: seq<Byte>, at: nat, list: seq<seq<Byte>>, end: nat)
    requires IsRequest(data, at, list, end) && |data| - at <= INT_MAX
    ensures ReadRequest(Reset(p), data, at) == Outcome(Ok, Holding(list), end)
  {
    var d: nat :| IsRequestAt(data, at, d, list, end);
    BulksWithin(data, d + 2, list, end);
    NumberAccepted(data, at + 1, d, |list|);
    var q := Reset(p).(multi := |list|);
    var o := StrlistAccepted(q, data, d + 2, list, end);
    assert q.params[..0] + list == list;
  }

  ghost predicate HoldsRequest(data: seq<Byte>, at: nat, list: seq<seq<Byte>>) {
    exists end: nat :: end <= |data| && IsRequest(data, at, list, end)
  }

  /** So an input of up to `INT_MAX` bytes is accepted exactly when a request stands at
      the cursor, or zeros run to its end. */
  lemma AcceptedExactly(p: Parser, data: seq<Byte>, at: nat)
    requires at <= |data| && |data| - at <= INT_MAX
    ensures ReadRequest(Reset(p), data, at).result == Ok <==>
      (exists list: seq<seq<Byte>> :: HoldsRequest(data, at, list)) || ZerosToTheEnd(data, at)
  {
    var o := OnlyRequests(p, data, at);
    if o.result == Ok && o.ptr <= |data| {
      assert HoldsRequest(data, at, o.parser.params);
    }
    forall list: seq<seq<Byte>> | HoldsRequest(data, at, list)
      ensures o.result == Ok
    {
      var end: nat :| end <= |data| && IsRequest(data, at, list, end);
      RequestsAccepted(p, data, at, list, end);
    }
    if ZerosToTheEnd(data, at) {
      ZerosAccepted(p, data, at);
    }
  }

  lemma {:induction false} ZerosRead(data: seq<Byte>, start: nat, i: nat)
    requires start <= i <= |data| && forall k :: i <= k < |data| ==> data[k] == ZERO
    ensures ReadDigits(data, start, i, 0) == Number(Ok, |data| + 2, 0)
    decreases |data| - i
  {
    if i < |data| {
      ZerosRead(data, start, i + 1);
    }
  }

  /** Zeros up to the end of the input: accepted, with the cursor two bytes outside. */
  lemma ZerosAccepted(p: Parser, data: seq<Byte>, at: nat)
    requires ZerosToTheEnd(data, at)
    ensures ReadRequest(Reset(p), data, at) == Outcome(Ok, Holding([]), |data| + 2)
  {
    ZerosRead(data, at + 1, at + 1);
  }
}
