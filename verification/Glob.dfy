/** The glob matcher `QGlobRegex`, and the pattern language it decides. */
module Glob {
  import opened Bytes

  const STAR: Byte := '*' as int
  const QUESTION: Byte := '?' as int
  const OPEN: Byte := '[' as int
  const CLOSE: Byte := ']' as int
  const CARET: Byte := '^' as int
  const DASH: Byte := '-' as int
  const BACKSLASH: Byte := '\\' as int

  // ----- The language -----

  /** A bracket expression: single characters and ranges, or their complement. */
  datatype Class = Class(positive: bool, chars: set<Byte>, spans: set<(Byte, Byte)>)

  predicate Lists(c: Class, b: Byte) {
    b in c.chars || exists s :: s in c.spans && s.0 <= b <= s.1
  }

  predicate Admits(c: Class, b: Byte) { Lists(c, b) == c.positive }

  datatype Token = AnyText | AnyChar | Literal(b: Byte) | OneOf(cls: Class) | Nothing

  /** The items of a bracket expression from position `i` on, up to the closing
      bracket; `end` is the position of that bracket, or the length. */
  datatype Items = Items(chars: set<Byte>, spans: set<(Byte, Byte)>, end: nat)

  function AddRange(r: Items, a: Byte, b: Byte): Items {
    if a == b then r.(chars := r.chars + {a})
    else r.(spans := r.spans + {if a > b then (b, a) else (a, b)})
  }

  predicate IsRange(p: seq<Byte>, i: nat) { i + 3 < |p| && p[i + 1] == DASH }

  function ReadItems(p: seq<Byte>, i: nat, acc: Items): (r: Items)
    requires i <= |p|
    ensures i <= r.end <= |p| && (r.end < |p| ==> p[r.end] == CLOSE)
    decreases |p| - i
  {
    if i == |p| || p[i] == CLOSE then acc.(end := i)
    else if IsRange(p, i) then ReadItems(p, i + 3, AddRange(acc, p[i], p[i + 2]))
    else ReadItems(p, i + 1, acc.(chars := acc.chars + {p[i]}))
  }

  /** Where the items of the bracket at `i` start, after a caret. */
  function ItemsStart(p: seq<Byte>, i: nat): nat
    requires i + 1 < |p|
  {
    if p[i + 1] == CARET then i + 2 else i + 1
  }

  /** The items of the bracket at `i`; a closing bracket that comes first counts
      as an item. */
  function BracketItems(p: seq<Byte>, i: nat): (r: Items)
    requires i + 1 < |p|
    ensures i < r.end <= |p| && (r.end < |p| ==> p[r.end] == CLOSE)
  {
    var j := ItemsStart(p, i);
    if j < |p| && p[j] == CLOSE then ReadItems(p, j + 1, Items({CLOSE}, {}, 0))
    else ReadItems(p, j, Items({}, {}, 0))
  }

  /** The token at position `i` and the position after it. A bracket that is not
      closed matches nothing. */
  function TokenAt(p: seq<Byte>, i: nat): (r: (Token, nat))
    requires i < |p|
    ensures i < r.1 <= |p|
  {
    if p[i] == STAR then (AnyText, i + 1)
    else if p[i] == QUESTION then (AnyChar, i + 1)
    else if p[i] == OPEN then
      if i + 1 >= |p| then (Nothing, |p|)
      else
        var items := BracketItems(p, i);
        if items.end == |p| then (Nothing, |p|)
        else (OneOf(Class(p[i + 1] != CARET, items.chars, items.spans)), items.end + 1)
    else if p[i] == BACKSLASH && i + 1 < |p| && p[i + 1] == OPEN then (Literal(OPEN), i + 2)
    else (Literal(p[i]), i + 1)
  }

  /** Whether one character fits a token that takes exactly one. */
  predicate Fits(k: Token, b: Byte) {
    match k
    case AnyChar => true
    case Literal(c) => b == c
    case OneOf(c) => Admits(c, b)
    case _ => false
  }

  /** The text from `j` on matches the pattern from `i` on. */
  ghost predicate Matches(p: seq<Byte>, i: nat, t: seq<Byte>, j: nat)
    requires i <= |p| && j <= |t|
    decreases |p| - i
  {
    if i == |p| then j == |t|
    else
      var (k, i') := TokenAt(p, i);
      if k == AnyText then exists j' :: j <= j' <= |t| && Matches(p, i', t, j')
      else j < |t| && Fits(k, t[j]) && Matches(p, i', t, j + 1)
  }

  // ----- The same language by cutting the text into pieces -----

  function Tokens(p: seq<Byte>, i: nat): seq<Token>
    requires i <= |p|
    decreases |p| - i
  {
    if i == |p| then [] else [TokenAt(p, i).0] + Tokens(p, TokenAt(p, i).1)
  }

  ghost predicate PieceFits(k: Token, piece: seq<Byte>) {
    k == AnyText || (|piece| == 1 && Fits(k, piece[0]))
  }

  ghost predicate Cuts(ks: seq<Token>, pieces: seq<seq<Byte>>, t: seq<Byte>) {
    && |pieces| == |ks| && Flat(pieces) == t
    && forall n :: 0 <= n < |ks| ==> PieceFits(ks[n], pieces[n])
  }

  lemma CutFirst(k: Token, ks: seq<Token>, pieces: seq<seq<Byte>>, t: seq<Byte>)
    requires Cuts([k] + ks, pieces, t)
    ensures |pieces| > 0 && PieceFits(k, pieces[0]) && |pieces[0]| <= |t|
    ensures t[..|pieces[0]|] == pieces[0] && Cuts(ks, pieces[1..], t[|pieces[0]|..])
  {
    var all := [k] + ks;
    assert all[0] == k;
    forall n | 0 <= n < |ks|
      ensures PieceFits(ks[n], pieces[1..][n])
    {
      assert all[n + 1] == ks[n];
    }
  }

  lemma CutAdd(k: Token, piece: seq<Byte>, ks: seq<Token>, pieces: seq<seq<Byte>>, t: seq<Byte>)
    requires PieceFits(k, piece) && Cuts(ks, pieces, t)
    ensures Cuts([k] + ks, [piece] + pieces, piece + t)
  {
    assert ([piece] + pieces)[1..] == pieces;
  }

  ghost predicate Cuttable(ks: seq<Token>, t: seq<Byte>) {
    exists pieces: seq<seq<Byte>> :: Cuts(ks, pieces, t)
  }

  /** Matching is the same as cutting the text into one piece per token: any
      piece for `*`, one fitting character for every other token. */
  lemma MatchesIsCutting(p: seq<Byte>, i: nat, t: seq<Byte>, j: nat)
    requires i <= |p| && j <= |t|
    ensures Matches(p, i, t, j) <==> Cuttable(Tokens(p, i), t[j..])
  {
    if Matches(p, i, t, j) {
      var _ := CuttingOf(p, i, t, j);
    }
    if Cuttable(Tokens(p, i), t[j..]) {
      var pieces: seq<seq<Byte>> :| Cuts(Tokens(p, i), pieces, t[j..]);
      CuttingMatches(p, i, t, j, pieces);
    }
  }

  lemma {:induction false} CuttingOf(p: seq<Byte>, i: nat, t: seq<Byte>, j: nat) returns (pieces: seq<seq<Byte>>)
    requires i <= |p| && j <= |t| && Matches(p, i, t, j)
    ensures Cuts(Tokens(p, i), pieces, t[j..])
    decreases |p| - i
  {
    if i == |p| {
      pieces := [];
    } else {
      var (k, i') := TokenAt(p, i);
      var j';
      if k == AnyText {
        j' :| j <= j' <= |t| && Matches(p, i', t, j');
      } else {
        j' := j + 1;
      }
      var rest := CuttingOf(p, i', t, j');
      CutAdd(k, t[j..j'], Tokens(p, i'), rest, t[j'..]);
      pieces := [t[j..j']] + rest;
      assert t[j..j'] + t[j'..] == t[j..];
    }
  }

  lemma {:induction false} CuttingMatches(p: seq<Byte>, i: nat, t: seq<Byte>, j: nat, pieces: seq<seq<Byte>>)
    requires i <= |p| && j <= |t| && Cuts(Tokens(p, i), pieces, t[j..])
    ensures Matches(p, i, t, j)
    decreases |p| - i
  {
    if i < |p| {
      var (k, i') := TokenAt(p, i);
      CutFirst(k, Tokens(p, i'), pieces, t[j..]);
      var j' := j + |pieces[0]|;
      assert t[j..][|pieces[0]|..] == t[j'..];
      CuttingMatches(p, i', t, j', pieces[1..]);
      if k != AnyText {
        assert t[j] == t[j..][..1][0];
      }
    }
  }

  // ----- What the matcher computes -----

  /** The answer of a match. A closed bracket that is tried with no text left
      makes the code look at the byte behind the text, which is not its to read;
      that outcome is kept apart instead of guessing the byte. */
  datatype Verdict = Yes | No | ReadsPastEnd

  /** The backtracking search: the first rest of the text that works. */
  function Search(p: seq<Byte>, i: nat, t: seq<Byte>, j: nat): Verdict
    requires i <= |p| && j <= |t|
    decreases |p| - i, 0
  {
    if i == |p| then (if j == |t| then Yes else No)
    else
      var (k, i') := TokenAt(p, i);
      match k
      case AnyText =>
        if i' == |p| then Yes
        else if p[i'] == STAR then Search(p, i', t, j)
        else Scan(p, i', t, j)
      case OneOf(c) =>
        if j == |t| then ReadsPastEnd
        else if Admits(c, t[j]) then Search(p, i', t, j + 1) else No
      case _ =>
        if j < |t| && Fits(k, t[j]) then Search(p, i', t, j + 1) else No
  }

  /** The search after a star: from every non-empty rest of the text in turn. */
  function Scan(p: seq<Byte>, i: nat, t: seq<Byte>, j: nat): Verdict
    requires i <= |p| && j <= |t|
    decreases |p| - i, |t| - j + 1
  {
    if j == |t| then No
    else
      var v := Search(p, i, t, j);
      if v != No then v else Scan(p, i, t, j + 1)
  }

  /** The search answers the language, whenever it answers. */
  lemma {:induction false} SearchDecides(p: seq<Byte>, i: nat, t: seq<Byte>, j: nat)
    requires i <= |p| && j <= |t|
    ensures Search(p, i, t, j) == Yes ==> Matches(p, i, t, j)
    ensures Search(p, i, t, j) == No ==> !Matches(p, i, t, j)
    decreases |p| - i, 0
  {
    if i < |p| {
      var (k, i') := TokenAt(p, i);
      if k == AnyText {
        if i' == |p| {
          assert Matches(p, i', t, |t|);
        } else if p[i'] == STAR {
          SearchDecides(p, i', t, j);
          StarTwice(p, i, t, j);
        } else {
          ScanDecides(p, i', t, j);
        }
      } else if j < |t| {
        SearchDecides(p, i', t, j + 1);
      }
    }
  }

  lemma {:induction false} ScanDecides(p: seq<Byte>, i: nat, t: seq<Byte>, j: nat)
    requires i < |p| && p[i] != STAR && j <= |t|
    ensures Scan(p, i, t, j) == Yes ==> exists j' :: j <= j' <= |t| && Matches(p, i, t, j')
    ensures Scan(p, i, t, j) == No ==> forall j' :: j <= j' <= |t| ==> !Matches(p, i, t, j')
    decreases |p| - i, |t| - j + 1
  {
    if j < |t| {
      SearchDecides(p, i, t, j);
      ScanDecides(p, i, t, j + 1);
    }
  }

  /** Two stars in a row are one. */
  lemma StarTwice(p: seq<Byte>, i: nat, t: seq<Byte>, j: nat)
    requires i + 1 < |p| && p[i] == STAR && p[i + 1] == STAR && j <= |t|
    ensures Matches(p, i, t, j) <==> Matches(p, i + 1, t, j)
  {
    if Matches(p, i, t, j) {
      var a :| j <= a <= |t| && Matches(p, i + 1, t, a);
      var b :| a <= b <= |t| && Matches(p, i + 2, t, b);
    }
  }

  // ----- When the search always answers -----

  predicate Satisfiable(c: Class) { exists b: Byte :: Admits(c, b) }

  /** Some text leads the search to a closed bracket with nothing left: a bracket
      that does not come right after a star, with only satisfiable brackets before
      it. `afterStar` says whether a star comes right before position `i`. */
  predicate Exposed(p: seq<Byte>, i: nat, afterStar: bool)
    requires i <= |p|
    decreases |p| - i
  {
    i < |p| &&
    var (k, i') := TokenAt(p, i);
    match k
    case AnyText => Exposed(p, i', true)
    case Nothing => false
    case OneOf(c) => !afterStar || (Satisfiable(c) && Exposed(p, i', false))
    case _ => Exposed(p, i', false)
  }

  lemma {:induction false} HiddenAnswers(p: seq<Byte>, i: nat, afterStar: bool, t: seq<Byte>, j: nat)
    requires i <= |p| && j <= |t| && !Exposed(p, i, afterStar) && (afterStar ==> j < |t|)
    ensures Search(p, i, t, j) != ReadsPastEnd
    decreases |p| - i, 0
  {
    if i < |p| {
      var (k, i') := TokenAt(p, i);
      if k == AnyText {
        if i' < |p| && p[i'] == STAR {
          HiddenAnswers(p, i', false, t, j);
        } else if i' < |p| {
          HiddenScans(p, i', t, j);
        }
      } else if k != Nothing && j < |t| && Fits(k, t[j]) {
        HiddenAnswers(p, i', false, t, j + 1);
      }
    }
  }

  lemma {:induction false} HiddenScans(p: seq<Byte>, i: nat, t: seq<Byte>, j: nat)
    requires i <= |p| && j <= |t| && !Exposed(p, i, true)
    ensures Scan(p, i, t, j) != ReadsPastEnd
    decreases |p| - i, |t| - j + 1
  {
    if j < |t| {
      HiddenAnswers(p, i, true, t, j);
      HiddenScans(p, i, t, j + 1);
    }
  }

  /** The search reads past the end of `t`, whatever stands before it. */
  ghost predicate Overreads(p: seq<Byte>, i: nat, t: seq<Byte>)
    requires i <= |p|
  {
    forall before: seq<Byte> {:trigger before + t} :: Search(p, i, before + t, |before|) == ReadsPastEnd
  }

  lemma OverreadsOneMore(p: seq<Byte>, i: nat, b: Byte, t: seq<Byte>)
    requires i < |p| && Fits(TokenAt(p, i).0, b) && Overreads(p, TokenAt(p, i).1, t)
    ensures Overreads(p, i, [b] + t)
  {
    forall before: seq<Byte>
      ensures Search(p, i, before + ([b] + t), |before|) == ReadsPastEnd
    {
      assert before + ([b] + t) == (before + [b]) + t;
    }
  }

  lemma OverreadsAfterStar(p: seq<Byte>, i: nat, t: seq<Byte>)
    requires i + 1 < |p| && p[i] == STAR && Overreads(p, i + 1, t) && |t| > 0
    ensures Overreads(p, i, t)
  {
    forall before: seq<Byte>
      ensures Search(p, i, before + t, |before|) == ReadsPastEnd
    {
      assert Search(p, i + 1, before + t, |before|) == ReadsPastEnd;
    }
  }

  /** An exposed pattern has a text that is read past. */
  lemma {:induction false} ExposedText(p: seq<Byte>, i: nat, afterStar: bool) returns (t: seq<Byte>)
    requires i <= |p| && Exposed(p, i, afterStar)
    ensures (afterStar ==> |t| > 0) && Overreads(p, i, t)
    decreases |p| - i
  {
    var (k, i') := TokenAt(p, i);
    if k == AnyText {
      t := ExposedText(p, i', true);
      OverreadsAfterStar(p, i, t);
    } else if k.OneOf? && !afterStar {
      t := [];
    } else {
      var b: Byte := if k.Literal? then k.b else 0;
      if k.OneOf? {
        b :| Admits(k.cls, b);
      }
      var rest := ExposedText(p, i', false);
      OverreadsOneMore(p, i, b, rest);
      t := [b] + rest;
    }
  }

  ghost predicate Decided(p: seq<Byte>, t: seq<Byte>) {
    Search(p, 0, t, 0) == if Matches(p, 0, t, 0) then Yes else No
  }

  /** The matcher decides a pattern on every text exactly when the pattern is not
      exposed. */
  lemma DecidedExactly(p: seq<Byte>)
    ensures (forall t: seq<Byte> :: Decided(p, t)) <==> !Exposed(p, 0, false)
  {
    if Exposed(p, 0, false) {
      var t := ExposedText(p, 0, false);
      assert [] + t == t;
      assert !Decided(p, t);
    } else {
      forall t: seq<Byte>
        ensures Decided(p, t)
      {
        HiddenAnswers(p, 0, false, t, 0);
        SearchDecides(p, 0, t, 0);
      }
    }
  }

  /** Without a bracket there is nothing to read past. */
  lemma {:induction false} NoBracketNotExposed(p: seq<Byte>, i: nat, afterStar: bool)
    requires i <= |p| && forall k :: i <= k < |p| ==> p[k] != OPEN
    ensures !Exposed(p, i, afterStar)
    decreases |p| - i
  {
    if i < |p| {
      var (k, i') := TokenAt(p, i);
      NoBracketNotExposed(p, i', k == AnyText);
    }
  }

  /** `[a]` on the empty text: not a match, and not answered. */
  lemma BracketOnNoText()
    ensures !Matches([OPEN, 97, CLOSE], 0, [], 0)
    ensures Search([OPEN, 97, CLOSE], 0, [], 0) == ReadsPastEnd
  {
    var p: seq<Byte> := [OPEN, 97, CLOSE];
    assert ReadItems(p, 1, Items({}, {}, 0)) == ReadItems(p, 2, Items({97}, {}, 0));
    assert TokenAt(p, 0).0.OneOf?;
  }

  // ----- The matcher -----

  class QGlobRegex {
    const pattern: seq<Byte>
    const text: seq<Byte>
    var pOff: nat
    var tOff: nat

    ghost predicate Valid()
      reads this
    {
      pOff <= |pattern| && tOff <= |text|
    }

    ghost function Result(): Verdict
      requires Valid()
      reads this
    {
      Search(pattern, pOff, text, tOff)
    }

    constructor (pattern: seq<Byte>, text: seq<Byte>)
      ensures Valid() && this.pattern == pattern && this.text == text && pOff == 0 && tOff == 0
    {
      this.pattern := pattern;
      this.text := text;
      pOff, tOff := 0, 0;
    }

    method TryMatch() returns (v: Verdict)
      requires Valid()
      modifies this
      ensures Valid() && v == old(Result())
      ensures v == Yes ==> Matches(pattern, old(pOff), text, old(tOff))
      ensures v == No ==> !Matches(pattern, old(pOff), text, old(tOff))
      decreases |pattern| - pOff, 1
    {
      SearchDecides(pattern, pOff, text, tOff);
      while pOff < |pattern|
        invariant Valid() && old(pOff) <= pOff
        invariant Result() == old(Result())
      {
        var c := pattern[pOff];
        if c == STAR {
          v := ProcessStar();
          return;
        } else if c == QUESTION {
          var ok := ProcessQuestion();
          if !ok {
            return No;
          }
        } else if c == OPEN {
          v := ProcessBracket();
          if v != Yes {
            return;
          }
        } else {
          ghost var at := pOff;
          if c == BACKSLASH && pOff + 1 < |pattern| && pattern[pOff + 1] == OPEN {
            pOff := pOff + 1;
          }
          assert TokenAt(pattern, at) == (Literal(pattern[pOff]), pOff + 1);
          if tOff >= |text| {
            return No;
          }
          if pattern[pOff] != text[tOff] {
            return No;
          }
          pOff := pOff + 1;
          tOff := tOff + 1;
        }
      }
      v := if IsMatch() then Yes else No;
    }

    predicate IsMatch()
      reads this
    {
      pOff == |pattern| && |text| == tOff
    }

    method ProcessStar() returns (v: Verdict)
      requires Valid() && pOff < |pattern| && pattern[pOff] == STAR
      modifies this
      ensures Valid() && v == old(Result())
      decreases |pattern| - pOff, 0
    {
      pOff := pOff + 1;
      while pOff < |pattern| && pattern[pOff] == STAR
        invariant old(pOff) < pOff && Valid() && tOff == old(tOff)
        invariant pattern[pOff - 1] == STAR && Search(pattern, pOff - 1, text, tOff) == old(Result())
      {
        pOff := pOff + 1;
      }
      if pOff == |pattern| {
        return Yes;
      }
      while tOff < |text|
        invariant Valid() && old(pOff) < pOff
        invariant Scan(pattern, pOff, text, tOff) == old(Result())
      {
        var oldPOff, oldTOff := pOff, tOff;
        v := TryMatch();
        if v != No {
          return;
        }
        pOff, tOff := oldPOff, oldTOff;
        tOff := tOff + 1;
      }
      v := No;
    }

    method ProcessQuestion() returns (ok: bool)
      requires Valid() && pOff < |pattern| && pattern[pOff] == QUESTION
      modifies this
      ensures Valid() && old(pOff) <= pOff
      ensures ok ==> old(pOff) < pOff && Result() == old(Result())
      ensures !ok ==> old(Result()) == No
    {
      while pOff < |pattern|
        invariant Valid() && old(pOff) <= pOff
        invariant pOff == old(pOff) ==> pOff < |pattern| && pattern[pOff] == QUESTION
        invariant Result() == old(Result())
      {
        if pattern[pOff] != QUESTION {
          break;
        }
        if tOff == |text| {
          return false;
        }
        pOff := pOff + 1;
        tOff := tOff + 1;
      }
      ok := true;
    }

    /** One bracket against one character; `Yes` means it fits and both offsets
        have moved past it. */
    method ProcessBracket() returns (v: Verdict)
      requires Valid() && pOff < |pattern| && pattern[pOff] == OPEN
      modifies this
      ensures Valid() && old(pOff) <= pOff
      ensures v == Yes ==> old(pOff) < pOff && Result() == old(Result())
      ensures v != Yes ==> v == old(Result())
    {
      if pOff + 1 >= |pattern| {
        return No;
      }
      var cls := ReadClass();
      if pOff == |pattern| {
        return No;
      }
      pOff := pOff + 1;
      assert TokenAt(pattern, old(pOff)) == (OneOf(cls), pOff);
      if tOff == |text| {
        return ReadsPastEnd;
      }
      v := FitsClass(cls, text[tOff]);
      if v == Yes {
        tOff := tOff + 1;
      }
    }

    /** The parsing half of a bracket, up to its closing bracket. */
    method ReadClass() returns (cls: Class)
      requires Valid() && pOff + 1 < |pattern|
      modifies this`pOff
      ensures pOff == BracketItems(pattern, old(pOff)).end
      ensures cls == Class(pattern[old(pOff) + 1] != CARET, BracketItems(pattern, old(pOff)).chars,
                           BracketItems(pattern, old(pOff)).spans)
    {
      pOff := pOff + 1;
      var positive := true;
      if pattern[pOff] == CARET {
        positive := false;
        pOff := pOff + 1;
      }
      var chars: set<Byte> := {};
      if pOff < |pattern| && pattern[pOff] == CLOSE {
        chars := chars + {CLOSE};
        assert chars == {CLOSE};
        pOff := pOff + 1;
      }
      var items := ReadList(chars);
      cls := Class(positive, items.chars, items.spans);
    }

    /** The characters and ranges up to the closing bracket, added to `chars`. */
    method ReadList(chars: set<Byte>) returns (items: Items)
      requires pOff <= |pattern|
      modifies this`pOff
      ensures items == ReadItems(pattern, old(pOff), Items(chars, {}, 0)) && pOff == items.end
    {
      items := Items(chars, {}, 0);
      while pOff < |pattern| && pattern[pOff] != CLOSE
        invariant pOff <= |pattern| && items.end == 0
        invariant ReadItems(pattern, pOff, items) == ReadItems(pattern, old(pOff), Items(chars, {}, 0))
      {
        if pOff + 3 < |pattern| && pattern[pOff + 1] == DASH {
          var start, end := pattern[pOff], pattern[pOff + 2];
          if start == end {
            items := items.(chars := items.chars + {start});
          } else {
            if start > end {
              start, end := end, start;
            }
            items := items.(spans := items.spans + {(start, end)});
          }
          pOff := pOff + 3;
        } else {
          items := items.(chars := items.chars + {pattern[pOff]});
          pOff := pOff + 1;
        }
      }
      items := items.(end := pOff);
    }

    /** The single characters first, then every range. */
    static method FitsClass(cls: Class, b: Byte) returns (v: Verdict)
      ensures v == if Admits(cls, b) then Yes else No
    {
      if b in cls.chars {
        return if cls.positive then Yes else No;
      }
      var left := cls.spans;
      while left != {}
        invariant left <= cls.spans
        invariant forall s :: s in cls.spans - left ==> !(s.0 <= b <= s.1)
        decreases |left|
      {
        var s: (Byte, Byte) :| s in left;
        if s.0 <= b && b <= s.1 {
          return if cls.positive then Yes else No;
        }
        left := left - {s};
      }
      v := if cls.positive then No else Yes;
    }
  }
}
