/** What a pattern means, byte by byte, in terms of its text alone. */
module GlobLaws {
  import opened Bytes
  import opened Glob

  // ----- Brackets -----

  /** Where the item after the one at `k` starts: a range takes three bytes, and is
      one only if a fourth follows. */
  function NextItem(p: seq<Byte>, k: nat): nat {
    if k + 3 < |p| && p[k + 1] == DASH then k + 3 else k + 1
  }

  /** The item at `k` stands for `x`: as the byte itself, or as a range around it,
      whichever end comes first. */
  predicate Covers(p: seq<Byte>, k: nat, x: Byte)
    requires k < |p|
  {
    if k + 3 < |p| && p[k + 1] == DASH then p[k] <= x <= p[k + 2] || p[k + 2] <= x <= p[k]
    else x == p[k]
  }

  /** `ks` are the positions of the items from `from` on, and last the position of the
      closing bracket, or the end of the pattern if there is none. */
  predicate Itemised(p: seq<Byte>, from: nat, ks: seq<nat>) {
    && |ks| > 0 && ks[0] == from
    && (forall n :: 0 <= n < |ks| - 1 ==> ks[n] < |p| && p[ks[n]] != CLOSE && ks[n + 1] == NextItem(p, ks[n]))
    && ks[|ks| - 1] <= |p| && (ks[|ks| - 1] < |p| ==> p[ks[|ks| - 1]] == CLOSE)
  }

  predicate CoveredBy(p: seq<Byte>, ks: seq<nat>, x: Byte)
    requires forall n :: 0 <= n < |ks| - 1 ==> ks[n] < |p|
  {
    exists n :: 0 <= n < |ks| - 1 && Covers(p, ks[n], x)
  }

  lemma {:induction false} ItemPositions(p: seq<Byte>, from: nat) returns (ks: seq<nat>)
    requires from <= |p|
    ensures Itemised(p, from, ks)
    decreases |p| - from
  {
    if from == |p| || p[from] == CLOSE {
      ks := [from];
    } else {
      var rest := ItemPositions(p, NextItem(p, from));
      ks := [from] + rest;
    }
  }

  predicate ListedIn(r: Items, x: Byte) { Lists(Class(true, r.chars, r.spans), x) }

  lemma ItemAdded(p: seq<Byte>, i: nat, acc: Items, x: Byte) returns (acc': Items)
    requires i < |p| && p[i] != CLOSE
    ensures ReadItems(p, i, acc) == ReadItems(p, NextItem(p, i), acc')
    ensures ListedIn(acc', x) <==> ListedIn(acc, x) || Covers(p, i, x)
  {
    if IsRange(p, i) {
      acc' := AddRange(acc, p[i], p[i + 2]);
      RangeAdded(acc, p[i], p[i + 2], x);
    } else {
      acc' := acc.(chars := acc.chars + {p[i]});
    }
  }

  lemma RangeAdded(acc: Items, a: Byte, b: Byte, x: Byte)
    ensures ListedIn(AddRange(acc, a, b), x) <==> ListedIn(acc, x) || a <= x <= b || b <= x <= a
  {
    var r := AddRange(acc, a, b);
    if a != b {
      var s := if a > b then (b, a) else (a, b);
      assert s in r.spans;
      assert forall q :: q in r.spans <==> q in acc.spans || q == s;
    }
  }

  lemma {:induction false} ItemsAre(p: seq<Byte>, from: nat, acc: Items, ks: seq<nat>, x: Byte)
    requires from <= |p| && Itemised(p, from, ks)
    ensures ReadItems(p, from, acc).end == ks[|ks| - 1]
    ensures ListedIn(ReadItems(p, from, acc), x) <==> ListedIn(acc, x) || CoveredBy(p, ks, x)
    decreases |ks|
  {
    if |ks| > 1 {
      var rest := ks[1..];
      var acc' := ItemAdded(p, from, acc, x);
      ItemsAre(p, ks[1], acc', rest, x);
      CoveredFirst(p, ks, x);
    }
  }

  lemma CoveredFirst(p: seq<Byte>, ks: seq<nat>, x: Byte)
    requires |ks| > 1 && forall n :: 0 <= n < |ks| - 1 ==> ks[n] < |p|
    ensures CoveredBy(p, ks, x) <==> Covers(p, ks[0], x) || CoveredBy(p, ks[1..], x)
  {
    var rest := ks[1..];
    if CoveredBy(p, rest, x) {
      var n :| 0 <= n < |rest| - 1 && Covers(p, rest[n], x);
      assert Covers(p, ks[n + 1], x);
    }
    if CoveredBy(p, ks, x) && !Covers(p, ks[0], x) {
      var n :| 0 <= n < |ks| - 1 && Covers(p, ks[n], x);
      assert Covers(p, rest[n - 1], x);
    }
  }

  /** Where the items of the bracket at `i` start: after a caret, and after a closing
      bracket that comes first and is an item of its own. */
  function ItemsFrom(p: seq<Byte>, i: nat): nat {
    var s := if i + 1 < |p| && p[i + 1] == CARET then i + 2 else i + 1;
    if s < |p| && p[s] == CLOSE then s + 1 else s
  }

  /** The bracket at `i`, whose items are at `ks`, lists `x`. */
  predicate Listed(p: seq<Byte>, i: nat, ks: seq<nat>, x: Byte)
    requires forall n :: 0 <= n < |ks| - 1 ==> ks[n] < |p|
  {
    var s := if i + 1 < |p| && p[i + 1] == CARET then i + 2 else i + 1;
    CoveredBy(p, ks, x) || (s < |p| && p[s] == CLOSE && x == CLOSE)
  }

  lemma BracketLists(p: seq<Byte>, i: nat, ks: seq<nat>, x: Byte)
    requires i + 1 < |p| && Itemised(p, ItemsFrom(p, i), ks)
    ensures BracketItems(p, i).end == ks[|ks| - 1]
    ensures ListedIn(BracketItems(p, i), x) <==> Listed(p, i, ks, x)
  {
    var s := ItemsStart(p, i);
    if s < |p| && p[s] == CLOSE {
      ItemsAre(p, s + 1, Items({CLOSE}, {}, 0), ks, x);
    } else {
      ItemsAre(p, s, Items({}, {}, 0), ks, x);
    }
  }

  /** What a bracket matches: one byte that it lists, or does not list after a caret;
      and nothing at all when it is not closed. */
  lemma BracketLaw(p: seq<Byte>, i: nat, ks: seq<nat>, t: seq<Byte>, j: nat)
    requires i + 1 < |p| && p[i] == OPEN && Itemised(p, ItemsFrom(p, i), ks) && j <= |t|
    ensures var close := ks[|ks| - 1];
      Matches(p, i, t, j) <==>
        close < |p| && j < |t| && (Listed(p, i, ks, t[j]) <==> p[i + 1] != CARET) && Matches(p, close + 1, t, j + 1)
  {
    var x: Byte := if j < |t| then t[j] else 0;
    BracketLists(p, i, ks, x);
  }

  /** A bracket that is the last byte matches nothing. */
  lemma LoneBracket(p: seq<Byte>, i: nat, t: seq<Byte>, j: nat)
    requires i + 1 == |p| && p[i] == OPEN && j <= |t|
    ensures !Matches(p, i, t, j)
  {
  }

  /** A pattern that is one range matches exactly the single bytes between its ends, in
      whichever order they are given. */
  lemma RangeLaw(a: Byte, b: Byte, x: Byte)
    requires a != CARET && a != CLOSE
    ensures Matches([OPEN, a, DASH, b, CLOSE], 0, [x], 0) <==> a <= x <= b || b <= x <= a
  {
    var p, ks := [OPEN, a, DASH, b, CLOSE], [1, 4];
    BracketLaw(p, 0, ks, [x], 0);
    assert CoveredBy(p, ks, x) <==> Covers(p, ks[0], x);
  }

  // ----- The other bytes -----

  /** Some rest of the text from `j` on matches. */
  ghost predicate MatchesRest(p: seq<Byte>, i: nat, t: seq<Byte>, j: nat)
    requires i <= |p|
  {
    exists j' :: j <= j' <= |t| && Matches(p, i, t, j')
  }

  /** What the byte at `i` means when it opens no bracket: a star any text, a question
      mark any byte, a backslash before a bracket that bracket, any other byte itself. */
  lemma ByteLaw(p: seq<Byte>, i: nat, t: seq<Byte>, j: nat)
    requires i < |p| && p[i] != OPEN && j <= |t|
    ensures p[i] == STAR ==> (Matches(p, i, t, j) <==> MatchesRest(p, i + 1, t, j))
    ensures p[i] == QUESTION ==> (Matches(p, i, t, j) <==> j < |t| && Matches(p, i + 1, t, j + 1))
    ensures p[i] == BACKSLASH && i + 1 < |p| && p[i + 1] == OPEN ==>
      (Matches(p, i, t, j) <==> j < |t| && t[j] == OPEN && Matches(p, i + 2, t, j + 1))
    ensures p[i] != STAR && p[i] != QUESTION && !(p[i] == BACKSLASH && i + 1 < |p| && p[i + 1] == OPEN) ==>
      (Matches(p, i, t, j) <==> j < |t| && t[j] == p[i] && Matches(p, i + 1, t, j + 1))
  {
  }

  /** A pattern without stars, question marks and brackets matches itself only. */
  lemma {:induction false} PlainText(p: seq<Byte>, i: nat, t: seq<Byte>, j: nat)
    requires i <= |p| && j <= |t|
    requires forall k :: i <= k < |p| ==> p[k] != STAR && p[k] != QUESTION && p[k] != OPEN
    ensures Matches(p, i, t, j) <==> p[i..] == t[j..]
    decreases |p| - i
  {
    if i < |p| {
      ByteLaw(p, i, t, j);
      if j < |t| {
        PlainText(p, i + 1, t, j + 1);
        assert p[i..] == [p[i]] + p[i + 1..] && t[j..] == [t[j]] + t[j + 1..];
      }
    }
  }
}
