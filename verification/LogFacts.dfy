/** What receiving a batch of entries does to a log: the receiver rules of
    Figure 2 of the Raft paper. */
module LogFacts {
  import opened RaftTypes
  import opened LogSpec

  predicate Contiguous(es: seq<Entry>, start: nat) {
    forall k :: 0 <= k < |es| ==> es[k].index == start + k
  }

  /** A log whose entries run on from its first index; when there are none the
      storage ends just before. */
  predicate LogShape(l: LogState) {
    && |l.storage| > 0
    && l.first >= 1
    && Contiguous(l.entries, l.first)
    && (l.entries == [] ==> StorageLast(l.storage) == l.first - 1)
  }

  /** How many entries of `batch` agree in term with `es` from position `off`. */
  function Agreeing(es: seq<Entry>, off: nat, batch: seq<Entry>): (n: nat)
    ensures n <= |batch| && (n > 0 ==> off + n <= |es|)
    decreases |batch|
  {
    if batch == [] || off >= |es| || es[off].term != batch[0].term then 0
    else 1 + Agreeing(es, off + 1, batch[1..])
  }

  lemma {:induction false} AgreeingIs(es: seq<Entry>, off: nat, batch: seq<Entry>)
    ensures var n := Agreeing(es, off, batch);
      && (forall k :: 0 <= k < n ==> es[off + k].term == batch[k].term)
      && (n < |batch| && off + n < |es| ==> es[off + n].term != batch[n].term)
    decreases |batch|
  {
    var n := Agreeing(es, off, batch);
    if n > 0 {
      AgreeingIs(es, off + 1, batch[1..]);
      forall k | 0 <= k < n
        ensures es[off + k].term == batch[k].term
      {
        if k > 0 {
          assert es[(off + 1) + (k - 1)].term == batch[1..][k - 1].term;
        }
      }
    }
  }

  /** Figure 2, rules 3 and 4: keep the log up to the first disagreement, drop
      what follows it, and append what is new. */
  function Merged(es: seq<Entry>, off: nat, batch: seq<Entry>): (r: seq<Entry>)
    requires off <= |es|
  {
    var c := Agreeing(es, off, batch);
    if c == |batch| then es else es[..off + c] + batch[c..]
  }

  /** The persisted prefix shrinks to what lies before the first conflict. */
  function StabledAfter(l: LogState, off: nat, batch: seq<Entry>): nat
    requires l.first >= 1
  {
    var c := Agreeing(l.entries, off, batch);
    if c < |batch| && off + c < |l.entries| then Min(l.stabled, l.first + off + c - 1) else l.stabled
  }

  lemma LastIndexOf(l: LogState)
    requires LogShape(l)
    ensures LastIndex(l) == l.first + |l.entries| - 1
  {
  }

  lemma SliceContiguous(log: seq<Entry>, start: nat, off: nat, end: nat)
    requires Contiguous(log, start) && off <= end <= |log|
    ensures Contiguous(log[off..end], start + off)
  {
  }

  /** The log after receiving `batch` at slice position `off`. */
  function Received(l: LogState, off: nat, batch: seq<Entry>): LogState
    requires l.first >= 1 && off <= |l.entries|
  {
    l.(entries := Merged(l.entries, off, batch), stabled := StabledAfter(l, off, batch))
  }

  lemma ReceivedAgree(l: LogState, off: nat, batch: seq<Entry>, rest: seq<Entry>, r: LogState)
    requires l.first >= 1 && batch != [] && off < |l.entries| && l.entries[off].term == batch[0].term
    requires rest == batch[1..] && r == Received(l, off + 1, rest)
    ensures r == Received(l, off, batch)
  {
    var c := Agreeing(l.entries, off + 1, rest);
    assert Agreeing(l.entries, off, batch) == 1 + c;
    assert rest[c..] == batch[1 + c..];
  }

  lemma ReceivedNothing(l: LogState, off: nat, batch: seq<Entry>)
    requires l.first >= 1 && off <= |l.entries| && batch == []
    ensures l == Received(l, off, batch)
  {
  }

  lemma AbsorbAgree(l: LogState, batch: seq<Entry>, off: nat, i: nat, r: LogState)
    requires LogShape(l) && i < |batch| && off + i < |l.entries| && Contiguous(batch, l.first + off)
    requires l.entries[off + i].term == batch[i].term && r == Absorb(l, batch, i + 1, i + 1)
    ensures r == Absorb(l, batch, i, i)
  {
    LastIndexOf(l);
  }

  lemma AbsorbPush(l: LogState, batch: seq<Entry>, off: nat, i: nat) returns (r: LogState)
    requires LogShape(l) && i <= |batch| && off + i == |l.entries| && Contiguous(batch, l.first + off)
    ensures r == Absorb(l, batch, i, i) == Received(l, off + i, batch[i..])
  {
    r := Absorb(l, batch, i, i);
    LastIndexOf(l);
    assert l.entries[..off + i] == l.entries && batch[i..][0..] == batch[i..];
  }

  lemma {:induction false} AbsorbFrom(l: LogState, batch: seq<Entry>, off: nat, i: nat) returns (r: LogState)
    requires LogShape(l) && i <= |batch| && off + i <= |l.entries|
    requires Contiguous(batch, l.first + off)
    ensures r == Absorb(l, batch, i, i) && r == Received(l, off + i, batch[i..])
    decreases |batch| - i
  {
    if i == |batch| {
      r := l;
      ReceivedNothing(l, off + i, batch[i..]);
    } else if off + i == |l.entries| {
      r := AbsorbPush(l, batch, off, i);
    } else if l.entries[off + i].term == batch[i].term {
      r := AbsorbFrom(l, batch, off, i + 1);
      AbsorbAgree(l, batch, off, i, r);
      assert batch[i..][1..] == batch[i + 1..];
      ReceivedAgree(l, off + i, batch[i..], batch[i + 1..], r);
    } else {
      r := AbsorbConflict(l, batch, off, i);
    }
  }

  lemma AbsorbConflict(l: LogState, batch: seq<Entry>, off: nat, i: nat) returns (r: LogState)
    requires LogShape(l) && i < |batch| && off + i < |l.entries|
    requires Contiguous(batch, l.first + off)
    requires l.entries[off + i].term != batch[i].term
    ensures r == Absorb(l, batch, i, i) && r == Received(l, off + i, batch[i..])
  {
    r := Absorb(l, batch, i, i);
    LastIndexOf(l);
    var l' := Overwrite(l, batch[i]);
    assert l'.entries == l.entries[..off + i] + [batch[i]];
    LastIndexOf(l');
    assert Absorb(l, batch, i, i) == Absorb(l', batch, i + 1, i + 1);
    assert batch[i..] == [batch[i]] + batch[i + 1..];
    if i + 1 < |batch| {
      assert batch[i + 1].index > LastIndex(l');
      assert l'.entries + batch[i + 1..] == l.entries[..off + i] + batch[i..];
    } else {
      assert l'.entries == l.entries[..off + i] + batch[i..];
    }
  }

  lemma SpliceFacts(es: seq<Entry>, start: nat, off: nat, batch: seq<Entry>, c: nat, r: seq<Entry>)
    requires Contiguous(es, start) && Contiguous(batch, start + off) && off + c <= |es| && c < |batch|
    requires forall k :: 0 <= k < c ==> es[off + k].term == batch[k].term
    requires r == es[..off + c] + batch[c..]
    ensures Contiguous(r, start) && |r| == off + |batch| && es[..off + c] <= r && r[off + c..] == batch[c..]
    ensures forall k :: 0 <= k < |batch| ==> r[off + k].term == batch[k].term
  {
    forall k | 0 <= k < |batch|
      ensures r[off + k].term == batch[k].term
    {
      if k < c {
        assert r[off + k] == es[off + k];
      } else {
        assert r[off + k] == batch[c..][k - c];
      }
    }
  }

  lemma MergedFacts(es: seq<Entry>, start: nat, off: nat, batch: seq<Entry>)
    requires Contiguous(es, start) && off <= |es| && Contiguous(batch, start + off)
    ensures var r := Merged(es, off, batch);
      var c := Agreeing(es, off, batch);
      && Contiguous(r, start)
      && off + |batch| <= |r|
      && (forall k :: 0 <= k < |batch| ==> r[off + k].term == batch[k].term)
      && es[..off + c] <= r
      && (c < |batch| ==> |r| == off + |batch| && r[off + c..] == batch[c..])
  {
    var r, c := Merged(es, off, batch), Agreeing(es, off, batch);
    AgreeingIs(es, off, batch);
    if c < |batch| {
      SpliceFacts(es, start, off, batch, c, r);
    }
  }

  lemma AbsorbIsMerged(l: LogState, batch: seq<Entry>, off: nat)
    requires LogShape(l) && off <= |l.entries|
    requires Contiguous(batch, l.first + off)
    ensures var l' := Absorb(l, batch, 0, 0);
      && LogShape(l')
      && l' == Received(l, off, batch)
  {
    var _ := AbsorbFrom(l, batch, off, 0);
    assert batch[0..] == batch;
    MergedFacts(l.entries, l.first, off, batch);
  }

  /** The receiver rules of Figure 2 for a batch that starts at slice position
      `off`: the log afterwards holds the whole batch term for term, is
      untouched before the first disagreement and equal to the batch from there,
      keeps its tail when nothing disagrees, stays contiguous, and the persisted
      cursor lies below the first conflict and within the log. */
  predicate MeetsFigure2(l: LogState, l': LogState, off: nat, batch: seq<Entry>)
    requires LogShape(l) && off <= |l.entries|
  {
    var c := Agreeing(l.entries, off, batch);
    && LogShape(l')
    && off + |batch| <= |l'.entries|
    && (forall k :: 0 <= k < |batch| ==> l'.entries[off + k].term == batch[k].term)
    && l.entries[..off + c] <= l'.entries
    && (c == |batch| ==> l'.entries == l.entries && l'.stabled == l.stabled)
    && (c < |batch| ==> |l'.entries| == off + |batch| && l'.entries[off + c..] == batch[c..])
    && l'.stabled <= l.stabled
    && (c < |batch| && off + c < |l.entries| ==> l'.stabled <= l.first + off + c - 1)
    && (l.stabled <= LastIndex(l) ==> l'.stabled <= LastIndex(l'))
    && l' == l.(entries := l'.entries, stabled := l'.stabled)
  }

  lemma AbsorbMeetsFigure2(l: LogState, batch: seq<Entry>, off: nat)
    requires LogShape(l) && off <= |l.entries|
    requires Contiguous(batch, l.first + off)
    ensures MeetsFigure2(l, Absorb(l, batch, 0, 0), off, batch)
  {
    AbsorbIsMerged(l, batch, off);
    MergedFacts(l.entries, l.first, off, batch);
    LastIndexOf(l);
    LastIndexOf(Absorb(l, batch, 0, 0));
  }

  // ----- Batches that start below the first index -----

  /** Skipped entries are not counted, so when the loop later appends, it
      appends `skip` entries too many. */
  lemma {:induction false} AbsorbSkips(l: LogState, batch: seq<Entry>, skip: nat, i: nat)
    requires LogShape(l) && skip < |batch| && skip <= l.first && Contiguous(batch, l.first - skip)
    requires i <= skip
    ensures Absorb(l, batch, i, 0) == Absorb(l, batch, skip, 0)
    decreases skip - i
  {
    if i < skip {
      AbsorbSkips(l, batch, skip, i + 1);
    }
  }

  /** Whether a lagging loop that agrees with `c` more entries ends well. */
  predicate EndsWell(l: LogState, batch: seq<Entry>, skip: nat, i: nat, c: nat) {
    skip + i + c == |batch| || (skip + i + c == |batch| - 1 && i + c < |l.entries|)
  }

  lemma LaggingAgree(l: LogState, batch: seq<Entry>, skip: nat, i: nat, r: LogState) returns (c: nat)
    requires LogShape(l) && skip + i < |batch| && skip <= l.first && i < |l.entries|
    requires Contiguous(batch, l.first - skip) && l.entries[i].term == batch[skip + i].term
    requires r == Absorb(l, batch, skip + i + 1, i + 1)
    ensures r == Absorb(l, batch, skip + i, i)
    ensures c == Agreeing(l.entries, i + 1, batch[skip + i + 1..])
    ensures c + 1 == Agreeing(l.entries, i, batch[skip + i..])
  {
    LastIndexOf(l);
    c := Agreeing(l.entries, i + 1, batch[skip + i + 1..]);
    assert batch[skip + i..][1..] == batch[skip + i + 1..];
  }

  /** The loop from position `skip + i` on, with the counter at `i`. */
  lemma {:induction false} AbsorbLagging(l: LogState, batch: seq<Entry>, skip: nat, i: nat)
      returns (r: LogState, c: nat)
    requires LogShape(l) && 0 < skip && skip + i <= |batch| && skip <= l.first && i <= |l.entries|
    requires Contiguous(batch, l.first - skip)
    ensures r == Absorb(l, batch, skip + i, i) && c == Agreeing(l.entries, i, batch[skip + i..])
    ensures LogShape(r) <==> EndsWell(l, batch, skip, i, c)
    decreases |batch| - skip - i
  {
    if skip + i == |batch| {
      r, c := l, 0;
    } else if i < |l.entries| && l.entries[i].term == batch[skip + i].term {
      r, c := AbsorbLagging(l, batch, skip, i + 1);
      c := LaggingAgree(l, batch, skip, i, r);
      c := c + 1;
    } else {
      r, c := Absorb(l, batch, skip + i, i), 0;
      LastIndexOf(l);
      if i < |l.entries| {
        ConflictLagging(l, batch, skip, i);
      } else {
        PushLagging(l, batch, skip, i);
      }
    }
  }

  lemma PushLagging(l: LogState, batch: seq<Entry>, skip: nat, i: nat)
    requires LogShape(l) && 0 < skip && skip + i < |batch| && skip <= l.first && i == |l.entries|
    requires Contiguous(batch, l.first - skip)
    ensures !LogShape(l.(entries := l.entries + batch[i..]))
  {
    var es := l.entries + batch[i..];
    assert es[i] == batch[i] && batch[i].index == l.first - skip + i;
  }

  lemma ConflictLagging(l: LogState, batch: seq<Entry>, skip: nat, i: nat)
    requires LogShape(l) && 0 < skip && skip + i < |batch| && skip <= l.first && i < |l.entries|
    requires Contiguous(batch, l.first - skip) && l.entries[i].term != batch[skip + i].term
    ensures LogShape(Absorb(l, batch, skip + i, i)) <==> skip + i == |batch| - 1
  {
    LastIndexOf(l);
    var l' := Overwrite(l, batch[skip + i]);
    assert l'.entries == l.entries[..i] + [batch[skip + i]];
    LastIndexOf(l');
    assert Absorb(l, batch, skip + i, i) == Absorb(l', batch, skip + i + 1, i + 1);
    if skip + i + 1 < |batch| {
      PushLagging(l', batch, skip, i + 1);
    }
  }

  /** A batch that starts `skip` entries below the first index keeps the log
      contiguous exactly when nothing has to be appended: all its later entries
      agree with the log, or the only conflict is at its very last entry. */
  lemma LowBatchExactly(l: LogState, batch: seq<Entry>, skip: nat)
    requires LogShape(l) && 0 < skip < |batch| && skip <= l.first && Contiguous(batch, l.first - skip)
    ensures var rest := batch[skip..];
      var c := Agreeing(l.entries, 0, rest);
      LogShape(Absorb(l, batch, 0, 0)) <==> (c == |rest| || (c == |rest| - 1 && c < |l.entries|))
  {
    AbsorbSkips(l, batch, skip, 0);
    var _, _ := AbsorbLagging(l, batch, skip, 0);
  }

  /** For instance, a two-entry batch around the first index of an empty log is
      appended whole, the compacted entry included. */
  lemma LowBatchFails()
    ensures var l := LogState([Entry(EntryNormal, 1, 1, "")], 2, [], 1, 1, 1);
      var batch := [Entry(EntryNormal, 1, 1, ""), Entry(EntryNormal, 1, 2, "")];
      LogShape(l) && Contiguous(batch, 1) && !LogShape(Absorb(l, batch, 0, 0))
  {
    var l := LogState([Entry(EntryNormal, 1, 1, "")], 2, [], 1, 1, 1);
    var batch := [Entry(EntryNormal, 1, 1, ""), Entry(EntryNormal, 1, 2, "")];
    LowBatchExactly(l, batch, 1);
  }
}
