/** The in-memory log and the storage behind it: what is persisted, what one
    Ready round saves and hands to the application. */
module Persistence {
  import opened RaftTypes
  import opened LogSpec
  import opened LogFacts
  import opened NodeSpec
  import opened Cluster

  /** How many entries are marked as persisted. */
  function Stable(l: LogState): int { l.stabled + 1 - l.first }

  /** Storage and log coincide up to the persisted cursor, which lies inside
      both; storage holds more only while there are unstable entries to replace
      it. */
  predicate StorageOk(l: LogState) {
    && LogShape(l)
    && StorageFirst(l.storage) == l.first
    && 0 <= Stable(l) <= |l.entries|
    && Stable(l) < |l.storage|
    && l.storage[1..Stable(l) + 1] == l.entries[..Stable(l)]
    && (Stable(l) == |l.entries| ==> |l.storage| == Stable(l) + 1)
  }

  /** The storage with a batch in its place: what lies before the batch stays, what lies
      behind it goes, and the dummy entry is not replaced. */
  function Overlaid(ents: seq<Entry>, es: seq<Entry>): seq<Entry>
    requires ents != [] && es != [] && ents[0].index <= es[0].index <= ents[0].index + |ents|
  {
    var at := es[0].index - ents[0].index;
    if at == 0 then [ents[0]] + es[1..] else ents[..at] + es
  }

  /** Appending to storage takes in a batch that reaches beyond the dummy entry exactly when
      it starts neither below it nor behind a gap; every other batch is dropped whole, also
      one that starts below the dummy entry and reaches far beyond it. */
  lemma SavedExactly(ents: seq<Entry>, es: seq<Entry>)
    requires ents != [] && Contiguous(ents, ents[0].index) && (es != [] ==> Contiguous(es, es[0].index))
    ensures var base := ents[0].index;
      StorageAppend(ents, es) ==
        if es != [] && base < es[0].index + |es| - 1 && base <= es[0].index <= base + |ents| then Overlaid(ents, es)
        else ents
    ensures Contiguous(StorageAppend(ents, es), ents[0].index)
  {
  }

  /** A log that keeps the first `keep` entries, goes on differently, and marks no
      more than those as persisted. */
  lemma RewriteKeepsStorage(l: LogState, l': LogState, keep: nat)
    requires StorageOk(l) && LogShape(l') && l'.storage == l.storage && l'.first == l.first
    requires keep <= |l.entries| && keep < |l'.entries| && l.entries[..keep] <= l'.entries
    requires Stable(l') == if Stable(l) <= keep then Stable(l) else keep
    ensures StorageOk(l')
  {
    var n := Stable(l');
    assert l'.entries[..n] == l.entries[..keep][..n] == l.entries[..n] == l.entries[..Stable(l)][..n];
    assert l'.storage[1..n + 1] == l.storage[1..Stable(l) + 1][..n];
  }

  lemma MergeKeepsStorage(l: LogState, batch: seq<Entry>, off: nat, l': LogState)
    requires StorageOk(l) && off <= |l.entries| && Contiguous(batch, l.first + off)
    requires l' == Received(l, off, batch)
    ensures StorageOk(l')
  {
    MergedFacts(l.entries, l.first, off, batch);
    var c := Agreeing(l.entries, off, batch);
    if c < |batch| {
      RewriteKeepsStorage(l, l', off + c);
    }
  }

  /** Receiving any contiguous batch keeps them in agreement, also when it
      truncates the log below the persisted cursor. */
  lemma AbsorbKeepsStorage(l: LogState, batch: seq<Entry>, off: nat)
    requires StorageOk(l) && off <= |l.entries| && Contiguous(batch, l.first + off)
    ensures StorageOk(Absorb(l, batch, 0, 0))
  {
    AbsorbIsMerged(l, batch, off);
    MergeKeepsStorage(l, batch, off, Absorb(l, batch, 0, 0));
  }

  lemma PushKeepsStorage(l: LogState, es: seq<Entry>)
    requires StorageOk(l) && Contiguous(l.entries + es, l.first)
    ensures StorageOk(l.(entries := l.entries + es))
  {
    var l' := l.(entries := l.entries + es);
    assert l'.entries[..Stable(l)] == l.entries[..Stable(l)];
  }

  /** What a follower's commit update does to its commit index, on any log: it ends up
      beyond the log exactly when it is not raised and the log has been cut below it,
      or was as short before; and it falls exactly when the append's commit index is
      higher but the append ends below it. */
  lemma CommitBeyondExactly(l: LogState, b: Body, l': LogState)
    requires b.Append? && LogShape(l) && l.first == 1
    requires b.index <= |l.entries| && Contiguous(b.entries, 1 + b.index)
    requires l' == CommitUpTo(Absorb(l, b.entries, 0, 0), b)
    ensures var kept := Agreeing(l.entries, b.index, b.entries) == |b.entries|;
      l'.committed > |l'.entries| <==>
        b.commit <= l.committed && l.committed > if kept then |l.entries| else b.index + |b.entries|
    ensures l'.committed < l.committed <==> b.commit > l.committed && b.index + |b.entries| < l.committed
  {
    AbsorbIsMerged(l, b.entries, b.index);
    MergedFacts(l.entries, 1, b.index, b.entries);
  }

  /** Right after a round, storage is the dummy entry followed by the whole log
      and everything is marked as persisted. */
  predicate FullySaved(l: LogState) {
    StorageOk(l) && l.storage[1..] == l.entries && Stable(l) == |l.entries|
  }

  /** What a round writes: nothing if all is persisted, else the rest of the log
      behind the persisted part. */
  lemma UnstableAppends(l: LogState) returns (storage: seq<Entry>)
    requires StorageOk(l)
    ensures UnstableInRange(l) && storage == StorageAppend(l.storage, UnstableEntries(l))
    ensures |storage| == |l.entries| + 1 && storage[0] == l.storage[0] && storage[1..] == l.entries
    ensures SavedTo(l) + 1 == l.first + |l.entries|
  {
    var es, n := UnstableEntries(l), Stable(l);
    storage := StorageAppend(l.storage, es);
    if |es| > 0 {
      assert es[0].index == l.first + n;
      assert storage == l.storage[..n + 1] + es;
      assert storage[1..] == l.storage[1..n + 1] + es;
      assert l.entries[..n] + es == l.entries;
      assert es[|es| - 1] == l.entries[|l.entries| - 1];
    } else {
      assert l.storage[1..] == l.storage[1..n + 1];
    }
  }

  /** A round saves the whole log; the range of `NextEnts` must lie inside it. */
  lemma RoundSaves(l: LogState)
    requires StorageOk(l) && NextInRange(l)
    ensures UnstableInRange(l) && FullySaved(Advanced(l))
    ensures Advanced(l).entries == l.entries && Advanced(l).committed == l.committed
  {
    var storage := UnstableAppends(l);
    SavedAll(l, storage, SavedTo(l), Advanced(l));
  }

  lemma SavedAll(l: LogState, storage: seq<Entry>, stabled: nat, l': LogState)
    requires StorageOk(l) && |storage| == |l.entries| + 1 && storage[0] == l.storage[0] && storage[1..] == l.entries
    requires stabled + 1 == l.first + |l.entries|
    requires l' == l.(storage := storage, stabled := stabled, applied := l'.applied)
    ensures FullySaved(l')
  {
    assert storage[1..Stable(l') + 1] == storage[1..];
  }

  /** A round applies exactly the entries between the applied and the commit
      index. */
  lemma RoundApplies(l: LogState)
    requires LogShape(l) && NextInRange(l) && UnstableInRange(l)
    requires l.entries == [] ==> l.applied == l.committed
    ensures Advanced(l).applied == l.committed
    ensures l.entries != [] ==>
      l.entries[..l.applied + 1 - l.first] + NextEnts(l) == l.entries[..l.committed + 1 - l.first]
  {
    if l.entries != [] {
      var cs := NextEnts(l);
      if |cs| > 0 {
        assert cs[|cs| - 1] == l.entries[l.committed - l.first];
      }
    }
  }
}
