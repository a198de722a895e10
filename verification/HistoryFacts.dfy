/** Consequences of the log invariants: terms grow along a log, equal terms mean
    equal logs, and an accepted append leaves a prefix of the leader's log. */
module HistoryFacts {
  import opened RaftTypes
  import opened LogSpec
  import opened LogFacts
  import opened History

  lemma Lookups(n: Node)
    requires NodeShape(n)
    ensures LastIndex(n.log) == |n.log.entries|
    ensures forall i: nat :: TermOf(n.log, i) == TermAt(n.log.entries, i)
  {
    LastIndexOf(n.log);
  }

  /** Up to an entry of term `u`, the log of any leader is the log of the leader
      of `u`. */
  lemma {:induction false} ReignCovered(h: History, t: Term, k: nat)
    requires ReignLogs(h) && t in h.reigns && k < |h.reigns[t].log|
    ensures var u := h.reigns[t].log[k].term;
      && 1 <= u <= t && u in h.reigns
      && h.reigns[t].log[..k + 1] <= h.reigns[u].log
      && |h.reigns[u].base| <= k
    decreases t
  {
    var r := h.reigns[t];
    assert ReignLog(h, t);
    if k < |r.base| {
      var v := LastTerm(r.base);
      assert r.base <= h.reigns[v].log;
      assert r.log[k] == r.base[k] == h.reigns[v].log[k];
      ReignCovered(h, v, k);
      assert r.log[..k + 1] == r.base[..k + 1] == h.reigns[v].log[..k + 1];
    }
  }

  lemma Covered(h: History, es: seq<Entry>, k: nat)
    requires ReignLogs(h) && OnRecord(h, es) && k < |es|
    ensures var u := es[k].term;
      && 1 <= u <= LastTerm(es) && u in h.reigns
      && es[..k + 1] <= h.reigns[u].log
      && |h.reigns[u].base| <= k
  {
    var t := LastTerm(es);
    assert es[k] == h.reigns[t].log[k];
    assert es[..k + 1] == h.reigns[t].log[..k + 1];
    ReignCovered(h, t, k);
  }

  lemma TermsGrow(h: History, es: seq<Entry>, j: nat, k: nat)
    requires ReignLogs(h) && OnRecord(h, es) && j <= k < |es|
    ensures es[j].term <= es[k].term
  {
    Covered(h, es, k);
    var u := es[k].term;
    assert es[j] == es[..k + 1][j] == h.reigns[u].log[j];
    ReignCovered(h, u, j);
  }

  lemma ReignOnRecord(h: History, t: Term, n: nat)
    requires ReignLogs(h) && t in h.reigns && n <= |h.reigns[t].log|
    ensures OnRecord(h, h.reigns[t].log[..n])
  {
    if n > 0 {
      ReignCovered(h, t, n - 1);
    }
  }

  /** Log matching, on logs the history accounts for. */
  lemma Matching(h: History, es: seq<Entry>, es': seq<Entry>, k: nat)
    requires ReignLogs(h) && OnRecord(h, es) && OnRecord(h, es')
    requires k < |es| && k < |es'| && es[k].term == es'[k].term
    ensures es[..k + 1] == es'[..k + 1]
  {
    Covered(h, es, k);
    Covered(h, es', k);
  }

  lemma {:induction false} AgreeingPrefix(h: History, es: seq<Entry>, log: seq<Entry>, off: nat, batch: seq<Entry>)
    requires ReignLogs(h) && OnRecord(h, es) && OnRecord(h, log)
    requires off <= |es| && off + |batch| <= |log| && es[..off] == log[..off]
    requires batch == log[off..off + |batch|]
    ensures var c := Agreeing(es, off, batch); off + c <= |es| && es[..off + c] == log[..off + c]
  {
    var c := Agreeing(es, off, batch);
    AgreeingIs(es, off, batch);
    if c > 0 {
      assert es[off + c - 1].term == batch[c - 1].term == log[off + c - 1].term;
      Matching(h, es, log, off + c - 1);
    }
  }

  /** Merging a slice of a leader's log gives that log up to the end of the
      slice, or changes nothing. */
  lemma MergedLog(h: History, es: seq<Entry>, log: seq<Entry>, off: nat, batch: seq<Entry>)
    requires ReignLogs(h) && OnRecord(h, es) && OnRecord(h, log)
    requires off <= |es| && off + |batch| <= |log| && es[..off] == log[..off]
    requires batch == log[off..off + |batch|]
    ensures var r := Merged(es, off, batch); var end := off + |batch|;
      || r == log[..end]
      || (r == es && end <= |es| && es[..end] == log[..end])
  {
    AgreeingPrefix(h, es, log, off, batch);
    var c, end := Agreeing(es, off, batch), off + |batch|;
    if c < |batch| {
      SliceJoin(log, off, c, end);
    }
  }

  lemma SliceJoin(log: seq<Entry>, off: nat, c: nat, end: nat)
    requires off + c <= end <= |log|
    ensures log[..off + c] + log[off..end][c..] == log[..end]
  {
  }

  /** A prefix of the leader's log is never shortened by the leader's appends. */
  lemma MergedKeeps(es: seq<Entry>, log: seq<Entry>, off: nat, batch: seq<Entry>)
    requires off <= |es| && off + |batch| <= |log| && es <= log
    requires batch == log[off..off + |batch|]
    ensures es <= Merged(es, off, batch)
  {
    var c := Agreeing(es, off, batch);
    AgreeingIs(es, off, batch);
    if c < |batch| {
      assert batch[c] == log[off + c];
      assert |es| <= off + c;
      assert es[..off + c] == es;
    }
  }

  /** A log that has an entry of term `t`, and none later, is a prefix of the
      log of the leader of `t`. */
  lemma TailIsLeaders(h: History, es: seq<Entry>, t: Term, end: nat)
    requires ReignLogs(h) && OnRecord(h, es) && LastTerm(es) <= t && 0 < end <= |es|
    requires es[end - 1].term == t
    ensures t in h.reigns && es <= h.reigns[t].log
  {
    TermsGrow(h, es, end - 1, |es| - 1);
  }

  lemma MergedWithLeader(h: History, es: seq<Entry>, t: Term, off: nat, batch: seq<Entry>)
    requires ReignLogs(h) && OnRecord(h, es) && LastTerm(es) <= t && t in h.reigns
    requires off <= |es| && |h.reigns[t].base| < off + |batch| <= |h.reigns[t].log|
    requires batch == h.reigns[t].log[off..off + |batch|]
    requires TermAt(es, off) == TermAt(h.reigns[t].log, off)
    ensures var r := Merged(es, off, batch);
      && r <= h.reigns[t].log
      && off + |batch| <= |r|
      && (es <= h.reigns[t].log ==> es <= r)
  {
    var log, end := h.reigns[t].log, off + |batch|;
    ReignOnRecord(h, t, |log|);
    assert log[..|log|] == log;
    if off > 0 {
      Matching(h, es, log, off - 1);
    }
    MergedLog(h, es, log, off, batch);
    if es <= log {
      MergedKeeps(es, log, off, batch);
    }
    if Merged(es, off, batch) != log[..end] {
      assert ReignLog(h, t);
      assert es[end - 1] == es[..end][end - 1] == log[end - 1];
      TailIsLeaders(h, es, t, end);
    }
  }

  /** After accepting an append of its own term a node holds a prefix of the
      leader's log, reaching into the leader's own entries; what it already
      shared with the leader stays. */
  lemma AcceptedLog(h: History, n: Node, m: Message)
    requires ReignLogs(h) && NodeShape(n) && NodeLogOk(h, n)
    requires m.body.Append? && AppendOk(h, m) && m.term == n.term
    requires m.body.index <= |n.log.entries|
    requires TermAt(n.log.entries, m.body.index) == m.body.logTerm
    ensures var l := Absorb(n.log, m.body.entries, 0, 0);
      var r := h.reigns[m.term];
      && LogShape(l)
      && l == n.log.(entries := l.entries, stabled := l.stabled)
      && l.entries <= r.log
      && |r.base| < m.body.index + |m.body.entries| <= |l.entries|
      && (n.log.entries <= r.log ==> n.log.entries <= l.entries)
  {
    var b := m.body;
    assert WellIndexed(h.reigns[m.term].log) by {
      assert ReignLog(h, m.term);
    }
    SliceContiguous(h.reigns[m.term].log, 1, b.index, b.index + |b.entries|);
    AbsorbIsMerged(n.log, b.entries, b.index);
    AcceptedMerge(h, n, m, Absorb(n.log, b.entries, 0, 0));
  }

  lemma AcceptedMerge(h: History, n: Node, m: Message, l: LogState)
    requires ReignLogs(h) && NodeShape(n) && NodeLogOk(h, n)
    requires m.body.Append? && AppendOk(h, m) && m.term == n.term
    requires m.body.index <= |n.log.entries| && TermAt(n.log.entries, m.body.index) == m.body.logTerm
    requires l == Received(n.log, m.body.index, m.body.entries)
    ensures var r := h.reigns[m.term];
      && l == n.log.(entries := l.entries, stabled := l.stabled)
      && l.entries <= r.log
      && |r.base| < m.body.index + |m.body.entries| <= |l.entries|
      && (n.log.entries <= r.log ==> n.log.entries <= l.entries)
  {
    MergedWithLeader(h, n.log.entries, m.term, m.body.index, m.body.entries);
  }

  /** The vote check (section 5.4.1 of the Raft paper): a candidate whose log is
      at least as up to date as a log that holds what the leader of `t` sent
      holds it too, unless a leader in between lacked it. */
  lemma UpToDate(h: History, t: Term, n: nat, es: seq<Entry>, cs: seq<Entry>, bound: Term)
    requires ReignLogs(h) && OnRecord(h, es) && OnRecord(h, cs) && LastTerm(cs) < bound
    requires t in h.reigns && |h.reigns[t].base| < n <= |h.reigns[t].log|
    requires Holds(h, t, n, es)
    requires LastTerm(es) < LastTerm(cs) || (LastTerm(es) == LastTerm(cs) && |es| <= |cs|)
    ensures Retains(h, t, n, cs, bound)
  {
    var p := h.reigns[t].log[..n];
    var x := LastTerm(cs);
    assert es[n - 1] == p[n - 1] && p[n - 1].term == t by {
      assert ReignLog(h, t);
    }
    TermsGrow(h, es, n - 1, |es| - 1);
    if LastTerm(es) == x {
      Covered(h, es, |es| - 1);
      assert cs != [];
      assert es <= cs;
    } else {
      Covered(h, cs, |cs| - 1);
      if Holds(h, t, n, h.reigns[x].base) {
        assert h.reigns[x].base <= cs by {
          assert ReignLog(h, x);
        }
      } else {
        assert Superseded(h, t, n, bound);
      }
    }
  }
}
