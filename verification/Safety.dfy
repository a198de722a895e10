/** The safety properties of Figure 3 of the Raft paper, for every run of the
    model: fixed membership, fresh storage, no crashes, no snapshots, one entry
    per proposal. */
module Safety {
  import opened RaftTypes
  import opened LogSpec
  import opened NodeSpec
  import opened Cluster
  import opened History
  import opened HistoryFacts
  import opened Moves
  import opened Actions
  import opened Reigns
  import opened Commits
  import opened CommitMoves
  import opened CommitQuorum
  import opened Persistence
  import opened Steps
  import opened Runs

  lemma Reigning(s: State, h: History, i: NodeId)
    requires Inv(s, h) && i in s.nodes && s.nodes[i].role == Leader
    ensures var t := s.nodes[i].term;
      && t in h.reigns && h.reigns[t].id == i && Log(s, i) == h.reigns[t].log
      && h.reigns[t].base <= Log(s, i)
  {
    NodeFacts(s, h, i);
    LeaderFacts(s, h, i);
  }

  /** Election safety: at most one node is ever leader in a term, at any two
      moments of a run. */
  lemma ElectionSafety(run: seq<State>, k: nat, l: nat, a: NodeId, b: NodeId, t: Term)
    requires IsRun(run) && TallyExact(|run[0].peers|) && k < |run| && l < |run|
    requires IsLeader(run[k], a, t) && IsLeader(run[l], b, t)
    ensures a == b
  {
    var hs := HistoryOf(run);
    Reigning(run[k], hs[k], a);
    Reigning(run[l], hs[l], b);
    if k <= l {
      HistoryGrows(run, hs, k, l);
    } else {
      HistoryGrows(run, hs, l, k);
    }
  }

  lemma RecordedAt(run: seq<State>, hs: seq<History>, k: nat, l: nat, i: NodeId)
    requires Chronicle(run, hs) && k <= l < |run| && i in run[k].nodes
    ensures OnRecord(hs[l], Log(run[k], i)) && ReignLogs(hs[l])
  {
    NodeFacts(run[k], hs[k], i);
    HistoryGrows(run, hs, k, l);
    ExtendedOnRecord(hs[k], hs[l], Log(run[k], i));
    assert Satisfies(run[l], hs[l], Logs);
  }

  /** Log matching: two logs with equal terms at an index are equal up to it,
      whichever nodes and moments they are taken from. */
  lemma LogMatching(run: seq<State>, k: nat, l: nat, i: NodeId, j: NodeId, x: nat)
    requires IsRun(run) && TallyExact(|run[0].peers|) && k < |run| && l < |run|
    requires i in run[k].nodes && j in run[l].nodes
    requires x < |Log(run[k], i)| && x < |Log(run[l], j)|
    requires Log(run[k], i)[x].term == Log(run[l], j)[x].term
    ensures Log(run[k], i)[..x + 1] == Log(run[l], j)[..x + 1]
  {
    var hs := HistoryOf(run);
    var last := |run| - 1;
    RecordedAt(run, hs, k, last, i);
    RecordedAt(run, hs, l, last, j);
    Matching(hs[last], Log(run[k], i), Log(run[l], j), x);
  }

  lemma SliceMatches(es: seq<Entry>, log: seq<Entry>, from: nat, batch: seq<Entry>, p: nat)
    requires p < |batch| && from + |batch| <= |log| && from + p < |es|
    requires batch == log[from..from + |batch|] && es[..from + p + 1] == log[..from + p + 1]
    ensures es[from..from + p + 1] == batch[..p + 1] && TermAt(es, from) == TermAt(log, from)
  {
    var x := from + p + 1;
    assert es[from..x] == es[..x][from..] == log[..x][from..];
    if from > 0 {
      assert es[from - 1] == es[..x][from - 1] == log[..x][from - 1];
    }
  }

  lemma AppendMatches(h: History, m: Message, es: seq<Entry>, p: nat)
    requires ReignLogs(h) && OnRecord(h, es) && m.body.Append? && AppendOk(h, m) && p < |m.body.entries|
    requires m.body.index + p < |es| && es[m.body.index + p].term == m.body.entries[p].term
    ensures es[m.body.index..m.body.index + p + 1] == m.body.entries[..p + 1]
    ensures TermAt(es, m.body.index) == m.body.logTerm
  {
    var log := h.reigns[m.term].log;
    ReignOnRecord(h, m.term, |log|);
    assert log[..|log|] == log;
    Matching(h, es, log, m.body.index + p);
    SliceMatches(es, log, m.body.index, m.body.entries, p);
  }

  /** Log matching for an append under way: if a log has the term of the
      message's entry `p` at that entry's index, it has all entries of the message
      up to `p`, and the message's previous term at its previous index. */
  lemma InFlightMatching(run: seq<State>, k: nat, m: Message, l: nat, j: NodeId, p: nat)
    requires IsRun(run) && TallyExact(|run[0].peers|) && k < |run| && l < |run| && j in run[l].nodes
    requires m in run[k].net && m.body.Append? && p < |m.body.entries|
    requires m.body.index + p < |Log(run[l], j)|
    requires Log(run[l], j)[m.body.index + p].term == m.body.entries[p].term
    ensures Log(run[l], j)[m.body.index..m.body.index + p + 1] == m.body.entries[..p + 1]
    ensures TermAt(Log(run[l], j), m.body.index) == m.body.logTerm
  {
    var hs := HistoryOf(run);
    var last := |run| - 1;
    MessageFacts(run[k], hs[k], m);
    HistoryGrows(run, hs, k, last);
    ExtendedAppend(hs[k], hs[last], m);
    RecordedAt(run, hs, l, last, j);
    AppendMatches(hs[last], m, Log(run[l], j), p);
  }

  /** Leader append-only: as long as its term lasts, a leader stays leader and
      its log is only extended. */
  lemma LeaderAppendOnly(run: seq<State>, k: nat, l: nat, i: NodeId, t: Term)
    requires IsRun(run) && TallyExact(|run[0].peers|) && k <= l < |run|
    requires IsLeader(run[k], i, t) && i in run[l].nodes && run[l].nodes[i].term == t
    ensures IsLeader(run[l], i, t) && Log(run[k], i) <= Log(run[l], i)
  {
    var hs := HistoryOf(run);
    Reigning(run[k], hs[k], i);
    HistoryGrows(run, hs, k, l);
    assert Satisfies(run[l], hs[l], Elections);
    assert ReignElected(run[l], t, hs[l].reigns[t]);
    Reigning(run[l], hs[l], i);
  }

  /** The progress a leader keeps of its peers stays in range, so every append it
      builds starts inside its log and reaches its end. */
  lemma ProgressInRange(run: seq<State>, k: nat, i: NodeId, p: NodeId)
    requires IsRun(run) && TallyExact(|run[0].peers|) && k < |run|
    requires i in run[k].nodes && run[k].nodes[i].role == Leader && p in run[k].nodes[i].prs && p != i
    ensures var n := run[k].nodes[i];
      && 1 <= n.prs[p].next <= |n.log.entries| + 1
      && ValidNode(n)
      && AppendTo(n, p).body.index <= |n.log.entries|
      && AppendTo(n, p).body.index + |AppendTo(n, p).body.entries| == |n.log.entries|
  {
    var hs := HistoryOf(run);
    NodeFacts(run[k], hs[k], i);
  }

  /** The leader's search for the conflicting term always finds an entry: a
      rejection of the current term names a term below the leader's own. */
  lemma ConflictSearchDefined(run: seq<State>, k: nat, i: NodeId, m: Message)
    requires IsRun(run) && TallyExact(|run[0].peers|) && k < |run|
    requires i in run[k].nodes && run[k].nodes[i].role == Leader
    requires m in run[k].net && m.to == i && m.term == run[k].nodes[i].term
    requires m.body.AppendResponse? && m.body.reject && m.body.index != NONE
    ensures m.body.logTerm < run[k].nodes[i].term
    ensures exists x :: 0 <= x < |Log(run[k], i)| && Log(run[k], i)[x].term > m.body.logTerm
    ensures 1 <= BackOff(run[k].nodes[i], m.body) <= |Log(run[k], i)|
  {
    var hs := HistoryOf(run);
    NodeFacts(run[k], hs[k], i);
    LeaderFacts(run[k], hs[k], i);
    MessageFacts(run[k], hs[k], m);
    BackOffInRange(hs[k], run[k].nodes[i], m);
    var es := Log(run[k], i);
    assert es[|es| - 1].term > m.body.logTerm;
  }

  // ----- Commitment, for runs with fresh elections -----

  /** The commit index of a node stays inside its log, never moves back, and the
      entries it covers never change. */
  lemma CommitMonotone(run: seq<State>, k: nat, l: nat, i: NodeId)
    requires IsRun(run) && TallyExact(|run[0].peers|) && FreshElections(run)
    requires k <= l < |run| && i in run[k].nodes
    ensures i in run[l].nodes
    ensures var c, c' := run[k].nodes[i].log.committed, run[l].nodes[i].log.committed;
      c <= c' <= |Log(run[l], i)| && c <= |Log(run[k], i)| && Log(run[k], i)[..c] <= Log(run[l], i)
  {
    var hs := HistoryOf(run);
    CommitsGrow(run, hs, k, l, i);
    assert CommitInv(run[l], hs[l]);
    CommitWithin(run[l], hs[l], i);
  }

  lemma MatchesWithin(s: State, h: History, i: NodeId, p: NodeId)
    requires Inv(s, h) && CommitInv(s, h) && i in s.nodes && s.nodes[i].role == Leader && p in s.nodes[i].prs
    ensures s.nodes[i].prs[p].matched <= |Log(s, i)|
  {
    Reigning(s, h, i);
    KnownMatches(s, h, i);
    assert MatchOk(h, s.nodes[i], p);
    assert Satisfies(s, h, Acknowledging);
    var a := Ack(p, s.nodes[i].term);
    assert a in h.acked ==> AckOk(s, h, a);
  }

  /** The match indices of a leader stay inside its log, and so does the term lookup
      it makes when it counts any successful reply of its term. */
  lemma CommitLookupInRange(run: seq<State>, k: nat, i: NodeId, m: Message, relaxed: bool)
    requires IsRun(run) && TallyExact(|run[0].peers|) && FreshElections(run) && k < |run|
    requires i in run[k].nodes && run[k].nodes[i].role == Leader
    requires m in run[k].net && m.to == i && m.term == run[k].nodes[i].term
    requires m.body.AppendResponse? && !m.body.reject
    ensures var n := run[k].nodes[i];
      && ValidNode(n) && m.from in n.prs
      && (forall p :: p in n.prs ==> n.prs[p].matched <= |n.log.entries|)
      && CommitCandidate(n, relaxed) <= |n.log.entries|
      && CommitCandidate(SetMatch(n, m.from, m.body.index), relaxed) <= |n.log.entries|
  {
    var hs := HistoryOf(run);
    assert CommitInv(run[k], hs[k]);
    AckWithin(run[k], hs[k], i, m);
    AllWithin(run[k], hs[k], i);
    CandidateWithin(run[k].nodes[i], relaxed);
    CandidateWithin(SetMatch(run[k].nodes[i], m.from, m.body.index), relaxed);
  }

  lemma AllWithin(s: State, h: History, i: NodeId)
    requires Inv(s, h) && CommitInv(s, h) && i in s.nodes && s.nodes[i].role == Leader
    ensures forall p :: p in s.nodes[i].prs ==> s.nodes[i].prs[p].matched <= |s.nodes[i].log.entries|
  {
    forall p | p in s.nodes[i].prs
      ensures s.nodes[i].prs[p].matched <= |s.nodes[i].log.entries|
    {
      MatchesWithin(s, h, i, p);
    }
  }

  lemma AckWithin(s: State, h: History, i: NodeId, m: Message)
    requires Inv(s, h) && i in s.nodes && s.nodes[i].role == Leader
    requires m in s.net && m.to == i && m.term == s.nodes[i].term
    requires m.body.AppendResponse? && !m.body.reject
    ensures ValidNode(s.nodes[i]) && m.from in s.nodes[i].prs && m.body.index <= |Log(s, i)|
  {
    NodeFacts(s, h, i);
    MessageFacts(s, h, m);
    Reigning(s, h, i);
    assert Satisfies(s, h, Acknowledging);
    assert AckOk(s, h, Ack(m.from, m.term));
  }

  lemma CandidateWithin(n: Node, relaxed: bool)
    requires ValidNode(n) && forall p :: p in n.prs ==> n.prs[p].matched <= |n.log.entries|
    ensures CommitCandidate(n, relaxed) <= |n.log.entries|
  {
    LookupOutsideExactly(n, relaxed);
    assert Reached(n.prs, |n.log.entries| + 1) == {};
  }

  /** What node `i` has committed at moment `k`, seen from a later history. */
  lemma CommittedAt(run: seq<State>, hs: seq<History>, k: nat, l: nat, i: NodeId)
    requires Chronicle(run, hs) && SafeChronicle(run, hs) && k <= l < |run| && i in run[k].nodes
    ensures var c := run[k].nodes[i].log.committed;
      && c <= |Log(run[k], i)| && run[k].nodes.Keys == run[l].nodes.Keys
      && Settled(run[l].nodes.Keys, hs[l], run[k].nodes[i].term, c, Log(run[k], i))
  {
    var n := run[k].nodes[i];
    assert CommitInv(run[k], hs[k]);
    CommitWithin(run[k], hs[k], i);
    HistoryGrows(run, hs, k, l);
    SameMembers(run, hs, k, l);
    SettledStays(run[k].nodes.Keys, hs[k], hs[l], n.term, n.term, n.log.committed, n.log.entries, n.log.entries);
  }

  lemma {:induction false} SameMembers(run: seq<State>, hs: seq<History>, k: nat, l: nat)
    requires |hs| == |run| && SafeChronicle(run, hs) && k <= l < |run|
    ensures run[k].nodes.Keys == run[l].nodes.Keys
    decreases l - k
  {
    if k < l {
      SameMembers(run, hs, k, l - 1);
      var j := l - 1;
      assert AllGrow(run[j], run[j + 1]);
    }
  }

  lemma InheritedFrom(s: State, h: History, b: Term, c: nat, es: seq<Entry>, u: Term)
    requires Inv(s, h) && Settled(s.nodes.Keys, h, b, c, es) && u in h.reigns && b < u
    ensures c <= |es| && es[..c] <= h.reigns[u].base
  {
    if c > 0 {
      var t: Term, k: nat :| t <= b && ChosenAt(s.nodes.Keys, h, c, es, t, k);
      Open(s, h);
      ChosenIsInherited(s, h, t, k, u);
      assert es[..c] <= h.reigns[t].log[..k];
    }
  }

  /** Leader completeness: what any node has committed at any moment is in the
      log of every leader of a later term, whenever that leader held office. */
  lemma LeaderCompleteness(run: seq<State>, k: nat, l: nat, i: NodeId, j: NodeId)
    requires IsRun(run) && TallyExact(|run[0].peers|) && FreshElections(run)
    requires k < |run| && l < |run| && i in run[k].nodes
    requires j in run[l].nodes && run[l].nodes[j].role == Leader
    requires run[k].nodes[i].term < run[l].nodes[j].term
    ensures run[k].nodes[i].log.committed <= |Log(run[k], i)|
    ensures Log(run[k], i)[..run[k].nodes[i].log.committed] <= Log(run[l], j)
  {
    var hs := HistoryOf(run);
    var last, u, n := |run| - 1, run[l].nodes[j].term, run[k].nodes[i];
    CommittedAt(run, hs, k, last, i);
    Reigning(run[l], hs[l], j);
    HistoryGrows(run, hs, l, last);
    InheritedFrom(run[last], hs[last], n.term, n.log.committed, n.log.entries, u);
    assert hs[last].reigns[u].base == hs[l].reigns[u].base;
  }

  /** Two settled prefixes agree. */
  lemma SettledAgree(s: State, h: History, b: Term, c: nat, es: seq<Entry>, b': Term, c': nat, es': seq<Entry>)
    requires Inv(s, h)
    requires Settled(s.nodes.Keys, h, b, c, es) && Settled(s.nodes.Keys, h, b', c', es')
    ensures c <= |es| && c' <= |es'|
    ensures c <= c' ==> es[..c] == es'[..c]
    ensures c' <= c ==> es[..c'] == es'[..c']
  {
    if c > 0 && c' > 0 {
      var all := s.nodes.Keys;
      var t: Term, k: nat :| t <= b && ChosenAt(all, h, c, es, t, k);
      var t': Term, k': nat :| t' <= b' && ChosenAt(all, h, c', es', t', k');
      Open(s, h);
      if t < t' {
        ChosenBegins(s, h, t, k, t');
      } else if t' < t {
        ChosenBegins(s, h, t', k', t);
      }
      ChosenAgree(all, h, c, es, t, k, c', es', t', k');
    } else {
      SettledLength(s.nodes.Keys, h, b, c, es);
      SettledLength(s.nodes.Keys, h, b', c', es');
    }
  }

  lemma ChosenBegins(s: State, h: History, t: Term, k: nat, u: Term)
    requires Addressed(s) && Electoral(s, h) && ReignLogs(h) && Quorums(h)
    requires Chosen(s.nodes.Keys, h, t, k) && u in h.reigns && t < u
    ensures h.reigns[t].log[..k] <= h.reigns[u].log
  {
    ChosenIsInherited(s, h, t, k, u);
    assert ReignLog(h, u);
  }

  lemma ChosenAgree(all: set<NodeId>, h: History, c: nat, es: seq<Entry>, t: Term, k: nat,
                    c': nat, es': seq<Entry>, t': Term, k': nat)
    requires ChosenAt(all, h, c, es, t, k) && ChosenAt(all, h, c', es', t', k')
    requires t < t' ==> h.reigns[t].log[..k] <= h.reigns[t'].log
    requires t' < t ==> h.reigns[t'].log[..k'] <= h.reigns[t].log
    ensures c <= c' ==> es[..c] == es'[..c]
    ensures c' <= c ==> es[..c'] == es'[..c']
  {
    var m := if c <= c' then c else c';
    var log, log' := h.reigns[t].log, h.reigns[t'].log;
    assert es[..m] == es[..c][..m] == log[..m];
    assert es'[..m] == es'[..c'][..m] == log'[..m];
    if t < t' {
      assert log[..m] == log[..k][..m] == log'[..m];
    } else if t' < t {
      assert log'[..m] == log'[..k'][..m] == log[..m];
    }
  }

  /** State machine safety: no two nodes ever commit different entries at one
      index, at whatever moments they do so. */
  lemma StateMachineSafety(run: seq<State>, k: nat, l: nat, i: NodeId, j: NodeId, x: nat)
    requires IsRun(run) && TallyExact(|run[0].peers|) && FreshElections(run)
    requires k < |run| && l < |run| && i in run[k].nodes && j in run[l].nodes
    requires x < run[k].nodes[i].log.committed && x < run[l].nodes[j].log.committed
    ensures x < |Log(run[k], i)| && x < |Log(run[l], j)| && Log(run[k], i)[x] == Log(run[l], j)[x]
  {
    var hs := HistoryOf(run);
    var last, n, n' := |run| - 1, run[k].nodes[i], run[l].nodes[j];
    var c, c' := n.log.committed, n'.log.committed;
    CommittedAt(run, hs, k, last, i);
    CommittedAt(run, hs, l, last, j);
    SettledAgree(run[last], hs[last], n.term, c, n.log.entries, n'.term, c', n'.log.entries);
    var m := if c <= c' then c else c';
    assert n.log.entries[x] == n.log.entries[..m][x] == n'.log.entries[..m][x];
  }

  /** The application of every node is handed exactly the applied prefix of the
      node's log, once and in order; it only ever grows; and of any two
      applications, at any two moments, one has been handed a prefix of the
      other. */
  lemma AppliedAgree(run: seq<State>, k: nat, l: nat, i: NodeId, j: NodeId)
    requires IsRun(run) && TallyExact(|run[0].peers|) && FreshElections(run)
    requires k < |run| && l < |run| && i in run[k].nodes && j in run[l].nodes
    ensures i in run[k].app && j in run[l].app
    ensures var a := run[k].nodes[i].log; a.applied <= |a.entries| && run[k].app[i] == a.entries[..a.applied]
    ensures i == j && k <= l ==> run[k].app[i] <= run[l].app[j]
    ensures run[k].app[i] <= run[l].app[j] || run[l].app[j] <= run[k].app[i]
  {
    var hs := HistoryOf(run);
    var last, n, n' := |run| - 1, run[k].nodes[i], run[l].nodes[j];
    var c, c' := n.log.committed, n'.log.committed;
    assert AppInv(run[k]) && AppInv(run[l]);
    assert AppOk(run[k], i) && AppOk(run[l], j);
    CommittedAt(run, hs, k, last, i);
    CommittedAt(run, hs, l, last, j);
    SettledAgree(run[last], hs[last], n.term, c, n.log.entries, n'.term, c', n'.log.entries);
    PrefixesCompare(n.log.entries, c, n.log.applied, n'.log.entries, c', n'.log.applied);
    if i == j && k <= l {
      CommitsGrow(run, hs, k, l, i);
    }
  }

  lemma PrefixesCompare(es: seq<Entry>, c: nat, a: nat, es': seq<Entry>, c': nat, a': nat)
    requires a <= c <= |es| && a' <= c' <= |es'|
    requires c <= c' ==> es[..c] == es'[..c]
    requires c' <= c ==> es[..c'] == es'[..c']
    ensures es[..a] <= es'[..a'] || es'[..a'] <= es[..a]
  {
    var m := if c <= c' then c else c';
    assert forall x :: 0 <= x < m ==> es[x] == es[..m][x] == es'[..m][x] == es'[x];
  }

  // ----- Storage -----

  /** Storage and the in-memory log coincide up to the persisted cursor in every
      state of every run, and completely right after a Ready round. */
  lemma StorageAgrees(run: seq<State>, k: nat, i: NodeId)
    requires IsRun(run) && TallyExact(|run[0].peers|) && k < |run| && i in run[k].nodes
    ensures StorageOk(run[k].nodes[i].log)
    ensures WellFormed(run[k])
    ensures Enabled(run[k], ReadyRound(i)) ==>
      FullySaved(After(run[k], ReadyRound(i)).nodes[i].log)
  {
    var hs := HistoryOf(run);
    assert Stored(run[k]);
    NodeFacts(run[k], hs[k], i);
    if Enabled(run[k], ReadyRound(i)) {
      var s' := AfterReady(run[k], i);
      ReadyKeepsStored(run[k], s', i);
    }
  }

  /** With fresh elections a Ready round never reads outside the log: it is
      enabled in every state of every run. */
  lemma ReadyInRange(run: seq<State>, k: nat, i: NodeId)
    requires IsRun(run) && TallyExact(|run[0].peers|) && FreshElections(run)
    requires k < |run| && i in run[k].nodes
    ensures WellFormed(run[k]) && Enabled(run[k], ReadyRound(i))
  {
    var hs := HistoryOf(run);
    NodeFacts(run[k], hs[k], i);
    assert Stored(run[k]) && AppInv(run[k]) && CommitInv(run[k], hs[k]);
    assert StorageOk(run[k].nodes[i].log) && AppOk(run[k], i);
    CommitWithin(run[k], hs[k], i);
  }

  /** Without that hypothesis a round is in range exactly when the log is empty or the
      commit index lies inside it and not below the applied index. */
  lemma ReadyExactly(run: seq<State>, k: nat, i: NodeId)
    requires IsRun(run) && TallyExact(|run[0].peers|) && k < |run| && i in run[k].nodes
    ensures WellFormed(run[k])
    ensures var l := run[k].nodes[i].log;
      && (Enabled(run[k], ReadyRound(i)) <==> NextInRange(l))
      && (NextInRange(l) <==> l.entries == [] || l.applied <= l.committed <= |l.entries|)
  {
    var hs := HistoryOf(run);
    NodeFacts(run[k], hs[k], i);
    assert Stored(run[k]);
    assert StorageOk(run[k].nodes[i].log);
  }
}
