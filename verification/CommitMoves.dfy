/** The handlers keep the commit invariants, and a commit index never moves back
    or loses what it covers. */
module CommitMoves {
  import opened RaftTypes
  import opened LogSpec
  import opened NodeSpec
  import opened Cluster
  import opened History
  import opened HistoryFacts
  import opened Moves
  import opened Actions
  import opened Reigns
  import opened Majorities
  import opened Commits
  import opened CommitQuorum

  /** The commit index stays inside the log, does not move back, and what it
      covers does not change. */
  predicate CommitGrows(n: Node, n': Node) {
    && n.log.committed <= |n.log.entries|
    && n.log.committed <= n'.log.committed
    && n.log.entries[..n.log.committed] <= n'.log.entries
  }

  lemma CommitWithin(s: State, h: History, i: NodeId)
    requires CommitInv(s, h) && i in s.nodes
    ensures s.nodes[i].log.committed <= |s.nodes[i].log.entries|
    ensures CommitOk(s.nodes.Keys, h, s.nodes[i])
  {
    var n := s.nodes[i];
    assert CommitOk(s.nodes.Keys, h, n);
    SettledLength(s.nodes.Keys, h, n.term, n.log.committed, n.log.entries);
  }

  // ----- What a leader sends -----

  lemma LeaderCarries(all: set<NodeId>, h: History, n: Node, p: NodeId)
    requires ValidNode(n) && NodeShape(n) && Leads(h, n) && ProgressOk(n)
    requires p in n.prs && p != n.id
    requires Settled(all, h, n.term, n.log.committed, n.log.entries)
    ensures CarriesOk(all, h, AppendTo(n, p))
  {
    SettledLength(all, h, n.term, n.log.committed, n.log.entries);
    var prev := n.prs[p].next - 1;
    assert EntriesAfter(n.log, prev) == n.log.entries[prev..];
  }

  lemma BroadcastCarries(all: set<NodeId>, h: History, n: Node)
    requires ValidNode(n) && NodeShape(n) && Leads(h, n) && ProgressOk(n)
    requires Settled(all, h, n.term, n.log.committed, n.log.entries)
    ensures forall m :: m in AppendsTo(n, n.peers) ==> m.body.Append? && CarriesOk(all, h, m)
  {
    forall m | m in AppendsTo(n, n.peers)
      ensures m.body.Append? && CarriesOk(all, h, m)
    {
      var p := AppendsReach(n, n.peers, m);
      LeaderCarries(all, h, n, p);
    }
  }

  // ----- Moves that leave log and commit index alone -----

  predicate SameMatched(n: Node, n': Node) {
    n'.role == Leader ==>
      && n.role == Leader && n'.term == n.term && n'.prs.Keys == n.prs.Keys
      && forall p :: p in n.prs ==> n'.prs[p].matched == n.prs[p].matched
  }

  lemma SameMatchesOk(h: History, n: Node, n': Node)
    requires MatchesOk(h, n) && SameMatched(n, n')
    ensures MatchesOk(h, n')
  {
    if n'.role == Leader && n'.term in h.reigns {
      forall p | p in n'.prs
        ensures MatchOk(h, n', p)
      {
        assert MatchOk(h, n, p);
      }
    }
  }

  ghost predicate CarriesAll(all: set<NodeId>, h: History, ms: seq<Message>) {
    forall m :: m in ms && m.body.Append? ==> CarriesOk(all, h, m)
  }

  lemma InstallCommit(s: State, h: History, i: NodeId, n': Node, h': History)
    requires Addressed(s) && Electoral(s, h) && CommitInv(s, h) && i in s.nodes && Extends(h, h')
    requires CommitOk(s.nodes.Keys, h', n') && CarriesAll(s.nodes.Keys, h', n'.msgs)
    ensures CommitInv(Install(s, i, n'), h')
  {
    var s' := Install(s, i, n');
    InstalledOnly(s, i, n');
    assert MatchesOk(h', s'.nodes[i]) by {
      SameMatchesOk(h', n', s'.nodes[i]);
    }
    assert CommitOk(s.nodes.Keys, h', s'.nodes[i]);
    assert NewCarries(s, s', h');
    KeepsCommit(s, h, s', h', i);
  }

  lemma SameCommitStep(s: State, h: History, i: NodeId, n': Node)
    requires Inv(s, h) && CommitInv(s, h) && i in s.nodes
    requires n'.log.entries == s.nodes[i].log.entries && n'.log.committed == s.nodes[i].log.committed
    requires n'.term >= s.nodes[i].term && MatchesOk(h, n')
    requires CarriesAll(s.nodes.Keys, h, n'.msgs)
    ensures CommitInv(Install(s, i, n'), h) && CommitGrows(s.nodes[i], n')
  {
    Open(s, h);
    var n := s.nodes[i];
    CommitWithin(s, h, i);
    SettledStays(s.nodes.Keys, h, h, n.term, n'.term, n.log.committed, n.log.entries, n.log.entries);
    InstallCommit(s, h, i, n', h);
  }

  lemma QuietCommit(s: State, h: History, i: NodeId, n': Node)
    requires Inv(s, h) && CommitInv(s, h) && i in s.nodes
    requires n'.log.entries == s.nodes[i].log.entries && n'.log.committed == s.nodes[i].log.committed
    requires n'.term >= s.nodes[i].term && SameMatched(s.nodes[i], n')
    requires CarriesAll(s.nodes.Keys, h, n'.msgs)
    ensures CommitInv(Install(s, i, n'), h) && CommitGrows(s.nodes[i], n')
  {
    assert CommitOk(s.nodes.Keys, h, s.nodes[i]);
    SameMatchesOk(h, s.nodes[i], n');
    SameCommitStep(s, h, i, n');
  }

  // ----- Moves that change the log -----

  /** A leader alone settles its whole log. */
  lemma SoloSettled(all: set<NodeId>, h: History, n: Node)
    requires Leads(h, n) && all == {n.id}
    requires Ack(n.id, n.term) in h.acked && h.acked[Ack(n.id, n.term)] >= |n.log.entries|
    ensures Settled(all, h, n.term, |n.log.entries|, n.log.entries)
  {
    var k := |n.log.entries|;
    assert Acceptors(all, h, n.term, k) == all;
    assert ChosenAt(all, h, k, n.log.entries, n.term, k);
  }

  /** A leader that has just extended its log: what it then sends and commits
      is settled. */
  lemma OfficeSettled(all: set<NodeId>, h': History, b: Node)
    requires ValidNode(b) && NodeShape(b) && Leads(h', b) && ProgressOk(b) && MatchesOk(h', b)
    requires b.msgs == [] && all == (set p | p in b.peers)
    requires Settled(all, h', b.term, b.log.committed, b.log.entries)
    requires b.prs[b.id].matched == |b.log.entries|
    requires Ack(b.id, b.term) in h'.acked && h'.acked[Ack(b.id, b.term)] >= |b.log.entries|
    ensures var n' := CommitAlone(BcastAppend(b));
      && CommitOk(all, h', n') && CarriesAll(all, h', n'.msgs)
      && n'.log.entries == b.log.entries && b.log.committed <= n'.log.committed
  {
    var n' := CommitAlone(BcastAppend(b));
    BroadcastCarries(all, h', b);
    SettledLength(all, h', b.term, b.log.committed, b.log.entries);
    if |b.peers| == 1 {
      assert all == {b.id};
      SoloSettled(all, h', b);
    }
    SameMatchesOk(h', b, n');
  }

  /** `b` is node `n` as a leader of `h'` with a longer log that it has
      acknowledged, before it sends or commits anything. */
  predicate Augmented(n: Node, b: Node, h': History) {
    && ValidNode(b) && NodeShape(b) && Leads(h', b) && ProgressOk(b)
    && b.id == n.id && b.term >= n.term && b.msgs == [] && b.peers == n.peers
    && b.log.committed == n.log.committed && n.log.entries <= b.log.entries
    && b.prs[b.id].matched == |b.log.entries|
    && Ack(b.id, b.term) in h'.acked && h'.acked[Ack(b.id, b.term)] >= |b.log.entries|
  }

  lemma OfficeCommit(s: State, h: History, i: NodeId, b: Node, h': History)
    requires WellFormed(s) && Electoral(s, h) && CommitInv(s, h) && i in s.nodes && Extends(h, h')
    requires Fits(s, i) && Augmented(s.nodes[i], b, h') && MatchesOk(h', b)
    ensures CommitInv(Install(s, i, CommitAlone(BcastAppend(b))), h')
    ensures CommitGrows(s.nodes[i], CommitAlone(BcastAppend(b)))
  {
    var n := s.nodes[i];
    CommitWithin(s, h, i);
    SettledStays(s.nodes.Keys, h, h', n.term, b.term, n.log.committed, n.log.entries, b.log.entries);
    OfficeSettled(s.nodes.Keys, h', b);
    InstallCommit(s, h, i, CommitAlone(BcastAppend(b)), h');
  }

  lemma ElectedMatches(h: History, n: Node)
    requires ValidNode(n) && NodeShape(n) && NoStaleMatch(n)
    ensures MatchesOk(Elected(h, n), TakeOffice(n))
  {
    Lookups(n);
    var o, h' := TakeOffice(n), Elected(h, n);
    forall p | p in o.prs
      ensures MatchOk(h', o, p)
    {
    }
  }

  lemma ElectedExtends(s: State, h: History, i: NodeId)
    requires Inv(s, h) && i in s.nodes && Fits(s, i)
    requires s.nodes[i].role == Candidate && Wins(s.nodes[i].votes, |s.peers|)
    ensures HistoryMove(h, Elected(h, s.nodes[i]), TakeOffice(s.nodes[i]))
    ensures ReignLog(Elected(h, s.nodes[i]), s.nodes[i].term)
  {
    var n := s.nodes[i];
    NodeFacts(s, h, i);
    assert Satisfies(s, h, Elections) && Satisfies(s, h, Acknowledging);
    WinIsMajority(s, h, i);
    Unelected(s, h, i);
    NoAckYet(s, h, Ack(i, n.term));
    ElectedHistory(h, n);
  }

  lemma ElectedAugments(s: State, h: History, i: NodeId)
    requires Inv(s, h) && i in s.nodes && Fits(s, i)
    requires s.nodes[i].role == Candidate && Wins(s.nodes[i].votes, |s.peers|)
    ensures Extends(h, Elected(h, s.nodes[i]))
    ensures Augmented(s.nodes[i], TakeOffice(s.nodes[i]), Elected(h, s.nodes[i]))
  {
    NodeFacts(s, h, i);
    Lookups(s.nodes[i]);
    ElectedExtends(s, h, i);
    OfficeNode(s, h, i);
  }

  /** Winning an election keeps the commit invariants when no remembered match
      index exceeds the log. */
  lemma WinCommit(s: State, h: History, i: NodeId)
    requires Inv(s, h) && CommitInv(s, h) && i in s.nodes && Fits(s, i)
    requires s.nodes[i].role == Candidate && Wins(s.nodes[i].votes, |s.peers|)
    requires NoStaleMatch(s.nodes[i])
    ensures CommitInv(Install(s, i, BecomeLeader(s.nodes[i])), Elected(h, s.nodes[i]))
    ensures CommitGrows(s.nodes[i], BecomeLeader(s.nodes[i]))
  {
    NodeFacts(s, h, i);
    assert Satisfies(s, h, Elections);
    ElectedAugments(s, h, i);
    ElectedMatches(h, s.nodes[i]);
    OfficeCommit(s, h, i, TakeOffice(s.nodes[i]), Elected(h, s.nodes[i]));
  }

  lemma KnownMatches(s: State, h: History, i: NodeId)
    requires CommitInv(s, h) && i in s.nodes
    ensures MatchesOk(h, s.nodes[i])
  {
    assert CommitOk(s.nodes.Keys, h, s.nodes[i]);
  }

  lemma ProposedParts(s: State, h: History, i: NodeId, e: Entry) returns (b: Node, h': History)
    requires Inv(s, h) && i in s.nodes && s.nodes[i].role == Leader
    ensures ValidNode(s.nodes[i]) && s.nodes[i].id == i && s.nodes[i].term in h.reigns
    ensures h' == Grown(h, s.nodes[i], b.log.entries) && Extends(h, h') && Augmented(s.nodes[i], b, h')
    ensures b.prs == s.nodes[i].prs[i := Progress(|b.log.entries| + 1, |b.log.entries|)]
    ensures b.term == s.nodes[i].term && AppendEntries(s.nodes[i], [e]) == CommitAlone(BcastAppend(b))
  {
    NodeFacts(s, h, i);
    LeaderFacts(s, h, i);
    assert Satisfies(s, h, Acknowledging);
    b, h' := ProposedNode(s, h, s.nodes[i], e);
  }

  lemma ProposedAugments(s: State, h: History, i: NodeId, e: Entry) returns (b: Node, h': History)
    requires Inv(s, h) && CommitInv(s, h) && i in s.nodes && Fits(s, i) && s.nodes[i].role == Leader
    ensures s.nodes[i].term in h.reigns && h' == Grown(h, s.nodes[i], b.log.entries)
    ensures Extends(h, h') && Augmented(s.nodes[i], b, h') && MatchesOk(h', b)
    ensures AppendEntries(s.nodes[i], [e]) == CommitAlone(BcastAppend(b))
  {
    b, h' := ProposedParts(s, h, i, e);
    KnownMatches(s, h, i);
    ProposedMatches(h, s.nodes[i], b, h');
  }

  lemma ProposeCommit(s: State, h: History, i: NodeId, e: Entry)
    requires Inv(s, h) && CommitInv(s, h) && i in s.nodes && Fits(s, i) && s.nodes[i].role == Leader
    requires s.nodes[i].term in h.reigns
    ensures var n' := AppendEntries(s.nodes[i], [e]);
      && CommitInv(Install(s, i, n'), Grown(h, s.nodes[i], n'.log.entries))
      && CommitGrows(s.nodes[i], n')
  {
    Open(s, h);
    var b, h' := ProposedAugments(s, h, i, e);
    OfficeCommit(s, h, i, b, h');
  }

  lemma ProposedMatches(h: History, n: Node, b: Node, h': History)
    requires MatchesOk(h, n) && n.role == Leader && n.term in h.reigns
    requires h' == Grown(h, n, b.log.entries) && Extends(h, h')
    requires b.term == n.term && b.prs.Keys == n.prs.Keys && n.id in n.prs
    requires forall p :: p in n.prs && p != n.id ==> b.prs[p] == n.prs[p]
    requires b.prs[n.id].matched == |b.log.entries|
    ensures MatchesOk(h', b)
  {
    forall p | p in b.prs
      ensures MatchOk(h', b, p)
    {
      assert MatchOk(h, n, p);
    }
  }

  // ----- Accepting an append -----

  lemma PrefixThrough(es: seq<Entry>, c: nat, mid: seq<Entry>, top: seq<Entry>)
    requires c <= |es| && es[..c] <= mid && mid <= top
    ensures es[..c] <= top
  {
  }

  /** What is settled survives an accepted append: it was chosen in an earlier
      term and so begins the leader's log, or it is part of the leader's own
      entries. */
  lemma SettledSurvives(s: State, h: History, n: Node, c: nat, es': seq<Entry>)
    requires Addressed(s) && Electoral(s, h) && ReignLogs(h) && Quorums(h)
    requires NodeLogOk(h, n) && n.term in h.reigns
    requires Settled(s.nodes.Keys, h, n.term, c, n.log.entries)
    requires es' <= h.reigns[n.term].log && |h.reigns[n.term].base| < |es'|
    requires n.log.entries <= h.reigns[n.term].log ==> n.log.entries <= es'
    ensures c <= |n.log.entries| && n.log.entries[..c] <= es'
  {
    if c > 0 {
      var es, all := n.log.entries, s.nodes.Keys;
      var t: Term, k: nat :| t <= n.term && ChosenAt(all, h, c, es, t, k);
      assert ReignLog(h, n.term);
      if t < n.term {
        ChosenIsInherited(s, h, t, k, n.term);
        PrefixThrough(es, c, h.reigns[t].log[..k], h.reigns[n.term].base);
        assert es[..c] <= h.reigns[n.term].base <= es';
      } else if c <= |h.reigns[t].base| {
        assert es[..c] <= h.reigns[t].log;
        assert es[..c] == h.reigns[t].log[..c] == es'[..c];
      } else {
        assert es[c - 1] == es[..c][c - 1] == h.reigns[t].log[c - 1];
        TailIsLeaders(h, es, t, c);
        assert es[..c] <= es <= es';
      }
    }
  }

  /** The follower's commit update. */
  lemma FollowerSettled(s: State, h: History, n: Node, m: Message, l: LogState, h': History)
    requires Addressed(s) && Electoral(s, h) && ReignLogs(h) && Quorums(h) && Extends(h, h')
    requires NodeLogOk(h, n) && CommitOk(s.nodes.Keys, h, n)
    requires m.body.Append? && m.term == n.term && n.term in h.reigns && CarriesOk(s.nodes.Keys, h, m)
    requires l.committed == n.log.committed
    requires l.entries <= h.reigns[n.term].log
    requires |h.reigns[n.term].base| < m.body.index + |m.body.entries| <= |l.entries|
    requires n.log.entries <= h.reigns[n.term].log ==> n.log.entries <= l.entries
    ensures var l' := CommitUpTo(l, m.body);
      && n.log.committed <= |n.log.entries|
      && n.log.committed <= l'.committed
      && n.log.entries[..n.log.committed] <= l.entries
      && Settled(s.nodes.Keys, h', n.term, l'.committed, l.entries)
  {
    var all, c, log := s.nodes.Keys, n.log.committed, h.reigns[n.term].log;
    SettledSurvives(s, h, n, c, l.entries);
    if m.body.commit > c {
      assert CommitUpTo(l, m.body).committed == m.body.commit;
      SettledStays(all, h, h', n.term, n.term, m.body.commit, log, l.entries);
    } else {
      SettledStays(all, h, h', n.term, n.term, c, n.log.entries, l.entries);
    }
  }

  lemma AcceptCommit(s: State, h: History, i: NodeId, m: Message, h': History)
    requires Inv(s, h) && CommitInv(s, h) && i in s.nodes && Fits(s, i)
    requires m in s.net && m.to == i && m.body.Append?
    requires m.term == s.nodes[i].term && s.nodes[i].role == Follower
    requires m.body.index <= |Log(s, i)| && TermAt(Log(s, i), m.body.index) == m.body.logTerm
    requires Extends(h, h')
    ensures CommitInv(Install(s, i, Accept(s.nodes[i].(lead := m.from), m)), h')
    ensures CommitGrows(s.nodes[i], Accept(s.nodes[i].(lead := m.from), m))
  {
    AcceptSettles(s, h, i, m, h');
    assert Satisfies(s, h, Elections);
    InstallCommit(s, h, i, Accept(s.nodes[i].(lead := m.from), m), h');
  }

  lemma AcceptSettles(s: State, h: History, i: NodeId, m: Message, h': History)
    requires Inv(s, h) && CommitInv(s, h) && i in s.nodes && Fits(s, i)
    requires m in s.net && m.to == i && m.body.Append?
    requires m.term == s.nodes[i].term && s.nodes[i].role == Follower
    requires m.body.index <= |Log(s, i)| && TermAt(Log(s, i), m.body.index) == m.body.logTerm
    requires Extends(h, h')
    ensures var n' := Accept(s.nodes[i].(lead := m.from), m);
      && CommitOk(s.nodes.Keys, h', n') && CarriesAll(s.nodes.Keys, h', n'.msgs)
      && CommitGrows(s.nodes[i], n')
  {
    var l := AcceptFollows(s, h, i, m, h');
    AcceptForm(s.nodes[i].(lead := m.from), m, l);
  }

  lemma AcceptForm(n: Node, m: Message, l: LogState)
    requires ValidNode(n) && m.body.Append? && n.msgs == [] && l == Absorb(n.log, m.body.entries, 0, 0)
    ensures var n' := Accept(n, m);
      && n'.log == CommitUpTo(l, m.body) && n'.log.entries == l.entries
      && n'.term == n.term && n'.role == n.role
      && forall x :: x in n'.msgs ==> !x.body.Append?
  {
  }

  lemma AcceptFollows(s: State, h: History, i: NodeId, m: Message, h': History) returns (l: LogState)
    requires Inv(s, h) && CommitInv(s, h) && i in s.nodes && Fits(s, i)
    requires m in s.net && m.to == i && m.body.Append?
    requires m.term == s.nodes[i].term
    requires m.body.index <= |Log(s, i)| && TermAt(Log(s, i), m.body.index) == m.body.logTerm
    requires Extends(h, h')
    ensures ValidNode(s.nodes[i]) && s.nodes[i].msgs == []
    ensures var n := s.nodes[i]; var l' := CommitUpTo(l, m.body);
      && l == Absorb(n.log, m.body.entries, 0, 0)
      && n.log.committed <= |n.log.entries| && n.log.committed <= l'.committed
      && n.log.entries[..n.log.committed] <= l.entries
      && Settled(s.nodes.Keys, h', n.term, l'.committed, l.entries)
  {
    Open(s, h);
    var n := s.nodes[i];
    NodeFacts(s, h, i);
    assert AppendOk(h, m) && CarriesOk(s.nodes.Keys, h, m) && CommitOk(s.nodes.Keys, h, n);
    AcceptedLog(h, n, m);
    l := Absorb(n.log, m.body.entries, 0, 0);
    FollowerSettled(s, h, n, m, l, h');
  }

  // ----- The leader's commit rule -----

  lemma OwnEntry(h: History, t: Term, c: nat)
    requires ReignLogs(h) && t in h.reigns && 1 <= c <= |h.reigns[t].log|
    requires h.reigns[t].log[c - 1].term == t
    ensures |h.reigns[t].base| < c
  {
    ReignCovered(h, t, c - 1);
  }

  /** `LeaderCommit` only commits what is chosen in its own term. */
  lemma CandidateChosen(h: History, n: Node, c: nat)
    requires ReignLogs(h) && ValidNode(n) && Leads(h, n) && MatchesOk(h, n)
    requires 2 * |Reached(n.prs, c)| >= |n.prs.Keys| && TermAt(n.log.entries, c) == n.term
    ensures ChosenAt(n.prs.Keys, h, c, n.log.entries, n.term, c)
  {
    assert n.term >= 1;
    OwnEntry(h, n.term, c);
    var a := Acceptors(n.prs.Keys, h, n.term, c);
    forall p | p in Reached(n.prs, c)
      ensures p in a
    {
      assert MatchOk(h, n, p);
    }
    SubsetSize(Reached(n.prs, c), a);
  }

  lemma LeaderCommitSettled(h: History, n: Node, relaxed: bool)
    requires ReignLogs(h) && ValidNode(n) && NodeShape(n) && Leads(h, n) && ProgressOk(n)
    requires MatchesOk(h, n) && n.msgs == []
    requires Settled(n.prs.Keys, h, n.term, n.log.committed, n.log.entries)
    ensures var r := LeaderCommit(n, relaxed);
      && CommitOk(n.prs.Keys, h, r) && CarriesAll(n.prs.Keys, h, r.msgs)
      && r == n.(msgs := r.msgs, log := n.log.(committed := r.log.committed))
      && n.log.committed <= r.log.committed
  {
    var c, r := CommitCandidate(n, relaxed), LeaderCommit(n, relaxed);
    Lookups(n);
    if c > n.log.committed && TermOf(n.log, c) == n.term {
      CommitCandidateReached(n, relaxed);
      DistinctSize(n.peers);
      assert n.prs.Keys == Members(n.peers);
      CandidateChosen(h, n, c);
      var b := n.(log := n.log.(committed := c));
      BroadcastCarries(n.prs.Keys, h, b);
      SameMatchesOk(h, n, r);
    }
  }
}
