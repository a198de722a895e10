/** Every event of a cluster keeps the invariants. */
module Steps {
  import opened RaftTypes
  import opened LogSpec
  import opened NodeSpec
  import opened Cluster
  import opened History
  import opened HistoryFacts
  import opened Actions
  import opened Reigns
  import opened Commits
  import opened CommitMoves
  import opened Outcomes

  // ----- The leader -----

  /** The leader with other `next` indices, in range. */
  predicate Adjusted(n: Node, x: Node) {
    && x == n.(prs := x.prs, transferee := x.transferee)
    && ValidNode(x) && ProgressOk(x) && SameMatched(n, x)
  }

  lemma SendCommit(s: State, h: History, i: NodeId, x: Node, p: NodeId)
    requires Inv(s, h) && i in s.nodes && Fits(s, i) && Adjusted(s.nodes[i], x)
    requires NodeShape(x) && Leads(h, x) && p in x.prs && p != i
    ensures CommitOutcome(s, h, i, SendAppend(x, p), h)
  {
    if CommitInv(s, h) {
      CommitWithin(s, h, i);
      LeaderCarries(s.nodes.Keys, h, x, p);
      assert SendAppend(x, p).msgs == [AppendTo(x, p)];
      QuietCommit(s, h, i, SendAppend(x, p));
    }
  }

  lemma SendInv(s: State, h: History, i: NodeId, x: Node, p: NodeId)
    requires Inv(s, h) && i in s.nodes && Fits(s, i) && Adjusted(s.nodes[i], x)
    requires NodeShape(x) && Leads(h, x) && Acquainted(s, x) && p in s.nodes && p in x.prs && p != i
    ensures Inv(Install(s, i, SendAppend(x, p)), h)
  {
    AppendIsPlain(h, x, p);
    var n' := SendAppend(x, p);
    assert n'.msgs == [AppendTo(x, p)];
    QuietKeepsInv(s, h, i, n');
  }

  lemma AdjustedFacts(s: State, h: History, i: NodeId, x: Node)
    requires Inv(s, h) && i in s.nodes && s.nodes[i].role == Leader && Adjusted(s.nodes[i], x)
    ensures Fits(s, i) && NodeShape(x) && Leads(h, x) && Acquainted(s, x)
  {
    NodeFacts(s, h, i);
    LeaderFacts(s, h, i);
  }

  lemma SendOutcome(s: State, h: History, i: NodeId, x: Node, p: NodeId)
    requires Inv(s, h) && i in s.nodes && s.nodes[i].role == Leader && Adjusted(s.nodes[i], x)
    requires p in s.nodes && p != i && p in x.prs
    ensures Outcome(s, h, i, SendAppend(x, p), h)
  {
    AdjustedFacts(s, h, i, x);
    SendInv(s, h, i, x, p);
    SendCommit(s, h, i, x, p);
  }

  // ----- Backing off after a rejection -----

  lemma LastAboveTop(es: seq<Entry>, t: Term)
    requires es != [] && es[|es| - 1].term > t
    ensures LastAbove(es, |es|, t) == |es| - 1
  {
  }

  /** The conflict search of the leader always finds an entry, and the index it
      resumes from lies in its log. */
  lemma BackOffInRange(h: History, n: Node, m: Message)
    requires NodeShape(n) && Leads(h, n) && m.body.AppendResponse? && m.body.reject
    requires ReplyOk(h, m) && m.term == n.term && m.body.index != NONE
    ensures 1 <= BackOff(n, m.body) <= |n.log.entries|
    ensures m.body.logTerm != NONE ==>
      exists k :: 0 <= k < |n.log.entries| && n.log.entries[k].term > m.body.logTerm
  {
    var es := n.log.entries;
    assert es[|es| - 1].term == n.term;
    LastAboveTop(es, m.body.logTerm);
  }

  lemma RejectSends(s: State, h: History, i: NodeId, m: Message)
    requires Inv(s, h) && i in s.nodes && s.nodes[i].role == Leader
    requires m in s.net && m.to == i && m.term == s.nodes[i].term && m.from in s.nodes[i].prs
    requires m.body.AppendResponse? && m.body.reject && m.body.index != NONE
    ensures ValidNode(s.nodes[i])
    ensures var x := SetNext(s.nodes[i], m.from, BackOff(s.nodes[i], m.body));
      Adjusted(s.nodes[i], x) && m.from in s.nodes && m.from != i && m.from in x.prs
  {
    NodeFacts(s, h, i);
    LeaderFacts(s, h, i);
    MessageFacts(s, h, m);
    BackOffInRange(h, s.nodes[i], m);
  }

  lemma RejectOutcome(s: State, h: History, i: NodeId, m: Message, relaxed: bool)
    requires Inv(s, h) && i in s.nodes && Fits(s, i) && s.nodes[i].role == Leader
    requires m in s.net && m.to == i && m.term == s.nodes[i].term && m.from in s.nodes[i].prs
    requires m.body.AppendResponse? && m.body.reject
    ensures Outcome(s, h, i, HandleAppendEntriesResponse(s.nodes[i], m, relaxed), h)
  {
    if m.body.index == NONE {
      SilentOutcome(s, h, i);
    } else {
      RejectSends(s, h, i, m);
      SendOutcome(s, h, i, SetNext(s.nodes[i], m.from, BackOff(s.nodes[i], m.body)), m.from);
    }
  }

  // ----- Counting an acknowledgement -----

  lemma AckProgress(s: State, h: History, i: NodeId, m: Message) returns (x: Node)
    requires Inv(s, h) && i in s.nodes && Fits(s, i) && s.nodes[i].role == Leader
    requires m in s.net && m.to == i && m.term == s.nodes[i].term && m.from in s.nodes[i].prs
    requires m.body.AppendResponse? && !m.body.reject
    ensures x == SetMatch(s.nodes[i], m.from, m.body.index)
    ensures ValidNode(x) && NodeShape(x) && ProgressOk(x) && Leads(h, x)
    ensures Ack(m.from, m.term) in h.acked && m.body.index <= h.acked[Ack(m.from, m.term)]
  {
    Open(s, h);
    NodeFacts(s, h, i);
    LeaderFacts(s, h, i);
    assert ReplyOk(h, m);
    assert AckOk(s, h, Ack(m.from, m.term));
    x := SetMatch(s.nodes[i], m.from, m.body.index);
  }

  lemma AckMatches(h: History, n: Node, m: Message)
    requires ValidNode(n) && n.role == Leader && m.from in n.prs && m.body.AppendResponse?
    requires MatchesOk(h, n) && m.term == n.term && n.term in h.reigns
    requires Ack(m.from, m.term) in h.acked && m.body.index <= h.acked[Ack(m.from, m.term)]
    ensures MatchesOk(h, SetMatch(n, m.from, m.body.index))
  {
    var x := SetMatch(n, m.from, m.body.index);
    forall p | p in x.prs
      ensures MatchOk(h, x, p)
    {
      assert MatchOk(h, n, p);
    }
  }

  /** The node after counting an acknowledgement: `r` is what `LeaderCommit`
      leaves, and a transfer target that has caught up is told to run. */
  predicate Counted(r: Node, n': Node, to: NodeId) {
    || n' == r
    || n' == TimeoutNowTo(r, to).(transferee := NONE)
  }

  lemma CountedPlain(s: State, h: History, x: Node, r: Node, n': Node, to: NodeId, relaxed: bool)
    requires ValidNode(x) && NodeShape(x) && ProgressOk(x) && Leads(h, x) && x.msgs == []
    requires x.id in s.nodes && to in s.nodes && forall p :: p in x.peers ==> p in s.nodes
    requires r == LeaderCommit(x, relaxed) && Counted(r, n', to)
    ensures Delivers(s, n') && forall m :: m in n'.msgs ==> Plain(h, m)
  {
    var b := x.(log := x.log.(committed := CommitCandidate(x, relaxed)));
    BroadcastIsPlain(s, h, b);
    forall m | m in n'.msgs
      ensures Plain(h, m) && m.from in s.nodes && m.to in s.nodes
    {
      if m !in r.msgs {
        assert m == Message(x.id, to, NONE, TimeoutNow);
      }
    }
  }

  lemma CountedInv(s: State, h: History, i: NodeId, x: Node, r: Node, n': Node, to: NodeId, relaxed: bool)
    requires Inv(s, h) && i in s.nodes && Fits(s, i) && to in s.nodes
    requires SameStanding(s.nodes[i], x) && x.lead == s.nodes[i].lead && x.msgs == []
    requires ValidNode(x) && NodeShape(x) && ProgressOk(x) && Leads(h, x)
    requires r == LeaderCommit(x, relaxed) && Counted(r, n', to)
    ensures Inv(Install(s, i, n'), h)
  {
    NodeFacts(s, h, i);
    CountedPlain(s, h, x, r, n', to, relaxed);
    CountedLog(x, r, n', to, relaxed);
    QuietKeepsInv(s, h, i, n');
  }

  lemma CountedCommit(s: State, h: History, i: NodeId, x: Node, r: Node, n': Node, to: NodeId, relaxed: bool)
    requires WellFormed(s) && Electoral(s, h) && ReignLogs(h) && CommitInv(s, h)
    requires i in s.nodes && Fits(s, i) && x == s.nodes[i].(prs := x.prs)
    requires ValidNode(x) && NodeShape(x) && ProgressOk(x) && Leads(h, x) && MatchesOk(h, x)
    requires r == LeaderCommit(x, relaxed) && Counted(r, n', to)
    ensures CommitInv(Install(s, i, n'), h) && CommitGrows(s.nodes[i], n')
  {
    CommitWithin(s, h, i);
    assert x.prs.Keys == s.nodes.Keys;
    LeaderCommitSettled(h, x, relaxed);
    assert CarriesAll(s.nodes.Keys, h, n'.msgs);
    SameMatchesOk(h, r, n');
    InstallCommit(s, h, i, n', h);
    CountedGrows(x, r, n', to, relaxed);
  }

  lemma CountedGrows(x: Node, r: Node, n': Node, to: NodeId, relaxed: bool)
    requires ValidNode(x) && r == LeaderCommit(x, relaxed) && Counted(r, n', to)
    requires x.log.committed <= |x.log.entries|
    ensures CommitGrows(x, n')
  {
  }

  lemma CountedLog(x: Node, r: Node, n': Node, to: NodeId, relaxed: bool)
    requires ValidNode(x) && r == LeaderCommit(x, relaxed) && Counted(r, n', to)
    ensures n' == x.(log := x.log.(committed := n'.log.committed), msgs := n'.msgs, transferee := n'.transferee)
  {
  }

  lemma AckCommit(s: State, h: History, i: NodeId, m: Message, x: Node, n': Node, relaxed: bool)
    requires Inv(s, h) && i in s.nodes && Fits(s, i) && s.nodes[i].role == Leader
    requires m.term == s.nodes[i].term && m.from in s.nodes[i].prs && m.body.AppendResponse?
    requires x == SetMatch(s.nodes[i], m.from, m.body.index)
    requires ValidNode(x) && NodeShape(x) && ProgressOk(x) && Leads(h, x)
    requires Ack(m.from, m.term) in h.acked && m.body.index <= h.acked[Ack(m.from, m.term)]
    requires Counted(LeaderCommit(x, relaxed), n', m.from)
    ensures CommitOutcome(s, h, i, n', h)
  {
    Open(s, h);
    if CommitInv(s, h) {
      KnownMatches(s, h, i);
      AckMatches(h, s.nodes[i], m);
      CountedCommit(s, h, i, x, LeaderCommit(x, relaxed), n', m.from, relaxed);
    }
  }

  lemma ResponseIsCounted(n: Node, m: Message, relaxed: bool)
    requires ValidNode(n) && m.body.AppendResponse? && m.from in n.prs && !m.body.reject
    requires m.term == n.term && m.body.index > n.prs[m.from].matched
    ensures Counted(LeaderCommit(SetMatch(n, m.from, m.body.index), relaxed),
                    HandleAppendEntriesResponse(n, m, relaxed), m.from)
  {
  }

  lemma CountedOutcome(s: State, h: History, i: NodeId, m: Message, x: Node, n': Node, relaxed: bool)
    requires Inv(s, h) && i in s.nodes && Fits(s, i) && s.nodes[i].role == Leader
    requires m.term == s.nodes[i].term && m.from in s.nodes && m.from in s.nodes[i].prs
    requires m.body.AppendResponse? && x == SetMatch(s.nodes[i], m.from, m.body.index)
    requires ValidNode(x) && NodeShape(x) && ProgressOk(x) && Leads(h, x)
    requires Ack(m.from, m.term) in h.acked && m.body.index <= h.acked[Ack(m.from, m.term)]
    requires Counted(LeaderCommit(x, relaxed), n', m.from)
    ensures Outcome(s, h, i, n', h)
  {
    CountedInv(s, h, i, x, LeaderCommit(x, relaxed), n', m.from, relaxed);
    CountedStorage(s.nodes[i], x, LeaderCommit(x, relaxed), n', m.from, relaxed);
    AckCommit(s, h, i, m, x, n', relaxed);
  }

  lemma CountedStorage(n: Node, x: Node, r: Node, n': Node, to: NodeId, relaxed: bool)
    requires ValidNode(x) && x == n.(prs := x.prs) && r == LeaderCommit(x, relaxed) && Counted(r, n', to)
    ensures LogOutcome(n, n')
  {
    CountedLog(x, r, n', to, relaxed);
  }

  lemma FreshAckOutcome(s: State, h: History, i: NodeId, m: Message, relaxed: bool)
    requires Inv(s, h) && i in s.nodes && Fits(s, i) && s.nodes[i].role == Leader
    requires m in s.net && m.to == i && m.term == s.nodes[i].term && m.from in s.nodes[i].prs
    requires m.body.AppendResponse? && !m.body.reject && m.body.index > s.nodes[i].prs[m.from].matched
    ensures Outcome(s, h, i, HandleAppendEntriesResponse(s.nodes[i], m, relaxed), h)
  {
    MessageFacts(s, h, m);
    var x := AckProgress(s, h, i, m);
    ResponseIsCounted(s.nodes[i], m, relaxed);
    CountedOutcome(s, h, i, m, x, HandleAppendEntriesResponse(s.nodes[i], m, relaxed), relaxed);
  }

  lemma AckOutcome(s: State, h: History, i: NodeId, m: Message, relaxed: bool)
    requires Inv(s, h) && i in s.nodes && Fits(s, i) && s.nodes[i].role == Leader
    requires m in s.net && m.to == i && m.term == s.nodes[i].term && m.from in s.nodes[i].prs
    requires m.body.AppendResponse? && !m.body.reject
    ensures Outcome(s, h, i, HandleAppendEntriesResponse(s.nodes[i], m, relaxed), h)
  {
    if m.body.index <= s.nodes[i].prs[m.from].matched {
      SilentOutcome(s, h, i);
    } else {
      FreshAckOutcome(s, h, i, m, relaxed);
    }
  }

  lemma ResponseOutcome(s: State, h: History, i: NodeId, m: Message, relaxed: bool)
    requires Inv(s, h) && i in s.nodes && Fits(s, i) && s.nodes[i].role == Leader
    requires m in s.net && m.to == i && m.term <= s.nodes[i].term && m.from in s.nodes[i].prs
    requires m.body.AppendResponse?
    ensures Outcome(s, h, i, HandleAppendEntriesResponse(s.nodes[i], m, relaxed), h)
  {
    Open(s, h);
    assert MessageShape(m);
    if m.term < s.nodes[i].term {
      SilentOutcome(s, h, i);
    } else if m.body.reject {
      RejectOutcome(s, h, i, m, relaxed);
    } else {
      AckOutcome(s, h, i, m, relaxed);
    }
  }

  lemma TransferOutcome(s: State, h: History, i: NodeId, m: Message)
    requires Inv(s, h) && i in s.nodes && Fits(s, i) && s.nodes[i].role == Leader
    requires m.from in s.nodes[i].prs
    ensures Outcome(s, h, i, HandleTransferLeader(s.nodes[i], m), h)
  {
    var n := s.nodes[i];
    NodeFacts(s, h, i);
    if m.from == n.id || (n.transferee != NONE && n.transferee == m.from) {
      SilentOutcome(s, h, i);
    } else {
      var t := n.(transferee := m.from);
      if t.prs[m.from].matched == LastIndex(t.log) {
        TimeoutNowOutcome(s, h, i, t, m.from);
      } else {
        SendOutcome(s, h, i, t, m.from);
      }
    }
  }

  // ----- The receiver of an append -----

  /** A rejection that names a conflicting term names one below the leader's
      own. */
  lemma ConflictReply(h: History, n: Node, m: Message)
    requires ReignLogs(h) && ValidNode(n) && NodeShape(n) && NodeLogOk(h, n)
    requires m.body.Append? && AppendOk(h, m) && m.term == n.term && m.to == n.id
    requires m.body.index <= |n.log.entries| && Conflicts(n, m.body)
    ensures var t := TermOf(n.log, m.body.index);
      var k := LastWithTerm(n.log.entries, Min(Sub64(m.body.index + 1, n.log.first), |n.log.entries|), t);
      && t == TermAt(n.log.entries, m.body.index) && k == m.body.index - 1
      && ReplyOk(h, Message(n.id, m.from, n.term, AppendResponse(true, t, k)))
  {
    Lookups(n);
    var es, b := n.log.entries, m.body;
    Covered(h, es, b.index - 1);
  }

  lemma ConflictOutcome(s: State, h: History, i: NodeId, m: Message)
    requires Inv(s, h) && i in s.nodes && Fits(s, i) && m in s.net && m.to == i && m.body.Append?
    requires m.term == s.nodes[i].term && m.body.index <= |Log(s, i)|
    requires Conflicts(s.nodes[i].(lead := m.from), m.body)
    ensures Outcome(s, h, i, HandleAppendEntries(s.nodes[i], m), h)
  {
    var n := s.nodes[i];
    NodeFacts(s, h, i);
    MessageFacts(s, h, m);
    assert Satisfies(s, h, Logs);
    Lookups(n);
    ConflictReply(h, n, m);
    var t := TermOf(n.log, m.body.index);
    ReplyOutcome(s, h, i, m, n.(lead := m.from), AppendResponse(true, t, m.body.index - 1));
  }

  lemma TooFarOutcome(s: State, h: History, i: NodeId, m: Message)
    requires Inv(s, h) && i in s.nodes && Fits(s, i) && m in s.net && m.to == i && m.body.Append?
    requires m.term == s.nodes[i].term && m.body.index > |Log(s, i)|
    ensures Outcome(s, h, i, HandleAppendEntries(s.nodes[i], m), h)
  {
    NodeFacts(s, h, i);
    MessageFacts(s, h, m);
    Lookups(s.nodes[i]);
    ReplyOutcome(s, h, i, m, s.nodes[i].(lead := m.from), AppendResponse(true, NONE, |Log(s, i)| + 1));
  }

  lemma HandleAppendOutcome(s: State, h: History, i: NodeId, m: Message) returns (h': History)
    requires Inv(s, h) && i in s.nodes && Fits(s, i) && m in s.net && m.to == i && m.body.Append?
    requires m.term <= s.nodes[i].term && (m.term == s.nodes[i].term ==> s.nodes[i].role == Follower)
    ensures Outcome(s, h, i, HandleAppendEntries(s.nodes[i], m), h')
  {
    var n := s.nodes[i];
    h' := h;
    NodeFacts(s, h, i);
    MessageFacts(s, h, m);
    Lookups(n);
    if m.term < n.term {
      ReplyOutcome(s, h, i, m, n, AppendResponse(true, NONE, NONE));
    } else if m.body.index > |n.log.entries| {
      TooFarOutcome(s, h, i, m);
    } else if Conflicts(n.(lead := m.from), m.body) {
      ConflictOutcome(s, h, i, m);
    } else {
      h' := AcceptOutcome(s, h, i, m);
    }
  }

  // ----- Votes and elections -----

  lemma VoteOutcome(s: State, h: History, i: NodeId, m: Message)
    requires Inv(s, h) && i in s.nodes && Fits(s, i) && m in s.net && m.to == i && m.body.RequestVote?
    requires m.term <= s.nodes[i].term
    ensures Outcome(s, h, i, HandleRequestVote(s.nodes[i], m), h)
  {
    MessageFacts(s, h, m);
    if Grants(s.nodes[i], m) {
      GrantOutcome(s, h, i, m);
    } else {
      ReplyOutcome(s, h, i, m, s.nodes[i], RequestVoteResponse(true));
    }
  }

  lemma HeartbeatOutcome(s: State, h: History, i: NodeId, m: Message)
    requires Inv(s, h) && i in s.nodes && m in s.net && m.to == i && m.body.Heartbeat?
    requires m.term <= s.nodes[i].term
    ensures Outcome(s, h, i, HandleHeartbeat(s.nodes[i], m), h)
  {
    MessageFacts(s, h, m);
    if m.term < s.nodes[i].term {
      ReplyOutcome(s, h, i, m, s.nodes[i], HeartbeatResponse(true));
    } else {
      ReplyOutcome(s, h, i, m, s.nodes[i].(lead := m.from), HeartbeatResponse(false));
    }
  }

  lemma InstalledNode(s: State, h: History, i: NodeId, a: Node)
    requires i in s.nodes && Inv(Install(s, i, a), h) && a.msgs == []
    ensures var s1 := Install(s, i, a);
      i in s1.nodes && s1.nodes[i] == a && Fits(s1, i) && s1.peers == s.peers && s1.net == s.net
  {
    NodeFacts(Install(s, i, a), h, i);
  }

  lemma WinAfter(s: State, h: History, i: NodeId, c: Node) returns (h': History)
    requires i in s.nodes && Outcome(s, h, i, c, h) && Passing(s.nodes[i], c) && c.role == Candidate
    requires Wins(c.votes, |s.peers|)
    ensures ValidNode(c) && Outcome(s, h, i, BecomeLeader(c), h')
  {
    InstalledNode(s, h, i, c);
    h' := WinOutcome(Install(s, i, c), h, i);
    Compose(s, h, i, c, BecomeLeader(c), h');
  }

  lemma TallyOutcome(s: State, h: History, i: NodeId, m: Message) returns (h': History)
    requires Inv(s, h) && i in s.nodes && Fits(s, i) && s.nodes[i].role == Candidate
    requires m in s.net && m.to == i && m.term <= s.nodes[i].term && m.body.RequestVoteResponse?
    ensures Outcome(s, h, i, HandleRequestVoteResponse(s.nodes[i], m), h')
  {
    var n := s.nodes[i];
    h' := h;
    MessageFacts(s, h, m);
    if m.term < n.term {
      SilentOutcome(s, h, i);
    } else {
      var c := n.(votes := n.votes[m.from := !m.body.reject]);
      CountOutcome(s, h, i, m);
      if Wins(c.votes, |c.peers|) {
        h' := WinAfter(s, h, i, c);
      } else if Loses(c.votes, |c.peers|) {
        InstalledNode(s, h, i, c);
        StepDownOutcome(Install(s, i, c), h, i, NONE);
        Compose(s, h, i, c, BecomeFollower(c, c.term, NONE), h);
      }
    }
  }

  lemma LoneCampaign(s: State, h: History, i: NodeId) returns (h': History)
    requires Inv(s, h) && i in s.nodes && Fits(s, i) && s.nodes[i].role != Leader && |s.peers| == 1
    ensures Outcome(s, h, i, DoElection(s.nodes[i]), h')
  {
    var c := BecomeCandidate(s.nodes[i]);
    CampaignOutcome(s, h, i, c);
    assert Granted(c.votes) == {i};
    h' := WinAfter(s, h, i, c);
  }

  lemma ElectionOutcome(s: State, h: History, i: NodeId) returns (h': History)
    requires Inv(s, h) && i in s.nodes && Fits(s, i) && s.nodes[i].role != Leader
    ensures Outcome(s, h, i, DoElection(s.nodes[i]), h')
  {
    if |s.peers| == 1 {
      h' := LoneCampaign(s, h, i);
    } else {
      h' := h;
      var n' := DoElection(s.nodes[i]);
      NodeFacts(s, h, i);
      Lookups(s.nodes[i]);
      var c := BecomeCandidate(s.nodes[i]);
      var body := RequestVote(LastTerm(c.log.entries), |c.log.entries|);
      assert n'.msgs == ToOthers(c, c.peers, body);
      forall m | m in n'.msgs
        ensures RequestFrom(n', m) && m.from in s.nodes && m.to in s.nodes
      {
        OthersReached(c, c.peers, body, m);
      }
      CampaignOutcome(s, h, i, n');
    }
  }

  // ----- Dispatch -----

  /** The message is one on the network, or a local one without a term. */
  predicate Input(s: State, i: NodeId, m: Message) {
    || (m in s.net && m.to == i)
    || (m.term == NONE && ((IsLocal(m.body) && (m.body.Propose? ==> |m.body.proposal| == 1))
                           || (m.body.TransferLeader? && m.from in s.nodes)))
  }

  lemma InputTransfer(s: State, h: History, i: NodeId, m: Message)
    requires Inv(s, h) && Input(s, i, m)
    ensures IsLocal(m.body) || (m.from in s.nodes)
    ensures IsLocal(m.body) || m.body.TransferLeader? || (m in s.net && m.to == i)
    ensures m.body.TransferLeader? ==> m.term == NONE
    ensures m.body.Propose? ==> |m.body.proposal| == 1
  {
    if m in s.net {
      MessageFacts(s, h, m);
    }
  }

  lemma FollowerStep(s: State, h: History, i: NodeId, m: Message) returns (h': History)
    requires Inv(s, h) && i in s.nodes && Fits(s, i) && s.nodes[i].role == Follower
    requires Input(s, i, m) && m.term <= s.nodes[i].term
    ensures Outcome(s, h, i, StepFollower(s.nodes[i], m), h')
  {
    h' := h;
    InputTransfer(s, h, i, m);
    match m.body
    case Hup => h' := ElectionOutcome(s, h, i);
    case TimeoutNow => h' := ElectionOutcome(s, h, i);
    case Append(_, _, _, _) => h' := HandleAppendOutcome(s, h, i, m);
    case RequestVote(_, _) => VoteOutcome(s, h, i, m);
    case Heartbeat => HeartbeatOutcome(s, h, i, m);
    case TransferLeader => ForwardOutcome(s, h, i, m);
    case _ => SilentOutcome(s, h, i);
  }

  /** A candidate that meets the leader of its term steps down first. */
  lemma YieldingStep(s: State, h: History, i: NodeId, m: Message) returns (h': History)
    requires Inv(s, h) && i in s.nodes && Fits(s, i) && s.nodes[i].role == Candidate
    requires m in s.net && m.to == i && m.term == s.nodes[i].term && (m.body.Append? || m.body.Heartbeat?)
    ensures Outcome(s, h, i, StepCandidate(s.nodes[i], m), h')
  {
    var n := s.nodes[i];
    MessageFacts(s, h, m);
    var f := BecomeFollower(n, n.term, m.from);
    StepDownOutcome(s, h, i, m.from);
    NodeFacts(s, h, i);
    InstalledNode(s, h, i, f);
    if m.body.Append? {
      h' := HandleAppendOutcome(Install(s, i, f), h, i, m);
    } else {
      h' := h;
      HeartbeatOutcome(Install(s, i, f), h, i, m);
    }
    Compose(s, h, i, f, StepCandidate(n, m), h');
  }

  lemma CandidateStep(s: State, h: History, i: NodeId, m: Message) returns (h': History)
    requires Inv(s, h) && i in s.nodes && Fits(s, i) && s.nodes[i].role == Candidate
    requires Input(s, i, m) && m.term <= s.nodes[i].term
    ensures Outcome(s, h, i, StepCandidate(s.nodes[i], m), h')
  {
    h' := h;
    InputTransfer(s, h, i, m);
    if (m.body.Append? || m.body.Heartbeat?) && m.term == s.nodes[i].term {
      h' := YieldingStep(s, h, i, m);
    } else {
      match m.body
      case Hup => h' := ElectionOutcome(s, h, i);
      case Append(_, _, _, _) => h' := HandleAppendOutcome(s, h, i, m);
      case RequestVote(_, _) => VoteOutcome(s, h, i, m);
      case RequestVoteResponse(_) => h' := TallyOutcome(s, h, i, m);
      case Heartbeat => HeartbeatOutcome(s, h, i, m);
      case TransferLeader => ForwardOutcome(s, h, i, m);
      case _ => SilentOutcome(s, h, i);
    }
  }

  /** No append of its own term ever reaches a leader. */
  lemma NoRivalAppend(s: State, h: History, i: NodeId, m: Message)
    requires Inv(s, h) && i in s.nodes && s.nodes[i].role == Leader
    requires m in s.net && m.to == i && m.body.Append?
    ensures m.term != s.nodes[i].term
  {
    NodeFacts(s, h, i);
    MessageFacts(s, h, m);
    LeaderFacts(s, h, i);
  }

  lemma ProposalStep(s: State, h: History, i: NodeId, es: seq<Entry>) returns (h': History)
    requires Inv(s, h) && i in s.nodes && Fits(s, i) && s.nodes[i].role == Leader && |es| == 1
    ensures Outcome(s, h, i, if s.nodes[i].transferee == NONE then AppendEntries(s.nodes[i], es) else s.nodes[i], h')
  {
    h' := h;
    if s.nodes[i].transferee == NONE {
      assert es == [es[0]];
      h' := ProposeOutcome(s, h, i, es[0]);
    } else {
      SilentOutcome(s, h, i);
    }
  }

  lemma HeartbeatAckOutcome(s: State, h: History, i: NodeId, m: Message)
    requires Inv(s, h) && i in s.nodes && Fits(s, i) && s.nodes[i].role == Leader
    requires m in s.net && m.to == i && m.body.HeartbeatResponse? && m.from in s.nodes[i].prs
    ensures Outcome(s, h, i, SendAppend(s.nodes[i], m.from), h)
  {
    MessageFacts(s, h, m);
    NodeFacts(s, h, i);
    SendOutcome(s, h, i, s.nodes[i], m.from);
  }

  lemma LeaderStep(s: State, h: History, i: NodeId, m: Message, relaxed: bool) returns (h': History)
    requires Inv(s, h) && i in s.nodes && Fits(s, i) && s.nodes[i].role == Leader
    requires Input(s, i, m) && m.term <= s.nodes[i].term && FromPeer(s.nodes[i], m)
    ensures Outcome(s, h, i, StepLeader(s.nodes[i], m, relaxed), h')
  {
    h' := h;
    InputTransfer(s, h, i, m);
    match m.body
    case Beat => BeatOutcome(s, h, i);
    case Propose(es) => h' := ProposalStep(s, h, i, es);
    case Append(_, _, _, _) =>
      NoRivalAppend(s, h, i, m);
      h' := HandleAppendOutcome(s, h, i, m);
    case AppendResponse(_, _, _) => ResponseOutcome(s, h, i, m, relaxed);
    case RequestVote(_, _) => VoteOutcome(s, h, i, m);
    case Heartbeat => HeartbeatOutcome(s, h, i, m);
    case HeartbeatResponse(_) => HeartbeatAckOutcome(s, h, i, m);
    case TransferLeader => TransferOutcome(s, h, i, m);
    case _ => SilentOutcome(s, h, i);
  }

  lemma RoleStep(s: State, h: History, i: NodeId, m: Message, relaxed: bool) returns (h': History)
    requires Inv(s, h) && i in s.nodes && Fits(s, i)
    requires Input(s, i, m) && m.term <= s.nodes[i].term && FromPeer(s.nodes[i], m)
    ensures Outcome(s, h, i, Step(s.nodes[i], m, relaxed), h')
  {
    assert Observe(s.nodes[i], m.term) == s.nodes[i];
    match s.nodes[i].role
    case Follower => h' := FollowerStep(s, h, i, m);
    case Candidate => h' := CandidateStep(s, h, i, m);
    case Leader => h' := LeaderStep(s, h, i, m, relaxed);
  }

  /** One call of `Step`, on any input. */
  lemma StepOutcome(s: State, h: History, i: NodeId, m: Message, relaxed: bool) returns (h': History)
    requires Inv(s, h) && i in s.nodes && Fits(s, i) && Input(s, i, m) && FromPeer(s.nodes[i], m)
    ensures Outcome(s, h, i, Step(s.nodes[i], m, relaxed), h')
  {
    var o := Observe(s.nodes[i], m.term);
    ObserveOutcome(s, h, i, m.term);
    NodeFacts(s, h, i);
    InstalledNode(s, h, i, o);
    assert Step(s.nodes[i], m, relaxed) == Step(o, m, relaxed);
    h' := RoleStep(Install(s, i, o), h, i, m, relaxed);
    Compose(s, h, i, o, Step(o, m, relaxed), h');
  }
}
