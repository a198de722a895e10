/** What every step of a node preserves, handler by handler. */
module Outcomes {
  import opened RaftTypes
  import opened LogSpec
  import opened LogFacts
  import opened NodeSpec
  import opened Cluster
  import opened History
  import opened HistoryFacts
  import opened Moves
  import opened Actions
  import opened Reigns
  import opened Commits
  import opened CommitMoves
  import opened Persistence

  /** If the node takes office, it has no stale match index. */
  predicate FreshIfElected(n: Node, n': Node) {
    n'.role == Leader && !(n.role == Leader && n.term == n'.term) ==> NoStaleMatch(n)
  }

  ghost predicate CommitOutcome(s: State, h: History, i: NodeId, n': Node, h': History)
    requires i in s.nodes
  {
    CommitInv(s, h) && FreshIfElected(s.nodes[i], n') ==>
      CommitInv(Install(s, i, n'), h') && CommitGrows(s.nodes[i], n')
  }

  predicate LogOutcome(n: Node, n': Node) {
    && n'.term >= n.term
    && n'.log.applied == n.log.applied
    && (StorageOk(n.log) ==> StorageOk(n'.log))
  }

  /** The log of the leader of term `t` is as before, or `n'` is that leader. */
  predicate LedTerm(h: History, h': History, n': Node, t: Term) {
    t in h'.reigns ==>
      (t in h.reigns && h'.reigns[t].log == h.reigns[t].log) || (n'.role == Leader && n'.term == t)
  }

  /** Only its leader changes what is on record of a term. */
  ghost predicate Led(h: History, h': History, n': Node) {
    forall t {:trigger LedTerm(h, h', n', t)} :: LedTerm(h, h', n', t)
  }

  /** The step of node `i` to `n'`, recorded by `h'`. */
  ghost predicate Outcome(s: State, h: History, i: NodeId, n': Node, h': History)
    requires i in s.nodes
  {
    && Inv(Install(s, i, n'), h') && Extends(h, h') && Led(h, h', n')
    && CommitOutcome(s, h, i, n', h')
    && LogOutcome(s.nodes[i], n')
  }

  /** A silent change of role or tally on the way. */
  predicate Passing(n: Node, a: Node) {
    && RoleMove(n, a) && a.msgs == []
    && a.prs == n.prs && a.log == n.log
    && (a.role == Leader ==> n.role == Leader && a.term == n.term)
  }

  lemma ComposeCommit(s: State, h: History, i: NodeId, a: Node, b: Node, h': History)
    requires i in s.nodes && Passing(s.nodes[i], a)
    requires CommitOutcome(s, h, i, a, h) && CommitOutcome(Install(s, i, a), h, i, b, h')
    requires b.term >= a.term
    ensures CommitOutcome(s, h, i, b, h')
  {
    var n, s1 := s.nodes[i], Install(s, i, a);
    InstallTwice(s, i, a, b);
    if CommitInv(s, h) && FreshIfElected(n, b) {
      assert FreshIfElected(n, a);
      assert FreshIfElected(s1.nodes[i], b);
      assert n.log.entries[..n.log.committed] == s1.nodes[i].log.entries[..n.log.committed];
    }
  }

  /** Two steps in a row, the first of which is silent. */
  lemma Compose(s: State, h: History, i: NodeId, a: Node, b: Node, h': History)
    requires i in s.nodes && Passing(s.nodes[i], a)
    requires Outcome(s, h, i, a, h) && Outcome(Install(s, i, a), h, i, b, h')
    ensures Outcome(s, h, i, b, h')
  {
    InstallTwice(s, i, a, b);
    ComposeCommit(s, h, i, a, b, h');
  }

  /** A step that touches neither the log nor the match indices, and sends no
      append. */
  lemma SameLogOutcome(s: State, h: History, i: NodeId, n': Node)
    requires Inv(s, h) && i in s.nodes && n'.log == s.nodes[i].log && n'.term >= s.nodes[i].term
    requires SameMatched(s.nodes[i], n') && forall m :: m in n'.msgs ==> !m.body.Append?
    ensures CommitOutcome(s, h, i, n', h) && LogOutcome(s.nodes[i], n')
  {
    if CommitInv(s, h) {
      QuietCommit(s, h, i, n');
    }
  }

  // ----- Steps that only reply -----

  lemma BareOutcome(s: State, h: History, i: NodeId, n': Node)
    requires Inv(s, h) && i in s.nodes && Acquainted(s, n') && Delivers(s, n')
    requires n' == s.nodes[i].(lead := n'.lead, transferee := n'.transferee, msgs := n'.msgs)
    requires forall m :: m in n'.msgs ==> Plain(h, m) && !m.body.Append?
    ensures Outcome(s, h, i, n', h)
  {
    NodeFacts(s, h, i);
    QuietKeepsInv(s, h, i, n');
    SameLogOutcome(s, h, i, n');
  }

  predicate ReplyBody(h: History, m: Message, term: Term, body: Body) {
    || body == RequestVoteResponse(true)
    || body.HeartbeatResponse?
    || (body.AppendResponse? && ReplyOk(h, Message(m.to, m.from, term, body)))
  }

  /** One reply to the sender of a message. */
  lemma ReplyOutcome(s: State, h: History, i: NodeId, m: Message, n: Node, body: Body)
    requires Inv(s, h) && i in s.nodes && m in s.net && m.to == i
    requires m.from != i && 1 <= s.nodes[i].term
    requires n == s.nodes[i] || n == s.nodes[i].(lead := m.from)
    requires ReplyBody(h, m, n.term, body)
    ensures Outcome(s, h, i, Send(n, m.from, body), h)
  {
    NodeFacts(s, h, i);
    var n', reply := Send(n, m.from, body), Message(i, m.from, n.term, body);
    assert n'.msgs == [reply];
    assert Plain(h, reply);
    BareOutcome(s, h, i, n');
  }

  lemma BeatOutcome(s: State, h: History, i: NodeId)
    requires Inv(s, h) && i in s.nodes && s.nodes[i].role == Leader
    ensures var n := s.nodes[i];
      Outcome(s, h, i, n.(msgs := n.msgs + ToOthers(n, n.peers, Heartbeat)), h)
  {
    var n := s.nodes[i];
    NodeFacts(s, h, i);
    var n' := n.(msgs := n.msgs + ToOthers(n, n.peers, Heartbeat));
    forall m | m in n'.msgs
      ensures Plain(h, m) && !m.body.Append? && m.from in s.nodes && m.to in s.nodes
    {
      OthersReached(n, n.peers, Heartbeat, m);
    }
    BareOutcome(s, h, i, n');
  }

  lemma ForwardOutcome(s: State, h: History, i: NodeId, m: Message)
    requires Inv(s, h) && i in s.nodes && m.body.TransferLeader? && m.term == NONE && m.from in s.nodes
    ensures Outcome(s, h, i, ForwardTransfer(s.nodes[i], m), h)
  {
    NodeFacts(s, h, i);
    BareOutcome(s, h, i, ForwardTransfer(s.nodes[i], m));
  }

  lemma TimeoutNowOutcome(s: State, h: History, i: NodeId, x: Node, to: NodeId)
    requires Inv(s, h) && i in s.nodes && to in s.nodes
    requires x == s.nodes[i].(transferee := x.transferee)
    ensures Outcome(s, h, i, TimeoutNowTo(x, to), h)
  {
    NodeFacts(s, h, i);
    BareOutcome(s, h, i, TimeoutNowTo(x, to));
  }

  lemma SilentOutcome(s: State, h: History, i: NodeId)
    requires Inv(s, h) && i in s.nodes
    ensures Outcome(s, h, i, s.nodes[i], h)
  {
    NodeFacts(s, h, i);
    BareOutcome(s, h, i, s.nodes[i]);
  }

  /** A leadership transfer that expires. */
  lemma ExpiryOutcome(s: State, h: History, i: NodeId)
    requires Inv(s, h) && i in s.nodes
    ensures Outcome(s, h, i, s.nodes[i].(transferee := NONE), h)
  {
    NodeFacts(s, h, i);
    BareOutcome(s, h, i, s.nodes[i].(transferee := NONE));
  }

  // ----- Changes of role -----

  lemma ObservePassing(n: Node, t: Term)
    requires n.msgs == []
    ensures Passing(n, Observe(n, t)) && SameMatched(n, Observe(n, t))
  {
  }

  lemma ObserveOutcome(s: State, h: History, i: NodeId, t: Term)
    requires Inv(s, h) && i in s.nodes
    ensures Outcome(s, h, i, Observe(s.nodes[i], t), h)
    ensures Passing(s.nodes[i], Observe(s.nodes[i], t))
  {
    NodeFacts(s, h, i);
    ObservePassing(s.nodes[i], t);
    ObserveKeepsInv(s, h, i, t);
    SameLogOutcome(s, h, i, Observe(s.nodes[i], t));
  }

  lemma StepDownOutcome(s: State, h: History, i: NodeId, lead: NodeId)
    requires Inv(s, h) && i in s.nodes && s.nodes[i].role == Candidate
    requires lead == NONE || lead in s.nodes
    ensures Outcome(s, h, i, BecomeFollower(s.nodes[i], s.nodes[i].term, lead), h)
    ensures Passing(s.nodes[i], BecomeFollower(s.nodes[i], s.nodes[i].term, lead))
  {
    NodeFacts(s, h, i);
    StepDownKeepsInv(s, h, i, lead);
    SameLogOutcome(s, h, i, BecomeFollower(s.nodes[i], s.nodes[i].term, lead));
  }

  lemma CampaignOutcome(s: State, h: History, i: NodeId, n': Node)
    requires Inv(s, h) && i in s.nodes && n' == BecomeCandidate(s.nodes[i]).(msgs := n'.msgs)
    requires Delivers(s, n') && forall m :: m in n'.msgs ==> RequestFrom(n', m)
    ensures Outcome(s, h, i, n', h)
  {
    CampaignKeepsInv(s, h, i, n');
    SameLogOutcome(s, h, i, n');
  }

  lemma CountOutcome(s: State, h: History, i: NodeId, m: Message)
    requires Inv(s, h) && i in s.nodes && s.nodes[i].role == Candidate
    requires m in s.net && m.to == i && m.term == s.nodes[i].term && m.body.RequestVoteResponse?
    ensures var c := s.nodes[i].(votes := s.nodes[i].votes[m.from := !m.body.reject]);
      Outcome(s, h, i, c, h) && Passing(s.nodes[i], c)
  {
    NodeFacts(s, h, i);
    CountKeepsInv(s, h, i, m);
    SameLogOutcome(s, h, i, s.nodes[i].(votes := s.nodes[i].votes[m.from := !m.body.reject]));
  }

  lemma GrantOutcome(s: State, h: History, i: NodeId, m: Message)
    requires Inv(s, h) && i in s.nodes && m in s.net && m.body.RequestVote? && m.to == i
    requires m.term == s.nodes[i].term && Fits(s, i) && Grants(s.nodes[i], m)
    ensures Outcome(s, h, i, HandleRequestVote(s.nodes[i], m), h)
  {
    NodeFacts(s, h, i);
    GrantKeepsInv(s, h, i, m);
    SameLogOutcome(s, h, i, HandleRequestVote(s.nodes[i], m));
  }

  // ----- Changes of the log -----

  lemma PushStorage(n: Node, n': Node)
    requires NodeShape(n') && n.log.entries <= n'.log.entries
    requires n'.log == n.log.(entries := n'.log.entries, committed := n'.log.committed)
    ensures LogShape(n.log) && StorageOk(n.log) ==> StorageOk(n'.log)
  {
    if StorageOk(n.log) {
      var es := n'.log.entries[|n.log.entries|..];
      assert n'.log.entries == n.log.entries + es;
      PushKeepsStorage(n.log, es);
    }
  }

  lemma WinLed(h: History, n: Node)
    requires ValidNode(n)
    ensures Led(h, Elected(h, n), BecomeLeader(n))
  {
    forall t
      ensures LedTerm(h, Elected(h, n), BecomeLeader(n), t)
    {
    }
  }

  lemma WinStorage(s: State, h: History, i: NodeId)
    requires Inv(s, h) && i in s.nodes && Fits(s, i)
    requires s.nodes[i].role == Candidate && Wins(s.nodes[i].votes, |s.peers|)
    ensures LogOutcome(s.nodes[i], BecomeLeader(s.nodes[i]))
  {
    NodeFacts(s, h, i);
    ElectedAugments(s, h, i);
    PushStorage(s.nodes[i], CommitAlone(TakeOffice(s.nodes[i])));
  }

  lemma WinOutcome(s: State, h: History, i: NodeId) returns (h': History)
    requires Inv(s, h) && i in s.nodes && Fits(s, i)
    requires s.nodes[i].role == Candidate && Wins(s.nodes[i].votes, |s.peers|)
    ensures Outcome(s, h, i, BecomeLeader(s.nodes[i]), h')
  {
    h' := Elected(h, s.nodes[i]);
    WinKeepsInv(s, h, i);
    if CommitInv(s, h) && NoStaleMatch(s.nodes[i]) {
      WinCommit(s, h, i);
    }
    WinStorage(s, h, i);
    WinLed(h, s.nodes[i]);
  }

  predicate IsLeading(n: Node, t: Term) { n.role == Leader && n.term == t }

  lemma GrownLed(h: History, n: Node, n': Node)
    requires n.term in h.reigns && IsLeading(n', n.term)
    ensures Led(h, Grown(h, n, n'.log.entries), n')
  {
    forall t
      ensures LedTerm(h, Grown(h, n, n'.log.entries), n', t)
    {
    }
  }

  lemma ProposeStorage(s: State, h: History, i: NodeId, e: Entry)
    requires Inv(s, h) && i in s.nodes && Fits(s, i) && s.nodes[i].role == Leader
    ensures LogOutcome(s.nodes[i], AppendEntries(s.nodes[i], [e]))
    ensures IsLeading(AppendEntries(s.nodes[i], [e]), s.nodes[i].term)
  {
    Open(s, h);
    var n := s.nodes[i];
    NodeFacts(s, h, i);
    assert ReignLog(h, n.term);
    var b, h' := ProposedNode(s, h, n, e);
    PushStorage(n, CommitAlone(b));
  }

  lemma ProposeOutcome(s: State, h: History, i: NodeId, e: Entry) returns (h': History)
    requires Inv(s, h) && i in s.nodes && Fits(s, i) && s.nodes[i].role == Leader
    ensures Outcome(s, h, i, AppendEntries(s.nodes[i], [e]), h')
  {
    h' := ProposeKeepsInv(s, h, i, e);
    if CommitInv(s, h) {
      ProposeCommit(s, h, i, e);
    }
    ProposeStorage(s, h, i, e);
    GrownLed(h, s.nodes[i], AppendEntries(s.nodes[i], [e]));
  }

  lemma AcceptStorage(h: History, n: Node, m: Message)
    requires ReignLogs(h) && NodeShape(n) && NodeLogOk(h, n)
    requires m.body.Append? && AppendOk(h, m) && m.term == n.term
    requires m.body.index <= |n.log.entries| && TermAt(n.log.entries, m.body.index) == m.body.logTerm
    ensures var l := Absorb(n.log, m.body.entries, 0, 0);
      l.applied == n.log.applied && (StorageOk(n.log) ==> StorageOk(l))
  {
    AcceptedLog(h, n, m);
    assert ReignLog(h, m.term);
    SliceContiguous(h.reigns[m.term].log, 1, m.body.index, m.body.index + |m.body.entries|);
    if StorageOk(n.log) {
      AbsorbKeepsStorage(n.log, m.body.entries, m.body.index);
    }
  }

  lemma AcceptLogs(s: State, h: History, i: NodeId, m: Message)
    requires Inv(s, h) && i in s.nodes && Fits(s, i) && m in s.net && m.to == i && m.body.Append?
    requires m.term == s.nodes[i].term
    requires m.body.index <= |Log(s, i)| && TermAt(Log(s, i), m.body.index) == m.body.logTerm
    ensures LogOutcome(s.nodes[i], Accept(s.nodes[i].(lead := m.from), m))
  {
    Open(s, h);
    NodeFacts(s, h, i);
    assert AppendOk(h, m);
    AcceptStorage(h, s.nodes[i], m);
  }

  lemma AcceptOutcome(s: State, h: History, i: NodeId, m: Message) returns (h': History)
    requires Inv(s, h) && i in s.nodes && Fits(s, i) && m in s.net && m.to == i && m.body.Append?
    requires m.term == s.nodes[i].term && s.nodes[i].role == Follower
    requires m.body.index <= |Log(s, i)| && TermAt(Log(s, i), m.body.index) == m.body.logTerm
    ensures Outcome(s, h, i, Accept(s.nodes[i].(lead := m.from), m), h')
  {
    h' := AcceptKeepsInv(s, h, i, m);
    AcceptLogs(s, h, i, m);
    assert CommitOutcome(s, h, i, Accept(s.nodes[i].(lead := m.from), m), h') by {
      if CommitInv(s, h) {
        AcceptCommit(s, h, i, m, h');
      }
    }
  }
}
