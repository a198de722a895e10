/** The handlers as moves: each keeps the invariants, for some extension of the
    history. */
module Actions {
  import opened RaftTypes
  import opened NodeSpec
  import opened Cluster
  import opened History
  import opened HistoryFacts
  import opened Moves

  predicate Delivers(s: State, n': Node) {
    forall m :: m in n'.msgs ==> m.from in s.nodes && m.to in s.nodes
  }

  lemma InstalledFits(s: State, i: NodeId, n': Node)
    requires WellFormed(s) && i in s.nodes
    requires ValidNode(n') && n'.id == i && n'.peers == s.peers
    ensures var s' := Install(s, i, n'); forall j :: j in s'.nodes ==> Fits(s', j)
  {
    var s' := Install(s, i, n');
    forall j | j in s'.nodes
      ensures Fits(s', j)
    {
      assert Fits(s, j);
    }
  }

  /** Everything new on the network is among `ms`. */
  predicate Sends(s: State, s': State, ms: seq<Message>) {
    forall m :: m in s'.net && m !in s.net ==> m in ms
  }

  lemma InstalledOnly(s: State, i: NodeId, n': Node)
    requires i in s.nodes
    ensures var s' := Install(s, i, n');
      && Only(s, s', i)
      && s'.nodes[i] == n'.(msgs := [])
      && Sends(s, s', n'.msgs)
  {
  }

  lemma Installed(s: State, i: NodeId, n': Node)
    requires WellFormed(s) && i in s.nodes && Delivers(s, n')
    requires ValidNode(n') && n'.id == i && n'.peers == s.peers
    ensures var s' := Install(s, i, n');
      && WellFormed(s') && Only(s, s', i)
      && s'.nodes[i] == n'.(msgs := [])
      && Sends(s, s', n'.msgs)
  {
    InstalledOnly(s, i, n');
    InstalledFits(s, i, n');
    InstalledAddressed(s, Install(s, i, n'), i, n');
  }

  lemma InstalledAddressed(s: State, s': State, i: NodeId, n': Node)
    requires Addressed(s) && Delivers(s, n') && n'.id == i && Only(s, s', i) && Sends(s, s', n'.msgs)
    requires s'.nodes[i] == n'.(msgs := [])
    ensures Addressed(s')
  {
  }

  lemma Drained(s: State, s': State, n: Node, n': Node)
    requires NodeShape(n') && ProgressOk(n') && Acquainted(s, n') && SameStanding(n, n')
    requires s'.nodes.Keys == s.nodes.Keys
    ensures var d := n'.(msgs := []);
      NodeShape(d) && ProgressOk(d) && Acquainted(s', d) && SameStanding(n, d)
  {
  }

  lemma InstallTwice(s: State, i: NodeId, a: Node, b: Node)
    requires a.msgs == []
    ensures Install(Install(s, i, a), i, b) == Install(s, i, b)
  {
    var s1 := Install(s, i, a);
    assert s1.net == s.net;
    assert s1.nodes[i := b.(msgs := [])] == s.nodes[i := b.(msgs := [])];
  }

  /** What the invariants say about one node. */
  lemma NodeFacts(s: State, h: History, i: NodeId)
    requires Inv(s, h) && i in s.nodes
    ensures var n := s.nodes[i];
      && Fits(s, i) && n.id == i && ValidNode(n) && n.peers == s.peers && n.msgs == []
      && NodeShape(n) && Acquainted(s, n)
      && Standing(s, h, n)
      && NodeLogOk(h, n)
      && ProgressOk(n)
      && WellFormed(s) && NONE !in s.nodes
  {
    Open(s, h);
    assert Fits(s, i) && NodeShape(s.nodes[i]) && Standing(s, h, s.nodes[i]);
    assert NodeLogOk(h, s.nodes[i]) && ProgressOk(s.nodes[i]);
  }

  /** What the invariants say about one message. */
  lemma MessageFacts(s: State, h: History, m: Message)
    requires Inv(s, h) && m in s.net
    ensures m.from in s.nodes && m.to in s.nodes && MessageShape(m)
    ensures m.body.Append? ==> AppendOk(h, m)
    ensures m.body.AppendResponse? ==> ReplyOk(h, m)
    ensures m.body.RequestVote? ==> RequestOk(s, m)
    ensures IsGrant(m) ==> GrantOk(s, m) && BallotOk(s, h, m)
  {
    Open(s, h);
    assert MessageShape(m);
    if m.body.Append? {
      assert AppendOk(h, m);
    } else if m.body.AppendResponse? {
      assert ReplyOk(h, m);
    } else if m.body.RequestVote? {
      assert RequestOk(s, m);
    } else if IsGrant(m) {
      assert GrantOk(s, m) && BallotOk(s, h, m);
    }
  }

  // ----- Moves that leave the log alone -----

  /** The conditions that remain when the log does not change. */
  ghost predicate SameLogMove(s: State, h: History, s': State, i: NodeId) {
    && Only(s, s', i)
    && WellFormed(s')
    && s'.nodes[i].log.entries == s.nodes[i].log.entries
    && NodeShape(s'.nodes[i]) && Acquainted(s', s'.nodes[i])
    && RoleMove(s.nodes[i], s'.nodes[i])
    && OwnVote(s'.nodes[i]) && TallyOk(s', s'.nodes[i])
    && (s'.nodes[i].role == Leader ==>
          s.nodes[i].role == Leader && s'.nodes[i].term == s.nodes[i].term)
    && ProgressOk(s'.nodes[i])
    && NewGrants(s, s', s'.nodes[i])
    && NewBallots(s, s', h)
    && NewRequests(s, s', s'.nodes[i])
    && NewAppends(s, s', h)
    && NewReplies(s, s', h)
    && NewShapes(s, s')
  }

  lemma SameLogAck(s: State, h: History, s': State, i: NodeId)
    requires Addressed(s) && Acks(s, h) && i in s.nodes && i in s'.nodes
    requires s'.nodes[i].id == i && s'.nodes[i].term >= s.nodes[i].term
    requires s'.nodes[i].log.entries == s.nodes[i].log.entries
    ensures CurrentAck(h, s'.nodes[i])
  {
    var a := Ack(i, s'.nodes[i].term);
    if a in h.acked {
      assert AckOk(s, h, a);
    }
  }

  lemma SameHistory(s': State, h: History, n': Node)
    requires ReignLogs(h)
    ensures HistoryMove(h, h, n') && NewReign(s', h, h, n')
  {
    if n'.term in h.reigns {
      assert ReignLog(h, n'.term);
    }
  }

  lemma SameLogNode(s: State, h: History, s': State, i: NodeId)
    requires Inv(s, h) && SameLogMove(s, h, s', i)
    ensures NewNode(s', h, s'.nodes[i])
  {
    Open(s, h);
    SameLogAck(s, h, s', i);
    NodeFacts(s, h, i);
  }

  lemma SameLogKeepsInv(s: State, h: History, s': State, i: NodeId)
    requires Inv(s, h) && SameLogMove(s, h, s', i)
    ensures Inv(s', h)
  {
    Open(s, h);
    SameLogNode(s, h, s', i);
    SameHistory(s', h, s'.nodes[i]);
    MoveKeepsInv(s, h, s', h, i);
  }

  /** A message that claims nothing about votes. */
  predicate Plain(h: History, m: Message) {
    && MessageShape(m)
    && !IsGrant(m) && !m.body.RequestVote?
    && (m.body.Append? ==> AppendOk(h, m))
    && (m.body.AppendResponse? ==> ReplyOk(h, m))
  }

  predicate SameStanding(n: Node, n': Node) {
    && n'.id == n.id && n'.peers == n.peers
    && n'.term == n.term && n'.role == n.role && n'.vote == n.vote && n'.votes == n.votes
    && n'.log.entries == n.log.entries
  }

  lemma PlainNews(s: State, s': State, h: History, n': Node, ms: seq<Message>)
    requires Addressed(s') && Sends(s, s', ms) && forall m :: m in ms ==> Plain(h, m)
    ensures NewGrants(s, s', n') && NewBallots(s, s', h) && NewRequests(s, s', n')
    ensures NewAppends(s, s', h) && NewReplies(s, s', h) && NewShapes(s, s')
  {
  }

  lemma StandingKept(s: State, h: History, s': State, n: Node, n': Node)
    requires Standing(s, h, n) && SameStanding(n, n') && s.net <= s'.net
    ensures RoleMove(n, n') && OwnVote(n') && TallyOk(s', n')
  {
  }

  /** Neither role nor log changes, and only plain messages are sent. */
  lemma QuietKeepsInv(s: State, h: History, i: NodeId, n': Node)
    requires Inv(s, h) && i in s.nodes && SameStanding(s.nodes[i], n')
    requires ValidNode(n') && NodeShape(n') && ProgressOk(n') && Acquainted(s, n')
    requires Delivers(s, n') && forall m :: m in n'.msgs ==> Plain(h, m)
    ensures Inv(Install(s, i, n'), h)
  {
    var s' := Install(s, i, n');
    NodeFacts(s, h, i);
    Installed(s, i, n');
    PlainNews(s, s', h, s'.nodes[i], n'.msgs);
    Drained(s, s', s.nodes[i], n');
    StandingKept(s, h, s', s.nodes[i], s'.nodes[i]);
    SameLogKeepsInv(s, h, s', i);
  }

  // ----- Changes of role -----

  lemma ObserveKeepsInv(s: State, h: History, i: NodeId, t: Term)
    requires Inv(s, h) && i in s.nodes
    ensures Inv(Install(s, i, Observe(s.nodes[i], t)), h)
  {
    NodeFacts(s, h, i);
    var n' := Observe(s.nodes[i], t);
    if t <= s.nodes[i].term {
      QuietKeepsInv(s, h, i, n');
    } else {
      Installed(s, i, n');
      PlainNews(s, Install(s, i, n'), h, n', []);
      SameLogKeepsInv(s, h, Install(s, i, n'), i);
    }
  }

  lemma StepDownKeepsInv(s: State, h: History, i: NodeId, lead: NodeId)
    requires Inv(s, h) && i in s.nodes && s.nodes[i].role == Candidate
    requires lead == NONE || lead in s.nodes
    ensures Inv(Install(s, i, BecomeFollower(s.nodes[i], s.nodes[i].term, lead)), h)
  {
    NodeFacts(s, h, i);
    StepDownMove(s, h, i, lead, BecomeFollower(s.nodes[i], s.nodes[i].term, lead));
    SameLogKeepsInv(s, h, Install(s, i, BecomeFollower(s.nodes[i], s.nodes[i].term, lead)), i);
  }

  lemma StepDownMove(s: State, h: History, i: NodeId, lead: NodeId, n': Node)
    requires WellFormed(s) && i in s.nodes && Fits(s, i) && s.nodes[i].id == i && s.nodes[i].role == Candidate
    requires NodeShape(s.nodes[i]) && Acquainted(s, s.nodes[i]) && Standing(s, h, s.nodes[i])
    requires (lead == NONE || lead in s.nodes) && n' == BecomeFollower(s.nodes[i], s.nodes[i].term, lead)
    ensures SameLogMove(s, h, Install(s, i, n'), i)
  {
    Installed(s, i, n');
    PlainNews(s, Install(s, i, n'), h, n'.(msgs := []), []);
  }

  predicate RequestFrom(n: Node, m: Message) {
    && m.from == n.id && m.to != n.id && m.term == n.term
    && m.body == RequestVote(LastTerm(n.log.entries), |n.log.entries|)
  }

  lemma RequestNews(s: State, s': State, h: History, n': Node, ms: seq<Message>)
    requires Addressed(s') && Sends(s, s', ms) && n'.term >= 1
    requires forall m :: m in ms ==> RequestFrom(n', m)
    ensures NewGrants(s, s', n') && NewBallots(s, s', h) && NewRequests(s, s', n')
    ensures NewAppends(s, s', h) && NewReplies(s, s', h) && NewShapes(s, s')
  {
  }

  lemma CampaignMove(s: State, h: History, i: NodeId, n': Node)
    requires WellFormed(s) && i in s.nodes && Fits(s, i) && s.nodes[i].id == i
    requires ValidNode(s.nodes[i]) && NodeShape(s.nodes[i]) && Acquainted(s, s.nodes[i]) && Standing(s, h, s.nodes[i])
    requires n' == BecomeCandidate(s.nodes[i]).(msgs := n'.msgs)
    requires Delivers(s, n') && forall m :: m in n'.msgs ==> RequestFrom(n', m)
    ensures SameLogMove(s, h, Install(s, i, n'), i)
  {
    Installed(s, i, n');
    var s' := Install(s, i, n');
    RequestNews(s, s', h, s'.nodes[i], n'.msgs);
  }

  lemma CampaignKeepsInv(s: State, h: History, i: NodeId, n': Node)
    requires Inv(s, h) && i in s.nodes && n' == BecomeCandidate(s.nodes[i]).(msgs := n'.msgs)
    requires Delivers(s, n') && forall m :: m in n'.msgs ==> RequestFrom(n', m)
    ensures Inv(Install(s, i, n'), h)
  {
    NodeFacts(s, h, i);
    CampaignMove(s, h, i, n');
    SameLogKeepsInv(s, h, Install(s, i, n'), i);
  }

  lemma CountMove(s: State, h: History, i: NodeId, m: Message, n': Node)
    requires WellFormed(s) && i in s.nodes && Fits(s, i) && s.nodes[i].id == i && s.nodes[i].role == Candidate
    requires NodeShape(s.nodes[i]) && Acquainted(s, s.nodes[i]) && Standing(s, h, s.nodes[i])
    requires m in s.net && m.to == i && m.term == s.nodes[i].term && m.body.RequestVoteResponse?
    requires n' == s.nodes[i].(votes := s.nodes[i].votes[m.from := !m.body.reject])
    ensures SameLogMove(s, h, Install(s, i, n'), i)
  {
    var n := s.nodes[i];
    Installed(s, i, n');
    var s' := Install(s, i, n');
    assert TallyOk(s', n') by {
      assert !m.body.reject ==> m == Grant(m.from, i, n.term);
      assert TallyOk(s, n);
    }
    PlainNews(s, s', h, s'.nodes[i], []);
  }

  lemma CountKeepsInv(s: State, h: History, i: NodeId, m: Message)
    requires Inv(s, h) && i in s.nodes && s.nodes[i].role == Candidate
    requires m in s.net && m.to == i && m.term == s.nodes[i].term && m.body.RequestVoteResponse?
    ensures Inv(Install(s, i, s.nodes[i].(votes := s.nodes[i].votes[m.from := !m.body.reject])), h)
  {
    NodeFacts(s, h, i);
    var n' := s.nodes[i].(votes := s.nodes[i].votes[m.from := !m.body.reject]);
    CountMove(s, h, i, m, n');
    SameLogKeepsInv(s, h, Install(s, i, n'), i);
  }

  // ----- Granting a vote -----

  /** What a voter acknowledged in earlier terms is in the candidate's log, or
      was superseded. */
  lemma VoterInherits(s: State, h: History, j: NodeId, cs: seq<Entry>)
    requires j in s.nodes && NodeLogOk(h, s.nodes[j]) && ReignLogs(h) && Acks(s, h)
    requires var v, es := s.nodes[j], Log(s, j);
      && v.term !in h.reigns
      && OnRecord(h, cs) && LastTerm(cs) < v.term
      && (LastTerm(es) < LastTerm(cs) || (LastTerm(es) == LastTerm(cs) && |es| <= |cs|))
    ensures Inherits(h, j, s.nodes[j].term, cs)
  {
    var v, es := s.nodes[j], Log(s, j);
    forall a | a in h.acked && a.node == j && a.term < v.term
      ensures a.term in h.reigns && h.acked[a] <= |h.reigns[a.term].log|
      ensures RetainsAll(h, a.term, h.acked[a], cs, v.term)
    {
      assert AckOk(s, h, a) && Remembers(s, h, a);
      var bound, was := v.term, v.term + 1;
      forall n | |h.reigns[a.term].base| < n <= h.acked[a]
        ensures Retains(h, a.term, n, cs, bound)
      {
        assert RetainsAll(h, a.term, h.acked[a], es, was);
        assert Retains(h, a.term, n, es, was);
        if Holds(h, a.term, n, es) {
          UpToDate(h, a.term, n, es, cs, bound);
        } else {
          assert Superseded(h, a.term, n, bound);
        }
      }
    }
  }

  lemma GrantBallot(s: State, h: History, i: NodeId, m: Message, g: Message)
    requires Inv(s, h) && i in s.nodes && m in s.net && m.body.RequestVote? && m.to == i
    requires m.term == s.nodes[i].term && Fits(s, i) && Grants(s.nodes[i], m) && m.from in s.nodes
    requires g == Grant(i, m.from, m.term)
    ensures BallotOk(s, h, g)
  {
    MessageFacts(s, h, m);
    NodeFacts(s, h, i);
    Lookups(s.nodes[i]);
    NodeFacts(s, h, m.from);
    assert Satisfies(s, h, Logs) && Satisfies(s, h, Acknowledging);
    var c := s.nodes[m.from];
    if c.role == Candidate && c.term == m.term && m.term !in h.reigns {
      VoterInherits(s, h, i, c.log.entries);
    }
  }

  lemma GrantNews(s: State, s': State, h: History, n': Node, g: Message)
    requires Addressed(s') && Sends(s, s', [g])
    requires IsGrant(g) && MessageShape(g) && g.from == n'.id && g.term == n'.term
    requires n'.role == Follower && n'.vote == g.to
    requires g in s'.net ==> s'.nodes[g.to].term >= g.term && BallotOk(s', h, g)
    ensures NewGrants(s, s', n') && NewBallots(s, s', h) && NewRequests(s, s', n')
    ensures NewAppends(s, s', h) && NewReplies(s, s', h) && NewShapes(s, s')
  {
  }

  lemma GrantKeepsInv(s: State, h: History, i: NodeId, m: Message)
    requires Inv(s, h) && i in s.nodes && m in s.net && m.body.RequestVote? && m.to == i
    requires m.term == s.nodes[i].term && Fits(s, i) && Grants(s.nodes[i], m)
    ensures Inv(Install(s, i, HandleRequestVote(s.nodes[i], m)), h)
  {
    var n := s.nodes[i];
    var n' := HandleRequestVote(n, m);
    var s', g := Install(s, i, n'), Grant(i, m.from, m.term);
    NodeFacts(s, h, i);
    MessageFacts(s, h, m);
    assert n.role == Follower;
    assert n'.msgs == [g];
    Installed(s, i, n');
    GrantBallot(s, h, i, m, g);
    GrantNews(s, s', h, s'.nodes[i], g);
    SameLogKeepsInv(s, h, s', i);
  }
}
