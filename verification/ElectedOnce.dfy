/** The hypothesis of the commit theorems: where it comes from, and what it
    means. */
module ElectedOnce {
  import opened RaftTypes
  import opened NodeSpec
  import opened Cluster
  import opened History
  import opened Actions
  import opened Reigns
  import opened Commits
  import opened CommitMoves

  /** No node takes office twice. */
  ghost predicate ElectedAtMostOnce(run: seq<State>) {
    forall k: nat, l: nat, i :: k < l && ElectedAt(run, k, i) ==> !ElectedAt(run, l, i)
  }

  /** The match indices of the other peers are as in `n`. */
  predicate SameOthers(n: Node, n': Node) {
    forall p :: p in n'.prs && p != n'.id ==> p in n.prs && p != n.id && n'.prs[p].matched == n.prs[p].matched
  }

  lemma OfficeTouches(n: Node)
    requires ValidNode(n)
    ensures SameOthers(n, BecomeLeader(n))
  {
  }

  lemma FollowerTouches(n: Node, m: Message)
    requires ValidNode(n)
    ensures SameOthers(n, StepFollower(n, m))
  {
    if m.body.Hup? || m.body.TimeoutNow? {
      OfficeTouches(BecomeCandidate(n));
    } else if m.body.Append? {
      AppendTouches(n, m);
    }
  }

  lemma TallyTouches(n: Node, m: Message)
    requires ValidNode(n) && m.body.RequestVoteResponse?
    ensures SameOthers(n, HandleRequestVoteResponse(n, m))
  {
    var c, n' := n.(votes := n.votes[m.from := !m.body.reject]), HandleRequestVoteResponse(n, m);
    if !(m.term != NONE && m.term < n.term) && Wins(c.votes, |c.peers|) {
      assert n' == BecomeLeader(c);
      OfficeTouches(c);
      SameTable(n, c, n');
    } else {
      assert n'.prs == n.prs && n'.id == n.id;
    }
  }

  lemma SameTable(n: Node, c: Node, n': Node)
    requires c.prs == n.prs && c.id == n.id && SameOthers(c, n')
    ensures SameOthers(n, n')
  {
  }

  lemma AppendTouches(n: Node, m: Message)
    requires ValidNode(n) && m.body.Append?
    ensures SameOthers(n, HandleAppendEntries(n, m))
  {
  }

  lemma CandidateTouches(n: Node, m: Message)
    requires ValidNode(n)
    ensures SameOthers(n, StepCandidate(n, m))
  {
    if m.body.Hup? {
      OfficeTouches(BecomeCandidate(n));
    } else if m.body.RequestVoteResponse? {
      TallyTouches(n, m);
    } else if m.body.Append? {
      AppendTouches(if m.term == n.term then BecomeFollower(n, m.term, m.from) else n, m);
    }
  }

  /** Only a leader changes what it remembers of the others. */
  lemma StepTouches(n: Node, m: Message, relaxed: bool)
    requires ValidNode(n) && FromPeer(n, m) && n.role != Leader
    ensures SameOthers(n, Step(n, m, relaxed))
  {
    var o := Observe(n, m.term);
    assert SameOthers(n, o);
    if o.role == Follower {
      FollowerTouches(o, m);
    } else {
      CandidateTouches(o, m);
    }
  }

  lemma InputTouches(s: State, e: Event, i: NodeId)
    requires WellFormed(s) && Enabled(s, e) && !e.ReadyRound? && !e.TransferTimeout?
    requires i == (if e.Deliver? then e.m.to else e.node) && i in s.nodes && s.nodes[i].role != Leader
    ensures i in After(s, e).nodes && SameOthers(s.nodes[i], After(s, e).nodes[i])
  {
    assert Fits(s, i);
    var m := if e.Deliver? then e.m else LocalMessage(e);
    assert FromPeer(s.nodes[i], m);
    StepTouches(s.nodes[i], m, e.Deliver? && e.relaxed);
  }

  lemma EventTouches(s: State, e: Event, j: NodeId)
    requires WellFormed(s) && Enabled(s, e) && j in s.nodes && s.nodes[j].role != Leader
    ensures j in After(s, e).nodes && SameOthers(s.nodes[j], After(s, e).nodes[j])
  {
    var i := if e.Deliver? then e.m.to else e.node;
    if !e.ReadyRound? && !e.TransferTimeout? && i == j {
      InputTouches(s, e, i);
    }
  }

  lemma NextTouches(s: State, s': State, j: NodeId)
    requires Next(s, s') && j in s'.nodes && (j in s.nodes && s.nodes[j].role != Leader)
    ensures SameOthers(s.nodes[j], s'.nodes[j])
  {
    var e :| Enabled(s, e) && s' == After(s, e);
    EventTouches(s, e, j);
  }

  lemma SameNodes(s: State, s': State)
    requires Next(s, s')
    ensures s'.nodes.Keys == s.nodes.Keys
  {
  }

  predicate Untouched(n: Node) {
    n.role != Leader && forall p :: p in n.prs && p != n.id ==> n.prs[p].matched == 0
  }

  lemma FreshUntouched(s: State, i: NodeId)
    requires Init(s) && i in s.nodes
    ensures Untouched(s.nodes[i])
  {
    assert FreshNode(s.nodes[i], i, s.peers);
  }

  lemma UntouchedStays(s: State, s': State, i: NodeId)
    requires Next(s, s') && i in s'.nodes && !TakesOffice(s, s', i)
    requires i in s.nodes && Untouched(s.nodes[i])
    ensures Untouched(s'.nodes[i])
  {
    NextTouches(s, s', i);
  }

  lemma {:induction false} NeverElected(run: seq<State>, k: nat, i: NodeId)
    requires IsRun(run) && k < |run| && i in run[k].nodes
    requires forall l: nat :: l < k ==> !ElectedAt(run, l, i)
    ensures Untouched(run[k].nodes[i])
  {
    if k == 0 {
      FreshUntouched(run[0], i);
    } else {
      var l := k - 1;
      assert Next(run[l], run[l + 1]);
      SameNodes(run[l], run[l + 1]);
      NeverElected(run, l, i);
      assert !ElectedAt(run, l, i);
      UntouchedStays(run[l], run[l + 1], i);
    }
  }

  /** If no node is elected twice, elections are fresh. */
  lemma ElectedOnceIsFresh(run: seq<State>)
    requires IsRun(run) && ElectedAtMostOnce(run)
    ensures FreshElections(run)
  {
    forall k: nat, i | ElectedAt(run, k, i)
      ensures NoStaleMatch(run[k].nodes[i])
    {
      NeverElected(run, k, i);
    }
  }

  lemma StaleIsUnbacked(s: State, h: History, i: NodeId, p: NodeId)
    requires Inv(s, h) && i in s.nodes && Fits(s, i)
    requires s.nodes[i].role == Candidate && s.nodes[i].term !in h.reigns
    requires p in s.nodes[i].prs && p != i && s.nodes[i].prs[p].matched > |s.nodes[i].log.entries|
    ensures !MatchesOk(Elected(h, s.nodes[i]), BecomeLeader(s.nodes[i]))
  {
    assert Satisfies(s, h, Acknowledging);
    NoAckYet(s, h, Ack(p, s.nodes[i].term));
    assert !MatchOk(Elected(h, s.nodes[i]), BecomeLeader(s.nodes[i]), p);
  }

  lemma FreshIsBacked(h: History, n: Node)
    requires ValidNode(n) && NodeShape(n) && NoStaleMatch(n)
    ensures MatchesOk(Elected(h, n), BecomeLeader(n))
  {
    ElectedMatches(h, n);
    SameMatchesOk(Elected(h, n), TakeOffice(n), BecomeLeader(n));
  }

  lemma NotYetElected(s: State, h: History, i: NodeId)
    requires Inv(s, h) && i in s.nodes && Fits(s, i)
    requires s.nodes[i].role == Candidate && Wins(s.nodes[i].votes, |s.peers|)
    ensures s.nodes[i].term !in h.reigns
  {
    NodeFacts(s, h, i);
    WinIsMajority(s, h, i);
    assert Satisfies(s, h, Elections);
    Unelected(s, h, i);
  }

  /** The exact meaning of the hypothesis for one election: the match indices a
      new leader works with are backed by acknowledgements of its term, or too
      low to matter, if and only if none of them exceeded its log. */
  lemma StaleMatchExactly(s: State, h: History, i: NodeId)
    requires Inv(s, h) && i in s.nodes && Fits(s, i)
    requires s.nodes[i].role == Candidate && Wins(s.nodes[i].votes, |s.peers|)
    ensures MatchesOk(Elected(h, s.nodes[i]), BecomeLeader(s.nodes[i])) <==> NoStaleMatch(s.nodes[i])
  {
    var n := s.nodes[i];
    NodeFacts(s, h, i);
    if NoStaleMatch(n) {
      FreshIsBacked(h, n);
    } else {
      NotYetElected(s, h, i);
      var p :| p in n.prs && p != n.id && n.prs[p].matched > |n.log.entries|;
      StaleIsUnbacked(s, h, i, p);
    }
  }
}
