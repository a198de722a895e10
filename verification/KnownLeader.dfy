/** What a node believes about its leader is true, and only leaders keep a transfer
    target. */
module KnownLeader {
  import opened RaftTypes
  import opened LogSpec
  import opened NodeSpec
  import opened Cluster
  import opened History
  import opened Actions
  import opened Runs
  import opened Safety
  import opened AckSoundness

  /** Appends and heartbeats are a leader's messages. */
  predicate Commanding(m: Message) { m.body.Append? || m.body.Heartbeat? }

  /** A leader's messages in the outbox are the node's own, and it leads. */
  predicate OwnCommands(n: Node) {
    forall m :: m in n.msgs && Commanding(m) ==> m.from == n.id && m.term == n.term && n.role == Leader
  }

  /** The leader `n'` knows of: none, the one `n` knew in the same term, itself in office,
      or the sender of a leader's message of the term. */
  predicate LeadFrom(n: Node, m: Message, n': Node) {
    || n'.lead == NONE
    || (n'.lead == n.lead && n'.term == n.term)
    || (n'.lead == n'.id && n'.role == Leader)
    || (n'.lead == m.from && n'.term == m.term && Commanding(m))
  }

  predicate Knows(n: Node, m: Message, n': Node) {
    OwnCommands(n') && LeadFrom(n, m, n') && (n'.transferee == NONE || n'.role == Leader)
  }

  predicate Idle(n: Node) { n.transferee == NONE || n.role == Leader }

  lemma BroadcastCommands(n: Node)
    requires ValidNode(n) && n.role == Leader && OwnCommands(n)
    ensures OwnCommands(BcastAppend(n))
  {
    forall m | m in AppendsTo(n, n.peers)
      ensures m.from == n.id && m.term == n.term
    {
      var p := AppendsReach(n, n.peers, m);
    }
  }

  lemma OfficeCommands(n: Node)
    requires ValidNode(n) && n.msgs == []
    ensures OwnCommands(BecomeLeader(n)) && BecomeLeader(n).role == Leader
    ensures BecomeLeader(n).lead == n.id == BecomeLeader(n).id
  {
    BroadcastCommands(TakeOffice(n));
  }

  lemma ElectionKnows(n: Node, m: Message)
    requires ValidNode(n) && n.msgs == [] && n.transferee == NONE
    ensures Knows(n, m, DoElection(n))
  {
    var c := BecomeCandidate(n);
    OfficeCommands(c);
    if |n.peers| != 1 {
      var last := LastIndex(c.log);
      forall r | r in DoElection(n).msgs
        ensures !Commanding(r)
      {
        OthersReached(c, c.peers, RequestVote(TermOf(c.log, last), last), r);
      }
    }
  }

  lemma AppendKnows(n: Node, m: Message)
    requires ValidNode(n) && n.msgs == [] && Idle(n) && m.body.Append? && m.term != NONE && m.term <= n.term
    ensures Knows(n, m, HandleAppendEntries(n, m))
  {
  }

  lemma ResponseKnows(n: Node, m: Message, relaxed: bool)
    requires ValidNode(n) && n.msgs == [] && n.role == Leader && m.body.AppendResponse? && m.from in n.prs
    ensures Knows(n, m, HandleAppendEntriesResponse(n, m, relaxed))
  {
    if !m.body.reject && m.body.index > n.prs[m.from].matched {
      var x := SetMatch(n, m.from, m.body.index);
      BroadcastCommands(x.(log := x.log.(committed := CommitCandidate(x, relaxed))));
      assert OwnCommands(LeaderCommit(x, relaxed));
    }
  }

  lemma ProposalKnows(n: Node, m: Message, es: seq<Entry>)
    requires ValidNode(n) && n.msgs == [] && n.role == Leader
    ensures Knows(n, m, AppendEntries(n, es))
  {
    var a := PushProposals(n, es, LastIndex(n.log));
    PushIdentity(n, es, LastIndex(n.log));
    BroadcastCommands(SetMatch(a, a.id, LastIndex(a.log)));
  }

  lemma PushIdentity(n: Node, es: seq<Entry>, last: nat)
    requires ValidNode(n)
    ensures var a := PushProposals(n, es, last); a == n.(pendingConf := a.pendingConf, log := a.log)
    decreases |es|
  {
  }

  lemma FollowerKnows(n: Node, m: Message)
    requires ValidNode(n) && n.msgs == [] && n.transferee == NONE && n.role == Follower
    requires Commanding(m) ==> m.term != NONE && m.term <= n.term
    ensures Knows(n, m, StepFollower(n, m))
  {
    match m.body
    case Hup => ElectionKnows(n, m);
    case TimeoutNow => ElectionKnows(n, m);
    case Append(_, _, _, _) => AppendKnows(n, m);
    case _ =>
  }

  lemma TallyKnows(n: Node, m: Message)
    requires ValidNode(n) && n.msgs == [] && n.transferee == NONE && m.body.RequestVoteResponse?
    ensures Knows(n, m, HandleRequestVoteResponse(n, m))
  {
    var c := n.(votes := n.votes[m.from := !m.body.reject]);
    if !(m.term != NONE && m.term < n.term) && Wins(c.votes, |c.peers|) {
      assert HandleRequestVoteResponse(n, m) == BecomeLeader(c);
      OfficeKnows(n, m, c);
    }
  }

  lemma OfficeKnows(n: Node, m: Message, c: Node)
    requires ValidNode(c) && c.msgs == [] && c.transferee == NONE
    ensures Knows(n, m, BecomeLeader(c))
  {
    OfficeCommands(c);
  }

  lemma CandidateKnows(n: Node, m: Message)
    requires ValidNode(n) && n.msgs == [] && n.transferee == NONE && n.role == Candidate
    requires Commanding(m) ==> m.term != NONE && m.term <= n.term
    ensures Knows(n, m, StepCandidate(n, m))
  {
    match m.body
    case Hup => ElectionKnows(n, m);
    case Append(_, _, _, _) =>
      AppendKnows(if m.term == n.term then BecomeFollower(n, m.term, m.from) else n, m);
    case RequestVoteResponse(_) => TallyKnows(n, m);
    case _ =>
  }

  lemma LeaderKnows(n: Node, m: Message, relaxed: bool)
    requires ValidNode(n) && n.msgs == [] && n.role == Leader && FromPeer(n, m)
    requires Commanding(m) ==> m.term != NONE && m.term <= n.term
    ensures Knows(n, m, StepLeader(n, m, relaxed))
  {
    match m.body
    case Beat =>
      forall r | r in ToOthers(n, n.peers, Heartbeat)
        ensures r.from == n.id && r.term == n.term
      {
        OthersReached(n, n.peers, Heartbeat, r);
      }
    case Propose(es) => ProposalKnows(n, m, es);
    case Append(_, _, _, _) => AppendKnows(n, m);
    case AppendResponse(_, _, _) => ResponseKnows(n, m, relaxed);
    case _ =>
  }

  lemma StepKnows(n: Node, m: Message, relaxed: bool)
    requires ValidNode(n) && n.msgs == [] && Idle(n) && FromPeer(n, m) && (Commanding(m) ==> m.term != NONE)
    ensures Knows(n, m, Step(n, m, relaxed))
  {
    var o := Observe(n, m.term);
    match o.role
    case Follower => FollowerKnows(o, m);
    case Candidate => CandidateKnows(o, m);
    case Leader => LeaderKnows(o, m, relaxed);
  }

  // ----- Runs -----

  /** Node `i` was leader of term `t` at moment `k` or before. */
  ghost predicate WasLeader(run: seq<State>, k: nat, i: NodeId, t: Term)
    requires k < |run|
  {
    exists l: nat :: l <= k && IsLeader(run[l], i, t)
  }

  ghost predicate KnownTo(run: seq<State>, k: nat, i: NodeId)
    requires k < |run| && i in run[k].nodes
  {
    var n := run[k].nodes[i];
    Idle(n) && (n.lead != NONE ==> WasLeader(run, k, n.lead, n.term))
  }

  ghost predicate SentByLeader(run: seq<State>, k: nat, m: Message)
    requires k < |run|
  {
    Commanding(m) ==> WasLeader(run, k, m.from, m.term)
  }

  ghost predicate Informed(run: seq<State>, k: nat)
    requires k < |run|
  {
    && (forall i {:trigger KnownTo(run, k, i)} :: i in run[k].nodes ==> KnownTo(run, k, i))
    && (forall m {:trigger SentByLeader(run, k, m)} :: m in run[k].net ==> SentByLeader(run, k, m))
  }

  lemma StillWas(run: seq<State>, k: nat, i: NodeId, t: Term)
    requires k + 1 < |run| && WasLeader(run, k, i, t)
    ensures WasLeader(run, k + 1, i, t)
  {
    var l: nat :| l <= k && IsLeader(run[l], i, t);
    assert l <= k + 1 && IsLeader(run[l], i, t);
  }

  /** The node that moves, with its input `m`. */
  lemma MoverInformed(run: seq<State>, k: nat, i: NodeId, m: Message, n': Node)
    requires k + 1 < |run| && i in run[k].nodes && run[k + 1] == Install(run[k], i, n') && n'.id == i
    requires KnownTo(run, k, i) && Knows(run[k].nodes[i], m, n') && SentByLeader(run, k, m)
    ensures KnownTo(run, k + 1, i)
    ensures forall r :: r in n'.msgs ==> SentByLeader(run, k + 1, r)
  {
    assert n'.role == Leader ==> IsLeader(run[k + 1], i, n'.term);
    assert n'.role == Leader ==> WasLeader(run, k + 1, i, n'.term);
    if WasLeader(run, k, n'.lead, n'.term) {
      StillWas(run, k, n'.lead, n'.term);
    }
  }

  lemma InstallInformed(run: seq<State>, k: nat, i: NodeId, n': Node)
    requires k + 1 < |run| && i in run[k].nodes && run[k + 1] == Install(run[k], i, n')
    requires Informed(run, k) && KnownTo(run, k + 1, i)
    requires forall r :: r in n'.msgs ==> SentByLeader(run, k + 1, r)
    ensures Informed(run, k + 1)
  {
    var l := k + 1;
    forall j | j in run[l].nodes
      ensures KnownTo(run, l, j)
    {
      if j != i {
        assert KnownTo(run, k, j);
        var n := run[k].nodes[j];
        if n.lead != NONE {
          StillWas(run, k, n.lead, n.term);
        }
      }
    }
    forall m | m in run[l].net
      ensures SentByLeader(run, l, m)
    {
      if m in run[k].net {
        assert SentByLeader(run, k, m);
        if Commanding(m) {
          StillWas(run, k, m.from, m.term);
        }
      }
    }
  }

  /** An event that steps a node: which, and with which input. */
  lemma InputTaken(s: State, e: Event) returns (i: NodeId, m: Message, relaxed: bool)
    requires WellFormed(s) && Enabled(s, e) && !e.ReadyRound? && !e.TransferTimeout?
    ensures i in s.nodes && ValidNode(s.nodes[i]) && s.nodes[i].msgs == [] && FromPeer(s.nodes[i], m)
    ensures After(s, e) == Install(s, i, Step(s.nodes[i], m, relaxed))
    ensures Emitted(s, e) == Step(s.nodes[i], m, relaxed).msgs
    ensures m in s.net || (m.term == NONE && !Commanding(m))
  {
    i := if e.Deliver? then e.m.to else e.node;
    m := if e.Deliver? then e.m else LocalMessage(e);
    relaxed := e.Deliver? && e.relaxed;
    assert Fits(s, i);
  }

  lemma StepTakes(s: State, h: History, e: Event) returns (i: NodeId, m: Message, n': Node)
    requires Inv(s, h) && WellFormed(s) && Enabled(s, e) && !e.ReadyRound? && !e.TransferTimeout?
    ensures i in s.nodes && After(s, e) == Install(s, i, n') && (m in s.net || !Commanding(m))
    ensures Idle(s.nodes[i]) ==> Knows(s.nodes[i], m, n')
  {
    var relaxed;
    i, m, relaxed := InputTaken(s, e);
    if m in s.net {
      MessageFacts(s, h, m);
    }
    n' := Step(s.nodes[i], m, relaxed);
    if Idle(s.nodes[i]) {
      StepKnows(s.nodes[i], m, relaxed);
    }
  }

  lemma InputInformed(run: seq<State>, h: History, k: nat, e: Event)
    requires k + 1 < |run| && Inv(run[k], h) && Takes(run[k], e, run[k + 1]) && Informed(run, k)
    requires Addressed(run[k + 1]) && !e.ReadyRound? && !e.TransferTimeout?
    ensures Informed(run, k + 1)
  {
    var i, m, n' := StepTakes(run[k], h, e);
    assert KnownTo(run, k, i) && SentByLeader(run, k, m);
    assert run[k + 1].nodes[i].id == i;
    MoverInformed(run, k, i, m, n');
    InstallInformed(run, k, i, n');
  }

  lemma ExpiryInformed(run: seq<State>, k: nat, i: NodeId)
    requires k + 1 < |run| && Takes(run[k], TransferTimeout(i), run[k + 1]) && Informed(run, k)
    ensures Informed(run, k + 1)
  {
    var n' := run[k].nodes[i].(transferee := NONE);
    assert Fits(run[k], i) && KnownTo(run, k, i);
    MoverInformed(run, k, i, Message(NONE, NONE, NONE, Hup), n');
    InstallInformed(run, k, i, n');
  }

  lemma RoundInformed(run: seq<State>, k: nat, i: NodeId)
    requires k + 1 < |run| && Takes(run[k], ReadyRound(i), run[k + 1]) && Informed(run, k)
    ensures Informed(run, k + 1)
  {
    var l := k + 1;
    forall j | j in run[l].nodes
      ensures KnownTo(run, l, j)
    {
      assert KnownTo(run, k, j);
      var n := run[k].nodes[j];
      if n.lead != NONE {
        StillWas(run, k, n.lead, n.term);
      }
    }
    forall m | m in run[l].net
      ensures SentByLeader(run, l, m)
    {
      assert SentByLeader(run, k, m);
      if Commanding(m) {
        StillWas(run, k, m.from, m.term);
      }
    }
  }

  lemma EventInformed(run: seq<State>, h: History, k: nat, e: Event)
    requires k + 1 < |run| && Inv(run[k], h) && Takes(run[k], e, run[k + 1]) && Informed(run, k)
    requires Addressed(run[k + 1])
    ensures Informed(run, k + 1)
  {
    if e.ReadyRound? {
      RoundInformed(run, k, e.node);
    } else if e.TransferTimeout? {
      ExpiryInformed(run, k, e.node);
    } else {
      InputInformed(run, h, k, e);
    }
  }

  lemma {:induction false} AlwaysInformed(run: seq<State>, hs: seq<History>, k: nat)
    requires IsRun(run) && Chronicle(run, hs) && k < |run|
    ensures Informed(run, k)
    decreases k
  {
    if k > 0 {
      var j := k - 1;
      AlwaysInformed(run, hs, j);
      assert Next(run[j], run[j + 1]);
      var e :| Enabled(run[j], e) && run[k] == After(run[j], e);
      assert Satisfies(run[k], hs[k], Elections);
      EventInformed(run, hs[j], j, e);
    } else {
      forall i | i in run[0].nodes
        ensures KnownTo(run, 0, i)
      {
        assert FreshNode(run[0].nodes[i], i, run[0].peers);
      }
    }
  }

  /** The leader a node knows of was leader of the node's term, then or before. */
  lemma LeadIsTrue(run: seq<State>, k: nat, i: NodeId) returns (l: nat)
    requires IsRun(run) && TallyExact(|run[0].peers|) && k < |run| && i in run[k].nodes
    requires run[k].nodes[i].lead != NONE
    ensures l <= k && IsLeader(run[l], run[k].nodes[i].lead, run[k].nodes[i].term)
  {
    var hs := HistoryOf(run);
    AlwaysInformed(run, hs, k);
    assert KnownTo(run, k, i);
    l :| l <= k && IsLeader(run[l], run[k].nodes[i].lead, run[k].nodes[i].term);
  }

  /** So nodes in the same term never name different leaders, at whatever moments. */
  lemma LeadsAgree(run: seq<State>, k: nat, l: nat, i: NodeId, j: NodeId)
    requires IsRun(run) && TallyExact(|run[0].peers|) && k < |run| && l < |run|
    requires i in run[k].nodes && j in run[l].nodes && run[k].nodes[i].term == run[l].nodes[j].term
    requires run[k].nodes[i].lead != NONE && run[l].nodes[j].lead != NONE
    ensures run[k].nodes[i].lead == run[l].nodes[j].lead
  {
    var k' := LeadIsTrue(run, k, i);
    var l' := LeadIsTrue(run, l, j);
    ElectionSafety(run, k', l', run[k].nodes[i].lead, run[l].nodes[j].lead, run[k].nodes[i].term);
  }

  /** Every append and every heartbeat comes from a node that was leader of its term. */
  lemma CommandsAreLeaders(run: seq<State>, k: nat, m: Message) returns (l: nat)
    requires IsRun(run) && TallyExact(|run[0].peers|) && k < |run| && m in run[k].net && Commanding(m)
    ensures l <= k && IsLeader(run[l], m.from, m.term)
  {
    var hs := HistoryOf(run);
    AlwaysInformed(run, hs, k);
    assert SentByLeader(run, k, m);
    l :| l <= k && IsLeader(run[l], m.from, m.term);
  }

  /** Only a leader waits for a transfer, so no new leader turns proposals away. */
  lemma OnlyLeadersTransfer(run: seq<State>, k: nat, i: NodeId)
    requires IsRun(run) && TallyExact(|run[0].peers|) && k < |run| && i in run[k].nodes
    ensures run[k].nodes[i].transferee != NONE ==> run[k].nodes[i].role == Leader
  {
    var hs := HistoryOf(run);
    AlwaysInformed(run, hs, k);
    assert KnownTo(run, k, i);
  }
}
