/** What a successful append reply means. The reply carries the responder's last
    index, which may lie beyond the entries of the append it answers. */
module AckSoundness {
  import opened RaftTypes
  import opened LogSpec
  import opened LogFacts
  import opened NodeSpec
  import opened Cluster
  import opened History
  import opened Actions
  import opened Runs
  import opened Safety

  predicate IsAck(m: Message) { m.body.AppendResponse? && !m.body.reject }

  predicate NoAcks(ms: seq<Message>) { forall m :: m in ms ==> !IsAck(m) }

  /** Every acknowledgement in the outbox speaks for the node as it is. */
  predicate OwnAcks(n: Node) {
    forall m :: m in n.msgs && IsAck(m) ==>
      m.from == n.id && m.term == n.term && m.body.index == LastIndexOr0(n.log)
  }

  lemma BroadcastNoAcks(n: Node)
    requires ValidNode(n)
    ensures NoAcks(AppendsTo(n, n.peers))
  {
    forall m | m in AppendsTo(n, n.peers)
      ensures !IsAck(m)
    {
      var p := AppendsReach(n, n.peers, m);
    }
  }

  lemma OthersNoAcks(n: Node, body: Body)
    requires !body.AppendResponse?
    ensures NoAcks(ToOthers(n, n.peers, body))
  {
    forall m | m in ToOthers(n, n.peers, body)
      ensures !IsAck(m)
    {
      OthersReached(n, n.peers, body, m);
    }
  }

  lemma LeaderAcks(n: Node)
    requires ValidNode(n) && n.msgs == []
    ensures NoAcks(BecomeLeader(n).msgs)
  {
    BroadcastNoAcks(TakeOffice(n));
  }

  lemma ElectionAcks(n: Node)
    requires ValidNode(n) && n.msgs == []
    ensures NoAcks(DoElection(n).msgs)
  {
    var c := BecomeCandidate(n);
    LeaderAcks(c);
    var last := LastIndex(c.log);
    OthersNoAcks(c, RequestVote(TermOf(c.log, last), last));
  }

  lemma AppendAcks(n: Node, m: Message)
    requires ValidNode(n) && m.body.Append? && n.msgs == []
    ensures OwnAcks(HandleAppendEntries(n, m))
  {
  }

  lemma ResponseAcks(n: Node, m: Message, relaxed: bool)
    requires ValidNode(n) && m.body.AppendResponse? && m.from in n.prs && n.msgs == []
    ensures NoAcks(HandleAppendEntriesResponse(n, m, relaxed).msgs)
  {
    if !m.body.reject && m.body.index > n.prs[m.from].matched {
      var x := SetMatch(n, m.from, m.body.index);
      BroadcastNoAcks(x.(log := x.log.(committed := CommitCandidate(x, relaxed))));
      assert NoAcks(LeaderCommit(x, relaxed).msgs);
    }
  }

  lemma ProposalAcks(n: Node, es: seq<Entry>)
    requires ValidNode(n) && n.msgs == []
    ensures NoAcks(AppendEntries(n, es).msgs)
  {
    var a := PushProposals(n, es, LastIndex(n.log));
    PushSilent(n, es, LastIndex(n.log));
    BroadcastNoAcks(SetMatch(a, a.id, LastIndex(a.log)));
  }

  lemma PushSilent(n: Node, es: seq<Entry>, last: nat)
    requires ValidNode(n)
    ensures PushProposals(n, es, last).msgs == n.msgs
    decreases |es|
  {
  }

  lemma FollowerAcks(n: Node, m: Message)
    requires ValidNode(n) && n.msgs == []
    ensures OwnAcks(StepFollower(n, m))
  {
    match m.body
    case Hup => ElectionAcks(n);
    case TimeoutNow => ElectionAcks(n);
    case Append(_, _, _, _) => AppendAcks(n, m);
    case _ =>
  }

  lemma CandidateAcks(n: Node, m: Message)
    requires ValidNode(n) && n.msgs == []
    ensures OwnAcks(StepCandidate(n, m))
  {
    match m.body
    case Hup => ElectionAcks(n);
    case Append(_, _, _, _) =>
      AppendAcks(if m.term == n.term then BecomeFollower(n, m.term, m.from) else n, m);
    case RequestVoteResponse(_) =>
      LeaderAcks(n.(votes := n.votes[m.from := !m.body.reject]));
    case _ =>
  }

  lemma LeaderStepAcks(n: Node, m: Message, relaxed: bool)
    requires ValidNode(n) && FromPeer(n, m) && n.msgs == []
    ensures OwnAcks(StepLeader(n, m, relaxed))
  {
    match m.body
    case Beat => OthersNoAcks(n, Heartbeat);
    case Propose(es) => ProposalAcks(n, es);
    case Append(_, _, _, _) => AppendAcks(n, m);
    case AppendResponse(_, _, _) => ResponseAcks(n, m, relaxed);
    case _ =>
  }

  lemma StepAcks(n: Node, m: Message, relaxed: bool)
    requires ValidNode(n) && FromPeer(n, m) && n.msgs == []
    ensures OwnAcks(Step(n, m, relaxed))
  {
    var o := Observe(n, m.term);
    match o.role
    case Follower => FollowerAcks(o, m);
    case Candidate => CandidateAcks(o, m);
    case Leader => LeaderStepAcks(o, m, relaxed);
  }

  /** The messages that event `e` makes a node send. */
  function Emitted(s: State, e: Event): seq<Message>
    requires WellFormed(s) && Enabled(s, e)
  {
    match e
    case Deliver(m, relaxed) =>
      assert Fits(s, m.to);
      assert m.from in s.peers;
      Step(s.nodes[m.to], m, relaxed).msgs
    case TransferTimeout(_) => []
    case ReadyRound(_) => []
    case _ =>
      assert Fits(s, e.node);
      Step(s.nodes[e.node], LocalMessage(e), false).msgs
  }

  ghost predicate Takes(s: State, e: Event, s': State) { WellFormed(s) && Enabled(s, e) && s' == After(s, e) }

  lemma StepTaken(s: State, e: Event) returns (i: NodeId, n': Node)
    requires WellFormed(s) && Enabled(s, e) && !e.ReadyRound?
    ensures i in s.nodes && After(s, e) == Install(s, i, n') && n'.msgs == Emitted(s, e) && OwnAcks(n')
  {
    i := if e.Deliver? then e.m.to else e.node;
    assert Fits(s, i);
    if e.TransferTimeout? {
      n' := s.nodes[i].(transferee := NONE);
    } else {
      var m := if e.Deliver? then e.m else LocalMessage(e);
      assert FromPeer(s.nodes[i], m);
      var relaxed := e.Deliver? && e.relaxed;
      n' := Step(s.nodes[i], m, relaxed);
      StepAcks(s.nodes[i], m, relaxed);
    }
  }

  lemma InstalledAck(s: State, i: NodeId, n': Node, m: Message)
    requires i in s.nodes && OwnAcks(n') && Addressed(Install(s, i, n')) && m in n'.msgs && IsAck(m)
    ensures m.from == i && n'.term == m.term && m.body.index == LastIndexOr0(n'.log)
    ensures m in Install(s, i, n').net
  {
    var s' := Install(s, i, n');
    assert s'.nodes[i].id == i;
  }

  /** An acknowledgement is sent by the node it names, which is then in the term it
      names and ends at the index it names. */
  lemma AckSent(s: State, e: Event, s': State, m: Message)
    requires Takes(s, e, s') && Addressed(s') && m in Emitted(s, e) && IsAck(m)
    ensures m in s'.net && m.from in s'.nodes
    ensures s'.nodes[m.from].term == m.term && m.body.index == LastIndexOr0(s'.nodes[m.from].log)
  {
    var i, n' := StepTaken(s, e);
    InstalledAck(s, i, n', m);
  }

  /** What is on record of a term was at some moment the log of its leader in
      office. */
  lemma {:induction false} ReignMoment(run: seq<State>, hs: seq<History>, k: nat, t: Term) returns (l: nat)
    requires Chronicle(run, hs) && k < |run| && t in hs[k].reigns
    ensures l <= k && IsLeader(run[l], hs[k].reigns[t].id, t)
    ensures Log(run[l], hs[k].reigns[t].id) == hs[k].reigns[t].log
    decreases k
  {
    var id := hs[k].reigns[t].id;
    if IsLeader(run[k], id, t) {
      l := k;
      Reigning(run[k], hs[k], id);
    } else {
      var j := k - 1;
      assert Succeeds(run[j], hs[j], run[j + 1], hs[j + 1]);
      assert LedIn(run[k], hs[j], hs[k], t);
      l := ReignMoment(run, hs, j, t);
    }
  }

  /** The responder of a successful reply, at the moment it is sent. */
  lemma Responder(run: seq<State>, hs: seq<History>, k: nat, e: Event, m: Message)
    requires Chronicle(run, hs) && k + 1 < |run| && Takes(run[k], e, run[k + 1])
    requires m in Emitted(run[k], e) && IsAck(m)
    ensures m.from in run[k + 1].nodes && |Log(run[k + 1], m.from)| == m.body.index
    ensures m.term in hs[k + 1].reigns && hs[k + 1].reigns[m.term].id == m.to
    ensures Log(run[k + 1], m.from) <= hs[k + 1].reigns[m.term].log
  {
    var h, j := hs[k + 1], m.from;
    assert Satisfies(run[k + 1], h, Elections);
    AckSent(run[k], e, run[k + 1], m);
    MessageFacts(run[k + 1], h, m);
    NodeFacts(run[k + 1], h, j);
    LastIndexOf(run[k + 1].nodes[j].log);
    assert Satisfies(run[k + 1], h, Acknowledging);
    assert AckOk(run[k + 1], h, Ack(j, m.term));
  }

  /** Acknowledgement soundness, for every sending of a successful reply, also of one
      that has been sent before: at that moment the responder's log has exactly as many
      entries as the reply says, and the node it is addressed to was leader of its term
      then or before, with these entries at the start of its log. */
  lemma AckSound(run: seq<State>, k: nat, e: Event, m: Message) returns (l: nat)
    requires IsRun(run) && TallyExact(|run[0].peers|) && k + 1 < |run| && Takes(run[k], e, run[k + 1])
    requires m in Emitted(run[k], e) && IsAck(m)
    ensures m.from in run[k + 1].nodes && |Log(run[k + 1], m.from)| == m.body.index
    ensures l <= k + 1 && IsLeader(run[l], m.to, m.term)
    ensures Log(run[k + 1], m.from) <= Log(run[l], m.to)
  {
    var hs := HistoryOf(run);
    Responder(run, hs, k, e, m);
    l := ReignMoment(run, hs, k + 1, m.term);
  }

  /** The same, seen from any later moment at which the leader is still in office. */
  lemma AckSoundLater(run: seq<State>, k: nat, e: Event, m: Message, l: nat, i: NodeId)
    requires IsRun(run) && TallyExact(|run[0].peers|) && k + 1 <= l < |run| && Takes(run[k], e, run[k + 1])
    requires m in Emitted(run[k], e) && IsAck(m) && IsLeader(run[l], i, m.term)
    ensures m.to == i && m.from in run[k + 1].nodes
    ensures |Log(run[k + 1], m.from)| == m.body.index
    ensures Log(run[k + 1], m.from) <= Log(run[l], i)
  {
    var hs := HistoryOf(run);
    Responder(run, hs, k, e, m);
    HistoryGrows(run, hs, k + 1, l);
    Reigning(run[l], hs[l], i);
  }

  /** What is new on the network was sent by the step. */
  lemma NewIsEmitted(s: State, s': State, m: Message) returns (e: Event)
    requires Next(s, s') && m in s'.net && m !in s.net
    ensures Takes(s, e, s') && m in Emitted(s, e)
  {
    e :| Enabled(s, e) && s' == After(s, e);
    assert !e.ReadyRound?;
    var i, n' := StepTaken(s, e);
  }

  /** In particular for every successful reply that appears on the network. */
  lemma AckSoundNew(run: seq<State>, k: nat, m: Message) returns (l: nat)
    requires IsRun(run) && TallyExact(|run[0].peers|) && k + 1 < |run|
    requires m in run[k + 1].net && m !in run[k].net && IsAck(m)
    ensures m.from in run[k + 1].nodes && |Log(run[k + 1], m.from)| == m.body.index
    ensures l <= k + 1 && IsLeader(run[l], m.to, m.term)
    ensures Log(run[k + 1], m.from) <= Log(run[l], m.to)
  {
    assert Next(run[k], run[k + 1]);
    var e := NewIsEmitted(run[k], run[k + 1], m);
    l := AckSound(run, k, e, m);
  }
}
