/** What every other message and timeout of a run brings about: exactly which messages
    are sent, and what becomes of the node. */
module Answers {
  import opened RaftTypes
  import opened NodeSpec
  import opened Cluster
  import opened History
  import opened HistoryFacts
  import opened Actions
  import opened Runs
  import opened Safety
  import opened AckSoundness
  import opened KnownLeader
  import opened Deliveries

  /** A node in a run times out, or a client calls it, in step `k`. */
  ghost predicate CalledAt(run: seq<State>, k: nat, e: Event) {
    && k + 1 < |run| && Takes(run[k], e, run[k + 1])
    && (e.ElectionTimeout? || e.HeartbeatTimeout? || e.ClientPropose? || e.ClientTransfer?)
  }

  /** The node called, before and after. */
  lemma Callee(run: seq<State>, hs: seq<History>, k: nat, e: Event) returns (n: Node, n': Node)
    requires Chronicle(run, hs) && CalledAt(run, k, e)
    ensures Sound(run[k], e.node, n) && FromPeer(n, LocalMessage(e)) && n' == Step(n, LocalMessage(e), false)
    ensures Emitted(run[k], e) == n'.msgs && run[k + 1] == Install(run[k], e.node, n')
    ensures e.node in run[k + 1].nodes && run[k + 1].nodes[e.node] == n'.(msgs := [])
  {
    NodeFacts(run[k], hs[k], e.node);
    n := run[k].nodes[e.node];
    n' := Step(n, LocalMessage(e), false);
  }

  // ----- Votes -----

  /** One log is at least as up to date as another (section 5.4.1 of the Raft paper). */
  predicate AsUpToDate(lastTerm: Term, last: nat, es: seq<Entry>) {
    lastTerm > LastTerm(es) || (lastTerm == LastTerm(es) && last >= |es|)
  }

  /** A node may give its vote in a term to `c`. */
  predicate Free(n: Node, t: Term, c: NodeId) {
    t > n.term || (t == n.term && (n.vote == NONE || n.vote == c))
  }

  lemma VoteGiven(n: Node, m: Message)
    requires ValidNode(n) && NodeShape(n) && m.body.RequestVote? && 1 <= m.term <= n.term && n.msgs == []
    ensures var yes := Free(n, m.term, m.from) && AsUpToDate(m.body.logTerm, m.body.index, n.log.entries);
      HandleRequestVote(n, m) == n.(vote := if yes then m.from else n.vote,
                                    msgs := [Message(n.id, m.from, n.term, RequestVoteResponse(!yes))])
  {
    Lookups(n);
  }

  lemma Votes(n: Node, m: Message, relaxed: bool)
    requires ValidNode(n) && NodeShape(n) && m.body.RequestVote? && m.term >= 1 && n.msgs == []
    ensures var yes := Free(n, m.term, m.from) && AsUpToDate(m.body.logTerm, m.body.index, n.log.entries);
      var o := if m.term > n.term then BecomeFollower(n.(transferee := NONE), m.term, NONE) else n;
      Step(n, m, relaxed) == o.(vote := if yes then m.from else o.vote,
                                msgs := [Message(n.id, m.from, o.term, RequestVoteResponse(!yes))])
  {
    var o := Observe(n, m.term);
    VoteGiven(o, m);
    assert Step(n, m, relaxed) == HandleRequestVote(o, m);
  }

  /** Every vote request delivered is answered by exactly one reply, and the vote is given
      if and only if it is free in that term and the candidate's log is at least as up to
      date. A vote that is given is kept, and nothing else about the voter changes except
      by the higher term. */
  lemma VoteAnswered(run: seq<State>, k: nat, m: Message, relaxed: bool)
    requires IsRun(run) && TallyExact(|run[0].peers|) && DeliveredAt(run, k, m, relaxed) && m.body.RequestVote?
    ensures m.to in run[k].nodes && m.to in run[k + 1].nodes
    ensures var n, n' := run[k].nodes[m.to], run[k + 1].nodes[m.to];
      var yes := Free(n, m.term, m.from) && AsUpToDate(m.body.logTerm, m.body.index, n.log.entries);
      && Sent(run, k, m, relaxed) == [Message(m.to, m.from, n'.term, RequestVoteResponse(!yes))]
      && (yes ==> n'.vote == m.from)
      && (m.term <= n.term ==> n' == n.(vote := n'.vote) && (!yes ==> n' == n))
      && (m.term > n.term ==>
            && n' == n.(role := Follower, term := m.term, lead := NONE, transferee := NONE, vote := n'.vote)
            && (!yes ==> n'.vote == NONE))
  {
    var hs := HistoryOf(run);
    var n, n' := Receiver(run, hs, k, m, relaxed);
    Votes(n, m, relaxed);
  }

  // ----- Campaigns and heartbeats -----

  /** One message with this body to every other peer, and no other message. */
  predicate ToEach(ms: seq<Message>, i: NodeId, peers: seq<NodeId>, t: Term, body: Body) {
    && (forall p :: p in peers && p != i ==> Message(i, p, t, body) in ms)
    && (forall m :: m in ms ==> m.from == i && m.to in peers && m.to != i && m.term == t && m.body == body)
    && |ms| + 1 == |peers|
  }

  lemma {:induction false} OthersCount(n: Node, ps: seq<NodeId>, body: Body)
    requires Distinct(ps)
    ensures |ToOthers(n, ps, body)| + (if n.id in ps then 1 else 0) == |ps|
  {
    if ps != [] {
      OthersCount(n, ps[1..], body);
    }
  }

  lemma OthersAreEach(n: Node, body: Body)
    requires ValidNode(n)
    ensures ToEach(ToOthers(n, n.peers, body), n.id, n.peers, n.term, body)
  {
    var ms := ToOthers(n, n.peers, body);
    OthersCount(n, n.peers, body);
    forall m | m in ms
      ensures m.from == n.id && m.to in n.peers && m.to != n.id && m.term == n.term && m.body == body
    {
      OthersReached(n, n.peers, body, m);
    }
    forall p | p in n.peers && p != n.id
      ensures Message(n.id, p, n.term, body) in ms
    {
      OthersInclude(n, n.peers, body, p);
    }
  }

  /** `n'` is the candidate of the next term, and asks all others for their votes. */
  predicate Stands(n: Node, n': Node, ms: seq<Message>) {
    && n' == n.(role := Candidate, lead := NONE, term := n.term + 1, vote := n.id, votes := map[n.id := true])
    && ToEach(ms, n.id, n.peers, n.term + 1, RequestVote(LastTerm(n.log.entries), |n.log.entries|))
  }

  lemma Campaigns(n: Node)
    requires ValidNode(n) && NodeShape(n) && n.msgs == [] && |n.peers| > 1
    ensures Stands(n, DoElection(n).(msgs := []), DoElection(n).msgs)
  {
    Lookups(n);
    OthersAreEach(BecomeCandidate(n), RequestVote(LastTerm(n.log.entries), |n.log.entries|));
  }

  predicate StandsIf(yes: bool, n: Node, n': Node, ms: seq<Message>) {
    if yes then Stands(n, n', ms) else n' == n && ms == []
  }

  lemma StepCampaigns(n: Node, m: Message, relaxed: bool)
    requires ValidNode(n) && NodeShape(n) && n.msgs == [] && |n.peers| > 1 && m.term == NONE
    requires m.body.Hup? || m.body.TimeoutNow?
    ensures var n' := Step(n, m, relaxed);
      StandsIf(if m.body.Hup? then n.role != Leader else n.role == Follower, n, n'.(msgs := []), n'.msgs)
  {
    Campaigns(n);
    assert Observe(n, m.term) == n;
  }

  /** An election timeout makes every node but a leader a candidate of the next term that
      asks every other peer, and only them, for its vote, with the end of its own log. A
      leader does nothing. */
  lemma TimeoutAnswered(run: seq<State>, k: nat, e: Event)
    requires IsRun(run) && TallyExact(|run[0].peers|) && |run[0].peers| > 1
    requires CalledAt(run, k, e) && e.ElectionTimeout?
    ensures e.node in run[k].nodes && e.node in run[k + 1].nodes
    ensures var n, n', ms := run[k].nodes[e.node], run[k + 1].nodes[e.node], Emitted(run[k], e);
      StandsIf(n.role != Leader, n, n', ms)
  {
    var hs := HistoryOf(run);
    var n, n' := Callee(run, hs, k, e);
    SamePeers(run, k);
    StepCampaigns(n, LocalMessage(e), false);
  }

  /** The same for the message that ends a leadership transfer, at a follower; candidates
      and leaders ignore it. */
  lemma TimeoutNowAnswered(run: seq<State>, k: nat, m: Message, relaxed: bool)
    requires IsRun(run) && TallyExact(|run[0].peers|) && |run[0].peers| > 1
    requires DeliveredAt(run, k, m, relaxed) && m.body.TimeoutNow?
    ensures m.to in run[k].nodes && m.to in run[k + 1].nodes
    ensures var n, n', ms := run[k].nodes[m.to], run[k + 1].nodes[m.to], Sent(run, k, m, relaxed);
      StandsIf(n.role == Follower, n, n', ms)
  {
    var hs := HistoryOf(run);
    var n, n' := Receiver(run, hs, k, m, relaxed);
    SamePeers(run, k);
    StepCampaigns(n, m, relaxed);
  }

  lemma StepBeats(n: Node, m: Message)
    requires ValidNode(n) && n.msgs == [] && m.term == NONE && m.body.Beat?
    ensures var n' := Step(n, m, false);
      n' == n.(msgs := if n.role == Leader then ToOthers(n, n.peers, Heartbeat) else [])
  {
  }

  /** A heartbeat timeout makes a leader send one heartbeat to every other peer, and changes
      nothing else; other nodes do nothing. */
  lemma BeatAnswered(run: seq<State>, k: nat, e: Event)
    requires IsRun(run) && TallyExact(|run[0].peers|) && CalledAt(run, k, e) && e.HeartbeatTimeout?
    ensures e.node in run[k].nodes && e.node in run[k + 1].nodes
    ensures var n, ms := run[k].nodes[e.node], Emitted(run[k], e);
      && run[k + 1].nodes[e.node] == n
      && if n.role == Leader then ToEach(ms, e.node, run[k].peers, n.term, Heartbeat) else ms == []
  {
    var hs := HistoryOf(run);
    var n, n' := Callee(run, hs, k, e);
    StepBeats(n, LocalMessage(e));
    OthersAreEach(n, Heartbeat);
  }

  /** A heartbeat never reaches a leader of its term. */
  lemma NoRivalHeartbeat(run: seq<State>, hs: seq<History>, k: nat, m: Message)
    requires IsRun(run) && TallyExact(|run[0].peers|) && Chronicle(run, hs) && k < |run|
    requires m in run[k].net && m.body.Heartbeat? && m.to in run[k].nodes && run[k].nodes[m.to].role == Leader
    ensures m.term != run[k].nodes[m.to].term
  {
    MessageFacts(run[k], hs[k], m);
    if m.term == run[k].nodes[m.to].term {
      var l := CommandsAreLeaders(run, k, m);
      ElectionSafety(run, l, k, m.from, m.to, m.term);
      assert false;
    }
  }

  lemma Heeds(n: Node, m: Message, relaxed: bool)
    requires ValidNode(n) && FromPeer(n, m) && m.body.Heartbeat? && m.term >= 1 && n.msgs == []
    requires n.role == Leader ==> m.term != n.term
    ensures var n' := Step(n, m, relaxed);
      && n'.msgs == [Message(n.id, m.from, n'.term, HeartbeatResponse(m.term < n.term))]
      && (m.term < n.term ==> n' == n.(msgs := n'.msgs))
      && (m.term >= n.term ==> n'.role == Follower && n'.lead == m.from && n'.term == m.term && n'.log == n.log)
  {
  }

  /** Every heartbeat delivered is answered by exactly one reply, a refusal exactly if its
      term is over; otherwise the receiver is then a follower of the sender, in its term
      and with its log as before. */
  lemma HeartbeatAnswered(run: seq<State>, k: nat, m: Message, relaxed: bool)
    requires IsRun(run) && TallyExact(|run[0].peers|) && DeliveredAt(run, k, m, relaxed) && m.body.Heartbeat?
    ensures m.to in run[k].nodes && m.to in run[k + 1].nodes
    ensures var n, n' := run[k].nodes[m.to], run[k + 1].nodes[m.to];
      && Sent(run, k, m, relaxed) == [Message(m.to, m.from, n'.term, HeartbeatResponse(m.term < n.term))]
      && (m.term < n.term ==> n' == n)
      && (m.term >= n.term ==> n'.role == Follower && n'.lead == m.from && n'.term == m.term && n'.log == n.log)
  {
    var hs := HistoryOf(run);
    var n, n' := Receiver(run, hs, k, m, relaxed);
    if n.role == Leader {
      NoRivalHeartbeat(run, hs, k, m);
    }
    Heeds(n, m, relaxed);
  }

  lemma StepResends(n: Node, m: Message, relaxed: bool)
    requires ValidNode(n) && NodeShape(n) && n.msgs == [] && n.role == Leader && ProgressOk(n)
    requires m.body.HeartbeatResponse? && m.term <= n.term && m.from in n.prs && m.from != n.id
    ensures 1 <= n.prs[m.from].next <= |n.log.entries| + 1
    ensures Step(n, m, relaxed) == n.(msgs := [CatchUp(n, m.from, n.prs[m.from].next)])
  {
    AppendIsCatchUp(n, m.from);
  }

  /** A heartbeat reply makes a leader, unless it shows a higher term, send its sender an
      append from `next` up to the last entry, and changes nothing else. */
  lemma HeartbeatReplyAnswered(run: seq<State>, k: nat, m: Message, relaxed: bool)
    requires IsRun(run) && TallyExact(|run[0].peers|) && DeliveredAt(run, k, m, relaxed)
    requires m.body.HeartbeatResponse? && m.to in run[k].nodes
    requires run[k].nodes[m.to].role == Leader && m.term <= run[k].nodes[m.to].term
    ensures m.to in run[k + 1].nodes && m.from in run[k].nodes[m.to].prs
    ensures var n := run[k].nodes[m.to];
      && run[k + 1].nodes[m.to] == n && 1 <= n.prs[m.from].next <= |n.log.entries| + 1
      && Sent(run, k, m, relaxed) == [CatchUp(n, m.from, n.prs[m.from].next)]
  {
    var hs := HistoryOf(run);
    var n, n' := Receiver(run, hs, k, m, relaxed);
    NodeFacts(run[k], hs[k], m.to);
    StepResends(n, m, relaxed);
  }

  // ----- Higher terms and stray messages -----

  lemma FollowerStays(n: Node, m: Message)
    requires ValidNode(n) && n.role == Follower && !m.body.Hup? && !m.body.TimeoutNow?
    ensures var n' := StepFollower(n, m); n'.role == Follower && n'.term == n.term && n'.transferee == n.transferee
  {
  }

  /** Whatever message shows a node a higher term, the node is then a follower in that term
      and waits for no transfer. */
  lemma HigherTermTaken(run: seq<State>, k: nat, m: Message, relaxed: bool)
    requires IsRun(run) && TallyExact(|run[0].peers|) && DeliveredAt(run, k, m, relaxed)
    requires m.to in run[k].nodes && m.term > run[k].nodes[m.to].term
    ensures m.to in run[k + 1].nodes
    ensures var n' := run[k + 1].nodes[m.to]; n'.role == Follower && n'.term == m.term && n'.transferee == NONE
  {
    var hs := HistoryOf(run);
    var n, n' := Receiver(run, hs, k, m, relaxed);
    FollowerStays(Observe(n, m.term), m);
  }

  /** A reply for which the receiver has no use: it does not count votes, or does not lead,
      or has moved on. */
  predicate Stray(n: Node, m: Message) {
    || (m.body.RequestVoteResponse? && (n.role != Candidate || m.term < n.term))
    || (m.body.AppendResponse? && (n.role != Leader || m.term < n.term))
    || (m.body.HeartbeatResponse? && n.role != Leader)
  }

  lemma StepStray(n: Node, m: Message, relaxed: bool)
    requires ValidNode(n) && FromPeer(n, m) && m.term >= 1 && m.term <= n.term && Stray(n, m)
    ensures Step(n, m, relaxed) == n
  {
  }

  /** Such replies change nothing, unless they show a higher term. */
  lemma StrayIgnored(run: seq<State>, k: nat, m: Message, relaxed: bool)
    requires IsRun(run) && TallyExact(|run[0].peers|) && DeliveredAt(run, k, m, relaxed)
    requires m.to in run[k].nodes && m.term <= run[k].nodes[m.to].term && Stray(run[k].nodes[m.to], m)
    ensures run[k + 1] == run[k] && Sent(run, k, m, relaxed) == []
  {
    var hs := HistoryOf(run);
    var n, n' := Receiver(run, hs, k, m, relaxed);
    StepStray(n, m, relaxed);
    Nothing(run[k], m.to);
  }
}
