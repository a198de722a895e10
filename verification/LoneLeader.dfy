/** A cluster of one node: its leader commits everything at once. */
module LoneLeader {
  import opened RaftTypes
  import opened NodeSpec
  import opened Cluster
  import opened History
  import opened HistoryFacts
  import opened Actions
  import opened Reigns
  import opened Runs

  predicate Up(n: Node) { n.role == Leader ==> n.log.committed == |n.log.entries| }

  predicate AllUp(s: State) { forall i {:trigger Up(s.nodes[i])} :: i in s.nodes ==> Up(s.nodes[i]) }

  lemma OfficeUp(n: Node)
    requires ValidNode(n) && NodeShape(n) && |n.peers| == 1
    ensures Up(BecomeLeader(n))
  {
    Lookups(n);
  }

  lemma ElectionUp(n: Node)
    requires ValidNode(n) && NodeShape(n) && |n.peers| == 1
    ensures Up(DoElection(n))
  {
    OfficeUp(BecomeCandidate(n));
  }

  lemma ProposalUp(n: Node, e: Entry)
    requires ValidNode(n) && NodeShape(n) && |n.peers| == 1
    ensures Up(AppendEntries(n, [e]))
  {
    var b := ProposedForm(n, e);
  }

  /** What reaches the only node: local inputs, and its own transfer messages. */
  predicate LoneInput(n: Node, m: Message) {
    && m.term == NONE && (IsLocal(m.body) || m.body.TransferLeader? || m.body.TimeoutNow?)
    && (m.body.Propose? ==> |m.body.proposal| == 1) && (m.body.TransferLeader? ==> m.from == n.id)
  }

  lemma StepUp(n: Node, m: Message, relaxed: bool)
    requires ValidNode(n) && NodeShape(n) && |n.peers| == 1 && LoneInput(n, m) && FromPeer(n, m) && Up(n)
    ensures Up(Step(n, m, relaxed))
  {
    assert Observe(n, m.term) == n;
    match m.body
    case Hup => ElectionUp(n);
    case TimeoutNow => ElectionUp(n);
    case Propose(es) =>
      assert es == [es[0]];
      ProposalUp(n, es[0]);
    case _ =>
  }

  lemma Alone(s: State, i: NodeId, j: NodeId)
    requires WellFormed(s) && |s.peers| == 1 && i in s.nodes && j in s.nodes
    ensures i == j == s.peers[0]
  {
  }

  lemma InstallUp(s: State, i: NodeId, n': Node)
    requires i in s.nodes && AllUp(s) && Up(n')
    ensures AllUp(Install(s, i, n'))
  {
    forall j | j in Install(s, i, n').nodes
      ensures Up(Install(s, i, n').nodes[j])
    {
      if j != i {
        assert Up(s.nodes[j]);
      }
    }
  }

  lemma RoundUp(s: State, i: NodeId)
    requires WellFormed(s) && Enabled(s, ReadyRound(i)) && AllUp(s)
    ensures AllUp(After(s, ReadyRound(i)))
  {
    var s' := AfterReady(s, i);
    forall j | j in s'.nodes
      ensures Up(s'.nodes[j])
    {
      assert Up(s.nodes[j]);
    }
  }

  /** What an event feeds the only node. */
  lemma LoneInputs(s: State, h: History, e: Event, i: NodeId, m: Message)
    requires Inv(s, h) && WellFormed(s) && Enabled(s, e) && |s.peers| == 1 && i in s.nodes
    requires !e.ReadyRound? && !e.TransferTimeout? && m == if e.Deliver? then e.m else LocalMessage(e)
    ensures LoneInput(s.nodes[i], m)
  {
    assert s.nodes[i].id == i;
    if e.Deliver? {
      MessageFacts(s, h, m);
      Alone(s, m.from, m.to);
      Alone(s, m.from, i);
    } else if e.ClientTransfer? {
      Alone(s, m.from, i);
    }
  }

  lemma EventUp(s: State, h: History, e: Event)
    requires Inv(s, h) && WellFormed(s) && Enabled(s, e) && |s.peers| == 1 && AllUp(s)
    ensures AllUp(After(s, e))
  {
    if e.ReadyRound? {
      RoundUp(s, e.node);
    } else if e.TransferTimeout? {
      assert Up(s.nodes[e.node]);
      InstallUp(s, e.node, s.nodes[e.node].(transferee := NONE));
    } else {
      InputUp(s, h, e);
    }
  }

  lemma InputUp(s: State, h: History, e: Event)
    requires Inv(s, h) && WellFormed(s) && Enabled(s, e) && |s.peers| == 1 && AllUp(s)
    requires !e.ReadyRound? && !e.TransferTimeout?
    ensures AllUp(After(s, e))
  {
    var i := if e.Deliver? then e.m.to else e.node;
    var m := if e.Deliver? then e.m else LocalMessage(e);
    NodeFacts(s, h, i);
    LoneInputs(s, h, e, i, m);
    assert Up(s.nodes[i]);
    StepUp(s.nodes[i], m, e.Deliver? && e.relaxed);
    InstallUp(s, i, Step(s.nodes[i], m, e.Deliver? && e.relaxed));
  }

  lemma {:induction false} AlwaysUp(run: seq<State>, hs: seq<History>, k: nat)
    requires IsRun(run) && Chronicle(run, hs) && k < |run| && |run[0].peers| == 1
    ensures AllUp(run[k]) && run[k].peers == run[0].peers
    decreases k
  {
    if k > 0 {
      var j := k - 1;
      AlwaysUp(run, hs, j);
      assert Next(run[j], run[j + 1]);
      var e :| Enabled(run[j], e) && run[k] == After(run[j], e);
      EventUp(run[j], hs[j], e);
    } else {
      forall i | i in run[0].nodes
        ensures Up(run[0].nodes[i])
      {
        assert FreshNode(run[0].nodes[i], i, run[0].peers);
      }
    }
  }

  /** In a cluster of one, the leader has committed its whole log in every state of
      every run. */
  lemma LoneLeaderCommits(run: seq<State>, k: nat, i: NodeId)
    requires IsRun(run) && |run[0].peers| == 1 && k < |run|
    requires i in run[k].nodes && run[k].nodes[i].role == Leader
    ensures run[k].nodes[i].log.committed == |Log(run[k], i)|
  {
    var hs := HistoryOf(run);
    AlwaysUp(run, hs, k);
    assert Up(run[k].nodes[i]);
  }
}
