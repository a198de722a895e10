/** One delivery or timeout: which node it steps, and what it leaves. */
module Deliveries {
  import opened RaftTypes
  import opened LogSpec
  import opened NodeSpec
  import opened Cluster
  import opened History
  import opened HistoryFacts
  import opened Actions
  import opened Runs
  import opened AckSoundness

  /** Message `m` is delivered in step `k` of the run. */
  ghost predicate DeliveredAt(run: seq<State>, k: nat, m: Message, relaxed: bool) {
    k + 1 < |run| && Takes(run[k], Deliver(m, relaxed), run[k + 1])
  }

  /** What step `k` sends when it delivers `m`. */
  function Sent(run: seq<State>, k: nat, m: Message, relaxed: bool): seq<Message>
    requires k < |run| && WellFormed(run[k]) && Enabled(run[k], Deliver(m, relaxed))
  {
    Emitted(run[k], Deliver(m, relaxed))
  }

  /** A node of a run, with its log in shape. */
  predicate Sound(s: State, i: NodeId, n: Node) {
    && i in s.nodes && n == s.nodes[i] && n.id == i && n.peers == s.peers && n.msgs == []
    && ValidNode(n) && NodeShape(n)
  }

  /** The receiver before and after the delivery of `m`. */
  lemma Receiver(run: seq<State>, hs: seq<History>, k: nat, m: Message, relaxed: bool) returns (n: Node, n': Node)
    requires Chronicle(run, hs) && DeliveredAt(run, k, m, relaxed)
    ensures Sound(run[k], m.to, n) && m.from in n.prs && FromPeer(n, m) && MessageShape(m)
    ensures m in run[k].net && m.from in run[k].nodes
    ensures n' == Step(n, m, relaxed) && Sent(run, k, m, relaxed) == n'.msgs
    ensures m.to in run[k + 1].nodes && run[k + 1].nodes[m.to] == n'.(msgs := [])
    ensures run[k + 1] == Install(run[k], m.to, n')
  {
    MessageFacts(run[k], hs[k], m);
    NodeFacts(run[k], hs[k], m.to);
    n := run[k].nodes[m.to];
    n' := Step(n, m, relaxed);
  }

  lemma Nothing(s: State, i: NodeId)
    requires i in s.nodes && s.nodes[i].msgs == []
    ensures Install(s, i, s.nodes[i]) == s
  {
    assert Install(s, i, s.nodes[i]).nodes == s.nodes && Install(s, i, s.nodes[i]).net == s.net;
  }

  /** The append that brings peer `p` from `next` on up to the end of the log. */
  function CatchUp(n: Node, p: NodeId, next: nat): Message
    requires 1 <= next <= |n.log.entries| + 1
  {
    var es := n.log.entries;
    Message(n.id, p, n.term, Append(TermAt(es, next - 1), next - 1, es[next - 1..], n.log.committed))
  }

  lemma AppendIsCatchUp(n: Node, p: NodeId)
    requires ValidNode(n) && NodeShape(n) && p in n.prs && 1 <= n.prs[p].next <= |n.log.entries| + 1
    ensures AppendTo(n, p) == CatchUp(n, p, n.prs[p].next)
  {
    Lookups(n);
    var prev := n.prs[p].next - 1;
    assert EntriesAfter(n.log, prev) == n.log.entries[prev..];
  }

  lemma KeepsPeers(s: State, s': State)
    requires Next(s, s')
    ensures s'.peers == s.peers
  {
  }

  lemma {:induction false} SamePeers(run: seq<State>, k: nat)
    requires IsRun(run) && k < |run|
    ensures run[k].peers == run[0].peers
    decreases k
  {
    if k > 0 {
      var j := k - 1;
      SamePeers(run, j);
      assert Next(run[j], run[j + 1]);
      KeepsPeers(run[j], run[k]);
    }
  }
}
