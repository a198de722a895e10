/** When a candidate wins and when it gives up. */
module Tallies {
  import opened RaftTypes
  import opened NodeSpec
  import opened Cluster
  import opened History
  import opened Majorities
  import opened Actions
  import opened Runs
  import opened Deliveries

  function Refused(votes: map<NodeId, bool>): set<NodeId> {
    set p | p in votes && !votes[p]
  }

  /** Of `v` votes `g` are grants: the test in eight bits agrees with a majority of refusals. */
  predicate CountsRight(size: nat, v: nat, g: nat) {
    v % 256 - g % 256 > (size / 2) % 256 <==> 2 * (v - g) > size
  }

  lemma SmallCounts(size: nat, v: nat, g: nat)
    requires g <= v <= size < 256
    ensures CountsRight(size, v, g)
  {
    assert v % 256 == v && g % 256 == g && (size / 2) % 256 == size / 2;
  }

  lemma LargeMiscounts(size: nat)
    requires size >= 256
    ensures !CountsRight(size, size - size % 256, 0)
  {
    var v := size - size % 256;
    assert v % 256 == 0 && 2 * v > size;
  }

  /** Subtracting two eight-bit counts means counting the refusals exactly up to 255
      peers. */
  lemma RefusalsCount(size: nat)
    ensures size < 256 <==> forall v: nat, g: nat :: g <= v <= size ==> CountsRight(size, v, g)
  {
    if size >= 256 {
      LargeMiscounts(size);
    } else {
      forall v: nat, g: nat | g <= v <= size
        ensures CountsRight(size, v, g)
      {
        SmallCounts(size, v, g);
      }
    }
  }

  lemma Ballot(votes: map<NodeId, bool>, peers: seq<NodeId>)
    requires Distinct(peers) && votes.Keys <= Members(peers)
    ensures |Granted(votes)| + |Refused(votes)| == |votes| <= |peers|
  {
    assert votes.Keys == Granted(votes) + Refused(votes);
    assert |votes| == |votes.Keys|;
    DistinctSize(peers);
    SubsetSize(votes.Keys, Members(peers));
  }

  /** Up to 255 peers the tests of the tally are majorities of grants and of refusals. */
  lemma Verdicts(votes: map<NodeId, bool>, peers: seq<NodeId>)
    requires Distinct(peers) && votes.Keys <= Members(peers) && |peers| < 256
    ensures Wins(votes, |peers|) <==> 2 * |Granted(votes)| > |peers|
    ensures Loses(votes, |peers|) <==> 2 * |Refused(votes)| > |peers|
    ensures !(2 * |Granted(votes)| > |peers| && 2 * |Refused(votes)| > |peers|)
  {
    Ballot(votes, peers);
    SmallCounts(|peers|, |votes|, |Granted(votes)|);
    assert |Granted(votes)| % 256 == |Granted(votes)| && (|peers| / 2) % 256 == |peers| / 2;
  }

  /** What counting the votes comes to: office for more than half of the peers, stepping
      down within the term when more than half refuse, and otherwise only the record. */
  predicate Decided(n: Node, votes: map<NodeId, bool>, n': Node, ms: seq<Message>) {
    var size := |n.peers|;
    && n'.term == n.term && n'.votes == votes
    && (n'.role == Leader <==> 2 * |Granted(votes)| > size)
    && (n'.role == Follower <==> 2 * |Refused(votes)| > size)
    && (n'.role == Follower ==> n' == n.(role := Follower, votes := votes, vote := NONE, lead := NONE))
    && (n'.role == Candidate ==> n' == n.(votes := votes))
    && (n'.role != Leader ==> ms == [])
  }

  lemma Tallied(n: Node, m: Message, relaxed: bool)
    requires ValidNode(n) && n.role == Candidate && FromPeer(n, m) && n.msgs == []
    requires m.body.RequestVoteResponse? && m.term == n.term
    ensures var n', c := Step(n, m, relaxed), n.(votes := n.votes[m.from := !m.body.reject]);
      if Wins(c.votes, |n.peers|) then n' == BecomeLeader(c)
      else n' == if Loses(c.votes, |n.peers|) then c.(role := Follower, vote := NONE, lead := NONE) else c
  {
  }

  lemma StepTallies(n: Node, m: Message, relaxed: bool)
    requires ValidNode(n) && n.role == Candidate && FromPeer(n, m) && n.msgs == [] && |n.peers| < 256
    requires m.body.RequestVoteResponse? && m.term == n.term
    requires n.votes.Keys + {m.from} <= Members(n.peers)
    ensures var n' := Step(n, m, relaxed);
      Decided(n, n.votes[m.from := !m.body.reject], n'.(msgs := []), n'.msgs)
  {
    var votes := n.votes[m.from := !m.body.reject];
    Verdicts(votes, n.peers);
    Tallied(n, m, relaxed);
  }

  /** Every vote counted in a run with up to 255 peers is decided that way. */
  lemma TallyDecides(run: seq<State>, k: nat, m: Message, relaxed: bool)
    requires IsRun(run) && |run[0].peers| < 256 && DeliveredAt(run, k, m, relaxed)
    requires m.to in run[k].nodes && run[k].nodes[m.to].role == Candidate
    requires m.body.RequestVoteResponse? && m.term == run[k].nodes[m.to].term
    ensures m.to in run[k + 1].nodes && run[k].nodes[m.to].peers == run[0].peers
    ensures var n, n' := run[k].nodes[m.to], run[k + 1].nodes[m.to];
      Decided(n, n.votes[m.from := !m.body.reject], n', Sent(run, k, m, relaxed))
  {
    var hs := HistoryOf(run);
    SamePeers(run, k);
    TallyStep(run, hs, k, m, relaxed);
  }

  lemma TallyStep(run: seq<State>, hs: seq<History>, k: nat, m: Message, relaxed: bool)
    requires Chronicle(run, hs) && DeliveredAt(run, k, m, relaxed) && |run[k].peers| < 256
    requires m.to in run[k].nodes && run[k].nodes[m.to].role == Candidate
    requires m.body.RequestVoteResponse? && m.term == run[k].nodes[m.to].term
    ensures m.to in run[k + 1].nodes && run[k].nodes[m.to].peers == run[k].peers
    ensures var n, n' := run[k].nodes[m.to], run[k + 1].nodes[m.to];
      Decided(n, n.votes[m.from := !m.body.reject], n', Sent(run, k, m, relaxed))
  {
    var n, n' := Receiver(run, hs, k, m, relaxed);
    NodeFacts(run[k], hs[k], m.to);
    StepTallies(n, m, relaxed);
  }
}
