/** Runs of five nodes, built step by step, and drawn only as far as the scenarios
    need: per node its term, role, commit index and progress table, and the terms of
    its log. */
module FiveNodes {
  import opened RaftTypes
  import opened LogSpec
  import opened LogFacts
  import opened NodeSpec
  import opened Cluster
  import opened History
  import opened HistoryFacts
  import opened Actions
  import opened CommitQuorum
  import opened Majorities
  import opened Reigns
  import opened Runs

  // ----- Building a run -----

  function Last(run: seq<State>): State
    requires |run| > 0
  {
    run[|run| - 1]
  }

  ghost predicate Stage(run: seq<State>, k: int) {
    0 <= k < |run| ==> if k == 0 then Init(run[0]) else Next(run[k - 1], run[k])
  }

  /** A run of five nodes. */
  ghost predicate Live(run: seq<State>) {
    && |run| > 0
    && run[0].peers == [1, 2, 3, 4, 5]
    && forall k {:trigger Stage(run, k)} :: Stage(run, k)
  }

  lemma LiveIsRun(run: seq<State>)
    requires Live(run)
    ensures IsRun(run) && run[0].peers == [1, 2, 3, 4, 5]
  {
    assert Stage(run, 0);
    forall k | 0 <= k < |run| - 1
      ensures Next(run[k], run[k + 1])
    {
      assert Stage(run, k + 1);
    }
  }

  lemma NextPeers(s: State, s': State)
    requires Next(s, s')
    ensures s'.peers == s.peers
  {
  }

  lemma {:induction false} SamePeers(run: seq<State>, k: nat)
    requires Live(run) && k < |run|
    ensures run[k].peers == [1, 2, 3, 4, 5]
  {
    if k > 0 {
      SamePeers(run, k - 1);
      assert Stage(run, k);
      NextPeers(run[k - 1], run[k]);
    }
  }

  lemma LiveFormed(run: seq<State>)
    requires Live(run)
    ensures WellFormed(Last(run)) && Last(run).peers == [1, 2, 3, 4, 5]
  {
    LiveIsRun(run);
    SamePeers(run, |run| - 1);
    var hs := HistoryOf(run);
    Open(Last(run), hs[|run| - 1]);
  }

  lemma ShapeOf(run: seq<State>, i: NodeId)
    requires Live(run) && i in Last(run).nodes
    ensures NodeShape(Last(run).nodes[i]) && Fits(Last(run), i) && Last(run).peers == [1, 2, 3, 4, 5]
  {
    LiveIsRun(run);
    SamePeers(run, |run| - 1);
    var hs := HistoryOf(run);
    NodeFacts(Last(run), hs[|run| - 1], i);
  }

  lemma Extend(run: seq<State>, e: Event) returns (run': seq<State>)
    requires Live(run) && WellFormed(Last(run)) && Enabled(Last(run), e)
    ensures Live(run') && run' == run + [After(Last(run), e)]
  {
    run' := run + [After(Last(run), e)];
    assert Next(Last(run), After(Last(run), e));
    forall k
      ensures Stage(run', k)
    {
      assert Stage(run, k);
      StageExtends(run, After(Last(run), e), k);
    }
  }

  lemma StageExtends(run: seq<State>, s: State, k: int)
    requires |run| > 0 && Stage(run, k) && Next(Last(run), s)
    ensures Stage(run + [s], k)
  {
    if 0 < k < |run| {
      SameStage(run, run + [s], k);
    } else if k == |run| {
      var run' := run + [s];
      var a, b := run'[k - 1], run'[k];
      assert a == Last(run) && b == s;
      assert Next(a, b);
    }
  }

  lemma SameStage(run: seq<State>, run': seq<State>, k: int)
    requires 0 < k < |run| && k < |run'| && run'[k] == run[k] && run'[k - 1] == run[k - 1] && Stage(run, k)
    ensures Stage(run', k)
  {
  }

  /** `run'` continues `run` by one step in which only node `i` changes, to `n`. */
  ghost predicate OneMore(run: seq<State>, run': seq<State>, i: NodeId, n: Node)
    requires |run| > 0
  {
    && Live(run') && |run'| == |run| + 1 && run <= run'
    && Last(run').nodes == Last(run).nodes[i := n]
    && Last(run).net <= Last(run').net
  }

  lemma Stepped(run: seq<State>, e: Event, i: NodeId, n': Node) returns (run': seq<State>)
    requires Live(run) && WellFormed(Last(run)) && Enabled(Last(run), e)
    requires After(Last(run), e) == Install(Last(run), i, n')
    ensures OneMore(run, run', i, n'.(msgs := []))
    ensures forall m :: m in n'.msgs ==> m in Last(run').net
  {
    run' := Extend(run, e);
  }

  /** The appends of leader `o` are on the network. */
  predicate Sent(run: seq<State>, o: Node)
    requires |run| > 0
  {
    ValidNode(o) && forall m :: m in AppendsTo(o, o.peers) ==> m in Last(run).net
  }

  function RequestTo(c: Node, p: NodeId): Message {
    Message(c.id, p, c.term, RequestVote(LastTerm(c.log.entries), |c.log.entries|))
  }

  lemma Campaign(run: seq<State>, i: NodeId) returns (run': seq<State>)
    requires Live(run) && i in Last(run).nodes && Fits(Last(run), i)
    requires var n := Last(run).nodes[i]; n.role != Leader && NodeShape(n)
    ensures var c := BecomeCandidate(Last(run).nodes[i]);
      && OneMore(run, run', i, c)
      && (forall p :: p in c.peers && p != i ==> RequestTo(c, p) in Last(run').net)
  {
    var n := Last(run).nodes[i];
    var c, n' := BecomeCandidate(n), DoElection(n);
    Lookups(n);
    LiveFormed(run);
    assert After(Last(run), ElectionTimeout(i)) == Install(Last(run), i, n');
    run' := Stepped(run, ElectionTimeout(i), i, n');
    forall p | p in c.peers && p != i
      ensures RequestTo(c, p) in Last(run').net
    {
      OthersInclude(c, c.peers, RequestTo(c, p).body, p);
    }
  }

  lemma DeliverTo(run: seq<State>, m: Message, n': Node) returns (run': seq<State>)
    requires Live(run) && m in Last(run).net && m.to in Last(run).nodes && Fits(Last(run), m.to)
    requires FromPeer(Last(run).nodes[m.to], m) && Step(Last(run).nodes[m.to], m, false) == n'
    ensures OneMore(run, run', m.to, n'.(msgs := []))
    ensures forall x :: x in n'.msgs ==> x in Last(run').net
  {
    LiveFormed(run);
    assert After(Last(run), Deliver(m, false)) == Install(Last(run), m.to, n');
    run' := Stepped(run, Deliver(m, false), m.to, n');
  }

  lemma VoteNode(n: Node, m: Message)
    requires ValidNode(n) && n.msgs == [] && n.id == m.to && m.body.RequestVote?
    requires var o := Observe(n, m.term); o.role == Follower && o.term == m.term && Grants(o, m)
    ensures Step(n, m, false) == Observe(n, m.term).(vote := m.from, msgs := [Grant(m.to, m.from, m.term)])
  {
  }

  lemma Vote(run: seq<State>, m: Message) returns (run': seq<State>)
    requires Live(run) && m in Last(run).net && m.to in Last(run).nodes && Fits(Last(run), m.to)
    requires m.body.RequestVote?
    requires var o := Observe(Last(run).nodes[m.to], m.term);
      o.role == Follower && o.term == m.term && Grants(o, m)
    ensures var o := Observe(Last(run).nodes[m.to], m.term);
      OneMore(run, run', m.to, o.(vote := m.from)) && Grant(m.to, m.from, m.term) in Last(run').net
  {
    var n := Last(run).nodes[m.to];
    VoteNode(n, m);
    run' := DeliverTo(run, m, Observe(n, m.term).(vote := m.from, msgs := [Grant(m.to, m.from, m.term)]));
  }

  lemma TallyNode(n: Node, m: Message)
    requires ValidNode(n) && n.msgs == [] && n.role == Candidate && |n.peers| == 5
    requires m == Grant(m.from, n.id, n.term) && m.from in n.prs
    ensures var c := n.(votes := n.votes[m.from := true]);
      var n' := Step(n, m, false);
      && (Wins(c.votes, 5) ==> n' == TakeOffice(c).(msgs := AppendsTo(TakeOffice(c), c.peers)))
      && (!Wins(c.votes, 5) && !Loses(c.votes, 5) ==> n' == c)
  {
  }

  lemma TallyMore(run: seq<State>, m: Message) returns (run': seq<State>)
    requires Live(run) && m in Last(run).net && m.to in Last(run).nodes && Fits(Last(run), m.to)
    requires var n := Last(run).nodes[m.to];
      && m == Grant(m.from, m.to, n.term) && n.role == Candidate && m.from in n.prs
      && !Wins(n.votes[m.from := true], 5) && !Loses(n.votes[m.from := true], 5)
    ensures var n := Last(run).nodes[m.to];
      OneMore(run, run', m.to, n.(votes := n.votes[m.from := true]))
  {
    var n := Last(run).nodes[m.to];
    ShapeOf(run, m.to);
    TallyNode(n, m);
    run' := DeliverTo(run, m, n.(votes := n.votes[m.from := true]));
  }

  lemma TallyWin(run: seq<State>, m: Message, o: Node) returns (run': seq<State>)
    requires Live(run) && m in Last(run).net && m.to in Last(run).nodes && Fits(Last(run), m.to)
    requires var n := Last(run).nodes[m.to];
      && m == Grant(m.from, m.to, n.term) && n.role == Candidate && m.from in n.prs
      && Wins(n.votes[m.from := true], 5)
      && o == TakeOffice(n.(votes := n.votes[m.from := true]))
    ensures OneMore(run, run', m.to, o) && Sent(run', o)
  {
    var n := Last(run).nodes[m.to];
    ShapeOf(run, m.to);
    TallyNode(n, m);
    run' := DeliverTo(run, m, o.(msgs := AppendsTo(o, o.peers)));
  }

  /** The leader with one more entry of its own. */
  function Proposing(n: Node, e: Entry): Node
    requires ValidNode(n)
  {
    var k := |n.log.entries| + 1;
    SetMatch(n.(log := n.log.(entries := n.log.entries + [e.(term := n.term, index := k)])), n.id, k)
  }

  lemma ProposeNode(n: Node, e: Entry)
    requires ValidNode(n) && NodeShape(n) && n.msgs == [] && n.role == Leader && n.transferee == NONE
    requires |n.peers| == 5 && e.etype == EntryNormal
    ensures var b := Proposing(n, e);
      ValidNode(b) && Step(n, Message(NONE, NONE, NONE, Propose([e])), false) == b.(msgs := AppendsTo(b, b.peers))
  {
    Lookups(n);
    var k := |n.log.entries| + 1;
    var a := n.(log := n.log.(entries := n.log.entries + [e.(term := n.term, index := k)]));
    assert [e][1..] == [];
    assert PushProposals(n, [e], k - 1) == PushProposals(a, [e][1..], k - 1) == a;
    assert AppendEntries(n, [e]) == CommitAlone(BcastAppend(Proposing(n, e)));
  }

  lemma ProposeOne(run: seq<State>, i: NodeId, e: Entry, b: Node) returns (run': seq<State>)
    requires Live(run) && i in Last(run).nodes && Fits(Last(run), i) && e.etype == EntryNormal
    requires var n := Last(run).nodes[i];
      n.role == Leader && n.transferee == NONE && NodeShape(n) && b == Proposing(n, e)
    ensures OneMore(run, run', i, b) && Sent(run', b)
  {
    var n, ms := Last(run).nodes[i], AppendsTo(b, b.peers);
    ShapeOf(run, i);
    ProposeNode(n, e);
    LiveFormed(run);
    assert After(Last(run), ClientPropose(i, e)) == Install(Last(run), i, b.(msgs := ms));
    run' := Stepped(run, ClientPropose(i, e), i, b.(msgs := ms));
  }

  /** The receiver of an append that it accepts. */
  function Accepted(o: Node, m: Message): Node
    requires m.body.Append? && m.body.index <= |o.log.entries|
  {
    o.(lead := m.from,
       log := o.log.(entries := Merged(o.log.entries, m.body.index, m.body.entries),
                     committed := if m.body.commit > o.log.committed
                       then Min(m.body.commit, m.body.index + |m.body.entries|) else o.log.committed))
  }

  predicate Acceptable(o: Node, m: Message) {
    && m.body.Append? && Contiguous(m.body.entries, 1 + m.body.index)
    && o.role == Follower && o.term == m.term && NodeShape(o) && o.log.stabled == 0
    && m.body.index <= |o.log.entries| && TermAt(o.log.entries, m.body.index) == m.body.logTerm
  }

  function AckFor(o: Node, m: Message): Message
    requires m.body.Append? && m.body.index <= |o.log.entries|
  {
    Message(m.to, m.from, m.term, AppendResponse(false, NONE, |Accepted(o, m).log.entries|))
  }

  lemma AcceptingNode(o: Node, m: Message)
    requires ValidNode(o) && o.msgs == [] && o.id == m.to && Acceptable(o, m)
    ensures Accept(o.(lead := m.from), m) == Accepted(o, m).(msgs := [AckFor(o, m)])
  {
    AbsorbIsMerged(o.log, m.body.entries, m.body.index);
    LastIndexOf(Absorb(o.log, m.body.entries, 0, 0));
  }

  lemma ReceiveNode(n: Node, m: Message)
    requires ValidNode(n) && FromPeer(n, m) && n.id == m.to && m.body.Append?
    requires Acceptable(Observe(n, m.term), m)
    ensures Step(n, m, false) == Accept(Observe(n, m.term).(lead := m.from), m)
  {
    Lookups(Observe(n, m.term));
  }

  lemma Receive(run: seq<State>, m: Message) returns (run': seq<State>)
    requires Live(run) && m in Last(run).net && m.to in Last(run).nodes && Fits(Last(run), m.to)
    requires m.body.Append? && Acceptable(Observe(Last(run).nodes[m.to], m.term), m)
    ensures var o := Observe(Last(run).nodes[m.to], m.term);
      OneMore(run, run', m.to, Accepted(o, m)) && AckFor(o, m) in Last(run').net
  {
    var n, o := Last(run).nodes[m.to], Observe(Last(run).nodes[m.to], m.term);
    ReceiveNode(n, m);
    AcceptingNode(o, m);
    run' := DeliverTo(run, m, Accepted(o, m).(msgs := [AckFor(o, m)]));
  }

  function CountedNode(n: Node, m: Message, c: nat): Node
    requires ValidNode(n) && m.body.AppendResponse? && m.from in n.prs
  {
    var x := SetMatch(n, m.from, m.body.index);
    if c > n.log.committed && TermAt(n.log.entries, c) == n.term
    then x.(log := x.log.(committed := c)) else x
  }

  lemma CountNode(n: Node, m: Message, c: nat) returns (ms: seq<Message>)
    requires ValidNode(n) && NodeShape(n) && n.msgs == [] && n.role == Leader && n.term == m.term
    requires m.body.AppendResponse? && !m.body.reject && m.from in n.prs && n.transferee == NONE
    requires m.from != NONE && m.body.index > n.prs[m.from].matched
    requires c == CommitCandidate(SetMatch(n, m.from, m.body.index), false)
    ensures Step(n, m, false) == CountedNode(n, m, c).(msgs := ms)
    ensures c > n.log.committed && TermAt(n.log.entries, c) == n.term ==> ms == AppendsTo(CountedNode(n, m, c), n.peers)
  {
    Lookups(n);
    var x := SetMatch(n, m.from, m.body.index);
    assert Step(n, m, false) == HandleAppendEntriesResponse(n, m, false) == LeaderCommit(x, false);
    ms := LeaderCommit(x, false).msgs;
  }

  lemma CountAck(run: seq<State>, m: Message, c: nat) returns (run': seq<State>)
    requires Live(run) && m in Last(run).net && m.to in Last(run).nodes && Fits(Last(run), m.to)
    requires m.body.AppendResponse? && !m.body.reject
    requires var n := Last(run).nodes[m.to];
      && n.role == Leader && n.term == m.term && m.from in n.prs && n.transferee == NONE
      && NodeShape(n) && m.from != NONE && m.body.index > n.prs[m.from].matched
      && c == CommitCandidate(SetMatch(n, m.from, m.body.index), false)
    ensures OneMore(run, run', m.to, CountedNode(Last(run).nodes[m.to], m, c))
    ensures var n := Last(run).nodes[m.to];
      c > n.log.committed && TermAt(n.log.entries, c) == n.term ==> Sent(run', CountedNode(n, m, c))
  {
    var n := Last(run).nodes[m.to];
    var ms := CountNode(n, m, c);
    run' := DeliverTo(run, m, CountedNode(n, m, c).(msgs := ms));
  }

  // ----- One election -----

  function Voted(n: Node, t: Term, i: NodeId): Node { Observe(n, t).(vote := i) }

  /** Voter `v` has not reached term `t` and its log is no newer than `cs`. */
  predicate WillVote(v: Node, t: Term, cs: seq<Entry>) {
    && v.term < t
    && (LastTerm(v.log.entries) < LastTerm(cs)
        || (LastTerm(v.log.entries) == LastTerm(cs) && |v.log.entries| <= |cs|))
  }

  lemma Ballot(run: seq<State>, c: Node, p: NodeId) returns (run': seq<State>)
    requires Live(run) && p in Last(run).nodes && p != c.id && c.id in Last(run).nodes
    requires RequestTo(c, p) in Last(run).net && WillVote(Last(run).nodes[p], c.term, c.log.entries)
    ensures OneMore(run, run', p, Voted(Last(run).nodes[p], c.term, c.id))
    ensures Grant(p, c.id, c.term) in Last(run').net
  {
    ShapeOf(run, p);
    Lookups(Observe(Last(run).nodes[p], c.term));
    run' := Vote(run, RequestTo(c, p));
  }

  function Winner(n: Node, p: NodeId, q: NodeId): Node {
    var c := BecomeCandidate(n);
    c.(votes := c.votes[p := true][q := true])
  }

  lemma TwoVotes(i: NodeId, p: NodeId)
    requires p != i
    ensures !Wins(map[i := true][p := true], 5) && !Loses(map[i := true][p := true], 5)
  {
    var v := map[i := true][p := true];
    assert Granted(v) == {i, p} && v.Keys == {i, p};
    assert |v| == |v.Keys|;
  }

  lemma ThreeVotes(i: NodeId, p: NodeId, q: NodeId)
    requires p != i && q != i && p != q
    ensures Wins(map[i := true][p := true][q := true], 5)
  {
    assert Granted(map[i := true][p := true][q := true]) == {i, p, q};
  }

  lemma First(run: seq<State>, n: Node, p: NodeId) returns (run': seq<State>)
    requires Live(run) && n.id in Last(run).nodes && p in Last(run).nodes && p != n.id
    requires Last(run).nodes[n.id] == BecomeCandidate(n) && Grant(p, n.id, n.term + 1) in Last(run).net
    ensures var c := BecomeCandidate(n); OneMore(run, run', n.id, c.(votes := c.votes[p := true]))
  {
    ShapeOf(run, n.id);
    LiveFormed(run);
    TwoVotes(n.id, p);
    run' := TallyMore(run, Grant(p, n.id, n.term + 1));
  }

  lemma Second(run: seq<State>, n: Node, p: NodeId, q: NodeId, o: Node) returns (run': seq<State>)
    requires Live(run) && n.id in Last(run).nodes && q in Last(run).nodes
    requires p != n.id && q != n.id && p != q && ValidNode(n) && o == TakeOffice(Winner(n, p, q))
    requires var c := BecomeCandidate(n); Last(run).nodes[n.id] == c.(votes := c.votes[p := true])
    requires Grant(q, n.id, n.term + 1) in Last(run).net
    ensures OneMore(run, run', n.id, o) && Sent(run', o)
  {
    SecondCounts(run, n, p, q);
    run' := TallyWin(run, Grant(q, n.id, n.term + 1), o);
  }

  lemma SecondCounts(run: seq<State>, n: Node, p: NodeId, q: NodeId)
    requires Live(run) && n.id in Last(run).nodes && q in Last(run).nodes
    requires p != n.id && q != n.id && p != q
    requires var c := BecomeCandidate(n); Last(run).nodes[n.id] == c.(votes := c.votes[p := true])
    ensures Fits(Last(run), n.id) && q in n.prs
    ensures Wins(Last(run).nodes[n.id].votes[q := true], 5)
  {
    ShapeOf(run, n.id);
    LiveFormed(run);
    ThreeVotes(n.id, p, q);
  }

  lemma Count(run: seq<State>, n: Node, p: NodeId, q: NodeId, o: Node) returns (run': seq<State>)
    requires Live(run) && n.id in Last(run).nodes && p in Last(run).nodes && q in Last(run).nodes
    requires p != n.id && q != n.id && p != q && Last(run).nodes[n.id] == BecomeCandidate(n)
    requires Grant(p, n.id, n.term + 1) in Last(run).net && Grant(q, n.id, n.term + 1) in Last(run).net
    requires ValidNode(n) && o == TakeOffice(Winner(n, p, q))
    ensures Live(run') && |run'| == |run| + 2 && run <= run' && Last(run).net <= Last(run').net
    ensures Last(run').nodes == Last(run).nodes[n.id := o]
    ensures Sent(run', o)
  {
    var r1 := First(run, n, p);
    run' := Second(r1, n, p, q, o);
  }

  /** Node `i` runs and `p` votes for it. */
  lemma RunFor(run: seq<State>, i: NodeId, p: NodeId, q: NodeId) returns (run': seq<State>)
    requires Live(run) && i in Last(run).nodes && p in Last(run).nodes && q in Last(run).nodes
    requires p != i && q != i && Last(run).nodes[i].role != Leader && Fits(Last(run), i)
    requires WillVote(Last(run).nodes[p], Last(run).nodes[i].term + 1, Last(run).nodes[i].log.entries)
    ensures Live(run') && |run'| == |run| + 2 && run <= run' && Last(run).net <= Last(run').net
    ensures var ns, c := Last(run).nodes, BecomeCandidate(Last(run).nodes[i]);
      && Last(run').nodes == ns[i := c][p := Voted(ns[p], c.term, i)]
      && Grant(p, i, c.term) in Last(run').net && RequestTo(c, q) in Last(run').net
  {
    var c := BecomeCandidate(Last(run).nodes[i]);
    ShapeOf(run, i);
    LiveFormed(run);
    var r1 := Campaign(run, i);
    run' := Ballot(r1, c, p);
  }

  /** Node `i` is elected by itself, `p` and `q`. */
  lemma Elect(run: seq<State>, i: NodeId, p: NodeId, q: NodeId, o: Node) returns (run': seq<State>)
    requires Live(run) && i in Last(run).nodes && p in Last(run).nodes && q in Last(run).nodes
    requires p != i && q != i && p != q && Fits(Last(run), i)
    requires var n := Last(run).nodes[i];
      && n.role != Leader && o == TakeOffice(Winner(n, p, q))
      && WillVote(Last(run).nodes[p], n.term + 1, n.log.entries)
      && WillVote(Last(run).nodes[q], n.term + 1, n.log.entries)
    ensures Live(run') && |run'| == |run| + 5 && run <= run' && Last(run).net <= Last(run').net && Sent(run', o)
    ensures var ns, t := Last(run).nodes, Last(run).nodes[i].term + 1;
      Last(run').nodes == ns[p := Voted(ns[p], t, i)][q := Voted(ns[q], t, i)][i := o]
  {
    var n := Last(run).nodes[i];
    var r2 := RunFor(run, i, p, q);
    var r3 := Ballot(r2, BecomeCandidate(n), q);
    run' := Count(r3, n, p, q, o);
  }

  // ----- Sketches -----

  datatype Sketch = Sketch(term: Term, role: Role, ts: seq<Term>, committed: nat, prs: map<NodeId, Progress>)

  function Terms(es: seq<Entry>): seq<Term> { seq(|es|, k requires 0 <= k < |es| => es[k].term) }

  function SketchOf(n: Node): Sketch {
    Sketch(n.term, n.role, Terms(n.log.entries), n.log.committed, n.prs)
  }

  function At(ts: seq<Term>, k: nat): Term { if 1 <= k <= |ts| then ts[k - 1] else 0 }

  /** Nothing persisted and no transfer under way. */
  predicate Undisturbed(n: Node) { n.transferee == NONE && n.log.stabled == 0 }

  /** A run whose last state the sketches describe. */
  ghost predicate Drawn(run: seq<State>) {
    && Live(run) && Last(run).nodes.Keys == {1, 2, 3, 4, 5}
    && forall i :: i in Last(run).nodes ==> Undisturbed(Last(run).nodes[i])
  }

  function View(run: seq<State>, i: NodeId): Sketch
    requires |run| > 0 && i in Last(run).nodes
  {
    SketchOf(Last(run).nodes[i])
  }

  /** `run'` goes on from `run`, and all nodes but those in `moved` stay as they are. */
  ghost predicate Continues(run: seq<State>, run': seq<State>, moved: set<NodeId>) {
    && Drawn(run) && Drawn(run') && run <= run' && Last(run).net <= Last(run').net
    && Unmoved(run, run', moved)
  }

  predicate Unmoved(run: seq<State>, run': seq<State>, moved: set<NodeId>)
    requires |run| > 0 && |run'| > 0
  {
    forall j :: j in Last(run).nodes && j !in moved ==>
      j in Last(run').nodes && Last(run').nodes[j] == Last(run).nodes[j]
  }

  lemma OneMoves(run: seq<State>, run': seq<State>, i: NodeId, n: Node)
    requires Drawn(run) && OneMore(run, run', i, n) && i in Last(run).nodes && Undisturbed(n)
    ensures Continues(run, run', {i}) && View(run', i) == SketchOf(n)
  {
  }

  // ----- Elections -----

  /** The leader that a node of this sketch becomes. */
  function Office(k: Sketch, i: NodeId): Sketch {
    Sketch(k.term + 1, Leader, k.ts + [k.term + 1], k.committed,
           map p | p in k.prs ::
             if p == i then Progress(|k.ts| + 2, |k.ts| + 1) else Progress(|k.ts| + 1, k.prs[p].matched))
  }

  lemma OfficeSketch(n: Node, p: NodeId, q: NodeId)
    requires ValidNode(n) && NodeShape(n)
    ensures SketchOf(TakeOffice(Winner(n, p, q))) == Office(SketchOf(n), n.id)
  {
    var w := Winner(n, p, q);
    Lookups(w);
    assert Terms(TakeOffice(w).log.entries) == Terms(n.log.entries) + [n.term + 1];
  }

  /** A voter of this sketch votes for a candidate of term `t` with log terms `ts`. */
  predicate Votes(v: Sketch, t: Term, ts: seq<Term>) {
    v.term < t && (At(v.ts, |v.ts|) < At(ts, |ts|) || (At(v.ts, |v.ts|) == At(ts, |ts|) && |v.ts| <= |ts|))
  }

  /** The appends of node `i` for the others are on the network. */
  predicate Announced(run: seq<State>, i: NodeId)
    requires |run| > 0
  {
    i in Last(run).nodes && Sent(run, Last(run).nodes[i])
  }

  lemma HoldElection(run: seq<State>, i: NodeId, p: NodeId, q: NodeId) returns (run': seq<State>)
    requires Drawn(run) && {i, p, q} <= {1, 2, 3, 4, 5} && i != p && i != q && p != q
    requires View(run, i).role != Leader
    requires Votes(View(run, p), View(run, i).term + 1, View(run, i).ts)
    requires Votes(View(run, q), View(run, i).term + 1, View(run, i).ts)
    ensures Continues(run, run', {i, p, q}) && Announced(run', i)
    ensures View(run', i) == Office(View(run, i), i)
    ensures View(run', p) == View(run, p).(term := View(run, i).term + 1, role := Follower)
    ensures View(run', q) == View(run, q).(term := View(run, i).term + 1, role := Follower)
  {
    var ns, n, t := Last(run).nodes, Last(run).nodes[i], View(run, i).term + 1;
    ShapeOf(run, i);
    OfficeSketch(n, p, q);
    VoteSketch(ns[p], t, n);
    VoteSketch(ns[q], t, n);
    var o := TakeOffice(Winner(n, p, q));
    run' := Elect(run, i, p, q, o);
    ThreeMove(run, run', i, o, p, Voted(ns[p], t, i), q, Voted(ns[q], t, i));
  }

  lemma VoteSketch(v: Node, t: Term, n: Node)
    requires Votes(SketchOf(v), t, Terms(n.log.entries))
    ensures WillVote(v, t, n.log.entries)
    ensures SketchOf(Voted(v, t, n.id)) == SketchOf(v).(term := t, role := Follower)
    ensures Undisturbed(v) ==> Undisturbed(Voted(v, t, n.id))
  {
  }

  lemma ThreeMove(run: seq<State>, run': seq<State>, i: NodeId, o: Node, p: NodeId, a: Node, q: NodeId, b: Node)
    requires Drawn(run) && Live(run') && run <= run' && Last(run).net <= Last(run').net
    requires {i, p, q} <= Last(run).nodes.Keys && i != p && i != q && p != q
    requires Last(run').nodes == Last(run).nodes[p := a][q := b][i := o]
    requires Undisturbed(o) && Undisturbed(a) && Undisturbed(b)
    ensures Continues(run, run', {i, p, q})
    ensures Last(run').nodes[i] == o && Last(run').nodes[p] == a && Last(run').nodes[q] == b
  {
  }

  // ----- Replication -----

  /** The terms of a log after the leader of sketch `k` has replicated its log. */
  function AfterReceiving(v: Sketch, k: Sketch): Sketch {
    Sketch(k.term, Follower, k.ts, if k.committed > v.committed then Min(k.committed, |k.ts|) else v.committed, v.prs)
  }

  lemma AppendForm(o: Node, p: NodeId)
    requires ValidNode(o) && NodeShape(o) && p in o.prs && 1 <= o.prs[p].next <= |o.log.entries| + 1
    ensures var k := o.prs[p].next - 1;
      AppendTo(o, p) ==
        Message(o.id, p, o.term, Append(TermAt(o.log.entries, k), k, o.log.entries[k..], o.log.committed))
  {
    Lookups(o);
    var k := o.prs[p].next - 1;
    assert EntriesAfter(o.log, k) == o.log.entries[k..];
  }

  /** Node `p` accepts what the leader `i` has for it. */
  predicate CanReceive(run: seq<State>, i: NodeId, p: NodeId)
    requires |run| > 0
  {
    && i in Last(run).nodes && p in Last(run).nodes && i != p
    && var (k, v) := (View(run, i), View(run, p));
    && k.role == Leader && v.term <= k.term && (v.role == Follower || v.term < k.term)
    && p in k.prs && 1 <= k.prs[p].next <= |v.ts| + 1
    && At(v.ts, k.prs[p].next - 1) == At(k.ts, k.prs[p].next - 1)
  }

  /** Node `v` accepts the append `m` and then has the log of `n`. */
  predicate Accepts(n: Node, v: Node, m: Message) {
    && m.from == n.id && m.to == v.id && m.term == n.term && m.body.Append? && m.body.commit == n.log.committed
    && var o := Observe(v, m.term);
    && Acceptable(o, m) && m.body.index + |m.body.entries| == |n.log.entries|
    && Merged(o.log.entries, m.body.index, m.body.entries) == n.log.entries
  }

  /** The append of a leader on record, for a node whose log agrees with it. */
  lemma AppendFits(h: History, n: Node, v: Node, p: NodeId, m: Message)
    requires ReignLogs(h) && Leads(h, n) && ValidNode(n) && NodeShape(n) && p in n.prs
    requires 1 <= n.prs[p].next <= |n.log.entries| + 1 && m == AppendTo(n, p) && AppendOk(h, m)
    requires NodeShape(v) && NodeLogOk(h, v) && v.id == p && Agrees(n, v, p)
    ensures m.from == n.id && Accepts(n, v, m)
  {
    AppendForm(n, p);
    SliceContiguous(n.log.entries, 1, m.body.index, |n.log.entries|);
    AppendMerges(h, n, v, m);
    AppendAcceptable(n, v, m);
  }

  /** The log of `v` agrees with the leader `n` where the next append to `p` starts. */
  predicate Agrees(n: Node, v: Node, p: NodeId) {
    && v.term <= n.term && Undisturbed(v) && (v.role == Follower || v.term < n.term)
    && p in n.prs && 1 <= n.prs[p].next <= |v.log.entries| + 1
    && TermAt(v.log.entries, n.prs[p].next - 1) == TermAt(n.log.entries, n.prs[p].next - 1)
  }

  lemma AppendAcceptable(n: Node, v: Node, m: Message)
    requires m.from == n.id && m.to == v.id && m.term == n.term && m.body.Append?
    requires m.body.commit == n.log.committed && Contiguous(m.body.entries, 1 + m.body.index)
    requires m.body.index <= |v.log.entries| && m.body.logTerm == TermAt(v.log.entries, m.body.index)
    requires m.body.index + |m.body.entries| == |n.log.entries|
    requires NodeShape(v) && v.term <= n.term && Undisturbed(v) && (v.role == Follower || v.term < n.term)
    requires Merged(v.log.entries, m.body.index, m.body.entries) == n.log.entries
    ensures Accepts(n, v, m)
  {
  }

  lemma AppendMerges(h: History, n: Node, v: Node, m: Message)
    requires ReignLogs(h) && Leads(h, n) && NodeLogOk(h, v) && v.term <= n.term && m.term == n.term
    requires m.body.Append? && AppendOk(h, m) && m.body.index + |m.body.entries| == |n.log.entries|
    requires m.body.index <= |v.log.entries|
    requires TermAt(v.log.entries, m.body.index) == TermAt(n.log.entries, m.body.index)
    ensures Merged(v.log.entries, m.body.index, m.body.entries) == n.log.entries
  {
    MergedWithLeader(h, v.log.entries, m.term, m.body.index, m.body.entries);
  }

  lemma TermsAt(es: seq<Entry>, k: nat)
    ensures At(Terms(es), k) == TermAt(es, k)
  {
  }

  /** What the invariants say about a leader and its append for `p`. */
  lemma OnTheWay(s: State, h: History, i: NodeId, p: NodeId) returns (m: Message)
    requires Inv(s, h) && i in s.nodes && s.nodes[i].role == Leader && p in s.nodes[i].prs && p != i
    requires ValidNode(s.nodes[i]) && forall m :: m in AppendsTo(s.nodes[i], s.nodes[i].peers) ==> m in s.net
    ensures ReignLogs(h) && Leads(h, s.nodes[i]) && NodeShape(s.nodes[i])
    ensures 1 <= s.nodes[i].prs[p].next <= |s.nodes[i].log.entries| + 1 && s.nodes[i].id == i
    ensures m == AppendTo(s.nodes[i], p) && m in s.net && AppendOk(h, m)
  {
    NodeFacts(s, h, i);
    LeaderFacts(s, h, i);
    m := AppendTo(s.nodes[i], p);
    AppendsInclude(s.nodes[i], s.nodes[i].peers, p);
    MessageFacts(s, h, m);
    assert Satisfies(s, h, Logs);
  }

  lemma InvAccepts(s: State, h: History, i: NodeId, p: NodeId) returns (m: Message)
    requires Inv(s, h) && i in s.nodes && s.nodes[i].role == Leader && p in s.nodes[i].prs && p != i
    requires ValidNode(s.nodes[i]) && forall m :: m in AppendsTo(s.nodes[i], s.nodes[i].peers) ==> m in s.net
    requires p in s.nodes && Agrees(s.nodes[i], s.nodes[p], p)
    ensures m in s.net && m.from == i && m.to == p && Accepts(s.nodes[i], s.nodes[p], m) && Fits(s, p)
  {
    m := OnTheWay(s, h, i, p);
    NodeFacts(s, h, p);
    AppendFits(h, s.nodes[i], s.nodes[p], p, m);
  }

  lemma LiveInv(run: seq<State>) returns (h: History)
    requires Live(run)
    ensures Inv(Last(run), h)
  {
    LiveIsRun(run);
    var hs := HistoryOf(run);
    h := hs[|run| - 1];
  }

  lemma WillAccept(run: seq<State>, i: NodeId, p: NodeId) returns (m: Message)
    requires Drawn(run) && CanReceive(run, i, p) && Announced(run, i)
    ensures m in Last(run).net && m.from == i && m.to == p && Fits(Last(run), p)
    ensures Accepts(Last(run).nodes[i], Last(run).nodes[p], m)
  {
    var h := LiveInv(run);
    var k := View(run, i).prs[p].next - 1;
    TermsAt(Last(run).nodes[i].log.entries, k);
    TermsAt(Last(run).nodes[p].log.entries, k);
    m := InvAccepts(Last(run), h, i, p);
  }

  lemma Replicate(run: seq<State>, i: NodeId, p: NodeId) returns (run': seq<State>)
    requires Drawn(run) && CanReceive(run, i, p) && Announced(run, i)
    ensures Continues(run, run', {p}) && Announced(run', i)
    ensures View(run', p) == AfterReceiving(View(run, p), View(run, i))
    ensures AckOf(p, i, View(run, i).term, View(run, i).ts) in Last(run').net
  {
    var m := WillAccept(run, i, p);
    AcceptedSketch(Last(run).nodes[i], Last(run).nodes[p], m);
    run' := Receive(run, m);
    OneMoves(run, run', p, Accepted(Observe(Last(run).nodes[p], m.term), m));
  }

  lemma AcceptedSketch(n: Node, v: Node, m: Message)
    requires Accepts(n, v, m) && Undisturbed(v)
    ensures var o := Observe(v, m.term);
      && SketchOf(Accepted(o, m)) == AfterReceiving(SketchOf(v), SketchOf(n))
      && Undisturbed(Accepted(o, m)) && AckFor(o, m) == AckOf(m.to, m.from, n.term, Terms(n.log.entries))
  {
  }

  /** The acknowledgement of `p` to the leader `i` of term `t` for a log with terms `ts`. */
  function AckOf(p: NodeId, i: NodeId, t: Term, ts: seq<Term>): Message {
    Message(p, i, t, AppendResponse(false, NONE, |ts|))
  }

  // ----- Proposals -----

  lemma ProposeNext(run: seq<State>, i: NodeId) returns (run': seq<State>)
    requires Drawn(run) && i in Last(run).nodes && View(run, i).role == Leader
    ensures Continues(run, run', {i}) && Announced(run', i)
    ensures var k := View(run, i);
      View(run', i) == k.(ts := k.ts + [k.term], prs := k.prs[i := Progress(|k.ts| + 2, |k.ts| + 1)])
  {
    var n := Last(run).nodes[i];
    ShapeOf(run, i);
    var e := Entry(EntryNormal, 0, 0, "");
    var b := Proposing(n, e);
    run' := ProposeOne(run, i, e, b);
    assert Terms(b.log.entries) == Terms(n.log.entries) + [n.term];
    OneMoves(run, run', i, b);
  }

  // ----- Counting -----

  /** At least three peers have reached `c`, and fewer more. */
  predicate ThirdIn(prs: map<NodeId, Progress>, c: nat) {
    |Reached(prs, c)| >= 3 && |Reached(prs, c + 1)| < 3
  }

  lemma ThirdIs(n: Node, c: nat)
    requires ValidNode(n) && |n.peers| == 5 && ThirdIn(n.prs, c)
    ensures CommitCandidate(n, false) == c
  {
    var d := CommitCandidate(n, false);
    CommitCandidateReached(n, false);
    if d > c {
      SubsetSize(Reached(n.prs, d), Reached(n.prs, c + 1));
    }
  }

  function CountedSketch(k: Sketch, p: NodeId, c: nat): Sketch {
    k.(prs := k.prs[p := Progress(|k.ts| + 1, |k.ts|)],
       committed := if c > k.committed && At(k.ts, c) == k.term then c else k.committed)
  }

  /** The leader counts the acknowledgement of `p`; `c` is the third largest match
      index afterwards. */
  lemma CountFrom(run: seq<State>, i: NodeId, p: NodeId, c: nat) returns (run': seq<State>)
    requires Drawn(run) && i in Last(run).nodes && View(run, i).role == Leader && p in Last(run).nodes
    requires AckOf(p, i, View(run, i).term, View(run, i).ts) in Last(run).net
    requires p in View(run, i).prs && View(run, i).prs[p].matched < |View(run, i).ts|
    requires ThirdIn(CountedSketch(View(run, i), p, c).prs, c)
    ensures Continues(run, run', {i}) && View(run', i) == CountedSketch(View(run, i), p, c)
    ensures c > View(run, i).committed && At(View(run, i).ts, c) == View(run, i).term ==> Announced(run', i)
  {
    var n, m := Last(run).nodes[i], AckOf(p, i, View(run, i).term, View(run, i).ts);
    ShapeOf(run, i);
    CountedIs(n, m, c);
    run' := CountAck(run, m, c);
    OneMoves(run, run', i, CountedNode(n, m, c));
  }

  lemma CountedIs(n: Node, m: Message, c: nat)
    requires ValidNode(n) && |n.peers| == 5 && m.from in n.prs && m == AckOf(m.from, n.id, n.term, Terms(n.log.entries))
    requires ThirdIn(CountedSketch(SketchOf(n), m.from, c).prs, c)
    ensures CommitCandidate(SetMatch(n, m.from, m.body.index), false) == c
    ensures SketchOf(CountedNode(n, m, c)) == CountedSketch(SketchOf(n), m.from, c)
    ensures TermAt(n.log.entries, c) == At(SketchOf(n).ts, c)
    ensures Undisturbed(n) ==> Undisturbed(CountedNode(n, m, c))
  {
    var x := SetMatch(n, m.from, m.body.index);
    assert x.prs == CountedSketch(SketchOf(n), m.from, c).prs;
    ThirdIs(x, c);
    TermsAt(n.log.entries, c);
  }

  // ----- Boards: the five nodes on paper -----

  predicate Player(i: NodeId) { 1 <= i <= 5 }

  /** One thing for each of the nodes 1 to 5. */
  datatype Five<T> = Five(a: T, b: T, c: T, d: T, e: T) {
    function Get(i: NodeId): T {
      if i == 1 then a else if i == 2 then b else if i == 3 then c else if i == 4 then d else e
    }

    function Set(i: NodeId, x: T): Five<T> {
      Five(if i == 1 then x else a, if i == 2 then x else b, if i == 3 then x else c,
           if i == 4 then x else d, if i == 5 then x else e)
    }
  }

  function Same<T>(x: T): Five<T> { Five(x, x, x, x, x) }

  /** A node on paper; `next` and `matched` are what it keeps of nodes 1 to 5. */
  datatype Cell = Cell(term: Term, role: Role, ts: seq<Term>, committed: nat, next: Five<nat>, matched: Five<nat>)

  type Board = Five<Cell>

  ghost predicate Draws(k: Sketch, c: Cell) {
    && k.term == c.term && k.role == c.role && k.ts == c.ts && k.committed == c.committed
    && k.prs.Keys == {1, 2, 3, 4, 5}
    && forall p {:trigger k.prs[p]} :: Player(p) ==> k.prs[p] == Progress(c.next.Get(p), c.matched.Get(p))
  }

  ghost predicate ShowsAt(run: seq<State>, b: Board, i: NodeId)
    requires |run| > 0
  {
    Player(i) ==> i in Last(run).nodes && Draws(View(run, i), b.Get(i))
  }

  ghost predicate AllShown(run: seq<State>, b: Board)
    requires |run| > 0
  {
    forall i {:trigger ShowsAt(run, b, i)} :: ShowsAt(run, b, i)
  }

  /** The run has come to the situation on the board. */
  ghost predicate Shows(run: seq<State>, b: Board) {
    Drawn(run) && AllShown(run, b)
  }

  lemma Kept(run: seq<State>, run': seq<State>, b: Board, b': Board, moved: set<NodeId>, i: NodeId)
    requires |run| > 0 && |run'| > 0 && AllShown(run, b) && Unmoved(run, run', moved)
    requires Player(i) ==> b'.Get(i) == b.Get(i)
    requires i !in moved
    ensures ShowsAt(run', b', i)
  {
    assert ShowsAt(run, b, i);
  }

  lemma OneOn(run: seq<State>, run': seq<State>, b: Board, i: NodeId, c: Cell)
    requires Shows(run, b) && Player(i) && Continues(run, run', {i}) && Draws(View(run', i), c)
    ensures Shows(run', b.Set(i, c))
  {
    forall j
      ensures ShowsAt(run', b.Set(i, c), j)
    {
      if j != i {
        Kept(run, run', b, b.Set(i, c), {i}, j);
      }
    }
  }

  // ----- Moves on the board -----

  function OfficeCell(c: Cell, i: NodeId): Cell {
    Cell(c.term + 1, Leader, c.ts + [c.term + 1], c.committed,
         Same(|c.ts| + 1).Set(i, |c.ts| + 2), c.matched.Set(i, |c.ts| + 1))
  }

  predicate CellVotes(v: Cell, c: Cell) {
    v.term < c.term + 1 &&
    (At(v.ts, |v.ts|) < At(c.ts, |c.ts|) || (At(v.ts, |v.ts|) == At(c.ts, |c.ts|) && |v.ts| <= |c.ts|))
  }

  function VoterCell(v: Cell, t: Term): Cell { v.(term := t, role := Follower) }

  lemma OfficeDraws(k: Sketch, c: Cell, i: NodeId)
    requires Draws(k, c) && Player(i)
    ensures Draws(Office(k, i), OfficeCell(c, i))
  {
  }

  lemma VoterDraws(v: Sketch, c: Cell, k: Sketch, d: Cell)
    requires Draws(v, c) && Draws(k, d) && CellVotes(c, d)
    ensures Votes(v, k.term + 1, k.ts)
    ensures Draws(v.(term := k.term + 1, role := Follower), VoterCell(c, d.term + 1))
  {
  }

  predicate CanElect(b: Board, i: NodeId, p: NodeId, q: NodeId) {
    && Player(i) && Player(p) && Player(q) && i != p && i != q && p != q
    && b.Get(i).role != Leader && CellVotes(b.Get(p), b.Get(i)) && CellVotes(b.Get(q), b.Get(i))
  }

  function ElectedBoard(b: Board, i: NodeId, p: NodeId, q: NodeId): Board {
    var t := b.Get(i).term + 1;
    b.Set(p, VoterCell(b.Get(p), t)).Set(q, VoterCell(b.Get(q), t)).Set(i, OfficeCell(b.Get(i), i))
  }

  /** Node `i` is elected by itself, `p` and `q`. */
  lemma ElectOn(run: seq<State>, b: Board, i: NodeId, p: NodeId, q: NodeId) returns (run': seq<State>)
    requires Shows(run, b) && CanElect(b, i, p, q)
    ensures Shows(run', ElectedBoard(b, i, p, q)) && run <= run' && Last(run).net <= Last(run').net
    ensures Announced(run', i)
  {
    ElectDraws(run, b, i, p, q);
    run' := HoldElection(run, i, p, q);
    ElectedShown(run, run', b, i, p, q);
  }

  lemma ElectDraws(run: seq<State>, b: Board, i: NodeId, p: NodeId, q: NodeId)
    requires |run| > 0 && AllShown(run, b) && CanElect(b, i, p, q)
    ensures {i, p, q} <= Last(run).nodes.Keys && View(run, i).role != Leader
    ensures var t := View(run, i).term + 1;
      && Votes(View(run, p), t, View(run, i).ts) && Votes(View(run, q), t, View(run, i).ts)
      && Draws(Office(View(run, i), i), OfficeCell(b.Get(i), i))
      && Draws(View(run, p).(term := t, role := Follower), VoterCell(b.Get(p), b.Get(i).term + 1))
      && Draws(View(run, q).(term := t, role := Follower), VoterCell(b.Get(q), b.Get(i).term + 1))
  {
    assert ShowsAt(run, b, i) && ShowsAt(run, b, p) && ShowsAt(run, b, q);
    OfficeDraws(View(run, i), b.Get(i), i);
    VoterDraws(View(run, p), b.Get(p), View(run, i), b.Get(i));
    VoterDraws(View(run, q), b.Get(q), View(run, i), b.Get(i));
  }

  lemma ElectedShown(run: seq<State>, run': seq<State>, b: Board, i: NodeId, p: NodeId, q: NodeId)
    requires |run| > 0 && |run'| > 0 && AllShown(run, b) && CanElect(b, i, p, q) && Unmoved(run, run', {i, p, q})
    requires {i, p, q} <= Last(run').nodes.Keys && Draws(View(run', i), OfficeCell(b.Get(i), i))
    requires Draws(View(run', p), VoterCell(b.Get(p), b.Get(i).term + 1))
    requires Draws(View(run', q), VoterCell(b.Get(q), b.Get(i).term + 1))
    ensures AllShown(run', ElectedBoard(b, i, p, q))
  {
    forall j
      ensures ShowsAt(run', ElectedBoard(b, i, p, q), j)
    {
      if j !in {i, p, q} {
        Kept(run, run', b, ElectedBoard(b, i, p, q), {i, p, q}, j);
      }
    }
  }

  predicate CanReplicate(b: Board, i: NodeId, p: NodeId) {
    && Player(i) && Player(p) && i != p
    && var (v, k) := (b.Get(p), b.Get(i));
    && k.role == Leader && v.term <= k.term && (v.role == Follower || v.term < k.term)
    && 1 <= k.next.Get(p) <= |v.ts| + 1 && At(v.ts, k.next.Get(p) - 1) == At(k.ts, k.next.Get(p) - 1)
  }

  function ReceivedCell(v: Cell, k: Cell): Cell {
    v.(term := k.term, role := Follower, ts := k.ts,
       committed := if k.committed > v.committed then Min(k.committed, |k.ts|) else v.committed)
  }

  function ReplicatedBoard(b: Board, i: NodeId, p: NodeId): Board { b.Set(p, ReceivedCell(b.Get(p), b.Get(i))) }

  predicate SameAck(c: Cell, d: Cell) { c.term == d.term && c.ts == d.ts }

  lemma ReplicateDraws(run: seq<State>, b: Board, i: NodeId, p: NodeId)
    requires |run| > 0 && AllShown(run, b) && CanReplicate(b, i, p)
    ensures CanReceive(run, i, p)
    ensures View(run, i).term == b.Get(i).term && View(run, i).ts == b.Get(i).ts
    ensures Draws(AfterReceiving(View(run, p), View(run, i)), ReceivedCell(b.Get(p), b.Get(i)))
  {
    assert ShowsAt(run, b, i) && ShowsAt(run, b, p);
  }

  /** Leader `i` replicates its log to `p`, which acknowledges it. */
  lemma ReplicateOn(run: seq<State>, b: Board, i: NodeId, p: NodeId) returns (run': seq<State>)
    requires Shows(run, b) && CanReplicate(b, i, p) && Announced(run, i)
    ensures Shows(run', ReplicatedBoard(b, i, p)) && run <= run' && Last(run).net <= Last(run').net
    ensures Announced(run', i) && AckOf(p, i, b.Get(i).term, b.Get(i).ts) in Last(run').net
  {
    ReplicateDraws(run, b, i, p);
    run' := Replicate(run, i, p);
    OneOn(run, run', b, p, ReceivedCell(b.Get(p), b.Get(i)));
  }

  function ProposedCell(c: Cell, i: NodeId): Cell {
    c.(ts := c.ts + [c.term], next := c.next.Set(i, |c.ts| + 2), matched := c.matched.Set(i, |c.ts| + 1))
  }

  lemma ProposeDraws(k: Sketch, c: Cell, i: NodeId)
    requires Draws(k, c) && Player(i)
    ensures Draws(k.(ts := k.ts + [k.term], prs := k.prs[i := Progress(|k.ts| + 2, |k.ts| + 1)]), ProposedCell(c, i))
  {
  }

  lemma ProposeOn(run: seq<State>, b: Board, i: NodeId) returns (run': seq<State>)
    requires Shows(run, b) && Player(i) && b.Get(i).role == Leader
    ensures Shows(run', b.Set(i, ProposedCell(b.Get(i), i))) && run <= run' && Last(run).net <= Last(run').net
    ensures Announced(run', i)
  {
    assert ShowsAt(run, b, i);
    ProposeDraws(View(run, i), b.Get(i), i);
    run' := ProposeNext(run, i);
    OneOn(run, run', b, i, ProposedCell(b.Get(i), i));
  }

  /** A leader after `n` proposals. */
  function FilledCell(c: Cell, i: NodeId, n: nat): Cell {
    c.(ts := c.ts + seq(n, _ => c.term),
       next := c.next.Set(i, |c.ts| + n + 1), matched := c.matched.Set(i, |c.ts| + n))
  }

  function FilledBoard(b: Board, i: NodeId, n: nat): Board { b.Set(i, FilledCell(b.Get(i), i, n)) }

  lemma FillStep(b: Board, i: NodeId, n: nat)
    requires Player(i) && n > 0
    ensures FilledBoard(b, i, n) == FilledBoard(b, i, n - 1).Set(i, ProposedCell(FilledCell(b.Get(i), i, n - 1), i))
  {
    var c := b.Get(i);
    assert c.ts + seq(n, _ => c.term) == c.ts + seq(n - 1, _ => c.term) + [c.term];
  }

  lemma {:induction false} FillOn(run: seq<State>, b: Board, i: NodeId, n: nat) returns (run': seq<State>)
    requires Shows(run, b) && Player(i) && b.Get(i).role == Leader && n > 0
    ensures Shows(run', FilledBoard(b, i, n)) && run <= run' && Last(run).net <= Last(run').net
    ensures Announced(run', i)
  {
    FillStep(b, i, n);
    if n == 1 {
      run' := ProposeOn(run, b, i);
      FillOne(b, i);
    } else {
      var r := FillOn(run, b, i, n - 1);
      run' := ProposeOn(r, FilledBoard(b, i, n - 1), i);
    }
  }

  lemma FillOne(b: Board, i: NodeId)
    requires Player(i)
    ensures FilledBoard(b, i, 1) == b.Set(i, ProposedCell(b.Get(i), i))
  {
    var c := b.Get(i);
    assert c.ts + seq(1, _ => c.term) == c.ts + [c.term];
  }

  function Many(ms: Five<nat>, v: nat): nat {
    (if ms.a >= v then 1 else 0) + (if ms.b >= v then 1 else 0) + (if ms.c >= v then 1 else 0)
    + (if ms.d >= v then 1 else 0) + (if ms.e >= v then 1 else 0)
  }

  /** The third largest of five. */
  predicate Third(ms: Five<nat>, c: nat) { Many(ms, c) >= 3 && Many(ms, c + 1) < 3 }

  function CountedCell(k: Cell, p: NodeId, c: nat): Cell {
    k.(next := k.next.Set(p, |k.ts| + 1), matched := k.matched.Set(p, |k.ts|),
       committed := if c > k.committed && At(k.ts, c) == k.term then c else k.committed)
  }

  lemma ManyReached(prs: map<NodeId, Progress>, ms: Five<nat>, v: nat)
    requires prs.Keys == {1, 2, 3, 4, 5}
    requires forall p {:trigger prs[p]} :: Player(p) ==> prs[p].matched == ms.Get(p)
    ensures |Reached(prs, v)| == Many(ms, v)
  {
    var r1 := OneMoreIf({}, 1, ms.a >= v);
    var r2 := OneMoreIf(r1, 2, ms.b >= v);
    var r3 := OneMoreIf(r2, 3, ms.c >= v);
    var r4 := OneMoreIf(r3, 4, ms.d >= v);
    var r5 := OneMoreIf(r4, 5, ms.e >= v);
    forall p
      ensures p in r5 <==> p in Reached(prs, v)
    {
      assert Player(p) ==> p in prs && prs[p].matched == ms.Get(p);
    }
    assert r5 == Reached(prs, v);
  }

  lemma OneMoreIf(r: set<NodeId>, p: NodeId, c: bool) returns (r': set<NodeId>)
    requires p !in r
    ensures forall q :: q in r' <==> q in r || (q == p && c)
    ensures |r'| == |r| + if c then 1 else 0
  {
    r' := if c then r + {p} else r;
  }

  lemma CountDraws(k: Sketch, c: Cell, p: NodeId, third: nat)
    requires Draws(k, c) && Player(p) && Third(CountedCell(c, p, third).matched, third)
    ensures Draws(CountedSketch(k, p, third), CountedCell(c, p, third))
    ensures ThirdIn(CountedSketch(k, p, third).prs, third)
  {
    var k', c' := CountedSketch(k, p, third), CountedCell(c, p, third);
    ManyReached(k'.prs, c'.matched, third);
    ManyReached(k'.prs, c'.matched, third + 1);
  }

  predicate CanCount(b: Board, i: NodeId, p: NodeId, third: nat) {
    && Player(i) && Player(p) && b.Get(i).role == Leader && b.Get(i).matched.Get(p) < |b.Get(i).ts|
    && Third(CountedCell(b.Get(i), p, third).matched, third)
  }

  function CountedBoard(b: Board, i: NodeId, p: NodeId, third: nat): Board {
    b.Set(i, CountedCell(b.Get(i), p, third))
  }

  /** Leader `i` counts the acknowledgement of `p`. */
  lemma CountOn(run: seq<State>, b: Board, i: NodeId, p: NodeId, third: nat) returns (run': seq<State>)
    requires Shows(run, b) && CanCount(b, i, p, third) && AckOf(p, i, b.Get(i).term, b.Get(i).ts) in Last(run).net
    ensures Shows(run', CountedBoard(b, i, p, third)) && run <= run' && Last(run).net <= Last(run').net
    ensures CountedCell(b.Get(i), p, third).committed != b.Get(i).committed ==> Announced(run', i)
  {
    assert ShowsAt(run, b, i) && ShowsAt(run, b, p);
    CountDraws(View(run, i), b.Get(i), p, third);
    run' := CountFrom(run, i, p, third);
    OneOn(run, run', b, i, CountedCell(b.Get(i), p, third));
  }

  // ----- The start -----

  function Idle(i: NodeId): Node {
    Node(i, [1, 2, 3, 4, 5], 0, NONE, Follower, NONE, map[], map p | p in [1, 2, 3, 4, 5] :: Progress(1, 0),
         LogState([DummyEntry()], 1, [], 0, 0, 0), [], NONE, 0)
  }

  /** A node that has never led. */
  function NeverLed(t: Term, ts: seq<Term>): Cell { Cell(t, Follower, ts, 0, Same(1), Same(0)) }

  function Blank(): Board { Same(NeverLed(0, [])) }

  lemma IdleDraws(i: NodeId)
    ensures Draws(SketchOf(Idle(i)), NeverLed(0, []))
  {
    assert Idle(i).prs.Keys == {1, 2, 3, 4, 5};
  }

  lemma IdleInit(s: State)
    requires s.peers == [1, 2, 3, 4, 5] && s.net == {} && s.app == (map i | i in s.nodes :: [])
    requires s.nodes == (map i | i in s.peers :: Idle(i))
    ensures Init(s)
  {
    forall i | i in s.nodes
      ensures FreshNode(s.nodes[i], i, s.peers)
    {
    }
  }

  lemma InitIsLive(s: State)
    requires Init(s) && s.peers == [1, 2, 3, 4, 5]
    ensures Live([s])
  {
    forall k
      ensures Stage([s], k)
    {
    }
  }

  lemma Start() returns (run: seq<State>)
    ensures Shows(run, Blank())
  {
    var ps: seq<NodeId> := [1, 2, 3, 4, 5];
    var nodes := map i | i in ps :: Idle(i);
    var s := State(ps, nodes, {}, map i | i in nodes :: []);
    IdleInit(s);
    InitIsLive(s);
    run := [s];
    IdleShown(run);
  }

  lemma IdleShown(run: seq<State>)
    requires |run| > 0 && Last(run).nodes == (map i | i in [1, 2, 3, 4, 5] :: Idle(i))
    ensures Last(run).nodes.Keys == {1, 2, 3, 4, 5} && AllShown(run, Blank())
    ensures forall i :: i in Last(run).nodes ==> Undisturbed(Last(run).nodes[i])
  {
    forall i
      ensures ShowsAt(run, Blank(), i)
    {
      IdleDraws(i);
    }
  }
}
