/** The moves that change logs: taking office, accepting an append, and
    appending a proposal. */
module Reigns {
  import opened RaftTypes
  import opened LogSpec
  import opened LogFacts
  import opened NodeSpec
  import opened Cluster
  import opened History
  import opened HistoryFacts
  import opened Moves
  import opened Actions
  import opened Majorities

  // ----- Majorities -----

  /** The `uint8_t` tally means a majority exactly for these peer counts: below
      512 peers the threshold itself is exact, and a threshold of 255 is never
      exceeded. */
  lemma TallyIsMajority(size: nat)
    ensures TallyExact(size) <==>
      forall c: nat :: c <= size && c % 256 > (size / 2) % 256 ==> 2 * c > size
  {
    if !TallyExact(size) {
      var c := (size / 2) % 256 + 1;
      assert c <= size && c % 256 > (size / 2) % 256 && 2 * c <= size;
    }
  }

  /** The other way round, every majority passes the tally exactly up to 255 peers. */
  lemma MajorityPasses(size: nat)
    ensures size < 256 <==> forall c: nat :: c <= size && 2 * c > size ==> c % 256 > (size / 2) % 256
  {
    if size >= 256 {
      var c := size - size % 256;
      assert c % 256 == 0 && c <= size && 2 * c > size;
    }
  }

  lemma WinIsMajority(s: State, h: History, i: NodeId)
    requires Inv(s, h) && i in s.nodes && Wins(s.nodes[i].votes, |s.peers|)
    ensures Majority(Granted(s.nodes[i].votes), s.nodes.Keys)
  {
    Open(s, h);
    var g := Granted(s.nodes[i].votes);
    NodeFacts(s, h, i);
    DistinctSize(s.peers);
    assert s.nodes.Keys == Members(s.peers);
    assert g <= s.nodes.Keys;
    SubsetSize(g, s.nodes.Keys);
    TallyIsMajority(|s.peers|);
  }

  /** Election safety at the moment of an election: no other node has won the
      same term. */
  lemma Unelected(s: State, h: History, i: NodeId)
    requires Addressed(s) && Electoral(s, h) && i in s.nodes && s.nodes[i].role == Candidate
    requires Standing(s, h, s.nodes[i])
    requires Majority(Granted(s.nodes[i].votes), s.nodes.Keys)
    ensures s.nodes[i].term !in h.reigns
  {
    var t, g := s.nodes[i].term, Granted(s.nodes[i].votes);
    forall m | m in s.net && IsGrant(m) && m.from == i
      ensures m.term != t
    {
      assert GrantOk(s, m);
    }
    if t in h.reigns {
      var r := h.reigns[t];
      assert ReignElected(s, t, r);
      assert r.id != i;
      var j := Overlap(g, r.quorum, s.nodes.Keys);
      var x, y := Grant(j, i, t), Grant(j, r.id, t);
      assert j != i ==> x in s.net && IsGrant(x);
      assert j != r.id ==> y in s.net && IsGrant(y);
      assert SameBallot(x, y);
      assert false;
    }
  }

  // ----- Appends of a leader -----

  /** `n` leads its term in `h`, with the log the history has for it. */
  predicate Leads(h: History, n: Node) {
    && n.role == Leader
    && n.term in h.reigns
    && h.reigns[n.term].id == n.id
    && n.log.entries == h.reigns[n.term].log
    && ReignLog(h, n.term)
  }

  lemma LeaderFacts(s: State, h: History, i: NodeId)
    requires Inv(s, h) && i in s.nodes && s.nodes[i].role == Leader
    ensures Leads(h, s.nodes[i]) && s.nodes[i].term >= 1
  {
    Open(s, h);
    NodeFacts(s, h, i);
    assert ReignLog(h, s.nodes[i].term);
  }

  lemma AppendIsPlain(h: History, n: Node, p: NodeId)
    requires ValidNode(n) && NodeShape(n) && Leads(h, n) && ProgressOk(n)
    requires p in n.prs && p != n.id
    ensures Plain(h, AppendTo(n, p))
  {
    Lookups(n);
    var prev := n.prs[p].next - 1;
    assert AppendTo(n, p).body.index == prev;
    assert EntriesAfter(n.log, prev) == n.log.entries[prev..];
    assert n.log.entries[prev..] == n.log.entries[prev..|n.log.entries|];
  }

  lemma BroadcastIsPlain(s: State, h: History, n: Node)
    requires ValidNode(n) && NodeShape(n) && Leads(h, n) && ProgressOk(n)
    requires forall p :: p in n.peers ==> p in s.nodes
    ensures forall m :: m in AppendsTo(n, n.peers) ==>
      Plain(h, m) && m.from in s.nodes && m.to in s.nodes
  {
    forall m | m in AppendsTo(n, n.peers)
      ensures Plain(h, m) && m.from in s.nodes && m.to in s.nodes
    {
      var p := AppendsReach(n, n.peers, m);
      AppendIsPlain(h, n, p);
    }
  }

  // ----- Taking office -----

  function Elected(h: History, n: Node): History
    requires ValidNode(n)
  {
    var o := TakeOffice(n);
    h.(reigns := h.reigns[n.term := Reign(n.id, Granted(n.votes), n.log.entries, o.log.entries)],
       acked := h.acked[Ack(n.id, n.term) := |o.log.entries|])
  }

  lemma ElectedHistory(h: History, n: Node)
    requires ValidNode(n) && NodeShape(n) && NodeLogOk(h, n) && n.role == Candidate && n.term >= 1
    requires n.term !in h.reigns && Ack(n.id, n.term) !in h.acked
    ensures HistoryMove(h, Elected(h, n), TakeOffice(n))
    ensures ReignLog(Elected(h, n), n.term)
  {
    Lookups(n);
    var h' := Elected(h, n);
    ExtendedOnRecord(h, h', n.log.entries);
  }

  lemma ElectedQuorum(s: State, h: History, i: NodeId)
    requires Inv(s, h) && i in s.nodes && s.nodes[i].role == Candidate && Fits(s, i)
    requires s.nodes[i].term !in h.reigns
    requires HistoryMove(h, Elected(h, s.nodes[i]), TakeOffice(s.nodes[i]))
    ensures QuorumOk(Elected(h, s.nodes[i]), s.nodes[i].term)
  {
    var n := s.nodes[i];
    var h' := Elected(h, n);
    NodeFacts(s, h, i);
    assert Satisfies(s, h, Logs) && Satisfies(s, h, Acknowledging);
    forall j | j in Granted(n.votes)
      ensures Inherits(h', j, n.term, n.log.entries)
    {
      if j == i {
        VoterInherits(s, h, i, n.log.entries);
      } else {
        MessageFacts(s, h, Grant(j, i, n.term));
      }
      ExtendedInherits(h, h', TakeOffice(n), j, n.term, n.log.entries);
    }
  }

  /** The new leader as a node of the new history. */
  lemma OfficeNode(s: State, h: History, i: NodeId)
    requires Inv(s, h) && i in s.nodes && s.nodes[i].role == Candidate && Fits(s, i)
    requires ReignLog(Elected(h, s.nodes[i]), s.nodes[i].term)
    ensures var o := TakeOffice(s.nodes[i]); var h' := Elected(h, s.nodes[i]);
      && NodeShape(o) && Acquainted(s, o) && Standing(s, h', o) && NodeLogOk(h', o)
      && CurrentAck(h', o) && ProgressOk(o) && Leads(h', o)
  {
    NodeFacts(s, h, i);
    Lookups(s.nodes[i]);
  }

  /** The commit index and the outbox do not enter the invariants of a node. */
  predicate SameButCommit(o: Node, n: Node) {
    n == o.(msgs := n.msgs, log := o.log.(committed := n.log.committed))
  }

  lemma CommitIsFree(s: State, s': State, h: History, o: Node, n: Node)
    requires SameButCommit(o, n) && s'.nodes.Keys == s.nodes.Keys && s.net <= s'.net
    requires NodeShape(o) && Acquainted(s, o) && Standing(s, h, o) && NodeLogOk(h, o)
    requires CurrentAck(h, o) && ProgressOk(o)
    ensures NewNode(s', h, n)
  {
  }

  lemma ElectedReign(s: State, h: History, i: NodeId, s': State, r: Reign)
    requires Addressed(s) && Electoral(s, h) && i in s.nodes && s.nodes[i].role == Candidate
    requires r.id == i && r.quorum == Granted(s.nodes[i].votes) && Majority(r.quorum, s.nodes.Keys)
    requires Only(s, s', i) && Addressed(s') && NewGrants(s, s', s'.nodes[i])
    requires s'.nodes[i].role == Leader && s'.nodes[i].term == s.nodes[i].term
    ensures ReignElected(s', s.nodes[i].term, r)
  {
    assert Standing(s, h, s.nodes[i]);
    forall m | m in s'.net && IsGrant(m) && m.from == i
      ensures m.term != s.nodes[i].term
    {
      if m in s.net {
        assert GrantOk(s, m);
      }
    }
  }

  lemma AckReign(s: State, h: History, a: Ack)
    requires Acks(s, h) && a in h.acked
    ensures a.term in h.reigns
  {
    assert AckOk(s, h, a);
  }

  lemma NoAckYet(s: State, h: History, a: Ack)
    requires Acks(s, h) && a.term !in h.reigns
    ensures a !in h.acked
  {
    if a in h.acked {
      AckReign(s, h, a);
    }
  }

  /** Winning an election keeps the invariants; the history gains a reign. */
  lemma WinKeepsInv(s: State, h: History, i: NodeId)
    requires Inv(s, h) && i in s.nodes && Fits(s, i)
    requires s.nodes[i].role == Candidate && Wins(s.nodes[i].votes, |s.peers|)
    ensures Inv(Install(s, i, BecomeLeader(s.nodes[i])), Elected(h, s.nodes[i]))
    ensures Extends(h, Elected(h, s.nodes[i]))
  {
    var n := s.nodes[i];
    var o, n', h' := TakeOffice(n), BecomeLeader(n), Elected(h, n);
    var s' := Install(s, i, n');
    NodeFacts(s, h, i);
    assert Satisfies(s, h, Elections) && Satisfies(s, h, Acknowledging);
    WinIsMajority(s, h, i);
    Unelected(s, h, i);
    NoAckYet(s, h, Ack(i, n.term));
    ElectedHistory(h, n);
    OfficeNode(s, h, i);
    ElectedQuorum(s, h, i);
    BroadcastIsPlain(s, h', o);
    assert n'.msgs == AppendsTo(o, o.peers);
    WinMoves(s, h, i, n', s', h');
    MoveKeepsInv(s, h, s', h', i);
  }

  lemma OfficeSame(n: Node, n': Node)
    requires ValidNode(n) && n' == BecomeLeader(n).(msgs := [])
    ensures SameButCommit(TakeOffice(n), n')
  {
  }

  lemma WinMoves(s: State, h: History, i: NodeId, n': Node, s': State, h': History)
    requires WellFormed(s) && Electoral(s, h) && i in s.nodes && Fits(s, i)
    requires s.nodes[i].role == Candidate && Majority(Granted(s.nodes[i].votes), s.nodes.Keys)
    requires s.nodes[i].term !in h.reigns
    requires n' == BecomeLeader(s.nodes[i]) && s' == Install(s, i, n') && h' == Elected(h, s.nodes[i])
    requires HistoryMove(h, h', TakeOffice(s.nodes[i])) && ReignLog(h', s.nodes[i].term)
    requires QuorumOk(h', s.nodes[i].term)
    requires var o := TakeOffice(s.nodes[i]);
      && NodeShape(o) && Acquainted(s, o) && Standing(s, h', o) && NodeLogOk(h', o)
      && CurrentAck(h', o) && ProgressOk(o)
    requires forall m :: m in n'.msgs ==> Plain(h', m) && m.from in s.nodes && m.to in s.nodes
    ensures Move(s, h, s', h', i)
  {
    WinSent(s, i, n', s', h');
    WinNode(s, h', s.nodes[i], s', s'.nodes[i]);
    WinReign(s, h, i, s', h');
  }

  lemma WinReign(s: State, h: History, i: NodeId, s': State, h': History)
    requires Addressed(s) && Electoral(s, h) && i in s.nodes && s.nodes[i].role == Candidate
    requires ValidNode(s.nodes[i]) && Majority(Granted(s.nodes[i].votes), s.nodes.Keys)
    requires Only(s, s', i) && Addressed(s') && NewGrants(s, s', s'.nodes[i])
    requires s'.nodes[i] == BecomeLeader(s.nodes[i]).(msgs := []) && h' == Elected(h, s.nodes[i])
    ensures ReignElected(s', s.nodes[i].term, h'.reigns[s.nodes[i].term])
  {
    ElectedReign(s, h, i, s', h'.reigns[s.nodes[i].term]);
  }

  lemma WinSent(s: State, i: NodeId, n': Node, s': State, h': History)
    requires WellFormed(s) && i in s.nodes && Fits(s, i) && n' == BecomeLeader(s.nodes[i]) && s' == Install(s, i, n')
    requires forall m :: m in n'.msgs ==> Plain(h', m) && m.from in s.nodes && m.to in s.nodes
    ensures WellFormed(s') && Only(s, s', i) && s'.nodes[i] == n'.(msgs := [])
    ensures NewGrants(s, s', s'.nodes[i]) && NewBallots(s, s', h') && NewRequests(s, s', s'.nodes[i])
    ensures NewAppends(s, s', h') && NewReplies(s, s', h') && NewShapes(s, s')
  {
    Installed(s, i, n');
    PlainNews(s, s', h', s'.nodes[i], n'.msgs);
  }

  lemma WinNode(s: State, h': History, n: Node, s': State, n': Node)
    requires ValidNode(n) && n' == BecomeLeader(n).(msgs := []) && s'.nodes.Keys == s.nodes.Keys && s.net <= s'.net
    requires var o := TakeOffice(n);
      && NodeShape(o) && Acquainted(s, o) && Standing(s, h', o) && NodeLogOk(h', o)
      && CurrentAck(h', o) && ProgressOk(o)
    ensures NewNode(s', h', n')
  {
    OfficeSame(n, n');
    CommitIsFree(s, s', h', TakeOffice(n), n');
  }

  // ----- Appending a proposal -----

  function Grown(h: History, n: Node, es: seq<Entry>): History
    requires n.term in h.reigns
  {
    h.(reigns := h.reigns[n.term := h.reigns[n.term].(log := es)],
       acked := h.acked[Ack(n.id, n.term) := |es|])
  }

  /** A leader adds entries of its own term at the end of its log. */
  predicate Extended(n: Node, es: seq<Entry>) {
    && n.log.entries <= es
    && WellIndexed(es)
    && forall k :: |n.log.entries| <= k < |es| ==> es[k].term == n.term
  }

  lemma GrownHistory(s: State, h: History, n: Node, es: seq<Entry>)
    requires Acks(s, h) && n.id in s.nodes && s.nodes[n.id] == n && Leads(h, n) && Extended(n, es)
    ensures var n' := n.(log := n.log.(entries := es)); var h' := Grown(h, n, es);
      && HistoryMove(h, h', n') && ReignLog(h', n.term) && NodeLogOk(h', n')
      && CurrentAck(h', n') && Leads(h', n')
  {
    var h' := Grown(h, n, es);
    var a := Ack(n.id, n.term);
    if a in h.acked {
      assert AckOk(s, h, a);
    }
    assert HistoryMove(h, h', n);
    ExtendedOnRecord(h, h', h.reigns[n.term].base);
    assert es[|es| - 1].term == n.term;
  }

  lemma PushedOne(n: Node, e: Entry)
    requires ValidNode(n) && NodeShape(n)
    ensures var a := PushProposals(n, [e], LastIndex(n.log));
      && Extended(n, a.log.entries)
      && NodeShape(a)
      && a == n.(pendingConf := a.pendingConf, log := n.log.(entries := a.log.entries))
  {
    Lookups(n);
    var last, rest := LastIndex(n.log), [e][1..];
    assert rest == [];
    var e' := e.(term := n.term, index := last + 1);
    if e.etype == EntryConfChange && n.pendingConf != NONE {
      assert PushProposals(n, [e], last) == PushProposals(n, rest, last) == n;
    } else {
      var x := n.(pendingConf := if e.etype == EntryConfChange then last + 1 else n.pendingConf,
                  log := n.log.(entries := n.log.entries + [e']));
      assert PushProposals(n, [e], last) == PushProposals(x, rest, last) == x;
    }
  }

  /** The leader once a proposal is in its log, before it sends anything. */
  lemma ProposedNode(s: State, h: History, n: Node, e: Entry) returns (b: Node, h': History)
    requires Acks(s, h) && n.id in s.nodes && s.nodes[n.id] == n && Leads(h, n)
    requires ValidNode(n) && NodeShape(n) && ProgressOk(n) && Acquainted(s, n)
    ensures ValidNode(b) && AppendEntries(n, [e]) == CommitAlone(BcastAppend(b))
    ensures b.log == n.log.(entries := b.log.entries)
    ensures b.prs == n.prs[n.id := Progress(|b.log.entries| + 1, |b.log.entries|)]
    ensures h' == Grown(h, n, b.log.entries)
    ensures b.id == n.id && b.peers == n.peers && b.term == n.term && b.vote == n.vote
    ensures b.msgs == n.msgs && n.log.entries <= b.log.entries
    ensures NodeShape(b) && ProgressOk(b) && Acquainted(s, b) && Leads(h', b)
    ensures HistoryMove(h, h', b) && NodeLogOk(h', b) && CurrentAck(h', b)
  {
    b := ProposedForm(n, e);
    h' := Grown(h, n, b.log.entries);
    GrownHistory(s, h, n, b.log.entries);
  }

  lemma ProposedForm(n: Node, e: Entry) returns (b: Node)
    requires ValidNode(n) && NodeShape(n)
    ensures ValidNode(b) && AppendEntries(n, [e]) == CommitAlone(BcastAppend(b))
    ensures Extended(n, b.log.entries) && NodeShape(b)
    ensures b == n.(pendingConf := b.pendingConf, log := n.log.(entries := b.log.entries),
                    prs := n.prs[n.id := Progress(|b.log.entries| + 1, |b.log.entries|)])
  {
    PushedOne(n, e);
    var a := PushProposals(n, [e], LastIndex(n.log));
    Lookups(a);
    b := SetMatch(a, a.id, LastIndex(a.log));
  }

  /** `b` is the leader of `s` at `i` with a longer log, matched by `h'`. */
  ghost predicate Proposed(s: State, h: History, i: NodeId, b: Node, h': History)
    requires i in s.nodes
  {
    && ValidNode(b) && NodeShape(b) && ProgressOk(b) && Acquainted(s, b) && Leads(h', b)
    && b.id == i && b.peers == s.peers && b.term == s.nodes[i].term && b.msgs == []
    && b.vote == s.nodes[i].vote && s.nodes[i].log.entries <= b.log.entries
    && HistoryMove(h, h', b) && NodeLogOk(h', b) && CurrentAck(h', b)
  }

  lemma ProposalMoves(s: State, h: History, i: NodeId, b: Node, n': Node, s': State, h': History)
    requires WellFormed(s) && i in s.nodes && Fits(s, i) && Leads(h, s.nodes[i])
    requires Standing(s, h, s.nodes[i]) && Proposed(s, h, i, b, h')
    requires SameButCommit(b, n') && s' == Install(s, i, n')
    requires forall m :: m in n'.msgs ==> Plain(h', m) && m.from in s.nodes && m.to in s.nodes
    ensures Move(s, h, s', h', i)
  {
    Installed(s, i, n');
    PlainNews(s, s', h', s'.nodes[i], n'.msgs);
    CommitIsFree(s, s', h', b, s'.nodes[i]);
  }

  lemma ProposalSent(s: State, h: History, i: NodeId, b: Node, h': History)
    requires Inv(s, h) && i in s.nodes && Fits(s, i) && Leads(h, s.nodes[i])
    requires Proposed(s, h, i, b, h')
    ensures Inv(Install(s, i, CommitAlone(BcastAppend(b))), h')
  {
    Open(s, h);
    var n' := CommitAlone(BcastAppend(b));
    assert Standing(s, h, s.nodes[i]);
    BroadcastIsPlain(s, h', b);
    assert n'.msgs == AppendsTo(b, b.peers);
    ProposalMoves(s, h, i, b, n', Install(s, i, n'), h');
    MoveKeepsInv(s, h, Install(s, i, n'), h', i);
  }

  /** A leader's proposal keeps the invariants; its reign's log grows. */
  lemma ProposeKeepsInv(s: State, h: History, i: NodeId, e: Entry) returns (h': History)
    requires Inv(s, h) && i in s.nodes && Fits(s, i) && s.nodes[i].role == Leader
    ensures Inv(Install(s, i, AppendEntries(s.nodes[i], [e])), h') && Extends(h, h')
    ensures s.nodes[i].term in h.reigns
    ensures h' == Grown(h, s.nodes[i], AppendEntries(s.nodes[i], [e]).log.entries)
  {
    Open(s, h);
    var n := s.nodes[i];
    NodeFacts(s, h, i);
    assert ReignLog(h, n.term);
    var b;
    b, h' := ProposedNode(s, h, n, e);
    ProposalSent(s, h, i, b, h');
  }

  // ----- Accepting an append -----

  function Acknowledged(h: History, a: Ack, k: nat): History {
    h.(acked := h.acked[a := k])
  }

  lemma AcceptedHistory(s: State, h: History, n: Node, m: Message, l: LogState)
    requires ReignLogs(h) && Acks(s, h) && NodeShape(n) && NodeLogOk(h, n)
    requires n.id in s.nodes && s.nodes[n.id] == n && n.role == Follower
    requires m.body.Append? && AppendOk(h, m) && m.term == n.term
    requires m.body.index <= |n.log.entries| && TermAt(n.log.entries, m.body.index) == m.body.logTerm
    requires l == Absorb(n.log, m.body.entries, 0, 0)
    ensures var n' := n.(log := l); var h' := Acknowledged(h, Ack(n.id, n.term), |l.entries|);
      && HistoryMove(h, h', n') && NodeLogOk(h', n') && CurrentAck(h', n') && NodeShape(n')
      && LogMove(h', n, n')
  {
    AcceptedLog(h, n, m);
    assert ReignLog(h, m.term);
    var h' := Acknowledged(h, Ack(n.id, n.term), |l.entries|);
    assert Extends(h, h') by {
      if Ack(n.id, n.term) in h.acked {
        assert AckOk(s, h, Ack(n.id, n.term));
      }
    }
    assert l.entries[|l.entries| - 1] == h.reigns[m.term].log[|l.entries| - 1];
  }

  lemma AckIsPlain(h': History, m: Message, reply: Message)
    requires m.body.Append? && m.term in h'.reigns && h'.reigns[m.term].id == m.from
    requires MessageShape(m) && reply.from == m.to && reply.to == m.from && reply.term == m.term
    requires reply.body.AppendResponse? && !reply.body.reject
    requires Ack(m.to, m.term) in h'.acked && reply.body.index <= h'.acked[Ack(m.to, m.term)]
    ensures Plain(h', reply)
  {
  }

  lemma AcceptReply(n: Node, m: Message, l: LogState) returns (reply: Message)
    requires ValidNode(n) && n.msgs == [] && m.body.Append? && l == Absorb(n.log, m.body.entries, 0, 0)
    requires LogShape(l) && l.first == 1
    ensures reply == Message(n.id, m.from, n.term, AppendResponse(false, NONE, |l.entries|))
    ensures Accept(n, m).msgs == [reply]
    ensures SameButCommit(n.(log := l), Accept(n, m))
  {
    LastIndexOf(l);
    reply := Message(n.id, m.from, n.term, AppendResponse(false, NONE, |l.entries|));
  }

  lemma AcceptMoves(s: State, h: History, i: NodeId, l: LogState, n': Node, s': State, h': History)
    requires WellFormed(s) && ReignLogs(h) && i in s.nodes && s.nodes[i].role == Follower
    requires Fits(s, i) && Acquainted(s, s.nodes[i]) && Standing(s, h, s.nodes[i])
    requires var a := s.nodes[i].(log := l);
      && HistoryMove(h, h', a) && NodeLogOk(h', a) && CurrentAck(h', a) && NodeShape(a)
      && LogMove(h', s.nodes[i], a)
    requires h'.reigns == h.reigns
    requires SameButCommit(s.nodes[i].(log := l, lead := n'.lead), n') && n'.lead in s.nodes
    requires s' == Install(s, i, n')
    requires forall m :: m in n'.msgs ==> Plain(h', m) && m.from in s.nodes && m.to in s.nodes
    ensures Move(s, h, s', h', i)
  {
    Installed(s, i, n');
    PlainNews(s, s', h', s'.nodes[i], n'.msgs);
    AcceptReign(s', h, h', s'.nodes[i]);
    AcceptNode(s, s', h, h', s.nodes[i], l, s'.nodes[i]);
  }

  lemma AcceptReign(s': State, h: History, h': History, n': Node)
    requires ReignLogs(h) && h'.reigns == h.reigns
    ensures NewReign(s', h, h', n')
  {
    if n'.term in h.reigns {
      assert ReignLog(h, n'.term);
    }
  }

  lemma AcceptNode(s: State, s': State, h: History, h': History, n: Node, l: LogState, n': Node)
    requires Acquainted(s, n) && Standing(s, h, n) && n.role == Follower
    requires s'.nodes.Keys == s.nodes.Keys && n'.lead in s.nodes
    requires var a := n.(log := l); NodeLogOk(h', a) && CurrentAck(h', a) && NodeShape(a)
    requires SameButCommit(n.(log := l, lead := n'.lead), n')
    ensures NewNode(s', h', n')
  {
  }

  /** What the receiver and the message must be for the append to be accepted. */
  ghost predicate Accepting(s: State, h: History, i: NodeId, m: Message) {
    && WellFormed(s) && ReignLogs(h) && Acks(s, h) && i in s.nodes && Fits(s, i) && s.nodes[i].id == i
    && s.nodes[i].msgs == [] && s.nodes[i].role == Follower
    && NodeShape(s.nodes[i]) && NodeLogOk(h, s.nodes[i]) && Acquainted(s, s.nodes[i]) && Standing(s, h, s.nodes[i])
    && m.body.Append? && AppendOk(h, m) && MessageShape(m) && m.term == s.nodes[i].term
    && m.to == i && m.from in s.nodes
    && m.body.index <= |s.nodes[i].log.entries|
    && TermAt(s.nodes[i].log.entries, m.body.index) == m.body.logTerm
  }

  lemma AcceptIsMove(s: State, h: History, i: NodeId, m: Message, l: LogState, n': Node, h': History)
    requires Accepting(s, h, i, m) && l == Absorb(s.nodes[i].log, m.body.entries, 0, 0)
    requires n' == Accept(s.nodes[i].(lead := m.from), m) && h' == Acknowledged(h, Ack(i, m.term), |l.entries|)
    ensures Move(s, h, Install(s, i, n'), h', i) && |n'.log.entries| == |l.entries|
  {
    var n := s.nodes[i];
    AcceptedHistory(s, h, n, m, l);
    var reply := AcceptReply(n.(lead := m.from), m, l);
    AckIsPlain(h', m, reply);
    AcceptMoves(s, h, i, l, n', Install(s, i, n'), h');
  }

  /** Accepting an append keeps the invariants; the history gains an
      acknowledgement of the whole log. */
  lemma AcceptKeepsInv(s: State, h: History, i: NodeId, m: Message) returns (h': History)
    requires Inv(s, h) && i in s.nodes && Fits(s, i) && m in s.net && m.to == i && m.body.Append?
    requires m.term == s.nodes[i].term && s.nodes[i].role == Follower
    requires m.body.index <= |Log(s, i)| && TermAt(Log(s, i), m.body.index) == m.body.logTerm
    ensures Inv(Install(s, i, Accept(s.nodes[i].(lead := m.from), m)), h') && Extends(h, h')
    ensures h' == Acknowledged(h, Ack(i, m.term), |Accept(s.nodes[i].(lead := m.from), m).log.entries|)
  {
    var n := s.nodes[i];
    NodeFacts(s, h, i);
    MessageFacts(s, h, m);
    assert Satisfies(s, h, Logs) && Satisfies(s, h, Acknowledging);
    var l := Absorb(n.log, m.body.entries, 0, 0);
    var n' := Accept(n.(lead := m.from), m);
    h' := Acknowledged(h, Ack(i, m.term), |l.entries|);
    AcceptIsMove(s, h, i, m, l, n', h');
    MoveKeepsInv(s, h, Install(s, i, n'), h', i);
  }
}
