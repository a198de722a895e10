/** One Raft node as a state machine: every handler of `RaftContext` as a
    function from the node before to the node after. Messages sent are appended
    to the outbox. */
module NodeSpec {
  import opened RaftTypes
  import opened LogSpec

  predicate ValidNode(n: Node) {
    && n.id in n.peers
    && Distinct(n.peers)
    && n.prs.Keys == (set p | p in n.peers)
    && |n.log.storage| > 0
  }

  function Send(n: Node, to: NodeId, body: Body): Node {
    n.(msgs := n.msgs + [Message(n.id, to, n.term, body)])
  }

  // ----- Role changes -----

  function BecomeFollower(n: Node, term: Term, lead: NodeId): Node {
    n.(role := Follower, lead := lead, term := term, vote := NONE)
  }

  function BecomeCandidate(n: Node): Node {
    n.(role := Candidate, lead := NONE, term := n.term + 1, vote := n.id,
       votes := map[n.id := true])
  }

  /** The progress table a new leader starts from: `next` is reset for every
      peer, `match` only for the leader itself. */
  function LeaderProgress(n: Node): map<NodeId, Progress>
    requires ValidNode(n)
  {
    var last := LastIndex(n.log);
    map p | p in n.prs ::
      if p == n.id then Progress(last + 2, last + 1)
      else Progress(last + 1, n.prs[p].matched)
  }

  /** Takes office and appends the empty entry of the new term. */
  function TakeOffice(n: Node): (r: Node)
    requires ValidNode(n)
    ensures ValidNode(r)
  {
    var noop := Entry(EntryNormal, n.term, LastIndex(n.log) + 1, "");
    n.(role := Leader, lead := n.id, prs := LeaderProgress(n),
       log := n.log.(entries := n.log.entries + [noop]))
  }

  function BecomeLeader(n: Node): Node
    requires ValidNode(n)
  {
    CommitAlone(BcastAppend(TakeOffice(n)))
  }

  /** A leader without other peers commits what it has appended. */
  function CommitAlone(n: Node): Node
    requires ValidNode(n)
  {
    if |n.peers| == 1 then n.(log := n.log.(committed := n.prs[n.id].matched)) else n
  }

  // ----- Sending appends -----

  function AppendTo(n: Node, to: NodeId): Message
    requires ValidNode(n) && to in n.prs
  {
    var prev := Sub64(n.prs[to].next, 1);
    Message(n.id, to, n.term,
            Append(TermOf(n.log, prev), prev, EntriesAfter(n.log, prev), n.log.committed))
  }

  function SendAppend(n: Node, to: NodeId): Node
    requires ValidNode(n) && to in n.prs
  {
    n.(msgs := n.msgs + [AppendTo(n, to)])
  }

  function AppendsTo(n: Node, ps: seq<NodeId>): seq<Message>
    requires ValidNode(n) && (forall p :: p in ps ==> p in n.prs)
  {
    if ps == [] then []
    else if ps[0] == n.id then AppendsTo(n, ps[1..])
    else [AppendTo(n, ps[0])] + AppendsTo(n, ps[1..])
  }

  /** An append goes to each other peer, and nowhere else. */
  lemma {:induction false} AppendsReach(n: Node, ps: seq<NodeId>, m: Message) returns (p: NodeId)
    requires ValidNode(n) && (forall p :: p in ps ==> p in n.prs)
    requires m in AppendsTo(n, ps)
    ensures p in ps && p != n.id && m == AppendTo(n, p)
  {
    if ps[0] != n.id && m == AppendTo(n, ps[0]) {
      p := ps[0];
    } else {
      p := AppendsReach(n, ps[1..], m);
    }
  }

  lemma {:induction false} AppendsInclude(n: Node, ps: seq<NodeId>, p: NodeId)
    requires ValidNode(n) && (forall p :: p in ps ==> p in n.prs)
    requires p in ps && p != n.id
    ensures AppendTo(n, p) in AppendsTo(n, ps)
  {
    if ps[0] != p {
      AppendsInclude(n, ps[1..], p);
    }
  }

  function BcastAppend(n: Node): Node
    requires ValidNode(n)
  {
    n.(msgs := n.msgs + AppendsTo(n, n.peers))
  }

  /** The same message body to every other peer. */
  function ToOthers(n: Node, ps: seq<NodeId>, body: Body): seq<Message> {
    if ps == [] then []
    else if ps[0] == n.id then ToOthers(n, ps[1..], body)
    else [Message(n.id, ps[0], n.term, body)] + ToOthers(n, ps[1..], body)
  }

  lemma {:induction false} OthersReached(n: Node, ps: seq<NodeId>, body: Body, m: Message)
    requires m in ToOthers(n, ps, body)
    ensures m.from == n.id && m.to in ps && m.to != n.id && m.term == n.term && m.body == body
  {
    if ps[0] == n.id || m != Message(n.id, ps[0], n.term, body) {
      OthersReached(n, ps[1..], body, m);
    }
  }

  lemma {:induction false} OthersInclude(n: Node, ps: seq<NodeId>, body: Body, p: NodeId)
    requires p in ps && p != n.id
    ensures Message(n.id, p, n.term, body) in ToOthers(n, ps, body)
  {
    if ps[0] != p {
      OthersInclude(n, ps[1..], body, p);
    }
  }

  // ----- Elections -----

  function DoElection(n: Node): Node
    requires ValidNode(n)
  {
    var c := BecomeCandidate(n);
    if |n.peers| == 1 then BecomeLeader(c)
    else
      var last := LastIndex(c.log);
      c.(msgs := c.msgs + ToOthers(c, c.peers, RequestVote(TermOf(c.log, last), last)))
  }

  predicate Grants(n: Node, m: Message)
    requires ValidNode(n) && m.body.RequestVote?
  {
    var last := LastIndex(n.log);
    var lastTerm := TermOf(n.log, last);
    && !(m.term != NONE && m.term < n.term)
    && !(n.vote != NONE && n.vote != m.from)
    && !(lastTerm > m.body.logTerm || (lastTerm == m.body.logTerm && last > m.body.index))
  }

  function HandleRequestVote(n: Node, m: Message): Node
    requires ValidNode(n) && m.body.RequestVote?
  {
    if Grants(n, m) then Send(n.(vote := m.from), m.from, RequestVoteResponse(false))
    else Send(n, m.from, RequestVoteResponse(true))
  }

  function Granted(votes: map<NodeId, bool>): set<NodeId> {
    set p | p in votes && votes[p]
  }

  /** The tallies are kept in `uint8_t` variables. */
  predicate Wins(votes: map<NodeId, bool>, size: nat) {
    |Granted(votes)| % 256 > (size / 2) % 256
  }

  predicate Loses(votes: map<NodeId, bool>, size: nat) {
    |votes| % 256 - |Granted(votes)| % 256 > (size / 2) % 256
  }

  function HandleRequestVoteResponse(n: Node, m: Message): Node
    requires ValidNode(n) && m.body.RequestVoteResponse?
  {
    if m.term != NONE && m.term < n.term then n
    else
      var c := n.(votes := n.votes[m.from := !m.body.reject]);
      if Wins(c.votes, |c.peers|) then BecomeLeader(c)
      else if Loses(c.votes, |c.peers|) then BecomeFollower(c, c.term, NONE)
      else c
  }

  // ----- Replication: the receiver -----

  /** The last slice position below `end` that holds term `t`, or 0. */
  function LastWithTerm(es: seq<Entry>, end: nat, t: Term): nat
    requires end <= |es|
  {
    if end == 0 then 0
    else if es[end - 1].term == t then end - 1
    else LastWithTerm(es, end - 1, t)
  }

  predicate Conflicts(n: Node, b: Body)
    requires ValidNode(n) && b.Append?
  {
    b.index >= n.log.first && TermOf(n.log, b.index) != b.logTerm
  }

  function HandleAppendEntries(n: Node, m: Message): Node
    requires ValidNode(n) && m.body.Append?
  {
    var b := m.body;
    if m.term != NONE && m.term < n.term then
      Send(n, m.from, AppendResponse(true, NONE, NONE))
    else
      var f := n.(lead := m.from);
      var last := LastIndex(f.log);
      if b.index > last then
        Send(f, m.from, AppendResponse(true, NONE, last + 1))
      else if Conflicts(f, b) then
        var end := Min(Sub64(b.index + 1, f.log.first), |f.log.entries|);
        var t := TermOf(f.log, b.index);
        Send(f, m.from, AppendResponse(true, t, LastWithTerm(f.log.entries, end, t)))
      else Accept(f, m)
  }

  function Accept(n: Node, m: Message): Node
    requires ValidNode(n) && m.body.Append?
  {
    var l := CommitUpTo(Absorb(n.log, m.body.entries, 0, 0), m.body);
    Send(n.(log := l), m.from, AppendResponse(false, NONE, LastIndexOr0(l)))
  }

  function CommitUpTo(l: LogState, b: Body): LogState
    requires b.Append?
  {
    if b.commit > l.committed then l.(committed := Min(b.commit, b.index + |b.entries|)) else l
  }

  function LastIndexOr0(l: LogState): nat {
    if |l.storage| > 0 then LastIndex(l) else 0
  }

  // ----- Replication: the leader -----

  /** The last slice position below `end` whose term exceeds `t`; the source
      leaves the variable unassigned when there is none. */
  function LastAbove(es: seq<Entry>, end: nat, t: Term): nat
    requires end <= |es|
  {
    if end == 0 then 0
    else if es[end - 1].term > t then end - 1
    else LastAbove(es, end - 1, t)
  }

  /** Where the leader resumes after a rejection with a nonzero hint. */
  function BackOff(n: Node, b: Body): nat
    requires b.AppendResponse?
  {
    if b.logTerm == NONE then b.index
    else
      var f := LastAbove(n.log.entries, |n.log.entries|, b.logTerm);
      if 0 < f < |n.log.entries| && n.log.entries[f - 1].term == b.logTerm then f + n.log.first
      else b.index
  }

  function SetNext(n: Node, p: NodeId, next: nat): (r: Node)
    requires ValidNode(n) && p in n.prs
    ensures ValidNode(r)
  {
    n.(prs := n.prs[p := n.prs[p].(next := next)])
  }

  function SetMatch(n: Node, p: NodeId, index: nat): (r: Node)
    requires ValidNode(n) && p in n.prs
    ensures ValidNode(r)
  {
    n.(prs := n.prs[p := Progress(index + 1, index)])
  }

  function HandleAppendEntriesResponse(n: Node, m: Message, relaxed: bool): Node
    requires ValidNode(n) && m.body.AppendResponse? && m.from in n.prs
  {
    var b := m.body;
    if m.term != NONE && m.term < n.term then n
    else if b.reject then
      if b.index == NONE then n
      else SendAppend(SetNext(n, m.from, BackOff(n, b)), m.from)
    else if b.index > n.prs[m.from].matched then
      var l := LeaderCommit(SetMatch(n, m.from, b.index), relaxed);
      if m.from == l.transferee && b.index == LastIndex(l.log) then
        TimeoutNowTo(l, m.from).(transferee := NONE)
      else l
    else n
  }

  /** `MsgTimeoutNow` carries no term. */
  function TimeoutNowTo(n: Node, to: NodeId): Node {
    n.(msgs := n.msgs + [Message(n.id, to, NONE, TimeoutNow)])
  }

  function Insert(x: nat, s: seq<nat>): (r: seq<nat>)
    ensures |r| == |s| + 1
  {
    if s == [] || x <= s[0] then [x] + s else [s[0]] + Insert(x, s[1..])
  }

  /** `std::sort` on the match indices. */
  function Sorted(s: seq<nat>): (r: seq<nat>)
    ensures |r| == |s|
  {
    if s == [] then [] else Insert(s[0], Sorted(s[1..]))
  }

  function Matches(prs: map<NodeId, Progress>, ps: seq<NodeId>): (r: seq<nat>)
    requires forall p :: p in ps ==> p in prs
    ensures |r| == |ps|
  {
    seq(|ps|, i requires 0 <= i < |ps| => prs[ps[i]].matched)
  }

  /** The position of the commit candidate among the sorted match indices;
      `relaxed` is the source's test of the pending configuration index. */
  function Threshold(size: nat, relaxed: bool): (t: nat)
    requires size > 0
    ensures t < size
  {
    if size % 2 == 0 && relaxed then size / 2 - 1 else size / 2
  }

  function CommitCandidate(n: Node, relaxed: bool): nat
    requires ValidNode(n)
  {
    Sorted(Matches(n.prs, n.peers))[Threshold(|n.peers|, relaxed)]
  }

  function LeaderCommit(n: Node, relaxed: bool): (r: Node)
    requires ValidNode(n)
    ensures ValidNode(r)
  {
    var c := CommitCandidate(n, relaxed);
    if c > n.log.committed && TermOf(n.log, c) == n.term then
      BcastAppend(n.(log := n.log.(committed := c)))
    else n
  }

  /** One pass over the proposed entries. Every entry gets the index
      `last + 1`: the source's counter is never advanced. */
  function PushProposals(n: Node, es: seq<Entry>, last: nat): (r: Node)
    requires ValidNode(n)
    ensures ValidNode(r) && r.prs == n.prs
    decreases |es|
  {
    if es == [] then n
    else
      var e := es[0].(term := n.term, index := last + 1);
      if e.etype == EntryConfChange && n.pendingConf != NONE then
        PushProposals(n, es[1..], last)
      else
        var pc := if e.etype == EntryConfChange then e.index else n.pendingConf;
        PushProposals(
          n.(pendingConf := pc, log := n.log.(entries := n.log.entries + [e])), es[1..], last)
  }

  function AppendEntries(n: Node, es: seq<Entry>): Node
    requires ValidNode(n)
  {
    var a := PushProposals(n, es, LastIndex(n.log));
    CommitAlone(BcastAppend(SetMatch(a, a.id, LastIndex(a.log))))
  }

  // ----- Heartbeats and leadership transfer -----

  function HandleHeartbeat(n: Node, m: Message): Node {
    if m.term != NONE && m.term < n.term then Send(n, m.from, HeartbeatResponse(true))
    else Send(n.(lead := m.from), m.from, HeartbeatResponse(false))
  }

  function HandleTransferLeader(n: Node, m: Message): Node
    requires ValidNode(n) && m.from in n.prs
  {
    if m.from == n.id || (n.transferee != NONE && n.transferee == m.from) then n
    else
      var t := n.(transferee := m.from);
      if t.prs[m.from].matched == LastIndex(t.log) then TimeoutNowTo(t, m.from)
      else SendAppend(t, m.from)
  }

  /** A transfer request is passed on to the leader this node knows of. */
  function ForwardTransfer(n: Node, m: Message): Node {
    if n.lead != NONE then n.(msgs := n.msgs + [m.(to := n.lead)]) else n
  }

  // ----- Dispatch -----

  function StepFollower(n: Node, m: Message): Node
    requires ValidNode(n)
  {
    match m.body
    case Hup => DoElection(n)
    case TimeoutNow => DoElection(n)
    case Append(_, _, _, _) => HandleAppendEntries(n, m)
    case RequestVote(_, _) => HandleRequestVote(n, m)
    case Heartbeat => HandleHeartbeat(n, m)
    case TransferLeader => ForwardTransfer(n, m)
    case _ => n
  }

  function StepCandidate(n: Node, m: Message): Node
    requires ValidNode(n)
  {
    match m.body
    case Hup => DoElection(n)
    case Append(_, _, _, _) =>
      HandleAppendEntries(if m.term == n.term then BecomeFollower(n, m.term, m.from) else n, m)
    case RequestVote(_, _) => HandleRequestVote(n, m)
    case RequestVoteResponse(_) => HandleRequestVoteResponse(n, m)
    case Heartbeat =>
      HandleHeartbeat(if m.term == n.term then BecomeFollower(n, m.term, m.from) else n, m)
    case TransferLeader => ForwardTransfer(n, m)
    case _ => n
  }

  /** Messages a leader answers by looking up the sender's progress come from a
      peer. */
  predicate FromPeer(n: Node, m: Message) {
    m.body.AppendResponse? || m.body.HeartbeatResponse? || m.body.TransferLeader? ==>
      m.from in n.prs
  }

  function StepLeader(n: Node, m: Message, relaxed: bool): Node
    requires ValidNode(n) && FromPeer(n, m)
  {
    match m.body
    case Beat => n.(msgs := n.msgs + ToOthers(n, n.peers, Heartbeat))
    case Propose(es) => if n.transferee == NONE then AppendEntries(n, es) else n
    case Append(_, _, _, _) => HandleAppendEntries(n, m)
    case AppendResponse(_, _, _) => HandleAppendEntriesResponse(n, m, relaxed)
    case RequestVote(_, _) => HandleRequestVote(n, m)
    case Heartbeat => HandleHeartbeat(n, m)
    case HeartbeatResponse(_) => SendAppend(n, m.from)
    case TransferLeader => HandleTransferLeader(n, m)
    case _ => n
  }

  /** The node once it has seen the term of a message. */
  function Observe(n: Node, term: Term): (r: Node)
    ensures ValidNode(n) ==> ValidNode(r)
  {
    if term > n.term then BecomeFollower(n.(transferee := NONE), term, NONE) else n
  }

  function Step(n: Node, m: Message, relaxed: bool): Node
    requires ValidNode(n) && FromPeer(n, m)
  {
    var o := Observe(n, m.term);
    match o.role
    case Follower => StepFollower(o, m)
    case Candidate => StepCandidate(o, m)
    case Leader => StepLeader(o, m, relaxed)
  }
}
