/** History variables for the safety proofs, and the invariants of a cluster
    with its history. Nothing here is part of the model: a history records which
    node held office in which term, with what log, and what each node has
    acknowledged. */
module History {
  import opened RaftTypes
  import opened LogFacts
  import opened Cluster

  /** The leader of one term: who voted for it, its log when elected, and its
      log now (or when its term ended). */
  datatype Reign = Reign(id: NodeId, quorum: set<NodeId>, base: seq<Entry>, log: seq<Entry>)

  datatype Ack = Ack(node: NodeId, term: Term)

  /** `acked[Ack(j, t)]` is the last index node `j` has acknowledged to the
      leader of term `t`; a leader acknowledges its own entries at once. */
  datatype History = History(reigns: map<Term, Reign>, acked: map<Ack, nat>)

  // ----- Logs as sequences -----

  predicate WellIndexed(es: seq<Entry>) { Contiguous(es, 1) }

  function TermAt(es: seq<Entry>, i: nat): Term {
    if 1 <= i <= |es| then es[i - 1].term else 0
  }

  function LastTerm(es: seq<Entry>): Term { TermAt(es, |es|) }

  predicate NodeShape(n: Node) {
    && LogShape(n.log)
    && n.log.first == 1
    && n.log.storage[0].index == 0 && n.log.storage[0].term == 0
    && (n.log.entries == [] ==> |n.log.storage| == 1)
  }

  predicate MessageShape(m: Message) {
    && !IsLocal(m.body)
    && (m.body.TransferLeader? || m.body.TimeoutNow? ==> m.term == NONE)
    && (!m.body.TransferLeader? && !m.body.TimeoutNow? ==> m.term >= 1 && m.from != m.to)
  }

  /** The peers a node has heard of are nodes. */
  predicate Acquainted(s: State, n: Node) {
    n.votes.Keys <= s.nodes.Keys && (n.lead == NONE || n.lead in s.nodes)
  }

  predicate Shapes(s: State) {
    && (forall i {:trigger NodeShape(s.nodes[i])} :: i in s.nodes ==>
          NodeShape(s.nodes[i]) && Acquainted(s, s.nodes[i]))
    && (forall m {:trigger MessageShape(m)} :: m in s.net ==> MessageShape(m))
  }

  predicate Membership(s: State) {
    |s.peers| > 0 && NONE !in s.peers && NONE !in s.nodes && TallyExact(|s.peers|)
  }

  // ----- Elections -----

  predicate IsGrant(m: Message) { m.body == RequestVoteResponse(false) }

  function Grant(j: NodeId, i: NodeId, t: Term): Message {
    Message(j, i, t, RequestVoteResponse(false))
  }

  predicate Majority(q: set<NodeId>, all: set<NodeId>) { q <= all && 2 * |q| > |all| }

  /** In office or running, a node has voted for itself. */
  predicate OwnVote(n: Node) { n.role != Follower ==> n.vote == n.id && n.term >= 1 }

  /** A granted vote binds the voter for the rest of the term. */
  predicate GrantOk(s: State, m: Message)
    requires m.from in s.nodes
  {
    var v := s.nodes[m.from];
    v.term >= m.term && (v.term == m.term ==> v.role == Follower && v.vote == m.to)
  }

  predicate TallyOk(s: State, n: Node) {
    n.role == Candidate ==>
      forall j :: j in n.votes && n.votes[j] ==> j == n.id || Grant(j, n.id, n.term) in s.net
  }

  predicate SameBallot(m: Message, m': Message) {
    IsGrant(m) && IsGrant(m') && m.from == m'.from && m.term == m'.term
  }

  ghost predicate ReignElected(s: State, t: Term, r: Reign) {
    && r.id in s.nodes
    && Majority(r.quorum, s.nodes.Keys)
    && (forall j :: j in r.quorum ==> j == r.id || Grant(j, r.id, t) in s.net)
    && s.nodes[r.id].term >= t
    && (s.nodes[r.id].term == t ==> s.nodes[r.id].role == Leader)
    && (forall m :: m in s.net && IsGrant(m) && m.from == r.id ==> m.term != t)
  }

  predicate InOffice(h: History, n: Node) {
    n.role == Leader ==> n.term in h.reigns && h.reigns[n.term].id == n.id
  }

  predicate Standing(s: State, h: History, n: Node) {
    OwnVote(n) && TallyOk(s, n) && InOffice(h, n)
  }

  ghost predicate Electoral(s: State, h: History)
    requires Addressed(s)
  {
    && (forall i {:trigger Standing(s, h, s.nodes[i])} :: i in s.nodes ==>
          Standing(s, h, s.nodes[i]))
    && (forall m {:trigger GrantOk(s, m)} :: m in s.net && IsGrant(m) ==> GrantOk(s, m))
    && (forall m, m' {:trigger SameBallot(m, m')} :: m in s.net && m' in s.net && SameBallot(m, m') ==> m.to == m'.to)
    && (forall t {:trigger ReignElected(s, t, h.reigns[t])} :: t in h.reigns ==>
          ReignElected(s, t, h.reigns[t]))
  }

  // ----- Logs -----

  /** The leader of `t` started from a log of earlier terms and has only added
      entries of its own. */
  predicate ReignLog(h: History, t: Term)
    requires t in h.reigns
  {
    var r := h.reigns[t];
    && t >= 1
    && WellIndexed(r.log)
    && |r.base| < |r.log|
    && r.base <= r.log
    && (forall k :: |r.base| <= k < |r.log| ==> r.log[k].term == t)
    && OnRecord(h, r.base)
    && LastTerm(r.base) < t
  }

  /** A log ends where the log of the leader of its last term once ended. */
  predicate OnRecord(h: History, es: seq<Entry>) {
    es == [] || (LastTerm(es) in h.reigns && es <= h.reigns[LastTerm(es)].log)
  }

  predicate ReignLogs(h: History) {
    forall t {:trigger ReignLog(h, t)} :: t in h.reigns ==> ReignLog(h, t)
  }

  predicate NodeLogOk(h: History, n: Node) {
    var es := n.log.entries;
    && OnRecord(h, es)
    && LastTerm(es) <= n.term
    && (n.role == Candidate ==> LastTerm(es) < n.term)
    && (n.role == Leader && n.term in h.reigns ==> es == h.reigns[n.term].log)
  }

  predicate NodeLogs(s: State, h: History) {
    forall i {:trigger NodeLogOk(h, s.nodes[i])} :: i in s.nodes ==> NodeLogOk(h, s.nodes[i])
  }

  /** An append is a slice of its leader's log that reaches into the leader's
      own entries. */
  predicate AppendOk(h: History, m: Message)
    requires m.body.Append?
  {
    var b := m.body;
    && m.term in h.reigns
    && h.reigns[m.term].id == m.from
    && |h.reigns[m.term].base| < b.index + |b.entries| <= |h.reigns[m.term].log|
    && b.entries == h.reigns[m.term].log[b.index..b.index + |b.entries|]
    && b.logTerm == TermAt(h.reigns[m.term].log, b.index)
  }

  predicate Appends(s: State, h: History) {
    forall m {:trigger AppendOk(h, m)} :: m in s.net && m.body.Append? ==> AppendOk(h, m)
  }

  // ----- Votes and acknowledgements -----

  predicate RequestOk(s: State, m: Message)
    requires m.body.RequestVote? && m.from in s.nodes
  {
    var c := s.nodes[m.from];
    && c.term >= m.term
    && (c.role == Candidate && c.term == m.term ==>
          m.body.index == |c.log.entries| && m.body.logTerm == LastTerm(c.log.entries))
  }

  predicate Requests(s: State)
    requires Addressed(s)
  {
    && (forall m {:trigger RequestOk(s, m)} :: m in s.net && m.body.RequestVote? ==> RequestOk(s, m))
    && (forall m :: m in s.net && IsGrant(m) ==> s.nodes[m.to].term >= m.term)
  }

  /** `es` has the first `n` entries of the log of the leader of `t`. */
  predicate Holds(h: History, t: Term, n: nat, es: seq<Entry>)
    requires t in h.reigns && n <= |h.reigns[t].log|
  {
    h.reigns[t].log[..n] <= es
  }

  /** Some leader after `t` and before `bound` was elected without them. */
  ghost predicate Superseded(h: History, t: Term, n: nat, bound: Term)
    requires t in h.reigns && n <= |h.reigns[t].log|
  {
    exists u :: u in h.reigns && t < u < bound && !Holds(h, t, n, h.reigns[u].base)
  }

  ghost predicate Retains(h: History, t: Term, n: nat, es: seq<Entry>, bound: Term)
    requires t in h.reigns && n <= |h.reigns[t].log|
  {
    Holds(h, t, n, es) || Superseded(h, t, n, bound)
  }

  ghost predicate RetainsAll(h: History, t: Term, upTo: nat, es: seq<Entry>, bound: Term)
    requires t in h.reigns && upTo <= |h.reigns[t].log|
  {
    forall n :: |h.reigns[t].base| < n <= upTo ==> Retains(h, t, n, es, bound)
  }

  predicate AckOk(s: State, h: History, a: Ack)
    requires a in h.acked
  {
    && a.node in s.nodes
    && a.term in h.reigns
    && |h.reigns[a.term].base| < h.acked[a] <= |h.reigns[a.term].log|
    && s.nodes[a.node].term >= a.term
    && (s.nodes[a.node].term == a.term ==>
          && h.acked[a] <= |s.nodes[a.node].log.entries|
          && s.nodes[a.node].log.entries <= h.reigns[a.term].log)
  }

  /** A node keeps what it acknowledged unless a later leader lacked it. */
  ghost predicate Remembers(s: State, h: History, a: Ack)
    requires a in h.acked && AckOk(s, h, a)
  {
    var v := s.nodes[a.node];
    RetainsAll(h, a.term, h.acked[a], v.log.entries, v.term + 1)
  }

  ghost predicate Acks(s: State, h: History) {
    forall a {:trigger AckOk(s, h, a)} :: a in h.acked ==> AckOk(s, h, a) && Remembers(s, h, a)
  }

  /** What voter `j` acknowledged before term `t` is in `es`, or some leader in
      between lacked it. */
  ghost predicate Inherits(h: History, j: NodeId, t: Term, es: seq<Entry>) {
    forall a :: a in h.acked && a.node == j && a.term < t ==>
      && a.term in h.reigns
      && h.acked[a] <= |h.reigns[a.term].log|
      && RetainsAll(h, a.term, h.acked[a], es, t)
  }

  ghost predicate BallotOk(s: State, h: History, m: Message)
    requires m.to in s.nodes
  {
    var c := s.nodes[m.to];
    c.role == Candidate && c.term == m.term && m.term !in h.reigns ==>
      Inherits(h, m.from, m.term, c.log.entries)
  }

  ghost predicate Ballots(s: State, h: History)
    requires Addressed(s)
  {
    forall m {:trigger BallotOk(s, h, m)} :: m in s.net && IsGrant(m) ==> BallotOk(s, h, m)
  }

  ghost predicate QuorumOk(h: History, t: Term)
    requires t in h.reigns
  {
    forall j :: j in h.reigns[t].quorum ==> Inherits(h, j, t, h.reigns[t].base)
  }

  ghost predicate Quorums(h: History) {
    forall t {:trigger QuorumOk(h, t)} :: t in h.reigns ==> QuorumOk(h, t)
  }

  // ----- Replies and progress -----

  predicate ReplyOk(h: History, m: Message)
    requires m.body.AppendResponse?
  {
    var b := m.body;
    if b.reject then
      b.index != NONE ==>
        && m.term in h.reigns
        && h.reigns[m.term].id == m.to
        && b.index <= |h.reigns[m.term].log|
        && b.logTerm < m.term
    else
      && Ack(m.from, m.term) in h.acked
      && b.index <= h.acked[Ack(m.from, m.term)]
      && m.term in h.reigns
      && h.reigns[m.term].id == m.to
  }

  predicate Replies(s: State, h: History) {
    forall m {:trigger ReplyOk(h, m)} :: m in s.net && m.body.AppendResponse? ==> ReplyOk(h, m)
  }

  predicate ProgressOk(n: Node) {
    n.role == Leader ==>
      forall p :: p in n.prs && p != n.id ==> 1 <= n.prs[p].next <= |n.log.entries| + 1
  }

  predicate Progresses(s: State) {
    forall i {:trigger ProgressOk(s.nodes[i])} :: i in s.nodes ==> ProgressOk(s.nodes[i])
  }

  // ----- The invariants together -----

  datatype Clause = Formed | Elections | Logs | Messages | Voting | Acknowledging | Progressing

  ghost predicate Satisfies(s: State, h: History, c: Clause) {
    match c
    case Formed => WellFormed(s) && Membership(s) && Shapes(s)
    case Elections => Addressed(s) && Electoral(s, h)
    case Logs => ReignLogs(h) && NodeLogs(s, h)
    case Messages => Appends(s, h) && Replies(s, h)
    case Voting => Addressed(s) && Requests(s) && Ballots(s, h)
    case Acknowledging => Acks(s, h) && Quorums(h)
    case Progressing => Progresses(s)
  }

  ghost predicate Inv(s: State, h: History) {
    forall c {:trigger Satisfies(s, h, c)} :: Satisfies(s, h, c)
  }

  lemma Open(s: State, h: History)
    requires Inv(s, h)
    ensures WellFormed(s) && Membership(s) && Shapes(s)
    ensures Electoral(s, h) && ReignLogs(h) && NodeLogs(s, h)
    ensures Appends(s, h) && Replies(s, h) && Requests(s) && Ballots(s, h)
    ensures Acks(s, h) && Quorums(h) && Progresses(s)
  {
    assert Satisfies(s, h, Formed) && Satisfies(s, h, Elections) && Satisfies(s, h, Logs);
    assert Satisfies(s, h, Messages) && Satisfies(s, h, Voting);
    assert Satisfies(s, h, Acknowledging) && Satisfies(s, h, Progressing);
  }

  lemma Close(s: State, h: History)
    requires WellFormed(s) && Membership(s) && Shapes(s)
    requires Electoral(s, h) && ReignLogs(h) && NodeLogs(s, h)
    requires Appends(s, h) && Replies(s, h) && Requests(s) && Ballots(s, h)
    requires Acks(s, h) && Quorums(h) && Progresses(s)
    ensures Inv(s, h)
  {
    forall c
      ensures Satisfies(s, h, c)
    {
      match c
      case Formed =>
      case Elections =>
      case Logs =>
      case Messages =>
      case Voting =>
      case Acknowledging =>
      case Progressing =>
    }
  }

  // ----- How a history grows -----

  predicate Extends(h: History, h': History) {
    && (forall t :: t in h.reigns ==>
          && t in h'.reigns
          && h'.reigns[t].id == h.reigns[t].id
          && h'.reigns[t].quorum == h.reigns[t].quorum
          && h'.reigns[t].base == h.reigns[t].base
          && h.reigns[t].log <= h'.reigns[t].log)
    && (forall a :: a in h.acked ==> a in h'.acked && h.acked[a] <= h'.acked[a])
  }
}
