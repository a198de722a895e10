/** A cluster of Raft nodes with fixed membership. Messages, once sent, may be
    delivered in any order, any number of times, or never; timers fire at any
    moment. */
module Cluster {
  import opened RaftTypes
  import opened LogSpec
  import opened NodeSpec

  /** `app[i]` is what the application on node `i` has been handed so far. */
  datatype State = State(
    peers: seq<NodeId>,
    nodes: map<NodeId, Node>,
    net: set<Message>,
    app: map<NodeId, seq<Entry>>)

  datatype Event =
    | Deliver(m: Message, relaxed: bool)
    | ElectionTimeout(node: NodeId)
    | HeartbeatTimeout(node: NodeId)
    | ClientPropose(node: NodeId, entry: Entry)
    | ClientTransfer(node: NodeId, transferee: NodeId)
    | TransferTimeout(node: NodeId)
    | ReadyRound(node: NodeId)

  predicate IsLocal(b: Body) { b.Hup? || b.Beat? || b.Propose? }

  predicate Fits(s: State, i: NodeId)
    requires i in s.nodes
  {
    var n := s.nodes[i];
    ValidNode(n) && n.id == i && n.peers == s.peers && n.msgs == []
  }

  /** Nodes are filed under their own id, and messages run between nodes. */
  predicate Addressed(s: State) {
    && (forall i :: i in s.nodes ==> s.nodes[i].id == i)
    && (forall m :: m in s.net ==> m.from in s.nodes && m.to in s.nodes)
  }

  predicate WellFormed(s: State) {
    && s.nodes.Keys == (set p | p in s.peers)
    && s.app.Keys == s.nodes.Keys
    && (forall i {:trigger Fits(s, i)} :: i in s.nodes ==> Fits(s, i))
    && Addressed(s)
  }

  // ----- Initial states -----

  /** `RaftContext` over a fresh `MemoryStorage`. The constructor leaves the
      pending configuration index unset. */
  predicate FreshNode(n: Node, i: NodeId, ps: seq<NodeId>) {
    && n.id == i && n.peers == ps
    && n.term == 0 && n.vote == NONE && n.role == Follower && n.lead == NONE
    && n.votes == map[]
    && n.prs == (map p | p in ps :: Progress(1, 0))
    && n.log == LogState([DummyEntry()], 1, [], 0, 0, 0)
    && n.msgs == []
    && n.transferee == NONE
  }

  predicate Init(s: State) {
    && |s.peers| > 0
    && Distinct(s.peers)
    && NONE !in s.peers
    && s.nodes.Keys == (set p | p in s.peers)
    && (forall i :: i in s.nodes ==> FreshNode(s.nodes[i], i, s.peers))
    && s.net == {}
    && s.app == (map i | i in s.nodes :: [])
  }

  /** The peer counts for which passing the `uint8_t` tally means a majority. */
  predicate TallyExact(size: nat) {
    size < 512 || (size / 2) % 256 == 255
  }

  // ----- Transitions -----

  function Elems(ms: seq<Message>): set<Message> { set m | m in ms }

  /** Replaces node `i` and sends what is in its outbox. */
  function Install(s: State, i: NodeId, n: Node): State {
    s.(nodes := s.nodes[i := n.(msgs := [])], net := s.net + Elems(n.msgs))
  }

  function LocalMessage(e: Event): Message
    requires e.ElectionTimeout? || e.HeartbeatTimeout? || e.ClientPropose? || e.ClientTransfer?
  {
    match e
    case ElectionTimeout(i) => Message(NONE, NONE, NONE, Hup)
    case HeartbeatTimeout(i) => Message(NONE, NONE, NONE, Beat)
    case ClientPropose(i, entry) => Message(NONE, NONE, NONE, Propose([entry]))
    case ClientTransfer(i, t) => Message(t, NONE, NONE, TransferLeader)
  }

  /** The log once the application has saved and applied one `EReady`. */
  function Advanced(l: LogState): LogState
    requires UnstableInRange(l) && NextInRange(l) && |l.storage| > 0
  {
    l.(storage := StorageAppend(l.storage, UnstableEntries(l)), stabled := SavedTo(l), applied := AppliedTo(l))
  }

  function SavedTo(l: LogState): nat
    requires UnstableInRange(l)
  {
    var es := UnstableEntries(l);
    if |es| > 0 then es[|es| - 1].index else l.stabled
  }

  function AppliedTo(l: LogState): nat
    requires NextInRange(l)
  {
    var cs := NextEnts(l);
    if |cs| > 0 then cs[|cs| - 1].index else l.applied
  }

  predicate Enabled(s: State, e: Event)
    requires WellFormed(s)
  {
    match e
    case Deliver(m, _) => m in s.net
    case ElectionTimeout(i) => i in s.nodes
    case HeartbeatTimeout(i) => i in s.nodes
    case ClientPropose(i, _) => i in s.nodes
    case ClientTransfer(i, t) => i in s.nodes && t in s.nodes
    case TransferTimeout(i) => i in s.nodes && s.nodes[i].role == Leader && s.nodes[i].transferee != NONE
    case ReadyRound(i) =>
      i in s.nodes && UnstableInRange(s.nodes[i].log) && NextInRange(s.nodes[i].log)
  }

  function After(s: State, e: Event): State
    requires WellFormed(s) && Enabled(s, e)
  {
    match e
    case Deliver(m, relaxed) =>
      assert Fits(s, m.to);
      assert m.from in s.peers;
      Install(s, m.to, Step(s.nodes[m.to], m, relaxed))
    case TransferTimeout(i) =>
      Install(s, i, s.nodes[i].(transferee := NONE))
    case ReadyRound(i) =>
      var n := s.nodes[i];
      assert Fits(s, i);
      s.(nodes := s.nodes[i := n.(log := Advanced(n.log))],
         app := s.app[i := s.app[i] + NextEnts(n.log)])
    case _ =>
      assert Fits(s, e.node);
      Install(s, e.node, Step(s.nodes[e.node], LocalMessage(e), false))
  }

  ghost predicate Next(s: State, s': State) {
    WellFormed(s) && exists e :: Enabled(s, e) && s' == After(s, e)
  }

  ghost predicate IsRun(run: seq<State>) {
    && |run| > 0
    && Init(run[0])
    && forall k {:trigger Next(run[k], run[k + 1])} :: 0 <= k < |run| - 1 ==> Next(run[k], run[k + 1])
  }

  // ----- What the theorems speak about -----

  function Log(s: State, i: NodeId): seq<Entry>
    requires i in s.nodes
  {
    s.nodes[i].log.entries
  }

  predicate IsLeader(s: State, i: NodeId, t: Term) {
    i in s.nodes && s.nodes[i].role == Leader && s.nodes[i].term == t
  }

  /** Node `i` takes office between two successive states. */
  predicate TakesOffice(s: State, s': State, i: NodeId) {
    i in s'.nodes && IsLeader(s', i, s'.nodes[i].term) && !IsLeader(s, i, s'.nodes[i].term)
  }

  /** Node `i` takes office in step `k` of a run. */
  predicate ElectedAt(run: seq<State>, k: nat, i: NodeId) {
    k + 1 < |run| && i in run[k].nodes && TakesOffice(run[k], run[k + 1], i)
  }

  /** Whoever takes office remembers no match index beyond its own log. */
  ghost predicate FreshElections(run: seq<State>) {
    forall k: nat, i :: ElectedAt(run, k, i) ==> NoStaleMatch(run[k].nodes[i])
  }

  predicate NoStaleMatch(n: Node) {
    forall p :: p in n.prs && p != n.id ==> n.prs[p].matched <= |n.log.entries|
  }
}
