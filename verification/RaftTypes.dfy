/** The values that flow through the Raft library: log entries, protocol
    messages, the log with its cursors, and the state of one node.

    Identifiers, terms and indices are `uint64_t` in the source and naturals
    here; 0 is the source's `NONE`. */
module RaftTypes {
  type NodeId = nat
  type Term = nat

  const NONE: nat := 0

  datatype EntryType = EntryNormal | EntryConfChange | EntrySplitRegion

  datatype Entry = Entry(etype: EntryType, term: Term, index: nat, data: string)

  datatype Progress = Progress(next: nat, matched: nat)

  datatype Body =
    | Hup
    | Beat
    | Propose(proposal: seq<Entry>)
    | Append(logTerm: Term, index: nat, entries: seq<Entry>, commit: nat)
    | AppendResponse(reject: bool, logTerm: Term, index: nat)
    | RequestVote(logTerm: Term, index: nat)
    | RequestVoteResponse(reject: bool)
    | Heartbeat
    | HeartbeatResponse(reject: bool)
    | TransferLeader
    | TimeoutNow

  datatype Message = Message(from: NodeId, to: NodeId, term: Term, body: Body)

  datatype Role = Follower | Candidate | Leader

  /** `RaftLog` together with the `MemoryStorage` behind it. `storage` is the
      storage's `ents_`: a dummy entry followed by the persisted entries. */
  datatype LogState = LogState(
    storage: seq<Entry>,
    first: nat,
    entries: seq<Entry>,
    committed: nat,
    applied: nat,
    stabled: nat)

  /** `RaftContext` without its timers. `peers` lists the keys of `prs_` in map
      order, `votes` is `votes_`, `msgs` the outbox `msgs_`. */
  datatype Node = Node(
    id: NodeId,
    peers: seq<NodeId>,
    term: Term,
    vote: NodeId,
    role: Role,
    lead: NodeId,
    votes: map<NodeId, bool>,
    prs: map<NodeId, Progress>,
    log: LogState,
    msgs: seq<Message>,
    transferee: NodeId,
    pendingConf: nat)

  predicate Distinct<T(==)>(s: seq<T>) {
    forall i, j :: 0 <= i < j < |s| ==> s[i] != s[j]
  }
}
