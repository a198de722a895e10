# eraft, verified

A Dafny model of the Raft library of eraft (`raftcore/src`) and of four pieces of
its network layer (`network/src`): the glob matcher, the request parser with its
printer, the growing and the circular byte buffer, and the three-stage send
buffer. `dafny verify dfyconfig.toml` checks all of it.

## The Raft library

- `RaftTypes`, `LogSpec` and `NodeSpec` say what `MemoryStorage`, `RaftLog` and
  `RaftContext` compute, handler by handler, as functions on values.
- `RaftCore` holds the objects themselves (`MemoryStorage`, `RaftLog`,
  `RaftContext`, `RawNode`), with fields, loops and in-place updates as in the
  code. Every method is proved to do what its function says.
- `Cluster` is the transition system: a fixed set of peers, a growing set of
  messages that are delivered in any order, repeatedly or never, timers that fire
  at any moment, client proposals, leadership transfers, and rounds in which an
  application saves and applies what is ready.
- `History`, `Moves`, `HistoryFacts`, `Actions`, `Majorities`, `Reigns`, `Commits`,
  `CommitQuorum`, `CommitMoves`, `Persistence`, `Outcomes`, `Steps` and `Runs` hold
  the invariants and show that every step keeps them. A history records, per term,
  the leader, its voters, the log it started from and its log, and per node and
  term the highest index acknowledged; it exists in the proofs only.
- `Safety`, `AckSoundness` and `ElectedOnce` state the results over whole runs.
  `Refinement` shows that in every state of every run the objects may be called as
  the transition system calls them.
- `KnownLeader`, `Tallies`, `Repair`, `Answers`, `LeaderDuties` and `LoneLeader` say
  what every delivery, timeout and call brings about in a run: exactly which messages
  are sent, and what becomes of the node. `Deliveries` holds what they share.
- `FiveNodes` builds concrete runs of five nodes. `StaleMatch` uses it for the three
  runs that show why one hypothesis is needed, `FreshRun` for a run that meets it, and
  `StuckSearch` for a follower that its leader cannot bring up.

The theorems about runs hold for: a fixed, non-empty list of distinct, non-zero peer
ids; nodes that start from a fresh `MemoryStorage` and do not crash; no snapshots
and no compaction; one entry per proposal, as `RawNode::Propose` builds it; and a
peer count for which passing the `uint8_t` vote tally means having a majority
(`TallyExact`: every count below 512, and above it those whose half leaves 255 modulo
256, such as 1022 and 1023; `Reigns.TallyIsMajority` shows that these are exactly the
counts). The other way round, every majority passes the tally only up to 255 peers
(`Reigns.MajorityPasses`); with more, a candidate can have a majority and not win,
and with 511 nobody ever wins. Refusals are counted right up to 255 peers too
(`Tallies.RefusalsCount`), and up to there a tally is decided as it should be
(`Tallies.TallyDecides`).

The commit theorems have one more hypothesis, `FreshElections`: a node that takes
office remembers no match index beyond its own log. `BecomeLeader` resets `next`
but not `match` of the other peers, so without it state machine safety is false:
`StaleMatch.TwoCommitsAtOneIndex` builds a run of five nodes in which two nodes
commit different entries at one index. `ElectedOnce.ElectedOnceIsFresh` shows that
the hypothesis holds whenever no node is elected twice, and
`ElectedOnce.StaleMatchExactly` that, for one election, the match indices are
sound if and only if it holds. The converse over whole runs is not a theorem: an
election with a stale match index need not end in a conflict, for instance when
the leader never counts another acknowledgement because too many peers have moved
to a higher term. `FreshRun.TwoNodesCommit` is a run that meets the hypothesis and
in which two nodes commit.

The same hypothesis keeps two accesses inside the log, which the code does not check
and which are undefined outside it.

- The term lookup of `LeaderCommit`. With fresh elections it stays inside the log
  (`Safety.CommitLookupInRange`). Without them it leaves the log exactly when enough
  peers have a match index beyond it (`CommitQuorum.LookupOutsideExactly`), as in the
  run of `StaleMatch.LookupOutside`. The model gives term 0 there.
- The slice of entries that a Ready round hands to the application. With fresh
  elections it stays inside the log (`Safety.ReadyInRange`). Without them a follower
  can be truncated below its commit index (`Persistence.CommitBeyondExactly` says
  when), as in the run of `StaleMatch.RoundOutside`. The model does not take a round
  then: it is enabled exactly when the log is empty or the commit index lies inside it
  and not below the applied index (`Safety.ReadyExactly`).

The theorems stated without `FreshElections` therefore speak of runs in which such a
lookup gave 0, so that nothing was committed by it, and in which no round was taken
while its slice lay outside the log. The other term lookups are guarded by the last
index or covered by `Safety.ProgressInRange`, which needs no such hypothesis.

Where code and intent part:

- `AppendEntries` never advances its counter, so all entries of one proposal get
  the same index; `Proposals.ProposalExactly` says when the log stays contiguous.
- The receiving loop does not count the entries it skips below the first index, so
  it appends too much afterwards; `LogFacts.LowBatchExactly` says when that is
  harmless.
- `LeaderCommit` tests `pendingConfIndex`, which no header declares (the field is
  `pendingConfIndex_` and is not initialised). The model takes the outcome of the
  test as an arbitrary boolean of every delivery (`relaxed`), and the initial value
  of the field as arbitrary.
- Appending to storage drops one entry of a batch that starts at or below the dummy
  entry, which is right only if it starts there; `Persistence.SavedExactly` says which
  batches are taken in.
- A rejection names the index below the conflict, and a leader ignores index 0, so a
  follower whose very first entry differs is never brought up by a leader that starts
  behind it. `Repair.HintMissingExactly` says when a rejection carries no hint,
  `Repair.HintlessIgnored` that the leader then does nothing, and
  `StuckSearch.SearchStuck` is such a run. All other rejections move the search down
  (`Repair.SearchDescends`), so that it takes no more rounds than the index it starts
  at (`Repair.SearchEnds`).
- The conflict search of the leader only ever looks at the entry before its last one
  (`Repair.Resumed`), because it stops at the last entry with a higher term.
- The handlers that lack a `return` statement are modelled without a result.

## The network layer

- `Glob`: the pattern language as a relation, the same language by cutting the text
  into one piece per token, the backtracking search, and the matcher object. A
  closed bracket that is tried with no text left makes the code read the byte
  behind the text; `Glob.DecidedExactly` says for which patterns that never
  happens, and that the matcher decides exactly those on every text. `GlobLaws` says
  what the bytes of a pattern mean, brackets item by item.
- `RespSpec`, `RespRoundTrip`, `RespParser`: printing and parsing requests of the
  Redis serialization protocol. The parser casts the number of bytes left to `int`
  before it compares it with a length, so a request in front of more than two
  gigabytes is not parsed (`RespRoundTrip.FarTail`);
  `RespRoundTrip.RoundTripExactly` gives the exact condition. An `int` that
  overflows, which C++ leaves undefined, is a result of its own (`Overflow`).
- `RespGrammar`: what is accepted is a request. Numbers may have leading zeros, and,
  when three bytes are left, no digits at all, which stand for zero. Digits may also
  run to the end of the input; the one input accepted because of that is a star and
  zeros (`RespGrammar.ZerosAccepted`), with the cursor two bytes behind the end.
- `RespStream`: requests that arrive in parts. Verdicts stand, a request cut short
  waits, nothing waits for good, and a parser that waits goes on as if all had been there at once, except that
  a count cut behind its mark is lost (`RespStream.CountLost`), since the cursor has
  then passed the mark and the parser looks for it again.
- `UnboundedBuffers`, `CircularBuffers`, `AsyncBuffers`, `SendQueue`: the buffers as
  byte queues, and the send buffer over all interleavings of whole calls.

## Model

| member | source | states |
|---|---|---|
| Safety.ElectionSafety | raftcore/src/raft.cc:314-382 | at most one node is ever leader in a term, at any two moments of any run, although stepping down clears the vote within the term |
| Safety.LogMatching | raftcore/src/raft.cc:126-183 | two logs with the same term at an index are equal up to it, whichever nodes and moments of a run they are taken from |
| Safety.InFlightMatching | raftcore/src/raft.cc:161-182 | the same between a log and any append message ever sent: equal entries up to the index, and the message's previous term at its previous index |
| Safety.LeaderAppendOnly | raftcore/src/raft.cc:492-514 | as long as its term lasts a leader stays leader and its log is only extended, although it routes appends into the truncating handler |
| Safety.ProgressInRange | raftcore/src/raft.cc:126-130 | the next index a leader keeps for another peer lies between 1 and one past its last index in every reachable state, and every append it builds reaches its last entry |
| Safety.ConflictSearchDefined | raftcore/src/raft.cc:708-730 | a rejection of the current term names a term below the leader's own, the search always finds an entry, and the index resumed from lies in the log |
| Safety.CommitMonotone | raftcore/src/raft.cc:696-699 | the commit index of every node stays inside its log and never moves back, and the entries it covers never change |
| Safety.LeaderCompleteness | raftcore/src/raft.cc:589-615 | what any node has committed at any moment begins the log of every leader of a later term |
| Safety.StateMachineSafety | raftcore/src/raft.cc:742-767 | no two nodes ever commit different entries at one index, at whatever moments |
| Safety.AppliedAgree | raftcore/src/log.cc:96-107 | the application of every node is handed exactly the applied prefix of the log, once and in order, it only grows, and any two applications have been handed prefixes of one sequence |
| Safety.StorageAgrees | raftcore/src/raw_node.cc:118-167 | storage and log coincide up to the persisted cursor in every state of every run, and completely after every Ready round that is taken |
| Safety.ReadyInRange | raftcore/src/log.cc:87-107 | with fresh elections the slices handed out by a Ready round never leave the log, in any state of any run |
| Safety.ReadyExactly | raftcore/src/log.cc:96-107 | in every state of every run a Ready round is in range if and only if the log is empty or the commit index lies inside it and not below the applied index |
| Safety.CommitLookupInRange | raftcore/src/raft.cc:742-760 | with fresh elections the match indices of a leader stay inside its log, and so does the term lookup it makes when it counts any successful reply of its term |
| AckSoundness.AckSound | raftcore/src/raft.cc:696-700 | for every sending of a successful append reply, repeated ones included: the responder's log then has exactly as many entries as the reply says, and its addressee was leader of the reply's term then or before with these entries at the start of its log |
| AckSoundness.AckSoundLater | raftcore/src/raft.cc:696-700 | seen from any later moment at which that leader is still in office, its log still begins with them |
| AckSoundness.AckSoundNew | raftcore/src/raft.cc:696-700 | the same for every successful reply that appears on the network |
| ElectedOnce.ElectedOnceIsFresh | raftcore/src/raft.cc:332-351 | if no node is elected twice in a run, no new leader remembers a match index beyond its log |
| ElectedOnce.StaleMatchExactly | raftcore/src/raft.cc:337-344 | the match indices a new leader works with are backed by acknowledgements of its term, or too low to matter, if and only if none of them exceeded its log |
| StaleMatch.TwoCommitsAtOneIndex | raftcore/src/raft.cc:337-344 | a run of five nodes in which a re-elected leader counts a stale match index and two nodes commit different entries at index 2 |
| StaleMatch.LookupOutside | raftcore/src/raft.cc:755-758 | a run of five nodes in which a re-elected leader with four entries is about to look up the term of entry 5 |
| StaleMatch.RoundOutside | raftcore/src/log.cc:101-104 | a run of five nodes after which a node has committed three entries and holds two, so that a Ready round would leave its log |
| FreshRun.OneTermIsFresh | raftcore/src/raft.cc:332-351 | a run that stays in the first term has fresh elections |
| FreshRun.TwoNodesCommit | raftcore/src/raft.cc:742-763 | a run with fresh elections in which two nodes commit an entry |
| KnownLeader.LeadIsTrue | raftcore/src/raft.cc:314-382 | the leader a node knows of was leader of the node's term, then or before, in every state of every run |
| KnownLeader.LeadsAgree | raftcore/src/raft.cc:314-382 | nodes in the same term never name different leaders, at whatever moments |
| KnownLeader.CommandsAreLeaders | raftcore/src/raft.cc:569-587 | every append and every heartbeat ever sent comes from a node that was leader of its term |
| KnownLeader.OnlyLeadersTransfer | raftcore/src/raft.cc:843-860 | only a leader waits for a transfer, so no new leader turns proposals away |
| Tallies.RefusalsCount | raftcore/src/raft.cc:624-636 | subtracting the eight-bit counts counts the refusals right if and only if there are at most 255 peers |
| Tallies.TallyDecides | raftcore/src/raft.cc:617-637 | with up to 255 peers every counted vote makes the candidate leader exactly when more than half of the peers have granted, makes it a follower of the same term exactly when more than half have refused, and otherwise changes the record only |
| LoneLeader.LoneLeaderCommits | raftcore/src/raft.cc:352-354 | in a cluster of one the leader has committed its whole log in every state of every run |
| Repair.AppendAnswered | raftcore/src/raft.cc:639-701 | every append delivered is answered by exactly one reply: a refusal if its term is over, a rejection naming the term found and the index below or the first index missing if the log does not fit, and otherwise the length of the log; the receiver follows the sender and has the entries in their place, unchanged if it had them and cut behind them if not |
| Repair.RejectionAnswered | raftcore/src/raft.cc:708-731 | every rejection of its own term with a hint makes a leader send exactly one append, to its sender, from the new next index up to its last entry; next is the hint, or the first entry behind those of the term named; nothing else changes |
| Repair.SearchDescends | raftcore/src/raft.cc:639-731 | the append that answers a rejection starts before the one that was rejected, however much time and whatever else lies between |
| Repair.SearchEnds | raftcore/src/raft.cc:639-731 | so the search takes at most as many rounds as the index its first append follows |
| Repair.HintMissingExactly | raftcore/src/raft.cc:643-668 | a rejection carries no hint if and only if its term is over or the logs differ in the very first entry |
| Repair.HintlessIgnored | raftcore/src/raft.cc:708-711 | a leader does nothing about a rejection without a hint |
| StuckSearch.SearchStuck | raftcore/src/raft.cc:655-668 | a run of five nodes in which a leader sends an append behind index 1, its receiver differs at index 1 and rejects without a hint, and the leader ignores that |
| Answers.VoteAnswered | raftcore/src/raft.cc:589-615 | every vote request delivered is answered by exactly one reply, and the vote is given if and only if it is free in that term and the candidate's log is at least as up to date; a vote given is recorded and nothing else changes but by a higher term |
| Answers.TimeoutAnswered | raftcore/src/raft.cc:546-567 | an election timeout makes every node but a leader a candidate of the next term that asks exactly the other peers, once each, with the end of its own log |
| Answers.TimeoutNowAnswered | raftcore/src/raft.cc:385-434 | the message that ends a transfer does the same at a follower, and nothing elsewhere |
| Answers.BeatAnswered | raftcore/src/raft.cc:569-578 | a heartbeat timeout makes a leader send one heartbeat to every other peer and to nobody else, and does nothing elsewhere |
| Answers.HeartbeatAnswered | raftcore/src/raft.cc:769-780 | every heartbeat delivered is answered by exactly one reply, a refusal exactly if its term is over, and otherwise the receiver is then a follower of the sender in its term |
| Answers.HeartbeatReplyAnswered | raftcore/src/raft.cc:492-544 | a heartbeat reply makes a leader send its sender exactly one append, from the next index up to the last entry |
| Answers.HigherTermTaken | raftcore/src/raft.cc:358-366 | whatever message shows a node a higher term, it is then a follower in that term and waits for no transfer |
| Answers.StrayIgnored | raftcore/src/raft.cc:385-544 | replies to a node that no longer counts or leads, or from a term that is over, change nothing |
| LeaderDuties.OfficeTaken | raftcore/src/raft.cc:332-356 | whoever takes office, in whatever step of a run, adds one empty entry of its term to its own log and sends every other peer exactly one append behind the old log, or commits at once if it is alone |
| LeaderDuties.ProposalAnswered | raftcore/src/raft.cc:782-805 | a leader that is not handing over enters every proposal under its term and the next index, except a configuration change while one is pending, and sends every other peer exactly one append up to it, or commits it at once if it is alone; other nodes ignore proposals |
| LeaderDuties.AckAnswered | raftcore/src/raft.cc:732-767 | a successful reply that is news is recorded for its sender alone, the commit index becomes the highest entry of the leader's term that enough peers have, everyone is told exactly when it moved, and the last reply a transfer waits for sends the target into its election |
| LeaderDuties.TransferAnswered | raftcore/src/raft.cc:843-860 | a leader asked to hand over tells a target that has everything to run for election and brings up any other, once; every other node passes the request on to the leader it knows |
| LeaderDuties.TransferDelivered | raftcore/src/raft.cc:418-424 | the same for requests that were passed on |
| Refinement.StepDefined | raftcore/src/raft.cc:358-382 | in every state of every run, what the objects take for granted of a node and a message holds for every input |
| Refinement.RoundDefined | raftcore/src/raw_node.cc:118-167 | with fresh elections a Ready round of the objects may be taken in every state of every run |
| Reigns.TallyIsMajority | raftcore/src/raft.cc:624-636 | counting votes in eight bits against half the peer count means a majority exactly for the peer counts of TallyExact |
| Reigns.MajorityPasses | raftcore/src/raft.cc:624-633 | every majority passes the eight-bit tally if and only if there are at most 255 peers |
| Reigns.Unelected | raftcore/src/raft.cc:617-637 | a candidate with a majority of recorded votes is the only winner of its term so far |
| Reigns.WinKeepsInv | raftcore/src/raft.cc:332-356 | taking office keeps every invariant, with a history in which the new reign starts from the winner's log and quorum |
| Reigns.ProposeKeepsInv | raftcore/src/raft.cc:782-805 | a proposal to a leader keeps every invariant |
| Reigns.AcceptKeepsInv | raftcore/src/raft.cc:669-701 | accepting an append keeps every invariant and acknowledges the receiver's whole log |
| HistoryFacts.UpToDate | raftcore/src/raft.cc:600-610 | a candidate that passes the vote check holds what the voter acknowledged in an earlier term, unless a leader in between lacked it |
| HistoryFacts.AcceptedLog | raftcore/src/raft.cc:669-695 | after an accepted append of its own term a node holds a prefix of the leader's log that reaches into the leader's own entries, and what it shared with the leader stays |
| Commits.ChosenIsInherited | raftcore/src/raft.cc:742-763 | an entry of a leader's own term that half of the nodes acknowledged begins the log of every later leader |
| CommitMoves.AcceptCommit | raftcore/src/raft.cc:696-699 | the follower's plain assignment of a minimum keeps the commit invariants and never lowers the commit index |
| CommitMoves.WinCommit | raftcore/src/raft.cc:332-356 | taking office keeps the commit invariants when no remembered match index exceeds the log |
| CommitQuorum.SortedSorts | raftcore/src/raft.cc:743-750 | the sorted match indices ascend and are a permutation of the match indices |
| CommitQuorum.CommitCandidateReached | raftcore/src/raft.cc:750-755 | for every peer count and pending flag the candidate is the largest index that enough peers have reached, and these are at least half of all |
| CommitQuorum.LookupOutsideExactly | raftcore/src/raft.cc:750-758 | the term lookup of the commit candidate leaves the log if and only if enough peers have a match index beyond it |
| CommitQuorum.QuorumsIntersect | raftcore/src/raft.cc:742-755 | the peers that have reached the commit candidate meet every set of more than half of the peers |
| Steps.BackOffInRange | raftcore/src/raft.cc:708-730 | the conflict search of a leader finds an entry and resumes inside its log |
| Steps.ConflictReply | raftcore/src/raft.cc:655-668 | a rejecting reply names a term below that of the append it answers and an index the leader has |
| Steps.StepOutcome | raftcore/src/raft.cc:358-382 | stepping any node with any message of a run keeps all invariants, the storage agreement and, with fresh elections, the commit invariants |
| Runs.HistoryOf | raftcore/src/raft.cc:358-382 | every run has a history in all of whose states the invariants hold, and with fresh elections the commit invariants too |
| LogFacts.AbsorbMeetsFigure2 | raftcore/src/raft.cc:670-695 | receiving a batch at or above the first index follows the receiver rules of Figure 2 of the Raft paper: all of the batch, nothing changed before the first conflict, the tail kept when nothing conflicts, contiguous, persisted cursor below the conflict |
| LogFacts.LowBatchExactly | raftcore/src/raft.cc:670-695 | a batch that starts below the first index keeps the log contiguous exactly when nothing is appended: its later entries agree, or only the last conflicts |
| LogFacts.LowBatchFails | raftcore/src/raft.cc:687-693 | a two-entry batch around the first index of an empty log breaks contiguity |
| Proposals.PushedAre | raftcore/src/raft.cc:784-798 | a proposal appends exactly its admitted entries, all under one index |
| Proposals.ProposalExactly | raftcore/src/raft.cc:784-798 | a proposal keeps the log contiguous if and only if at most one of its entries is admitted |
| Proposals.TwoEntriesFail | raftcore/src/raft.cc:786-798 | two normal entries in one proposal break contiguity |
| Persistence.AbsorbKeepsStorage | raftcore/src/raft.cc:678-693 | receiving a batch keeps storage and log in agreement up to the persisted cursor, also when it truncates below it |
| Persistence.CommitBeyondExactly | raftcore/src/raft.cc:670-699 | after an accepted append the commit index lies beyond the log exactly when it was not raised and the log is now shorter, and it falls exactly when the append's commit index is higher but the append ends below it |
| Persistence.SavedExactly | raftcore/src/memory_storage.cc:183-229 | appending to storage puts a batch in its place exactly when it starts neither below the dummy entry nor behind a gap and reaches beyond the dummy entry; every other batch is dropped whole; storage stays contiguous |
| Persistence.RoundSaves | raftcore/src/memory_storage.cc:183-229 | one Ready round leaves storage equal to the whole log with everything marked persisted |
| Persistence.RoundApplies | raftcore/src/raw_node.cc:118-165 | one Ready round hands out exactly the entries between the applied and the commit index and moves the former to the latter |
| RaftCore.MemoryStorage.Entries | raftcore/src/memory_storage.cc:64-85 | the stored entries of an index range, none if it starts at or below the dummy entry |
| RaftCore.MemoryStorage.Append | raftcore/src/memory_storage.cc:183-229 | the stored entries become StorageAppend of the old ones, and when it reports success |
| RaftCore.RaftLog.constructor | raftcore/src/log.cc:55-69 | a log recovered from storage holds its entries behind the dummy and marks them persisted |
| RaftCore.RaftLog.MaybeCompact | raftcore/src/log.cc:76-85 | exactly the entries below the storage's first index are dropped |
| RaftCore.RaftContext.constructor | raftcore/src/raft.cc:67-108 | a new node takes log, term, vote, commit index and, when none are given, its peers from the storage |
| RaftCore.RecoveredFresh | raftcore/src/raft.cc:67-108 | over a fresh storage that is a fresh node of the cluster model |
| RaftCore.RaftLog.LastIndex | raftcore/src/log.cc:119-129 | the last index of the log, or of storage when the log is empty |
| RaftCore.RaftLog.Term | raftcore/src/log.cc:131-148 | the term at an index, from the log or from storage |
| RaftCore.RaftLog.UnstableEntries | raftcore/src/log.cc:87-94 | the entries behind the persisted cursor |
| RaftCore.RaftLog.NextEnts | raftcore/src/log.cc:96-107 | the entries between the applied and the commit index |
| RaftCore.RaftContext.BecomeFollower | raftcore/src/raft.cc:314-320 | implements NodeSpec.BecomeFollower, which clears the vote even within a term |
| RaftCore.RaftContext.BecomeCandidate | raftcore/src/raft.cc:322-330 | implements NodeSpec.BecomeCandidate |
| RaftCore.RaftContext.BcastAppend | raftcore/src/raft.cc:580-587 | the loop sends every other peer its append, in the order of the peers |
| RaftCore.RaftContext.SendOthers | raftcore/src/raft.cc:569-578 | the loop sends every other peer one message |
| RaftCore.RaftContext.FindTerm | raftcore/src/raft.cc:659-665 | the loop finds the last position of a term below the given end |
| RaftCore.RaftContext.PushProposals | raftcore/src/raft.cc:784-798 | the loop stamps and pushes the admitted entries, as NodeSpec.PushProposals says |
| RaftCore.RaftContext.BecomeLeader | raftcore/src/raft.cc:332-356 | implements NodeSpec.BecomeLeader, the loop over the peers included |
| RaftCore.RaftContext.SendAppend | raftcore/src/raft.cc:126-183 | appends to the outbox the message AppendTo describes and changes nothing else |
| RaftCore.RaftContext.DoElection | raftcore/src/raft.cc:546-567 | implements NodeSpec.DoElection |
| RaftCore.RaftContext.HandleRequestVote | raftcore/src/raft.cc:589-615 | implements NodeSpec.HandleRequestVote |
| RaftCore.RaftContext.Tally | raftcore/src/raft.cc:624-631 | the loop counts the granted votes modulo 256 |
| RaftCore.RaftContext.HandleRequestVoteResponse | raftcore/src/raft.cc:617-637 | implements NodeSpec.HandleRequestVoteResponse |
| RaftCore.RaftContext.AbsorbBatch | raftcore/src/raft.cc:670-695 | the receiving loop, with its truncation in place and its counter, computes LogSpec.Absorb |
| RaftCore.RaftContext.HandleAppendEntries | raftcore/src/raft.cc:639-701 | implements NodeSpec.HandleAppendEntries |
| RaftCore.RaftContext.FindAbove | raftcore/src/raft.cc:713-720 | the search loop returns the last position whose term exceeds the given one |
| RaftCore.RaftContext.HandleAppendEntriesResponse | raftcore/src/raft.cc:703-740 | implements NodeSpec.HandleAppendEntriesResponse, for replies whose conflict search finds an entry |
| RaftCore.RaftContext.LeaderCommit | raftcore/src/raft.cc:742-767 | implements NodeSpec.LeaderCommit |
| RaftCore.RaftContext.AppendEntries | raftcore/src/raft.cc:782-805 | implements NodeSpec.AppendEntries |
| RaftCore.RaftContext.HandleHeartbeat | raftcore/src/raft.cc:769-780 | implements NodeSpec.HandleHeartbeat |
| RaftCore.RaftContext.HandleTransferLeader | raftcore/src/raft.cc:843-860 | implements NodeSpec.HandleTransferLeader |
| RaftCore.RaftContext.TickTransfer | raftcore/src/raft.cc:306-312 | an expired transfer is forgotten, as in the timeout event of the cluster model |
| RaftCore.RaftContext.StepFollower | raftcore/src/raft.cc:385-434 | implements NodeSpec.StepFollower |
| RaftCore.RaftContext.StepCandidate | raftcore/src/raft.cc:436-490 | implements NodeSpec.StepCandidate |
| RaftCore.RaftContext.StepLeader | raftcore/src/raft.cc:492-544 | implements NodeSpec.StepLeader |
| RaftCore.RaftContext.Step | raftcore/src/raft.cc:358-382 | implements NodeSpec.Step, the step of the cluster model |
| RaftCore.RawNode.Campaign | raftcore/src/raw_node.cc:52-57 | steps the node with a local election timeout |
| RaftCore.RawNode.Propose | raftcore/src/raw_node.cc:59-66 | steps the node with a proposal of one entry |
| RaftCore.RawNode.EReady | raftcore/src/raw_node.cc:118-137 | hands out the unstable entries, the entries to apply and the outbox, and empties the outbox |
| RaftCore.RawNode.Advance | raftcore/src/raw_node.cc:155-167 | moves the persisted and applied cursors to the last entries handed out |
| RaftCore.RawNode.Round | raftcore/src/raw_node.cc:118-167 | taking, saving and reporting what is ready is the Ready step of the cluster model |
| Glob.MatchesIsCutting | network/src/regex.cc:46-137 | a text matches exactly when it can be cut into one piece per token, any piece for a star and one fitting character for every other token |
| Glob.SearchDecides | network/src/regex.cc:46-115 | whenever the backtracking search answers, its answer is the matching relation, both ways |
| Glob.DecidedExactly | network/src/regex.cc:140-245 | the matcher decides a pattern on every text if and only if the pattern is not exposed: every closed bracket comes right after a star or behind a bracket that no character fits |
| Glob.NoBracketNotExposed | network/src/regex.cc:46-137 | in particular every bracket-free pattern is decided |
| Glob.BracketOnNoText | network/src/regex.cc:207-215 | a one-character class on the empty text reads the byte behind the text |
| Glob.QGlobRegex.TryMatch | network/src/regex.cc:46-86 | the loop with its two offsets terminates and returns the search's verdict, which is the matching relation whenever it is an answer |
| Glob.QGlobRegex.ProcessStar | network/src/regex.cc:89-115 | a run of stars and the backtracking loop, offsets restored, return the search's verdict |
| Glob.QGlobRegex.ProcessQuestion | network/src/regex.cc:118-137 | a run of question marks takes one character each, or the text is too short and there is no match |
| Glob.QGlobRegex.ProcessBracket | network/src/regex.cc:140-245 | a bracket takes one fitting character, or the verdict is final |
| Glob.QGlobRegex.ReadList | network/src/regex.cc:165-197 | the items of a bracket, ranges put in order and a range of one character kept as that character |
| Glob.QGlobRegex.FitsClass | network/src/regex.cc:207-245 | the character test of a bracket: listed or in a range, or neither for a complement |
| GlobLaws.BracketLaw | network/src/regex.cc:140-245 | a bracket matches exactly one byte that stands at, or in a range that begins at, one of its item positions, or with a caret one that does not; a closing bracket right at the start is an item; an unclosed bracket matches nothing |
| GlobLaws.LoneBracket | network/src/regex.cc:140-150 | an opening bracket at the very end matches nothing |
| GlobLaws.RangeLaw | network/src/regex.cc:168-197 | a pattern that is one range matches exactly the bytes between its ends, in whichever order they are given |
| GlobLaws.ByteLaw | network/src/regex.cc:46-86 | what a star, a question mark, a backslash before a bracket and any other byte match |
| GlobLaws.PlainText | network/src/regex.cc:46-86 | a pattern without stars, question marks and brackets matches itself only |
| RespRoundTrip.RoundTripExactly | network/src/proto_parser.cc:63-163 | parsing a printed request from any reset parser, with any bytes around it, succeeds exactly when the cast of the bytes left reaches every value, and then holds exactly the printed strings with the cursor exactly behind the request |
| RespRoundTrip.RoundTrip | network/src/proto_parser.cc:13-163 | it succeeds on every input of up to INT_MAX bytes |
| RespRoundTrip.FarTail | network/src/proto_parser.cc:134-135 | one empty string in front of two gigabytes is not parsed |
| RespRoundTrip.DigitsRead | network/src/proto_parser.cc:31-45 | reading the decimal digits of a number gives the number |
| RespGrammar.OnlyRequests | network/src/proto_parser.cc:13-163 | whatever a reset parser accepts with the cursor inside the input is a request with its marks, lengths and line ends, the strings are exactly its strings and the cursor stands right behind it; the cursor leaves the input only on zeros up to its end |
| RespGrammar.RequestsAccepted | network/src/proto_parser.cc:13-163 | every request in an input of up to INT_MAX bytes is accepted, with exactly its strings and the cursor right behind it |
| RespGrammar.AcceptedExactly | network/src/proto_parser.cc:13-163 | an input of up to INT_MAX bytes is accepted if and only if a request stands at the cursor, or a star and at least three zeros make up the rest |
| RespGrammar.ZerosAccepted | network/src/proto_parser.cc:31-50 | a star and zeros to the end of the input are an empty request, with the cursor two bytes behind the end |
| RespGrammar.OverflowExactly | network/src/proto_parser.cc:31-45 | reading a number overflows an int exactly when its first digits stand for more than an int holds |
| RespStream.VerdictStands | network/src/proto_parser.cc:63-163 | a verdict other than waiting, with the cursor inside the input, is the same however the input goes on |
| RespStream.ErrorStays | network/src/proto_parser.cc:63-163 | an error is the same error however the input goes on |
| RespStream.WaitIsOpen | network/src/proto_parser.cc:63-163 | a parser that waits inside the input does so for a reason: there are bytes with which it no longer waits |
| RespStream.PrefixWaits | network/src/proto_parser.cc:63-163 | a printed request cut short at any byte waits |
| RespStream.Resumes | network/src/proto_parser.cc:63-163 | a parser that waits inside the input and goes on when more has arrived ends as if all had been there at once, unless it waits in the count with the mark passed |
| RespStream.CountLost | network/src/proto_parser.cc:77-88 | a parser that waits in the count has passed the mark, and then never accepts a request that would be accepted as a whole |
| RespParser.GetIntUntilCRLF | network/src/proto_parser.cc:13-50 | the digit loop computes GetInt |
| RespParser.ProtoParser.Reset | network/src/proto_parser.cc:52-61 | the fields are reset and at most three old strings kept |
| RespParser.ProtoParser.ParseRequest | network/src/proto_parser.cc:63-75 | implements ReadRequest |
| RespParser.ProtoParser.ParseMulti | network/src/proto_parser.cc:77-88 | implements ReadMulti |
| RespParser.ProtoParser.ParseStrlist | network/src/proto_parser.cc:90-108 | implements ReadStrlist, resizing in place |
| RespParser.ProtoParser.ParseStr | network/src/proto_parser.cc:110-127 | implements ReadStr |
| RespParser.ProtoParser.ParseStrval | network/src/proto_parser.cc:129-146 | implements ReadStrval |
| RespParser.ProtoParser.ParseStrlen | network/src/proto_parser.cc:148-163 | implements ReadStrlen |
| RespParser.FormatBulk | network/src/common.cc:57-74 | appends exactly one printed bulk string to the reply and returns its size |
| RespParser.PreFormatMultiBulk | network/src/common.cc:81-95 | appends exactly the printed count |
| RespParser.FormatMultiBulk | network/src/common.cc:97-104 | appends exactly the printed bulk strings of the list |
| UnboundedBuffers.Grown | network/src/unbounded_buffer.cc:70-85 | the size growth stops at covers the need whenever that is within the limit |
| UnboundedBuffers.GrownIsTight | network/src/unbounded_buffer.cc:77-85 | growth overshoots a need above 64 bytes by at most a half |
| UnboundedBuffers.UnboundedBuffer.AssureSpace | network/src/unbounded_buffer.cc:70-95 | the growth loop ends, there is room for the bytes asked for within the limit, and growth and compaction leave the readable bytes alone |
| UnboundedBuffers.UnboundedBuffer.PushDataAt | network/src/unbounded_buffer.cc:30-45 | the bytes stand behind the readable ones, which are unchanged |
| UnboundedBuffers.UnboundedBuffer.PushData | network/src/unbounded_buffer.cc:22-28 | appends to the queue, or nothing when it is full |
| UnboundedBuffers.UnboundedBuffer.PeekDataAt | network/src/unbounded_buffer.cc:55-68 | a copy of the readable bytes from an offset on, as many as there are, exactly unless size and offset wrap around and the copy would run past them |
| UnboundedBuffers.UnboundedBuffer.PeekData | network/src/unbounded_buffer.cc:47-53 | takes bytes off the front of the queue: those returned and those left are the old contents |
| UnboundedBuffers.UnboundedBuffer.Shrink | network/src/unbounded_buffer.cc:97-121 | the readable bytes stay, and when the free space goes |
| UnboundedBuffers.UnboundedBuffer.Clear | network/src/unbounded_buffer.cc:123-126 | the queue is empty |
| UnboundedBuffers.UnboundedBuffer.Swap | network/src/unbounded_buffer.cc:128-133 | exchanges the contents of two buffers |
| CircularBuffers.RoundUp2Power | network/include/network/buffer.h:29-38 | the least power of two at or above the size, up to a factor of two |
| CircularBuffers.CircularBuffer.PushData | network/include/network/buffer.h:233-241 | appends all of the data or, when it does not fit, nothing |
| CircularBuffers.CircularBuffer.PushDataAt | network/include/network/buffer.h:243-280 | copies around the end of the ring without touching what is readable |
| CircularBuffers.CircularBuffer.GetDatum | network/include/network/buffer.h:127-181 | one or two segments that are the readable bytes from an offset on, in order, as many as asked for |
| CircularBuffers.CircularBuffer.AdjustReadPtr | network/include/network/buffer.h:345-353 | drops bytes off the front of the queue |
| SendQueue.FirstInFirstOut | network/src/async_buffer.cc:19-92 | after any interleaving of whole calls and partial sends, the bytes sent and then the bytes held are the bytes written, in order |
| SendQueue.ApplyConserves | network/src/async_buffer.cc:58-92 | no call loses, repeats or reorders a byte |
| SendQueue.RingFits | network/src/async_buffer.cc:19-46 | whatever the calls, one byte of the ring stays free |
| SendQueue.RingSuffices | network/src/async_buffer.cc:19-46 | as long as all that is held fits into the ring, nothing else is used |
| SendQueue.ThreeRoundsDrain | network/src/async_buffer.cc:58-92 | offering and skipping everything three times empties the buffer, and something is offered as long as anything is held |
| AsyncBuffers.AsyncBuffer.Write | network/src/async_buffer.cc:19-46 | goes to the ring or to the back buffer as Stored says, and keeps the byte count of the back buffer exact |
| AsyncBuffers.AsyncBuffer.ProcessBuffer | network/src/async_buffer.cc:58-80 | offers the first non-empty stage, moving the back buffer up when its lock is free |
| AsyncBuffers.AsyncBuffer.Skip | network/src/async_buffer.cc:82-92 | drops the sent bytes from the stage they were offered from |

## Left out

- Snapshots: sending, receiving and creating them, and the storage operations for them.
- Membership changes, and the forwarding of configuration entries as such.
- Crashes and restarts; what is durable besides the log is not decided here.
- Compaction within runs; `MaybeCompact` has a contract of its own.
- Liveness: that elections end and messages arrive; `Repair.SearchEnds` bounds the search for the point to resume from, once they do.
- Timers, random timeouts, logging, sockets, threads, configuration, the key-value commands.
- The branch of `SendAppend` for a failed term lookup, which storage never reports, and a transfer to a node outside the peers.
- Index arithmetic is on unbounded integers, except where the code's own subtraction, tally or cast can wrap.
- RaftCore.MemoryStorage.Entries: only for ranges inside the storage; the code does not check a range that ends beyond it.
- RaftCore.RaftContext.constructor: only for a peer list that holds the node itself and no peer twice; the ids are the keys of a map in the code.
- Rounds while the commit index lies beyond the log or below the applied index: the model does not take them, since the slice they hand out is undefined.
- RaftCore.RaftLog.Term: gives 0 beyond the log, where the code reads outside the vector.
- RaftCore.RaftContext.LeaderCommit: takes term 0 for a candidate beyond the log, where the code reads outside the vector.
- RaftCore.RaftContext.AbsorbBatch: only for a contiguous log, which every run keeps (Refinement.StepDefined).
- RaftCore.RaftContext.HandleAppendEntries: only for a contiguous log, as before.
- RaftCore.RaftContext.HandleAppendEntriesResponse: only for rejections whose search finds an entry, which all rejections of a run do (Refinement.StepDefined); otherwise the code reads a variable it has not set.
- RaftCore.RaftContext.HandleTransferLeader: only for a transferee among the peers; for another the code inserts an empty progress entry.
- RaftCore.RaftContext.StepFollower: only for a contiguous log, as before.
- RaftCore.RaftContext.StepCandidate: only for a contiguous log, as before.
- RaftCore.RaftContext.StepLeader: only for a contiguous log and a defined search, as before.
- RaftCore.RaftContext.Step: only for a contiguous log and a defined search, as before; Refinement.StepDefined shows both for every run.
- RaftCore.RawNode.Campaign: only for a contiguous log, as before.
- RaftCore.RawNode.Propose: only for a contiguous log, as before.
- RaftCore.RawNode.Advance: only while storage has not been compacted beyond the log's first index.
- Glob: the byte behind the text is not guessed; reading it is an outcome of its own.
- RespParser.ProtoParser.ParseRequest: a request that arrives in parts is not followed across calls; a number cut off by the end of the input is read as complete, as in the code.
- RespParser.FormatBulk: only while the reply stays within the buffer's limit; the integer, error and null replies are not modelled.
- UnboundedBuffers.UnboundedBuffer.PeekDataAt: what a copy past the readable bytes gives is not modelled, only when it happens.
- UnboundedBuffers.UnboundedBuffer.PushDataAt: only for sizes within the limit, which the code asserts; allocation failure and vector capacity are not modelled.
- CircularBuffers.CircularBuffer.PushDataAt: without the offset parameter, which only other callers use, and for rings of up to 2^31 bytes, where the copy lengths fit their `int`; a ring of size zero is excluded.
- AsyncBuffers: interleavings inside one call; gather lists are the bytes they point to at the time of the call.
