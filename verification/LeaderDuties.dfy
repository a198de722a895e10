/** What a leader does: taking office, proposals, acknowledgements and transfers. */
module LeaderDuties {
  import opened RaftTypes
  import opened LogSpec
  import opened NodeSpec
  import opened Cluster
  import opened History
  import opened HistoryFacts
  import opened Actions
  import opened Reigns
  import opened CommitQuorum
  import opened Steps
  import opened Runs
  import opened Safety
  import opened AckSoundness
  import opened KnownLeader
  import opened Deliveries
  import opened Answers

  // ----- Appends to everyone -----

  predicate InRange(n: Node) {
    forall p :: p in n.peers && p != n.id ==> p in n.prs && 1 <= n.prs[p].next <= |n.log.entries| + 1
  }

  /** One append to every other peer, from its `next` up to the last entry, and no other
      message. */
  ghost predicate AllCaughtUp(ms: seq<Message>, n: Node)
    requires InRange(n)
  {
    && (forall p :: p in n.peers && p != n.id ==> CatchUp(n, p, n.prs[p].next) in ms)
    && (forall m :: m in ms ==> exists p :: p in n.peers && p != n.id && m == CatchUp(n, p, n.prs[p].next))
    && |ms| + 1 == |n.peers|
  }

  lemma {:induction false} AppendsCount(n: Node, ps: seq<NodeId>)
    requires ValidNode(n) && Distinct(ps) && forall p :: p in ps ==> p in n.prs
    ensures |AppendsTo(n, ps)| + (if n.id in ps then 1 else 0) == |ps|
  {
    if ps != [] {
      AppendsCount(n, ps[1..]);
    }
  }

  lemma BroadcastCatchesUp(n: Node)
    requires ValidNode(n) && NodeShape(n) && InRange(n)
    ensures AllCaughtUp(AppendsTo(n, n.peers), n)
  {
    var ms := AppendsTo(n, n.peers);
    AppendsCount(n, n.peers);
    forall p | p in n.peers && p != n.id
      ensures CatchUp(n, p, n.prs[p].next) in ms
    {
      AppendsInclude(n, n.peers, p);
      AppendIsCatchUp(n, p);
    }
    forall m | m in ms
      ensures exists p :: p in n.peers && p != n.id && m == CatchUp(n, p, n.prs[p].next)
    {
      var p := AppendsReach(n, n.peers, m);
      AppendIsCatchUp(n, p);
    }
  }

  /** A leader that has added to its log brings all others up, or commits if it is alone. */
  ghost predicate Informs(n: Node, n': Node, ms: seq<Message>)
    requires InRange(n')
  {
    if |n.peers| == 1 then n'.log.committed == |n'.log.entries| && ms == []
    else n'.log.committed == n.log.committed && AllCaughtUp(ms, n')
  }

  // ----- Taking office -----

  /** `n'` has taken office on the log of `n`: it adds one empty entry of its term, and
      sends every other peer all that follows the old log. */
  ghost predicate TookOffice(n: Node, n': Node, ms: seq<Message>) {
    var es := n.log.entries;
    && n'.role == Leader && n'.lead == n'.id == n.id && n'.peers == n.peers && n'.prs.Keys == n.prs.Keys
    && n'.log.entries == es + [Entry(EntryNormal, n'.term, |es| + 1, "")]
    && (forall p :: p in n'.prs && p != n.id ==> n'.prs[p].next == |es| + 1)
    && n.id in n'.prs && n'.prs[n.id].matched == |es| + 1
    && InRange(n') && Informs(n, n', ms)
  }

  lemma TakesOver(c: Node)
    requires ValidNode(c) && NodeShape(c) && c.msgs == []
    ensures TookOffice(c, BecomeLeader(c).(msgs := []), BecomeLeader(c).msgs)
  {
    Lookups(c);
    var t := TakeOffice(c);
    BroadcastCatchesUp(t);
  }

  lemma SameRole(n: Node, m: Message)
    requires ValidNode(n) && m.body.Append?
    ensures HandleAppendEntries(n, m).role == n.role
  {
  }

  lemma FollowerEnters(n: Node, m: Message)
    requires ValidNode(n) && NodeShape(n) && n.msgs == [] && n.role == Follower && StepFollower(n, m).role == Leader
    ensures var n' := StepFollower(n, m); TookOffice(n, n'.(msgs := []), n'.msgs)
  {
    match m.body
    case Hup => EntersAlone(n);
    case TimeoutNow => EntersAlone(n);
    case Append(_, _, _, _) =>
      SameRole(n, m);
      assert false;
    case _ =>
      assert false;
  }

  lemma CandidateEnters(n: Node, m: Message)
    requires ValidNode(n) && NodeShape(n) && n.msgs == [] && n.role == Candidate && StepCandidate(n, m).role == Leader
    ensures var n' := StepCandidate(n, m); TookOffice(n, n'.(msgs := []), n'.msgs)
  {
    match m.body
    case Hup => EntersAlone(n);
    case RequestVoteResponse(_) => VoteEnters(n, m);
    case Append(_, _, _, _) =>
      SameRole(if m.term == n.term then BecomeFollower(n, m.term, m.from) else n, m);
      assert false;
    case _ =>
      assert false;
  }

  lemma VoteEnters(n: Node, m: Message)
    requires ValidNode(n) && NodeShape(n) && n.msgs == [] && n.role == Candidate
    requires m.body.RequestVoteResponse? && HandleRequestVoteResponse(n, m).role == Leader
    ensures var n' := HandleRequestVoteResponse(n, m); TookOffice(n, n'.(msgs := []), n'.msgs)
  {
    TakesOver(n.(votes := n.votes[m.from := !m.body.reject]));
  }

  /** A node whose message makes it leader takes office on its own log. */
  lemma Enters(n: Node, m: Message, relaxed: bool)
    requires ValidNode(n) && NodeShape(n) && n.msgs == [] && FromPeer(n, m) && n.role != Leader
    requires Step(n, m, relaxed).role == Leader
    ensures var n' := Step(n, m, relaxed); TookOffice(n, n'.(msgs := []), n'.msgs)
  {
    var o := Observe(n, m.term);
    if o.role == Follower {
      FollowerEnters(o, m);
    } else {
      CandidateEnters(o, m);
    }
  }

  lemma EntersAlone(n: Node)
    requires ValidNode(n) && NodeShape(n) && n.msgs == [] && DoElection(n).role == Leader
    ensures TookOffice(n, DoElection(n).(msgs := []), DoElection(n).msgs)
  {
    TakesOver(BecomeCandidate(n));
  }

  /** The input that brings node `i` into office. */
  lemma ElectionInput(s: State, h: History, e: Event, i: NodeId) returns (m: Message, relaxed: bool)
    requires Inv(s, h) && WellFormed(s) && Enabled(s, e) && i in s.nodes && TakesOffice(s, After(s, e), i)
    ensures ValidNode(s.nodes[i]) && FromPeer(s.nodes[i], m) && s.nodes[i].role != Leader
    ensures var n' := Step(s.nodes[i], m, relaxed);
      n'.role == Leader && n'.(msgs := []) == After(s, e).nodes[i] && n'.msgs == Emitted(s, e)
  {
    var j;
    j, m, relaxed := InputTaken(s, e);
    if m in s.net {
      MessageFacts(s, h, m);
    }
    assert j == i;
    LeaderStays(s.nodes[i], m, relaxed);
  }

  /** Whoever takes office in a run, in whatever step, does so by adding one empty entry of
      its term to its own log, and at once sends every other peer an append that starts at
      the end of the old log. */
  lemma OfficeTaken(run: seq<State>, k: nat, i: NodeId, e: Event)
    requires IsRun(run) && TallyExact(|run[0].peers|) && ElectedAt(run, k, i) && Takes(run[k], e, run[k + 1])
    ensures TookOffice(run[k].nodes[i], run[k + 1].nodes[i], Emitted(run[k], e))
  {
    var hs := HistoryOf(run);
    NodeFacts(run[k], hs[k], i);
    var m, relaxed := ElectionInput(run[k], hs[k], e, i);
    Enters(run[k].nodes[i], m, relaxed);
  }

  lemma LeaderStays(n: Node, m: Message, relaxed: bool)
    requires ValidNode(n) && FromPeer(n, m) && (m.body.TimeoutNow? || m.body.Hup? ==> m.term == NONE)
    ensures n.role == Leader && Step(n, m, relaxed).role == Leader ==> Step(n, m, relaxed).term == n.term
  {
    if n.role == Leader && m.body.Propose? {
      PushIdentity(n, m.body.proposal, LastIndex(n.log));
    }
  }

  // ----- Proposals -----

  /** The log with a proposal: a configuration change is dropped while one is pending. */
  function Entered(n: Node, e: Entry): seq<Entry> {
    var es := n.log.entries;
    if e.etype == EntryConfChange && n.pendingConf != NONE then es
    else es + [e.(term := n.term, index := |es| + 1)]
  }

  /** `n'` has entered the proposal. */
  ghost predicate TookProposal(n: Node, e: Entry, n': Node, ms: seq<Message>) {
    var es := Entered(n, e);
    && n'.log.entries == es && n.id in n.prs
    && n' == n.(log := n.log.(entries := es, committed := n'.log.committed),
                prs := n.prs[n.id := Progress(|es| + 1, |es|)], pendingConf := n'.pendingConf)
    && n'.pendingConf == (if e.etype == EntryConfChange && n.pendingConf == NONE then |es| else n.pendingConf)
    && InRange(n') && Informs(n, n', ms)
  }

  lemma EnteredIs(n: Node, e: Entry)
    requires ValidNode(n) && NodeShape(n)
    ensures var a := PushProposals(n, [e], LastIndex(n.log));
      && a.log == n.log.(entries := Entered(n, e))
      && a == n.(log := a.log, pendingConf := a.pendingConf)
      && a.pendingConf ==
           if e.etype == EntryConfChange && n.pendingConf == NONE then |a.log.entries| else n.pendingConf
  {
    Lookups(n);
    var last, rest := LastIndex(n.log), [e][1..];
    assert rest == [];
    var e' := e.(term := n.term, index := last + 1);
    if e.etype == EntryConfChange && n.pendingConf != NONE {
      assert PushProposals(n, [e], last) == PushProposals(n, rest, last) == n;
    } else {
      var x := n.(pendingConf := if e.etype == EntryConfChange then last + 1 else n.pendingConf,
                  log := n.log.(entries := n.log.entries + [e']));
      assert PushProposals(n, [e], last) == PushProposals(x, rest, last) == x;
    }
  }

  lemma EnteredForm(n: Node, e: Entry) returns (b: Node)
    requires ValidNode(n) && NodeShape(n)
    ensures ValidNode(b) && NodeShape(b) && AppendEntries(n, [e]) == CommitAlone(BcastAppend(b))
    ensures var es := Entered(n, e);
      && b == n.(log := n.log.(entries := es), prs := n.prs[n.id := Progress(|es| + 1, |es|)],
                 pendingConf := b.pendingConf)
      && b.pendingConf == (if e.etype == EntryConfChange && n.pendingConf == NONE then |es| else n.pendingConf)
  {
    EnteredIs(n, e);
    PushedOne(n, e);
    var a := PushProposals(n, [e], LastIndex(n.log));
    Lookups(a);
    b := SetMatch(a, a.id, LastIndex(a.log));
  }

  lemma Informing(n: Node, b: Node)
    requires ValidNode(b) && NodeShape(b) && InRange(b) && b.msgs == [] && b.peers == n.peers
    requires b.prs[b.id].matched == |b.log.entries| && b.log.committed == n.log.committed
    ensures var n' := CommitAlone(BcastAppend(b));
      && n' == b.(log := b.log.(committed := n'.log.committed), msgs := n'.msgs)
      && InRange(n') && Informs(n, n'.(msgs := []), n'.msgs)
  {
    BroadcastCatchesUp(b);
    var n' := CommitAlone(BcastAppend(b));
    assert |n.peers| != 1 ==> n'.(msgs := []) == b;
  }

  lemma Proposes(n: Node, e: Entry)
    requires ValidNode(n) && NodeShape(n) && n.msgs == [] && ProgressOk(n) && n.role == Leader
    ensures var n' := AppendEntries(n, [e]); TookProposal(n, e, n'.(msgs := []), n'.msgs)
  {
    var b := EnteredForm(n, e);
    Informing(n, b);
  }

  lemma StepProposes(n: Node, m: Message, e: Entry)
    requires ValidNode(n) && NodeShape(n) && n.msgs == [] && ProgressOk(n) && m.term == NONE && m.body == Propose([e])
    ensures var n' := Step(n, m, false);
      if n.role == Leader && n.transferee == NONE then TookProposal(n, e, n'.(msgs := []), n'.msgs) else n' == n
  {
    StepOffers(n, m, e);
    if n.role == Leader && n.transferee == NONE {
      Proposes(n, e);
    }
  }

  lemma StepOffers(n: Node, m: Message, e: Entry)
    requires ValidNode(n) && m.term == NONE && m.body == Propose([e])
    ensures Step(n, m, false) == if n.role == Leader && n.transferee == NONE then AppendEntries(n, [e]) else n
  {
  }

  /** A leader that is not handing over enters every proposal in its log, under its term and
      the next index, unless it is a configuration change while one is pending, and brings
      all other peers up to it. Every other node ignores proposals. */
  lemma ProposalAnswered(run: seq<State>, k: nat, e: Event)
    requires IsRun(run) && TallyExact(|run[0].peers|) && CalledAt(run, k, e) && e.ClientPropose?
    ensures e.node in run[k].nodes && e.node in run[k + 1].nodes
    ensures var n, n', ms := run[k].nodes[e.node], run[k + 1].nodes[e.node], Emitted(run[k], e);
      if n.role == Leader && n.transferee == NONE then TookProposal(n, e.entry, n', ms) else n' == n && ms == []
  {
    var hs := HistoryOf(run);
    var n, n' := Callee(run, hs, k, e);
    NodeFacts(run[k], hs[k], e.node);
    StepProposes(n, LocalMessage(e), e.entry);
  }

  // ----- Acknowledgements -----

  /** How many peers a commit takes: a majority, or half of an even number unless the
      source's test of the pending configuration change asks for more. */
  function Quorum(size: nat, relaxed: bool): nat {
    if relaxed || size % 2 == 1 then size / 2 + 1 else size / 2
  }

  /** Entry `v` is of the leader's term, and enough peers have it. */
  predicate Committable(n: Node, v: nat, relaxed: bool) {
    && 1 <= v <= |n.log.entries| && TermAt(n.log.entries, v) == n.term
    && |Reached(n.prs, v)| >= Quorum(|n.peers|, relaxed)
  }

  /** The commit index after counting: the highest entry that may be committed, if that is
      news. */
  ghost predicate CommitsBest(n: Node, committed: nat, relaxed: bool) {
    && n.log.committed >= committed
    && (n.log.committed > committed ==> Committable(n, n.log.committed, relaxed))
    && (forall v: nat {:trigger Committable(n, v, relaxed)} :: Committable(n, v, relaxed) ==> v <= n.log.committed)
  }

  lemma BestCandidate(h: History, x: Node, relaxed: bool)
    requires ReignLogs(h) && ValidNode(x) && NodeShape(x) && OnRecord(h, x.log.entries) && x.role == Leader
    requires x.log.entries != [] && LastTerm(x.log.entries) == x.term && x.term >= 1
    requires CommitCandidate(x, relaxed) <= |x.log.entries|
    ensures CommitsBest(LeaderCommit(x, relaxed), x.log.committed, relaxed)
  {
    Lookups(x);
    CommitCandidateReached(x, relaxed);
    var c, r, es := CommitCandidate(x, relaxed), LeaderCommit(x, relaxed), x.log.entries;
    forall v: nat | Committable(r, v, relaxed)
      ensures v <= r.log.committed
    {
      assert v <= c;
      TermsGrow(h, es, v - 1, c - 1);
      TermsGrow(h, es, c - 1, |es| - 1);
    }
  }

  /** `m` is the last acknowledgement a transfer waits for. */
  predicate Finishes(n: Node, m: Message)
    requires m.body.AppendResponse?
  {
    m.from == n.transferee && m.body.index == |n.log.entries|
  }

  /** `n'` has counted the acknowledgement `m`. */
  ghost predicate Counts(n: Node, m: Message, relaxed: bool, n': Node, appends: seq<Message>)
    requires m.body.AppendResponse?
  {
    && n' == n.(prs := n.prs[m.from := Progress(m.body.index + 1, m.body.index)],
                log := n.log.(committed := n'.log.committed),
                transferee := if Finishes(n, m) then NONE else n.transferee)
    && CommitsBest(n', n.log.committed, relaxed)
    && InRange(n')
    && if n'.log.committed > n.log.committed then AllCaughtUp(appends, n') else appends == []
  }

  lemma CommitForm(x: Node, relaxed: bool) returns (b: Node)
    requires ValidNode(x) && NodeShape(x)
    ensures ValidNode(b) && NodeShape(b) && b == x.(log := x.log.(committed := b.log.committed))
    ensures b.log.committed >= x.log.committed
    ensures LeaderCommit(x, relaxed) == if b.log.committed > x.log.committed then BcastAppend(b) else x
  {
    var c := CommitCandidate(x, relaxed);
    b := if c > x.log.committed && TermOf(x.log, c) == x.term then x.(log := x.log.(committed := c)) else x;
  }

  lemma CommitSends(x: Node, relaxed: bool)
    requires ValidNode(x) && NodeShape(x) && InRange(x) && x.msgs == []
    ensures var r := LeaderCommit(x, relaxed);
      && r == x.(log := x.log.(committed := r.log.committed), msgs := r.msgs) && InRange(r)
      && r.log.committed >= x.log.committed
      && if r.log.committed > x.log.committed then AllCaughtUp(r.msgs, r.(msgs := [])) else r.msgs == []
  {
    var b := CommitForm(x, relaxed);
    if b.log.committed > x.log.committed {
      BroadcastCatchesUp(b);
      assert BcastAppend(b).msgs == AppendsTo(b, b.peers) && BcastAppend(b).(msgs := []) == b;
    }
  }

  /** The nodes differ in their outbox and transfer target at most. */
  predicate Same(r: Node, n': Node) { n' == r.(msgs := n'.msgs, transferee := n'.transferee) }

  lemma SameBest(r: Node, n': Node, committed: nat, relaxed: bool)
    requires Same(r, n') && CommitsBest(r, committed, relaxed)
    ensures CommitsBest(n', committed, relaxed)
  {
    forall v: nat | Committable(n', v, relaxed)
      ensures v <= n'.log.committed
    {
      assert Committable(r, v, relaxed);
    }
  }

  lemma SameCatchUp(r: Node, n': Node, p: NodeId, next: nat)
    requires Same(r, n') && 1 <= next <= |r.log.entries| + 1
    ensures CatchUp(r, p, next) == CatchUp(n', p, next)
  {
  }

  lemma SameAppends(r: Node, n': Node, ms: seq<Message>)
    requires Same(r, n') && InRange(r) && AllCaughtUp(ms, r)
    ensures InRange(n') && AllCaughtUp(ms, n')
  {
    forall p | p in n'.peers && p != n'.id
      ensures CatchUp(n', p, n'.prs[p].next) == CatchUp(r, p, r.prs[p].next)
    {
      SameCatchUp(r, n', p, r.prs[p].next);
    }
    forall m | m in ms
      ensures exists p :: p in n'.peers && p != n'.id && m == CatchUp(n', p, n'.prs[p].next)
    {
      var p :| p in r.peers && p != r.id && m == CatchUp(r, p, r.prs[p].next);
    }
  }

  lemma AckStep(n: Node, m: Message, relaxed: bool, r: Node)
    requires ValidNode(n) && NodeShape(n) && n.msgs == [] && n.role == Leader && m.from in n.prs
    requires m.body.AppendResponse? && !m.body.reject && m.term == n.term && m.body.index > n.prs[m.from].matched
    requires r == LeaderCommit(SetMatch(n, m.from, m.body.index), relaxed)
    ensures var last := if Finishes(n, m) then [Message(n.id, m.from, NONE, TimeoutNow)] else [];
      Step(n, m, relaxed) ==
        r.(transferee := if Finishes(n, m) then NONE else n.transferee, msgs := r.msgs + last)
  {
    Lookups(n);
    assert Step(n, m, relaxed) == HandleAppendEntriesResponse(n, m, relaxed);
    assert r.msgs + [] == r.msgs;
  }

  lemma StepCounts(n: Node, m: Message, relaxed: bool) returns (appends: seq<Message>)
    requires ValidNode(n) && NodeShape(n) && n.msgs == [] && n.role == Leader && m.from in n.prs
    requires m.body.AppendResponse? && !m.body.reject && m.term == n.term && m.body.index > n.prs[m.from].matched
    requires InRange(SetMatch(n, m.from, m.body.index))
    requires CommitsBest(LeaderCommit(SetMatch(n, m.from, m.body.index), relaxed), n.log.committed, relaxed)
    ensures var n' := Step(n, m, relaxed);
      && Counts(n, m, relaxed, n'.(msgs := []), appends)
      && n'.msgs == appends + if Finishes(n, m) then [Message(n.id, m.from, NONE, TimeoutNow)] else []
  {
    var x := SetMatch(n, m.from, m.body.index);
    var r := LeaderCommit(x, relaxed);
    CommitSends(x, relaxed);
    AckStep(n, m, relaxed, r);
    appends := r.msgs;
    var n' := Step(n, m, relaxed).(msgs := []);
    SameBest(r, n', n.log.committed, relaxed);
    if r.log.committed > n.log.committed {
      SameAppends(r.(msgs := []), n', appends);
    }
  }

  /** What the invariants say when a leader counts an acknowledgement. */
  lemma CountBest(run: seq<State>, hs: seq<History>, k: nat, i: NodeId, m: Message, relaxed: bool)
    requires IsRun(run) && TallyExact(|run[0].peers|) && FreshElections(run) && Chronicle(run, hs) && k < |run|
    requires i in run[k].nodes && run[k].nodes[i].role == Leader
    requires m in run[k].net && m.to == i && m.term == run[k].nodes[i].term
    requires m.body.AppendResponse? && !m.body.reject
    ensures var n := run[k].nodes[i];
      && ValidNode(n) && m.from in n.prs && InRange(SetMatch(n, m.from, m.body.index))
      && CommitsBest(LeaderCommit(SetMatch(n, m.from, m.body.index), relaxed), n.log.committed, relaxed)
  {
    NodeFacts(run[k], hs[k], i);
    MessageFacts(run[k], hs[k], m);
    LeaderFacts(run[k], hs[k], i);
    CommitLookupInRange(run, k, i, m, relaxed);
    assert Satisfies(run[k], hs[k], Logs);
    var x := AckProgress(run[k], hs[k], i, m);
    BestCandidate(hs[k], x, relaxed);
  }

  /** A successful reply of its term that is news makes a leader record it, and raise its
      commit index to the highest entry of its term that enough peers have; when that moves,
      it tells all other peers. The last reply a transfer waits for makes it tell the target
      to run for election. A reply that is no news is ignored. */
  lemma AckAnswered(run: seq<State>, k: nat, m: Message, relaxed: bool) returns (appends: seq<Message>)
    requires IsRun(run) && TallyExact(|run[0].peers|) && FreshElections(run) && DeliveredAt(run, k, m, relaxed)
    requires IsLeader(run[k], m.to, m.term) && m.body.AppendResponse? && !m.body.reject
    ensures m.to in run[k + 1].nodes && m.from in run[k].nodes[m.to].prs
    ensures var n, n', ms := run[k].nodes[m.to], run[k + 1].nodes[m.to], Sent(run, k, m, relaxed);
      if m.body.index <= n.prs[m.from].matched then n' == n && ms == []
      else
        && Counts(n, m, relaxed, n', appends)
        && ms == appends + if Finishes(n, m) then [Message(m.to, m.from, NONE, TimeoutNow)] else []
  {
    var hs := HistoryOf(run);
    appends := [];
    var n, n' := Receiver(run, hs, k, m, relaxed);
    if m.body.index <= n.prs[m.from].matched {
      StepIgnores(n, m, relaxed);
    } else {
      CountBest(run, hs, k, m.to, m, relaxed);
      appends := StepCounts(n, m, relaxed);
    }
  }

  lemma StepIgnores(n: Node, m: Message, relaxed: bool)
    requires ValidNode(n) && n.role == Leader && m.from in n.prs && m.term == n.term
    requires m.body.AppendResponse? && !m.body.reject && m.body.index <= n.prs[m.from].matched
    ensures Step(n, m, relaxed) == n
  {
  }

  // ----- Transfers -----

  /** What a node does about a request to hand over to `t`. */
  ghost predicate Transfers(n: Node, t: NodeId, m: Message, n': Node, ms: seq<Message>) {
    if n.role != Leader then
      n' == n && ms == if n.lead == NONE then [] else [m.(to := n.lead)]
    else if t == n.id || n.transferee == t then n' == n && ms == []
    else
      && n' == n.(transferee := t) && t in n.prs && 1 <= n.prs[t].next <= |n.log.entries| + 1
      && ms == if n.prs[t].matched == |n.log.entries| then [Message(n.id, t, NONE, TimeoutNow)]
               else [CatchUp(n, t, n.prs[t].next)]
  }

  lemma StepTransfers(n: Node, m: Message, relaxed: bool)
    requires ValidNode(n) && NodeShape(n) && ProgressOk(n) && n.msgs == [] && NONE !in n.prs
    requires m.term == NONE && m.body.TransferLeader? && m.from in n.prs
    ensures var n' := Step(n, m, relaxed); Transfers(n, m.from, m, n'.(msgs := []), n'.msgs)
  {
    assert Observe(n, m.term) == n;
    if n.role == Leader {
      LeaderTransfers(n, m);
    } else {
      assert Step(n, m, relaxed) == ForwardTransfer(n, m);
    }
  }

  lemma LeaderTransfers(n: Node, m: Message)
    requires ValidNode(n) && NodeShape(n) && ProgressOk(n) && n.msgs == [] && NONE !in n.prs && n.role == Leader
    requires m.body.TransferLeader? && m.from in n.prs
    ensures var n' := HandleTransferLeader(n, m); Transfers(n, m.from, m, n'.(msgs := []), n'.msgs)
  {
    Lookups(n);
    if m.from != n.id {
      AppendIsCatchUp(n.(transferee := m.from), m.from);
    }
  }

  /** A client's request to hand over: a leader tells a target that has everything to run
      for election at once, and brings up any other; every other node passes the request on
      to the leader it knows, if it knows one. */
  lemma TransferAnswered(run: seq<State>, k: nat, e: Event)
    requires IsRun(run) && TallyExact(|run[0].peers|) && CalledAt(run, k, e) && e.ClientTransfer?
    ensures e.node in run[k].nodes && e.node in run[k + 1].nodes
    ensures Transfers(run[k].nodes[e.node], e.transferee, LocalMessage(e), run[k + 1].nodes[e.node], Emitted(run[k], e))
  {
    var hs := HistoryOf(run);
    var n, n' := Callee(run, hs, k, e);
    NodeFacts(run[k], hs[k], e.node);
    StepTransfers(n, LocalMessage(e), false);
  }

  /** The same for a request that was passed on. */
  lemma TransferDelivered(run: seq<State>, k: nat, m: Message, relaxed: bool)
    requires IsRun(run) && TallyExact(|run[0].peers|) && DeliveredAt(run, k, m, relaxed) && m.body.TransferLeader?
    ensures m.to in run[k].nodes && m.to in run[k + 1].nodes
    ensures Transfers(run[k].nodes[m.to], m.from, m, run[k + 1].nodes[m.to], Sent(run, k, m, relaxed))
  {
    var hs := HistoryOf(run);
    var n, n' := Receiver(run, hs, k, m, relaxed);
    NodeFacts(run[k], hs[k], m.to);
    StepTransfers(n, m, relaxed);
  }
}
