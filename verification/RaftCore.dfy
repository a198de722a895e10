/** The Raft library as the objects it is made of: `MemoryStorage`, `RaftLog`,
    `RaftContext` and `RawNode`. Every method is proved against the function of
    the node model that it implements. */
module RaftCore {
  import opened RaftTypes
  import opened LogSpec
  import opened LogFacts
  import S = NodeSpec
  import C = Cluster

  datatype HardState = HardState(term: Term, vote: NodeId, commit: nat)

  class MemoryStorage {
    var ents: seq<Entry>
    var hardState: HardState
    var confNodes: seq<NodeId>  // the nodes of the snapshot's configuration

    ghost predicate Valid()
      reads this
    {
      |ents| > 0
    }

    constructor ()
      ensures Valid() && ents == [DummyEntry()] && hardState == HardState(0, NONE, 0) && confNodes == []
    {
      ents := [DummyEntry()];
      hardState := HardState(0, NONE, 0);
      confNodes := [];
    }

    function FirstIndex(): nat
      requires Valid()
      reads this
    {
      ents[0].index + 1
    }

    function LastIndex(): nat
      requires Valid()
      reads this
    {
      ents[0].index + |ents| - 1
    }

    /** The entries with indices in [lo, hi), when they are all stored. */
    method Entries(lo: nat, hi: nat) returns (r: seq<Entry>)
      requires Valid()
      requires lo <= hi <= LastIndex() + 1
      ensures lo <= ents[0].index ==> r == []
      ensures lo > ents[0].index ==> r == ents[lo - ents[0].index..hi - ents[0].index]
    {
      var offset := ents[0].index;
      r := [];
      if lo <= offset {
        return;
      }
      r := ents[lo - offset..hi - offset];
      if |ents| == 1 && |r| != 0 {
        assert false;
        r := [];
      }
    }

    function Term(i: nat): Term
      requires Valid()
      reads this
    {
      var offset := ents[0].index;
      if i < offset || i - offset >= |ents| then 0 else ents[i - offset].term
    }

    method PushAll(es: seq<Entry>)
      modifies this`ents
      ensures ents == old(ents) + es
    {
      var j := 0;
      while j < |es|
        invariant 0 <= j <= |es|
        invariant ents == old(ents) + es[..j]
      {
        ents := ents + [es[j]];
        j := j + 1;
      }
    }

    /** Replaces what is stored from the first given index on. */
    method Append(entries: seq<Entry>) returns (ok: bool)
      requires Valid()
      modifies this`ents
      ensures Valid() && ents == StorageAppend(old(ents), entries)
      ensures ok <==> |entries| > 0 && entries[0].index + |entries| - 1 >= old(FirstIndex())
    {
      if |entries| == 0 {
        return false;
      }
      var first := FirstIndex();
      var last := entries[0].index + |entries| - 1;
      if last < first {
        return false;
      }
      var es := entries;
      if first > es[0].index {
        var cut := first - es[0].index - 1;
        es := es[..cut] + es[cut + 1..];
      }
      if es[0].index >= ents[0].index {
        var offset := es[0].index - ents[0].index;
        if |ents| > offset {
          ents := ents[..offset] + es;
        } else if |ents| == offset {
          assert ents[..offset] == ents;
          PushAll(es);
        }
      }
      ok := true;
    }
  }

  class RaftLog {
    const storage: MemoryStorage
    var first: nat
    var entries: seq<Entry>
    var committed: nat
    var applied: nat
    var stabled: nat

    ghost predicate Valid()
      reads this, storage
    {
      storage.Valid()
    }

    ghost function View(): LogState
      reads this, storage
    {
      LogState(storage.ents, first, entries, committed, applied, stabled)
    }

    /** Recovers the log from storage; the commit index is set by the caller. */
    constructor (st: MemoryStorage)
      requires st.Valid()
      ensures storage == st && Valid()
      ensures View() == LogState(st.ents, StorageFirst(st.ents), st.ents[1..], View().committed,
                                 StorageFirst(st.ents) - 1, StorageLast(st.ents))
    {
      storage := st;
      var lo := st.FirstIndex();
      var hi := st.LastIndex();
      var es := st.Entries(lo, hi + 1);
      first := lo;
      entries := es;
      applied := lo - 1;
      stabled := hi;
      committed := 0;
    }

    function LastIndex(): (r: nat)
      requires Valid()
      reads this, storage
      ensures r == LogSpec.LastIndex(View())
    {
      if |entries| > 0 then entries[|entries| - 1].index else storage.LastIndex()
    }

    function Term(i: nat): (r: Term)
      requires Valid()
      reads this, storage
      ensures r == TermOf(View(), i)
    {
      if |entries| > 0 && i >= first then
        if i - first < |entries| then entries[i - first].term else 0
      else storage.Term(i)
    }

    /** The entries not yet persisted. */
    method UnstableEntries() returns (r: seq<Entry>)
      requires Valid() && UnstableInRange(View())
      ensures r == LogSpec.UnstableEntries(View())
    {
      r := [];
      if |entries| > 0 {
        r := entries[stabled + 1 - first..];
      }
    }

    /** The entries committed but not yet applied. */
    method NextEnts() returns (r: seq<Entry>)
      requires Valid() && NextInRange(View())
      ensures r == LogSpec.NextEnts(View())
    {
      r := [];
      if |entries| > 0 {
        r := entries[applied + 1 - first..committed + 1 - first];
      }
    }

    /** Drops what storage has compacted away: the entries from the new first
      index on stay, under their old indices. */
    method MaybeCompact()
      requires Valid()
      requires |entries| > 0 ==> storage.FirstIndex() <= first + |entries|
      modifies this`first, this`entries
      ensures Valid()
      ensures View() == if StorageFirst(storage.ents) <= old(first) then old(View())
                        else old(View()).(first := StorageFirst(storage.ents),
                                          entries := if |old(entries)| > 0
                                            then old(entries)[StorageFirst(storage.ents) - old(first)..] else [])
    {
      var f := storage.FirstIndex();
      if f > first {
        if |entries| > 0 {
          entries := entries[f - first..];
        }
        first := f;
      }
    }
  }

  /** The appends to the peers from position `k` on. */
  ghost function AppendsFrom(n: Node, k: nat): seq<Message>
    requires S.ValidNode(n) && k <= |n.peers|
  {
    S.AppendsTo(n, n.peers[k..])
  }

  lemma AppendsAt(n: Node, k: nat, sent: seq<Message>)
    requires S.ValidNode(n) && k < |n.peers|
    ensures sent + AppendsFrom(n, k) ==
      (sent + if n.peers[k] == n.id then [] else [S.AppendTo(n, n.peers[k])]) + AppendsFrom(n, k + 1)
  {
    var rest := n.peers[k..];
    assert rest[0] == n.peers[k] && rest[1..] == n.peers[k + 1..];
  }

  /** The messages to the other peers from position `k` on. */
  lemma OthersAt(n: Node, k: nat, body: Body, sent: seq<Message>)
    requires k < |n.peers|
    ensures sent + S.ToOthers(n, n.peers[k..], body) ==
      (sent + if n.peers[k] == n.id then [] else [Message(n.id, n.peers[k], n.term, body)])
      + S.ToOthers(n, n.peers[k + 1..], body)
  {
    var rest := n.peers[k..];
    assert rest[0] == n.peers[k] && rest[1..] == n.peers[k + 1..];
  }

  lemma CountOne(g: set<NodeId>, rest: set<NodeId>, p: NodeId)
    requires p in rest
    ensures |g * rest| == |g * (rest - {p})| + if p in g then 1 else 0
  {
    if p in g {
      assert g * rest == g * (rest - {p}) + {p};
    } else {
      assert g * rest == g * (rest - {p});
    }
  }

  /** A leader's search for the term a rejection names finds an entry. */
  predicate SearchFinds(n: Node, m: Message) {
    var named := m.body.AppendResponse? && !(m.term != NONE && m.term < n.term) && m.body.reject
      && m.body.index != NONE && m.body.logTerm != NONE;
    named ==> exists k :: 0 <= k < |n.log.entries| && n.log.entries[k].term > m.body.logTerm
  }

  /** What `Step` takes for granted of a node and a message. */
  predicate Steppable(n: Node, m: Message) {
    && S.ValidNode(n) && LogShape(n.log) && S.FromPeer(n, m)
    && (n.role == Leader && m.term <= n.term ==> SearchFinds(n, m))
  }

  /** What a round takes for granted of a log. */
  predicate Roundable(l: LogState) {
    && |l.storage| > 0 && UnstableInRange(l) && NextInRange(l)
    && StorageFirst(l.storage) == l.first && Contiguous(l.entries, l.first)
  }

  /** The node that starts over storage with these entries and this hard state. */
  predicate Recovered(v: Node, id: NodeId, peers: seq<NodeId>, applied: nat, ents: seq<Entry>, hard: HardState)
    requires |ents| > 0
  {
    && v.id == id && v.peers == peers && v.role == Follower && v.lead == NONE
    && v.term == hard.term && v.vote == hard.vote
    && v.votes == map[] && v.msgs == [] && v.transferee == NONE
    && v.log == LogState(ents, StorageFirst(ents), ents[1..], hard.commit,
                         if applied > 0 then applied else StorageFirst(ents) - 1, StorageLast(ents))
    && v.prs == StartProgress(id, peers, LastIndex(v.log))
  }

  function StartProgress(id: NodeId, peers: seq<NodeId>, last: nat): (r: map<NodeId, Progress>)
    ensures r.Keys == set p | p in peers
  {
    map p | p in peers :: if p == id then Progress(last + 1, last) else Progress(last + 1, 0)
  }

  /** Over a fresh storage that is a fresh node of the cluster model. */
  lemma RecoveredFresh(v: Node, id: NodeId, peers: seq<NodeId>)
    requires Recovered(v, id, peers, 0, [DummyEntry()], HardState(0, NONE, 0))
    ensures C.FreshNode(v, id, peers)
  {
    assert v.log.entries == [];
    assert v.prs == map p | p in peers :: Progress(1, 0);
  }

  /** The entries of the first `k` peers are those of `table`, the others as in `was`. */
  predicate Renewed(prs: map<NodeId, Progress>, was: map<NodeId, Progress>, table: map<NodeId, Progress>,
                    peers: seq<NodeId>, k: nat)
  {
    && prs.Keys == was.Keys == table.Keys && k <= |peers| && (forall p :: p in peers ==> p in prs)
    && (forall j :: 0 <= j < k ==> prs[peers[j]] == table[peers[j]])
    && (forall j :: k <= j < |peers| ==> prs[peers[j]] == was[peers[j]])
  }

  lemma RenewedAll(prs: map<NodeId, Progress>, was: map<NodeId, Progress>, table: map<NodeId, Progress>,
                   peers: seq<NodeId>)
    requires Renewed(prs, was, table, peers, |peers|) && prs.Keys == set p | p in peers
    ensures prs == table
  {
    forall p | p in prs
      ensures prs[p] == table[p]
    {
      assert p in peers;
    }
  }

  class RaftContext {
    const id: NodeId
    const peers: seq<NodeId>  // the keys of prs, in map order
    const log: RaftLog
    var term: Term
    var vote: NodeId
    var role: Role
    var lead: NodeId
    var votes: map<NodeId, bool>
    var prs: map<NodeId, Progress>
    var msgs: seq<Message>
    var transferee: NodeId
    var pendingConf: nat

    ghost predicate Valid()
      reads this, log, log.storage
    {
      log.Valid() && S.ValidNode(View())
    }

    ghost function View(): Node
      reads this, log, log.storage
    {
      Node(id, peers, term, vote, role, lead, votes, prs, log.View(), msgs, transferee, pendingConf)
    }

    /** A node over the given storage, from which it recovers its log, its hard state
        and, when none are given, its peers. */
    constructor (id: NodeId, given: seq<NodeId>, applied: nat, st: MemoryStorage)
      requires st.Valid()
      requires var peers := if |given| == 0 then st.confNodes else given; id in peers && Distinct(peers)
      ensures Valid() && log.storage == st && fresh(log)
      ensures var peers := if |given| == 0 then st.confNodes else given;
        Recovered(View(), id, peers, applied, st.ents, st.hardState)
    {
      var ps := given;
      if |ps| == 0 {
        ps := st.confNodes;
      }
      this.id := id;
      this.peers := ps;
      var l := new RaftLog(st);
      this.log := l;
      var last := l.LastIndex();
      term, vote, role, lead := st.hardState.term, st.hardState.vote, Follower, NONE;
      votes := map[];
      prs := StartProgress(id, ps, last);
      msgs := [];
      transferee := NONE;
      pendingConf := NONE;
      new;
      log.committed := st.hardState.commit;
      if applied > 0 {
        log.applied := applied;
      }
    }

    method Send(to: NodeId, body: Body)
      requires Valid()
      modifies this`msgs
      ensures Valid() && View() == S.Send(old(View()), to, body)
    {
      msgs := msgs + [Message(id, to, term, body)];
    }

    // ----- Role changes -----

    method BecomeFollower(t: Term, l: NodeId)
      requires Valid()
      modifies this`role, this`lead, this`term, this`vote
      ensures Valid() && View() == S.BecomeFollower(old(View()), t, l)
    {
      role := Follower;
      lead := l;
      term := t;
      vote := NONE;
    }

    method BecomeCandidate()
      requires Valid()
      modifies this`role, this`lead, this`term, this`vote, this`votes
      ensures Valid() && View() == S.BecomeCandidate(old(View()))
    {
      role := Candidate;
      lead := NONE;
      term := term + 1;
      vote := id;
      votes := map[];
      votes := votes[id := true];
    }

    /** The loop over the peers in `BecomeLeader`. */
    method ResetProgress(last: nat)
      requires Valid() && last == log.LastIndex()
      modifies this`prs
      ensures Valid() && View() == old(View()).(prs := S.LeaderProgress(old(View())))
    {
      ghost var v := View();
      ghost var table := S.LeaderProgress(v);
      var k := 0;
      while k < |peers|
        invariant 0 <= k <= |peers|
        invariant Renewed(prs, v.prs, table, peers, k)
      {
        var p := peers[k];
        assert table[p] == if p == id then Progress(last + 2, last + 1) else v.prs[p].(next := last + 1);
        if p == id {
          prs := prs[p := Progress(last + 2, last + 1)];
        } else {
          prs := prs[p := prs[p].(next := last + 1)];
        }
        k := k + 1;
      }
      RenewedAll(prs, v.prs, table, peers);
    }

    method BecomeLeader()
      requires Valid()
      modifies this, log`entries, log`committed
      ensures Valid() && View() == S.BecomeLeader(old(View()))
    {
      role := Leader;
      lead := id;
      var last := log.LastIndex();
      ResetProgress(last);
      var noop := Entry(EntryNormal, term, log.LastIndex() + 1, "");
      log.entries := log.entries + [noop];
      assert View() == S.TakeOffice(old(View()));
      BcastAppend();
      if |peers| == 1 {
        log.committed := prs[id].matched;
      }
    }

    // ----- Sending -----

    method SendAppend(to: NodeId)
      requires Valid() && to in prs
      modifies this`msgs
      ensures Valid() && View() == S.SendAppend(old(View()), to)
    {
      var prev := Sub64(prs[to].next, 1);
      var prevTerm := log.Term(prev);
      var es: seq<Entry> := [];
      var start := Sub64(prev + 1, log.first);
      var i := start;
      while i < |log.entries|
        invariant start <= i
        invariant start <= |log.entries| ==> i <= |log.entries| && es == log.entries[start..i]
        invariant start > |log.entries| ==> es == []
      {
        es := es + [log.entries[i]];
        i := i + 1;
      }
      assert es == EntriesAfter(log.View(), prev);
      msgs := msgs + [Message(id, to, term, Append(prevTerm, prev, es, log.committed))];
    }

    method SendAppendAt(k: nat, ghost v: Node)
      requires Valid() && S.ValidNode(v) && View() == v.(msgs := msgs) && k < |peers|
      modifies this`msgs
      ensures Valid() && View() == v.(msgs := msgs)
      ensures msgs == old(msgs) + if peers[k] == id then [] else [S.AppendTo(v, peers[k])]
    {
      if peers[k] != id {
        SendAppend(peers[k]);
      }
    }

    method BcastAppend()
      requires Valid()
      modifies this`msgs
      ensures Valid() && View() == S.BcastAppend(old(View()))
    {
      ghost var v := View();
      assert v.peers[0..] == v.peers;
      var k := 0;
      while k < |peers|
        invariant 0 <= k <= |peers|
        invariant Valid() && View() == v.(msgs := msgs)
        invariant msgs + AppendsFrom(v, k) == v.msgs + AppendsFrom(v, 0)
      {
        AppendsAt(v, k, msgs);
        SendAppendAt(k, v);
        k := k + 1;
      }
    }

    /** One message to every other peer: the loops of `BcastHeartbeat` and of
        `DoElection`. */
    method SendOthers(body: Body)
      requires Valid()
      modifies this`msgs
      ensures Valid()
      ensures View() == old(View()).(msgs := old(msgs) + S.ToOthers(old(View()), peers, body))
    {
      ghost var v := View();
      var k := 0;
      while k < |peers|
        invariant 0 <= k <= |peers|
        invariant Valid() && View() == v.(msgs := msgs)
        invariant msgs + S.ToOthers(v, peers[k..], body) == v.msgs + S.ToOthers(v, peers, body)
      {
        OthersAt(v, k, body, msgs);
        if peers[k] != id {
          Send(peers[k], body);
        }
        k := k + 1;
      }
      assert S.ToOthers(v, peers[k..], body) == [];
    }

    // ----- Elections -----

    method DoElection()
      requires Valid()
      modifies this, log`entries, log`committed
      ensures Valid() && View() == S.DoElection(old(View()))
    {
      BecomeCandidate();
      if |peers| == 1 {
        BecomeLeader();
        return;
      }
      var last := log.LastIndex();
      var lastTerm := log.Term(last);
      SendOthers(RequestVote(lastTerm, last));
    }

    method HandleRequestVote(m: Message)
      requires Valid() && m.body.RequestVote?
      modifies this`vote, this`msgs
      ensures Valid() && View() == S.HandleRequestVote(old(View()), m)
    {
      if m.term != NONE && m.term < term {
        Send(m.from, RequestVoteResponse(true));
        return;
      }
      if vote != NONE && vote != m.from {
        Send(m.from, RequestVoteResponse(true));
        return;
      }
      var last := log.LastIndex();
      var lastTerm := log.Term(last);
      if lastTerm > m.body.logTerm || (lastTerm == m.body.logTerm && last > m.body.index) {
        Send(m.from, RequestVoteResponse(true));
        return;
      }
      vote := m.from;
      Send(m.from, RequestVoteResponse(false));
    }

    /** Counts the granted votes in a `uint8_t`. */
    method Tally() returns (grant: nat)
      ensures grant == |S.Granted(votes)| % 256
    {
      grant := 0;
      var rest := votes.Keys;
      ghost var granted, counted := S.Granted(votes), 0;
      assert granted * rest == granted;
      while rest != {}
        invariant rest <= votes.Keys
        invariant counted + |granted * rest| == |granted| && grant == counted % 256
        decreases |rest|
      {
        var p :| p in rest;
        CountOne(granted, rest, p);
        rest := rest - {p};
        if votes[p] {
          grant := (grant + 1) % 256;
          counted := counted + 1;
        }
      }
      assert granted * rest == {};
    }

    method HandleRequestVoteResponse(m: Message)
      requires Valid() && m.body.RequestVoteResponse?
      modifies this, log`entries, log`committed
      ensures Valid() && View() == S.HandleRequestVoteResponse(old(View()), m)
    {
      if m.term != NONE && m.term < term {
        return;
      }
      votes := votes[m.from := !m.body.reject];
      var grant := Tally();
      var count := |votes| % 256;
      var threshold := (|peers| / 2) % 256;
      if grant > threshold {
        BecomeLeader();
      } else if count - grant > threshold {
        BecomeFollower(term, NONE);
      }
    }

    // ----- Replication: the receiver -----

    /** The last of the first `end` entries with term `t`. */
    method FindTerm(end: nat, t: Term) returns (index: nat)
      requires end <= |log.entries|
      ensures index == S.LastWithTerm(log.entries, end, t)
    {
      index := 0;
      var i := 0;
      while i < end
        invariant 0 <= i <= end && index == S.LastWithTerm(log.entries, i, t)
      {
        if log.entries[i].term == t {
          index := i;
        }
        i := i + 1;
      }
    }

    /** An entry at an index the log already has. */
    method OverwriteAt(e: Entry)
      requires Valid() && LogShape(log.View()) && log.first <= e.index <= log.LastIndex()
      modifies log`entries, log`stabled
      ensures Valid() && LogShape(log.View())
      ensures View() == old(View()).(log := Overwrite(old(log.View()), e))
    {
      LastIndexOf(log.View());
      var logTerm := log.Term(e.index);
      if logTerm != e.term {
        var idx := Sub64(e.index, log.first);
        log.entries := log.entries[idx := e];
        log.entries := log.entries[..idx + 1];
        assert log.entries == old(log.entries)[..idx] + [e];
        log.stabled := Min(log.stabled, Sub64(e.index, 1));
      }
    }

    method PushFrom(batch: seq<Entry>, count: nat)
      requires Valid() && count <= |batch|
      modifies log`entries
      ensures Valid()
      ensures View() == old(View()).(log := old(log.View()).(entries := old(log.entries) + batch[count..]))
    {
      var j := count;
      while j < |batch|
        invariant count <= j <= |batch|
        invariant log.entries == old(log.entries) + batch[count..j]
      {
        log.entries := log.entries + [batch[j]];
        j := j + 1;
      }
    }

    /** The loop over the received entries. */
    method AbsorbBatch(batch: seq<Entry>)
      requires Valid() && LogShape(log.View())
      modifies log`entries, log`stabled
      ensures Valid()
      ensures View() == old(View()).(log := Absorb(old(log.View()), batch, 0, 0))
    {
      ghost var v := View();
      var i, count := 0, 0;
      while i < |batch|
        invariant 0 <= count <= i <= |batch|
        invariant Valid() && LogShape(log.View()) && View() == v.(log := log.View())
        invariant Absorb(log.View(), batch, i, count) == Absorb(v.log, batch, 0, 0)
      {
        var e := batch[i];
        if e.index >= log.first {
          if e.index > log.LastIndex() {
            PushFrom(batch, count);
            return;
          }
          OverwriteAt(e);
          count := count + 1;
        }
        i := i + 1;
      }
    }

    method HandleAppendEntries(m: Message)
      requires Valid() && LogShape(log.View()) && m.body.Append?
      modifies this`lead, this`msgs, log`entries, log`stabled, log`committed
      ensures Valid() && View() == S.HandleAppendEntries(old(View()), m)
    {
      if m.term != NONE && m.term < term {
        Send(m.from, AppendResponse(true, NONE, NONE));
        return;
      }
      lead := m.from;
      var last := log.LastIndex();
      if m.body.index > last {
        Send(m.from, AppendResponse(true, NONE, last + 1));
        return;
      }
      if m.body.index >= log.first {
        var logTerm := log.Term(m.body.index);
        if logTerm != m.body.logTerm {
          LastIndexOf(log.View());
          var index := FindTerm(Sub64(m.body.index + 1, log.first), logTerm);
          Send(m.from, AppendResponse(true, logTerm, index));
          return;
        }
      }
      AbsorbBatch(m.body.entries);
      if m.body.commit > log.committed {
        log.committed := Min(m.body.commit, m.body.index + |m.body.entries|);
      }
      Send(m.from, AppendResponse(false, NONE, log.LastIndex()));
    }

    // ----- Replication: the leader -----

    /** The last entry whose term exceeds `t`. */
    method FindAbove(t: Term) returns (f: nat)
      requires exists k :: 0 <= k < |log.entries| && log.entries[k].term > t
      ensures f == S.LastAbove(log.entries, |log.entries|, t) && f < |log.entries|
    {
      f := 0;
      var i := 0;
      while i < |log.entries|
        invariant 0 <= i <= |log.entries| && f == S.LastAbove(log.entries, i, t)
        invariant f < |log.entries|
      {
        if log.entries[i].term > t {
          f := i;
        }
        i := i + 1;
      }
    }

    method LeaderCommit(relaxed: bool)
      requires Valid()
      modifies this`msgs, log`committed
      ensures Valid() && View() == S.LeaderCommit(old(View()), relaxed)
    {
      var matches: seq<nat> := [];
      var i := 0;
      while i < |peers|
        invariant 0 <= i <= |peers| && |matches| == i
        invariant forall j :: 0 <= j < i ==> matches[j] == prs[peers[j]].matched
      {
        matches := matches + [prs[peers[i]].matched];
        i := i + 1;
      }
      assert matches == S.Matches(prs, peers);
      matches := S.Sorted(matches);
      var thresh := |peers| / 2;
      if |peers| % 2 == 0 && relaxed {
        thresh := thresh - 1;
      }
      var n := matches[thresh];
      if n > log.committed {
        var logTerm := log.Term(n);
        if logTerm == term {
          log.committed := n;
          BcastAppend();
        }
      }
    }

    method TimeoutNowTo(to: NodeId)
      requires Valid()
      modifies this`msgs
      ensures Valid() && View() == S.TimeoutNowTo(old(View()), to)
    {
      msgs := msgs + [Message(id, to, NONE, TimeoutNow)];
    }

    /** Where to resume after a rejection with a hint. */
    method ResumeIndex(b: Body) returns (index: nat)
      requires Valid() && b.AppendResponse?
      requires b.logTerm != NONE ==> exists k :: 0 <= k < |log.entries| && log.entries[k].term > b.logTerm
      ensures index == S.BackOff(View(), b)
    {
      index := b.index;
      if b.logTerm != NONE {
        var f := FindAbove(b.logTerm);
        if f > 0 && log.entries[f - 1].term == b.logTerm {
          index := f + log.first;
        }
      }
    }

    method Retreat(p: NodeId, index: nat)
      requires Valid() && p in prs
      modifies this`prs, this`msgs
      ensures Valid() && View() == S.SendAppend(S.SetNext(old(View()), p, index), p)
    {
      prs := prs[p := prs[p].(next := index)];
      SendAppend(p);
    }

    /** The conflict search of a leader is defined on `m`: the source reads the
        position it finds whether or not it has found one. */
    ghost predicate SearchDefined(m: Message)
      reads this, log, log.storage
    {
      SearchFinds(View(), m)
    }

    method HandleAppendEntriesResponse(m: Message, relaxed: bool)
      requires Valid() && m.body.AppendResponse? && m.from in prs
      requires SearchDefined(m)
      modifies this, log`committed
      ensures Valid() && View() == S.HandleAppendEntriesResponse(old(View()), m, relaxed)
    {
      if m.term != NONE && m.term < term {
        return;
      }
      if m.body.reject {
        if m.body.index != NONE {
          var index := ResumeIndex(m.body);
          Retreat(m.from, index);
        }
        return;
      }
      if m.body.index > prs[m.from].matched {
        CountAck(m.from, m.body.index, relaxed);
      }
    }

    /** A new acknowledgement: it is recorded, may commit, and may complete a transfer. */
    method CountAck(p: NodeId, index: nat, relaxed: bool)
      requires Valid() && p in prs
      modifies this, log`committed
      ensures Valid()
      ensures var l := S.LeaderCommit(S.SetMatch(old(View()), p, index), relaxed);
        View() == if p == l.transferee && index == LastIndex(l.log)
                  then S.TimeoutNowTo(l, p).(transferee := NONE) else l
    {
      prs := prs[p := Progress(index + 1, index)];
      LeaderCommit(relaxed);
      if p == transferee && index == log.LastIndex() {
        TimeoutNowTo(p);
        transferee := NONE;
      }
    }

    /** The loop over the proposed entries. */
    method PushProposals(es: seq<Entry>, last: nat)
      requires Valid()
      modifies this`pendingConf, log`entries
      ensures Valid() && View() == S.PushProposals(old(View()), es, last)
    {
      ghost var v := View();
      var i, k := 0, 0;
      while k < |es|
        invariant 0 <= k <= |es| && i == 0
        invariant Valid()
        invariant S.PushProposals(View(), es[k..], last) == S.PushProposals(v, es, last)
      {
        ghost var rest := es[k..];
        assert rest[0] == es[k] && rest[1..] == es[k + 1..];
        var e := es[k].(term := term, index := last + i + 1);
        k := k + 1;
        if e.etype == EntryConfChange {
          if pendingConf != NONE {
            continue;
          }
          pendingConf := e.index;
        }
        log.entries := log.entries + [e];
      }
    }

    /** The leader's own progress follows its log. */
    method MatchOwn()
      requires Valid()
      modifies this`prs
      ensures Valid() && View() == S.SetMatch(old(View()), id, LastIndex(old(log.View())))
    {
      var last := log.LastIndex();
      prs := prs[id := Progress(last + 1, last)];
    }

    method AppendEntries(es: seq<Entry>)
      requires Valid()
      modifies this`pendingConf, this`prs, this`msgs, log`entries, log`committed
      ensures Valid() && View() == S.AppendEntries(old(View()), es)
    {
      PushProposals(es, log.LastIndex());
      MatchOwn();
      BcastAppend();
      if |peers| == 1 {
        log.committed := prs[id].matched;
      }
    }

    // ----- Heartbeats and leadership transfer -----

    method HandleHeartbeat(m: Message)
      requires Valid()
      modifies this`lead, this`msgs
      ensures Valid() && View() == S.HandleHeartbeat(old(View()), m)
    {
      if m.term != NONE && m.term < term {
        Send(m.from, HeartbeatResponse(true));
        return;
      }
      lead := m.from;
      Send(m.from, HeartbeatResponse(false));
    }

    method HandleTransferLeader(m: Message)
      requires Valid() && m.from in prs
      modifies this`transferee, this`msgs
      ensures Valid() && View() == S.HandleTransferLeader(old(View()), m)
    {
      if m.from == id {
        return;
      }
      if transferee != NONE && transferee == m.from {
        return;
      }
      transferee := m.from;
      if prs[m.from].matched == log.LastIndex() {
        TimeoutNowTo(m.from);
      } else {
        SendAppend(m.from);
      }
    }

    /** One tick of the transfer clock; `expired` says that it has run out. */
    method TickTransfer(expired: bool)
      requires Valid()
      modifies this`transferee
      ensures Valid() && View() == if expired then old(View()).(transferee := NONE) else old(View())
    {
      if expired {
        transferee := NONE;
      }
    }

    method ForwardTransfer(m: Message)
      requires Valid()
      modifies this`msgs
      ensures Valid() && View() == S.ForwardTransfer(old(View()), m)
    {
      if lead != NONE {
        msgs := msgs + [m.(to := lead)];
      }
    }

    // ----- Dispatch -----

    method StepFollower(m: Message)
      requires Valid() && LogShape(log.View())
      modifies this, log`entries, log`stabled, log`committed
      ensures Valid() && View() == S.StepFollower(old(View()), m)
    {
      match m.body
      case Hup => DoElection();
      case TimeoutNow => DoElection();
      case Append(_, _, _, _) => HandleAppendEntries(m);
      case RequestVote(_, _) => HandleRequestVote(m);
      case Heartbeat => HandleHeartbeat(m);
      case TransferLeader => ForwardTransfer(m);
      case _ =>
    }

    method StepCandidate(m: Message)
      requires Valid() && LogShape(log.View())
      modifies this, log`entries, log`stabled, log`committed
      ensures Valid() && View() == S.StepCandidate(old(View()), m)
    {
      match m.body
      case Hup => DoElection();
      case Append(_, _, _, _) =>
        if m.term == term {
          BecomeFollower(m.term, m.from);
        }
        HandleAppendEntries(m);
      case RequestVote(_, _) => HandleRequestVote(m);
      case RequestVoteResponse(_) => HandleRequestVoteResponse(m);
      case Heartbeat =>
        if m.term == term {
          BecomeFollower(m.term, m.from);
        }
        HandleHeartbeat(m);
      case TransferLeader => ForwardTransfer(m);
      case _ =>
    }

    method StepLeader(m: Message, relaxed: bool)
      requires Valid() && LogShape(log.View()) && S.FromPeer(View(), m) && SearchDefined(m)
      modifies this, log`entries, log`stabled, log`committed
      ensures Valid() && View() == S.StepLeader(old(View()), m, relaxed)
    {
      match m.body
      case Beat => SendOthers(Heartbeat);
      case Propose(es) =>
        if transferee == NONE {
          AppendEntries(es);
        }
      case Append(_, _, _, _) => HandleAppendEntries(m);
      case AppendResponse(_, _, _) => HandleAppendEntriesResponse(m, relaxed);
      case RequestVote(_, _) => HandleRequestVote(m);
      case Heartbeat => HandleHeartbeat(m);
      case HeartbeatResponse(_) => SendAppend(m.from);
      case TransferLeader => HandleTransferLeader(m);
      case _ =>
    }

    /** The entry point: what one message does to a node is the function `Step`
        of the model, which the cluster theorems are about. */
    method Step(m: Message, relaxed: bool)
      requires Valid() && Steppable(View(), m)
      modifies this, log`entries, log`stabled, log`committed
      ensures Valid() && View() == S.Step(old(View()), m, relaxed)
    {
      if m.term > term {
        transferee := NONE;
        BecomeFollower(m.term, NONE);
      }
      match role
      case Follower => StepFollower(m);
      case Candidate => StepCandidate(m);
      case Leader => StepLeader(m, relaxed);
    }
  }

  datatype Ready = Ready(entries: seq<Entry>, committedEntries: seq<Entry>, messages: seq<Message>)

  class RawNode {
    const raft: RaftContext

    constructor (r: RaftContext)
      ensures raft == r
    {
      raft := r;
    }

    method Campaign()
      requires raft.Valid() && LogShape(raft.log.View())
      modifies raft, raft.log`entries, raft.log`stabled, raft.log`committed
      ensures raft.Valid()
      ensures raft.View() == S.Step(old(raft.View()), Message(NONE, NONE, NONE, Hup), false)
    {
      raft.Step(Message(NONE, NONE, NONE, Hup), false);
    }

    /** Proposes one entry. */
    method Propose(data: string)
      requires raft.Valid() && LogShape(raft.log.View())
      modifies raft, raft.log`entries, raft.log`stabled, raft.log`committed
      ensures raft.Valid()
      ensures raft.View() ==
        S.Step(old(raft.View()), Message(NONE, NONE, NONE, Body.Propose([Entry(EntryNormal, 0, 0, data)])), false)
    {
      raft.Step(Message(NONE, NONE, NONE, Body.Propose([Entry(EntryNormal, 0, 0, data)])), false);
    }

    /** What is to be saved, applied and sent. */
    method EReady() returns (rd: Ready)
      requires raft.Valid() && UnstableInRange(raft.log.View()) && NextInRange(raft.log.View())
      modifies raft`msgs
      ensures raft.Valid() && raft.View() == old(raft.View()).(msgs := [])
      ensures rd == Ready(UnstableEntries(raft.log.View()), NextEnts(raft.log.View()), old(raft.msgs))
    {
      var es := raft.log.UnstableEntries();
      var cs := raft.log.NextEnts();
      rd := Ready(es, cs, raft.msgs);
      raft.msgs := [];
    }

    /** The application has saved and applied `rd`. */
    method Advance(rd: Ready)
      requires raft.Valid() && raft.log.storage.FirstIndex() <= raft.log.first
      modifies raft.log
      ensures raft.Valid()
      ensures raft.View() == old(raft.View()).(log := old(raft.log.View()).(
        stabled := if |rd.entries| > 0 then rd.entries[|rd.entries| - 1].index else old(raft.log.stabled),
        applied := if |rd.committedEntries| > 0
          then rd.committedEntries[|rd.committedEntries| - 1].index else old(raft.log.applied)))
    {
      if |rd.entries| > 0 {
        raft.log.stabled := rd.entries[|rd.entries| - 1].index;
      }
      if |rd.committedEntries| > 0 {
        raft.log.applied := rd.committedEntries[|rd.committedEntries| - 1].index;
      }
      raft.log.MaybeCompact();
    }

    /** The round an application performs: take what is ready, save it, and
        report it done. This is the Ready step of the cluster model. */
    method Round() returns (rd: Ready)
      requires raft.Valid() && Roundable(raft.log.View())
      modifies raft`msgs, raft.log, raft.log.storage
      ensures raft.Valid()
      ensures raft.View() == old(raft.View()).(msgs := [], log := C.Advanced(old(raft.log.View())))
      ensures rd.committedEntries == NextEnts(old(raft.log.View())) && rd.messages == old(raft.msgs)
    {
      rd := EReady();
      ghost var l := raft.log.View();
      var _ := raft.log.storage.Append(rd.entries);
      SavedFirst(l.storage, rd.entries, l.first);
      Advance(rd);
    }
  }

  /** Saving entries from the first index on leaves the first index alone. */
  lemma SavedFirst(ents: seq<Entry>, es: seq<Entry>, first: nat)
    requires |ents| > 0 && StorageFirst(ents) == first
    requires |es| > 0 ==> es[0].index >= first
    ensures StorageFirst(StorageAppend(ents, es)) == first
  {
  }
}
