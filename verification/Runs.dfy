/** Whole runs of a cluster: every run has a history, and the invariants hold in
    all of its states. */
module Runs {
  import opened RaftTypes
  import opened LogSpec
  import opened NodeSpec
  import opened Cluster
  import opened History
  import opened Moves
  import opened Actions
  import opened Reigns
  import opened Commits
  import opened CommitMoves
  import opened Persistence
  import opened Outcomes
  import opened Steps

  predicate Stored(s: State) {
    forall i {:trigger StorageOk(s.nodes[i].log)} :: i in s.nodes ==> StorageOk(s.nodes[i].log)
  }

  /** The application has been handed exactly the applied prefix of the log. */
  predicate AppOk(s: State, i: NodeId)
    requires i in s.nodes && i in s.app
  {
    var l := s.nodes[i].log;
    l.applied <= l.committed && l.applied <= |l.entries| && s.app[i] == l.entries[..l.applied]
  }

  predicate AppInv(s: State) {
    && s.app.Keys == s.nodes.Keys
    && forall i {:trigger AppOk(s, i)} :: i in s.nodes ==> AppOk(s, i)
  }

  predicate Grows(s: State, s': State, i: NodeId)
    requires i in s.nodes && i in s'.nodes && i in s.app && i in s'.app
  {
    CommitGrows(s.nodes[i], s'.nodes[i]) && s.app[i] <= s'.app[i]
  }

  predicate AllGrow(s: State, s': State) {
    && s'.nodes.Keys == s.nodes.Keys && s.app.Keys == s.nodes.Keys && s'.app.Keys == s.nodes.Keys
    && forall i {:trigger Grows(s, s', i)} :: i in s.nodes ==> Grows(s, s', i)
  }

  predicate FreshStep(s: State, s': State) {
    forall i :: TakesOffice(s, s', i) && i in s.nodes ==> NoStaleMatch(s.nodes[i])
  }

  /** What a step keeps under the hypothesis on elections. */
  ghost predicate SafeStep(s: State, h: History, s': State, h': History) {
    CommitInv(s, h) && AppInv(s) && FreshStep(s, s') ==>
      CommitInv(s', h') && AppInv(s') && AllGrow(s, s')
  }

  /** What is on record of term `t` is as before, or its leader is in office. */
  predicate LedIn(s': State, h: History, h': History, t: Term) {
    t in h'.reigns ==>
      (t in h.reigns && h'.reigns[t].log == h.reigns[t].log) || IsLeader(s', h'.reigns[t].id, t)
  }

  predicate Rises(s: State, s': State, i: NodeId) {
    i in s.nodes ==> i in s'.nodes && s.nodes[i].term <= s'.nodes[i].term
  }

  /** How states and records follow each other: the record only grows, only leaders
      in office change it, and no term moves back. */
  ghost predicate Succeeds(s: State, h: History, s': State, h': History) {
    && Extends(h, h')
    && (forall t {:trigger LedIn(s', h, h', t)} :: LedIn(s', h, h', t))
    && (forall i {:trigger Rises(s, s', i)} :: Rises(s, s', i))
  }

  lemma Extends3(h: History, h1: History, h2: History)
    requires Extends(h, h1) && Extends(h1, h2)
    ensures Extends(h, h2)
  {
  }

  lemma StepSucceeds(s: State, h: History, i: NodeId, n': Node, h': History)
    requires Inv(s, h) && i in s.nodes && Outcome(s, h, i, n', h')
    ensures Succeeds(s, h, Install(s, i, n'), h')
  {
    var s' := Install(s, i, n');
    forall t
      ensures LedIn(s', h, h', t)
    {
      assert LedTerm(h, h', n', t);
      if n'.role == Leader && n'.term == t {
        LeaderFacts(s', h', i);
        NodeFacts(s', h', i);
      }
    }
    forall j
      ensures Rises(s, s', j)
    {
    }
  }

  // ----- Steps of a node -----

  lemma InstallKeepsApp(s: State, i: NodeId, n': Node)
    requires i in s.nodes && AppInv(s) && CommitGrows(s.nodes[i], n')
    requires n'.log.applied == s.nodes[i].log.applied
    requires forall j :: j in s.nodes ==> s.nodes[j].log.committed <= |s.nodes[j].log.entries|
    ensures AppInv(Install(s, i, n')) && AllGrow(s, Install(s, i, n'))
  {
    var s' := Install(s, i, n');
    forall j | j in s'.nodes
      ensures AppOk(s', j) && Grows(s, s', j)
    {
      assert AppOk(s, j);
      if j == i {
        var l, l' := s.nodes[i].log, n'.log;
        assert l.entries[..l.applied] == l.entries[..l.committed][..l.applied] == l'.entries[..l.applied];
      }
    }
  }

  lemma CommitsWithin(s: State, h: History)
    requires CommitInv(s, h)
    ensures forall j :: j in s.nodes ==> s.nodes[j].log.committed <= |s.nodes[j].log.entries|
  {
    forall j | j in s.nodes
      ensures s.nodes[j].log.committed <= |s.nodes[j].log.entries|
    {
      CommitWithin(s, h, j);
    }
  }

  lemma NodeStep(s: State, h: History, i: NodeId, n': Node, h': History)
    requires Inv(s, h) && Stored(s) && i in s.nodes && Outcome(s, h, i, n', h')
    ensures var s' := Install(s, i, n');
      Inv(s', h') && Stored(s') && Succeeds(s, h, s', h') && SafeStep(s, h, s', h')
  {
    var s' := Install(s, i, n');
    StepSucceeds(s, h, i, n', h');
    forall j | j in s'.nodes
      ensures StorageOk(s'.nodes[j].log)
    {
      assert StorageOk(s.nodes[j].log);
    }
    if CommitInv(s, h) && AppInv(s) && FreshStep(s, s') {
      assert FreshIfElected(s.nodes[i], n') by {
        assert TakesOffice(s, s', i) ==> NoStaleMatch(s.nodes[i]);
      }
      CommitsWithin(s, h);
      InstallKeepsApp(s, i, n');
    }
  }

  // ----- Ready rounds -----

  lemma ReadyShape(n: Node)
    requires NodeShape(n) && StorageOk(n.log) && UnstableInRange(n.log) && NextInRange(n.log)
    ensures NodeShape(n.(log := Advanced(n.log)))
  {
    RoundSaves(n.log);
    var l' := Advanced(n.log);
    var es := UnstableEntries(n.log);
    if |es| > 0 {
      assert l'.storage == n.log.storage[..Stable(n.log) + 1] + es;
    }
  }

  /** `s'` is `s` after a Ready round of node `i`. */
  predicate Rounded(s: State, s': State, i: NodeId) {
    && i in s.nodes && i in s.app && |s.nodes[i].log.storage| > 0
    && UnstableInRange(s.nodes[i].log) && NextInRange(s.nodes[i].log)
    && s' == s.(nodes := s.nodes[i := s.nodes[i].(log := Advanced(s.nodes[i].log))],
                app := s.app[i := s.app[i] + NextEnts(s.nodes[i].log)])
  }

  lemma AfterReady(s: State, i: NodeId) returns (s': State)
    requires WellFormed(s) && Enabled(s, ReadyRound(i))
    ensures s' == After(s, ReadyRound(i)) && Rounded(s, s', i) && Only(s, s', i) && s'.net == s.net
  {
    s' := After(s, ReadyRound(i));
    assert Fits(s, i);
    assert s'.nodes.Keys == s.nodes.Keys;
  }

  lemma ReplacedFits(s: State, s': State, i: NodeId, n': Node)
    requires WellFormed(s) && i in s.nodes && ValidNode(n') && n'.id == i && n'.peers == s.peers
    requires n'.msgs == [] && s'.nodes == s.nodes[i := n'] && s'.peers == s.peers
    ensures forall j :: j in s'.nodes ==> Fits(s', j)
  {
    forall j | j in s'.nodes
      ensures Fits(s', j)
    {
      assert Fits(s, j);
    }
  }

  lemma ReplacedAddressed(s: State, s': State, i: NodeId)
    requires Addressed(s) && Only(s, s', i) && s'.net == s.net && s'.nodes[i].id == i
    ensures Addressed(s')
  {
  }

  lemma RoundedFormed(s: State, s': State, i: NodeId)
    requires WellFormed(s) && Rounded(s, s', i) && Only(s, s', i) && NodeShape(s'.nodes[i])
    ensures WellFormed(s')
  {
    assert Fits(s, i);
    assert s'.app.Keys == s.app.Keys;
    ReplacedAddressed(s, s', i);
    ReplacedFits(s, s', i, s'.nodes[i]);
  }

  lemma ReadyMove(s: State, h: History, s': State, i: NodeId)
    requires Only(s, s', i) && WellFormed(s') && s'.net == s.net && NodeShape(s'.nodes[i])
    requires s'.nodes[i] == s.nodes[i].(log := s'.nodes[i].log)
    requires s'.nodes[i].log.entries == s.nodes[i].log.entries
    requires Standing(s, h, s.nodes[i]) && Acquainted(s, s.nodes[i]) && ProgressOk(s.nodes[i])
    ensures SameLogMove(s, h, s', i)
  {
    PlainNews(s, s', h, s'.nodes[i], []);
    StandingKept(s, h, s', s.nodes[i], s'.nodes[i]);
  }

  lemma ReadyStanding(s: State, h: History, s': State, i: NodeId)
    requires Inv(s, h) && WellFormed(s') && Only(s, s', i) && s'.net == s.net
    requires NodeShape(s'.nodes[i])
    requires s'.nodes[i] == s.nodes[i].(log := s'.nodes[i].log)
    requires s'.nodes[i].log.entries == s.nodes[i].log.entries
    ensures Inv(s', h)
  {
    NodeFacts(s, h, i);
    ReadyMove(s, h, s', i);
    SameLogKeepsInv(s, h, s', i);
  }

  lemma ReadyKeepsInv(s: State, h: History, s': State, i: NodeId)
    requires Inv(s, h) && WellFormed(s) && Stored(s) && Rounded(s, s', i) && Only(s, s', i) && s'.net == s.net
    ensures Inv(s', h)
  {
    var n := s.nodes[i];
    NodeFacts(s, h, i);
    assert StorageOk(n.log);
    ReadyShape(n);
    RoundSaves(n.log);
    RoundedFormed(s, s', i);
    ReadyStanding(s, h, s', i);
  }

  lemma ReadyKeepsStored(s: State, s': State, i: NodeId)
    requires Stored(s) && Rounded(s, s', i)
    ensures Stored(s') && FullySaved(s'.nodes[i].log)
  {
    assert StorageOk(s.nodes[i].log);
    RoundSaves(s.nodes[i].log);
    forall j | j in s'.nodes
      ensures StorageOk(s'.nodes[j].log)
    {
      assert StorageOk(s.nodes[j].log);
    }
  }

  lemma ReadyApplies(s: State, s': State, i: NodeId)
    requires Rounded(s, s', i) && NodeShape(s.nodes[i]) && AppOk(s, i)
    requires s.nodes[i].log.committed <= |s.nodes[i].log.entries|
    ensures i in s'.nodes && i in s'.app && AppOk(s', i) && Grows(s, s', i)
  {
    RoundApplies(s.nodes[i].log);
  }

  lemma ReadyGrows(s: State, s': State, i: NodeId)
    requires AppInv(s) && Rounded(s, s', i) && NodeShape(s.nodes[i])
    requires forall j :: j in s.nodes ==> s.nodes[j].log.committed <= |s.nodes[j].log.entries|
    ensures AppInv(s') && AllGrow(s, s')
  {
    assert AppOk(s, i);
    ReadyApplies(s, s', i);
    forall j | j in s'.nodes
      ensures AppOk(s', j) && Grows(s, s', j)
    {
      assert AppOk(s, j);
    }
  }

  lemma ReadyKeepsApp(s: State, h: History, s': State, i: NodeId)
    requires Inv(s, h) && CommitInv(s, h) && AppInv(s) && Rounded(s, s', i)
    ensures AppInv(s') && AllGrow(s, s')
  {
    CommitsWithin(s, h);
    NodeFacts(s, h, i);
    ReadyGrows(s, s', i);
  }

  lemma ReadyKeepsCommit(s: State, h: History, s': State, i: NodeId)
    requires Inv(s, h) && CommitInv(s, h) && Rounded(s, s', i) && Only(s, s', i) && s'.net == s.net
    ensures CommitInv(s', h)
  {
    assert CommitOk(s.nodes.Keys, h, s'.nodes[i]) by {
      assert CommitOk(s.nodes.Keys, h, s.nodes[i]);
      SameMatchesOk(h, s.nodes[i], s'.nodes[i]);
    }
    assert Addressed(s) && Electoral(s, h) by {
      Open(s, h);
    }
    KeepsCommit(s, h, s', h, i);
  }

  lemma RoundSucceeds(s: State, h: History, s': State, i: NodeId)
    requires Rounded(s, s', i)
    ensures Succeeds(s, h, s', h)
  {
    forall t
      ensures LedIn(s', h, h, t)
    {
    }
    forall j
      ensures Rises(s, s', j)
    {
    }
  }

  // ----- Events -----

  lemma DeliveryStep(s: State, h: History, e: Event) returns (h': History)
    requires Inv(s, h) && Stored(s) && WellFormed(s) && Enabled(s, e) && !e.ReadyRound? && !e.TransferTimeout?
    ensures var s' := After(s, e); Inv(s', h') && Stored(s') && Succeeds(s, h, s', h') && SafeStep(s, h, s', h')
  {
    var i := if e.Deliver? then e.m.to else e.node;
    var m := if e.Deliver? then e.m else LocalMessage(e);
    var relaxed := e.Deliver? && e.relaxed;
    assert Fits(s, i);
    assert FromPeer(s.nodes[i], m);
    assert Input(s, i, m);
    h' := StepOutcome(s, h, i, m, relaxed);
    NodeStep(s, h, i, Step(s.nodes[i], m, relaxed), h');
  }

  lemma EventStep(s: State, h: History, e: Event) returns (h': History)
    requires Inv(s, h) && Stored(s) && WellFormed(s) && Enabled(s, e)
    ensures var s' := After(s, e); Inv(s', h') && Stored(s') && Succeeds(s, h, s', h') && SafeStep(s, h, s', h')
  {
    if e.ReadyRound? {
      h' := h;
      var s' := AfterReady(s, e.node);
      RoundSucceeds(s, h, s', e.node);
      ReadyKeepsInv(s, h, s', e.node);
      ReadyKeepsStored(s, s', e.node);
      if CommitInv(s, h) && AppInv(s) {
        ReadyKeepsApp(s, h, s', e.node);
        ReadyKeepsCommit(s, h, s', e.node);
      }
    } else if e.TransferTimeout? {
      h' := h;
      ExpiryOutcome(s, h, e.node);
      NodeStep(s, h, e.node, s.nodes[e.node].(transferee := NONE), h);
    } else {
      h' := DeliveryStep(s, h, e);
    }
  }

  // ----- Whole runs -----

  function NoHistory(): History { History(map[], map[]) }

  lemma FreshNodeOk(s: State, i: NodeId)
    requires Init(s) && i in s.nodes
    ensures ValidNode(s.nodes[i]) && NodeShape(s.nodes[i]) && Acquainted(s, s.nodes[i])
    ensures StorageOk(s.nodes[i].log)
  {
    assert FreshNode(s.nodes[i], i, s.peers);
    var n := s.nodes[i];
    assert n.prs.Keys == (set p | p in n.peers);
  }

  lemma InitFormed(s: State)
    requires Init(s)
    ensures WellFormed(s)
  {
    forall i | i in s.nodes
      ensures Fits(s, i)
    {
      FreshNodeOk(s, i);
    }
  }

  lemma InitNodes(s: State, h: History)
    requires Init(s) && h == NoHistory()
    ensures Shapes(s) && NodeLogs(s, h) && Progresses(s) && Stored(s)
  {
    forall i | i in s.nodes
      ensures NodeShape(s.nodes[i]) && Acquainted(s, s.nodes[i]) && StorageOk(s.nodes[i].log)
      ensures NodeLogOk(h, s.nodes[i]) && ProgressOk(s.nodes[i])
    {
      FreshNodeOk(s, i);
    }
  }

  lemma InitElectoral(s: State, h: History)
    requires Init(s) && Addressed(s) && h == NoHistory()
    ensures Electoral(s, h) && Requests(s) && Ballots(s, h)
  {
    forall i | i in s.nodes
      ensures Standing(s, h, s.nodes[i])
    {
      assert FreshNode(s.nodes[i], i, s.peers);
    }
  }

  lemma InitInv(s: State)
    requires Init(s) && TallyExact(|s.peers|)
    ensures Inv(s, NoHistory()) && Stored(s) && WellFormed(s)
  {
    InitFormed(s);
    InitNodes(s, NoHistory());
    InitElectoral(s, NoHistory());
    Close(s, NoHistory());
  }

  lemma InitSafe(s: State)
    requires Init(s)
    ensures CommitInv(s, NoHistory()) && AppInv(s)
  {
    forall i | i in s.nodes
      ensures CommitOk(s.nodes.Keys, NoHistory(), s.nodes[i]) && AppOk(s, i)
    {
      FreshNodeOk(s, i);
    }
  }

  /** A history of a run, one record per state. */
  ghost predicate Chronicle(run: seq<State>, hs: seq<History>) {
    && |hs| == |run| && (|hs| > 0 ==> hs[0] == NoHistory())
    && (forall k :: 0 <= k < |run| ==> Inv(run[k], hs[k]))
    && (forall k :: 0 <= k < |run| ==> Stored(run[k]))
    && (forall k {:trigger Succeeds(run[k], hs[k], run[k + 1], hs[k + 1])} ::
          0 <= k < |run| - 1 ==> Succeeds(run[k], hs[k], run[k + 1], hs[k + 1]))
  }

  /** In a run with fresh elections commit indices are sound throughout. */
  ghost predicate SafeChronicle(run: seq<State>, hs: seq<History>)
    requires |hs| == |run|
  {
    && (forall k :: 0 <= k < |run| ==> CommitInv(run[k], hs[k]))
    && (forall k :: 0 <= k < |run| ==> AppInv(run[k]))
    && (forall k {:trigger AllGrow(run[k], run[k + 1])} :: 0 <= k < |run| - 1 ==> AllGrow(run[k], run[k + 1]))
  }

  lemma NextStep(s: State, h: History, s': State) returns (h': History)
    requires Inv(s, h) && Stored(s) && Next(s, s')
    ensures Inv(s', h') && Stored(s') && Succeeds(s, h, s', h') && SafeStep(s, h, s', h')
  {
    var e :| Enabled(s, e) && s' == After(s, e);
    h' := EventStep(s, h, e);
  }

  lemma FreshPrefix(run: seq<State>)
    requires |run| > 1 && FreshElections(run)
    ensures FreshElections(run[..|run| - 1])
    ensures FreshStep(run[|run| - 2], run[|run| - 1])
  {
    var init, n := run[..|run| - 1], |run| - 2;
    forall k: nat, i | ElectedAt(init, k, i)
      ensures NoStaleMatch(init[k].nodes[i])
    {
      assert init[k] == run[k] && init[k + 1] == run[k + 1];
      assert ElectedAt(run, k, i);
    }
    forall i | TakesOffice(run[n], run[n + 1], i) && i in run[n].nodes
      ensures NoStaleMatch(run[n].nodes[i])
    {
      assert ElectedAt(run, n, i);
    }
  }

  lemma HistoryStep(run: seq<State>, hs0: seq<History>) returns (hs: seq<History>)
    requires |run| > 1 && Next(run[|run| - 2], run[|run| - 1]) && Chronicle(run[..|run| - 1], hs0)
    requires FreshElections(run[..|run| - 1]) ==> SafeChronicle(run[..|run| - 1], hs0)
    ensures Chronicle(run, hs)
    ensures FreshElections(run) ==> SafeChronicle(run, hs)
  {
    var n := |run| - 1;
    var s, h := run[n - 1], hs0[n - 1];
    assert s == run[..n][n - 1];
    assert Inv(s, h) && Stored(s);
    var h' := NextStep(s, h, run[n]);
    hs := hs0 + [h'];
    ChronicleGrows(run, hs0, h');
  }

  lemma {:induction false} HistoryOf(run: seq<State>) returns (hs: seq<History>)
    requires IsRun(run) && TallyExact(|run[0].peers|)
    ensures Chronicle(run, hs)
    ensures FreshElections(run) ==> SafeChronicle(run, hs)
    decreases |run|
  {
    if |run| == 1 {
      InitInv(run[0]);
      InitSafe(run[0]);
      hs := [NoHistory()];
    } else {
      var j := |run| - 2;
      assert Next(run[j], run[j + 1]);
      var hs0 := HistoryOf(run[..|run| - 1]);
      hs := HistoryStep(run, hs0);
    }
  }

  lemma ChronicleGrows(run: seq<State>, hs0: seq<History>, h': History)
    requires |run| > 1 && Chronicle(run[..|run| - 1], hs0)
    requires FreshElections(run[..|run| - 1]) ==> SafeChronicle(run[..|run| - 1], hs0)
    requires var n := |run| - 1;
      && Inv(run[n], h') && Stored(run[n]) && Succeeds(run[n - 1], hs0[n - 1], run[n], h')
      && SafeStep(run[n - 1], hs0[n - 1], run[n], h')
    ensures Chronicle(run, hs0 + [h'])
    ensures FreshElections(run) ==> SafeChronicle(run, hs0 + [h'])
  {
    var n, hs := |run| - 1, hs0 + [h'];
    var init := run[..n];
    forall k | 0 <= k < |run|
      ensures Inv(run[k], hs[k]) && Stored(run[k])
    {
      if k < n {
        assert init[k] == run[k] && hs[k] == hs0[k];
      }
    }
    forall k | 0 <= k < |run| - 1
      ensures Succeeds(run[k], hs[k], run[k + 1], hs[k + 1])
    {
      if k < n - 1 {
        assert Succeeds(init[k], hs0[k], init[k + 1], hs0[k + 1]);
      }
    }
    if FreshElections(run) {
      FreshPrefix(run);
      SafeGrows(run, hs0, h');
    }
  }

  lemma SafeGrows(run: seq<State>, hs0: seq<History>, h': History)
    requires |run| > 1 && |hs0| == |run| - 1 && SafeChronicle(run[..|run| - 1], hs0)
    requires var n := |run| - 1;
      SafeStep(run[n - 1], hs0[n - 1], run[n], h') && FreshStep(run[n - 1], run[n])
    ensures SafeChronicle(run, hs0 + [h'])
  {
    var n, hs := |run| - 1, hs0 + [h'];
    var init := run[..n];
    assert init[n - 1] == run[n - 1];
    assert CommitInv(init[n - 1], hs0[n - 1]) && AppInv(init[n - 1]);
    forall k | 0 <= k < |run|
      ensures CommitInv(run[k], hs[k]) && AppInv(run[k])
    {
      if k < n {
        assert init[k] == run[k] && hs[k] == hs0[k];
      }
    }
    forall k | 0 <= k < |run| - 1
      ensures AllGrow(run[k], run[k + 1])
    {
      if k < n - 1 {
        assert init[k] == run[k] && init[k + 1] == run[k + 1];
        assert AllGrow(init[k], init[k + 1]);
      }
    }
  }

  lemma {:induction false} HistoryGrows(run: seq<State>, hs: seq<History>, k: nat, l: nat)
    requires Chronicle(run, hs) && k <= l < |run|
    ensures Extends(hs[k], hs[l])
    decreases l - k
  {
    if k < l {
      HistoryGrows(run, hs, k, l - 1);
      var j := l - 1;
      assert Succeeds(run[j], hs[j], run[j + 1], hs[j + 1]);
      Extends3(hs[k], hs[l - 1], hs[l]);
    }
  }

  lemma {:induction false} CommitsGrow(run: seq<State>, hs: seq<History>, k: nat, l: nat, i: NodeId)
    requires |hs| == |run| && SafeChronicle(run, hs) && k <= l < |run| && i in run[k].nodes
    ensures i in run[l].nodes && i in run[k].app && i in run[l].app && Grows(run[k], run[l], i)
    decreases l - k
  {
    if k < l {
      CommitsGrow(run, hs, k, l - 1, i);
      var j := l - 1;
      assert AllGrow(run[j], run[j + 1]) && Grows(run[j], run[j + 1], i);
      var c := run[k].nodes[i].log.committed;
      assert Log(run[k], i)[..c] == Log(run[l - 1], i)[..c];
      assert Log(run[l - 1], i)[..c] == Log(run[l - 1], i)[..run[l - 1].nodes[i].log.committed][..c]
          == Log(run[l], i)[..c];
    } else {
      assert AppInv(run[k]) && CommitInv(run[k], hs[k]);
      CommitWithin(run[k], hs[k], i);
    }
  }
}
