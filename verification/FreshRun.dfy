/** The commit theorems are not empty: a run with fresh elections in which two nodes
    commit. */
module FreshRun {
  import opened RaftTypes
  import opened Cluster
  import opened History
  import opened Reigns
  import opened Runs
  import opened Safety
  import opened ElectedOnce
  import opened FiveNodes

  lemma {:induction false} TermsRise(run: seq<State>, hs: seq<History>, k: nat, l: nat, i: NodeId)
    requires Chronicle(run, hs) && k <= l < |run| && i in run[k].nodes
    ensures i in run[l].nodes && run[k].nodes[i].term <= run[l].nodes[i].term
    decreases l - k
  {
    if k < l {
      var j := l - 1;
      TermsRise(run, hs, k, j, i);
      assert Succeeds(run[j], hs[j], run[j + 1], hs[j + 1]);
      assert Rises(run[j], run[j + 1], i);
    }
  }

  predicate FirstTermOnly(s: State) { forall i :: i in s.nodes ==> s.nodes[i].term <= 1 }

  /** A run that stays in the first term has fresh elections. */
  lemma OneTermIsFresh(run: seq<State>)
    requires IsRun(run) && TallyExact(|run[0].peers|)
    requires FirstTermOnly(run[|run| - 1])
    ensures FreshElections(run)
  {
    var hs := HistoryOf(run);
    forall k: nat, l: nat, i | k < l && ElectedAt(run, k, i)
      ensures !ElectedAt(run, l, i)
    {
      NotTwice(run, hs, k, l, i);
    }
    ElectedOnceIsFresh(run);
  }

  lemma NotTwice(run: seq<State>, hs: seq<History>, k: nat, l: nat, i: NodeId)
    requires IsRun(run) && TallyExact(|run[0].peers|) && Chronicle(run, hs) && FirstTermOnly(run[|run| - 1])
    requires k < l && ElectedAt(run, k, i)
    ensures !ElectedAt(run, l, i)
  {
    if l + 1 < |run| && i in run[l + 1].nodes && run[l + 1].nodes[i].role == Leader {
      LedFirstTerm(run, hs, k + 1, i);
      LedFirstTerm(run, hs, l + 1, i);
      TermsRise(run, hs, k + 1, l, i);
      TermsRise(run, hs, l, l + 1, i);
      LeaderAppendOnly(run, k + 1, l, i, 1);
    }
  }

  lemma LedFirstTerm(run: seq<State>, hs: seq<History>, k: nat, i: NodeId)
    requires Chronicle(run, hs) && k < |run| && i in run[k].nodes && run[k].nodes[i].role == Leader
    requires FirstTermOnly(run[|run| - 1])
    ensures run[k].nodes[i].term == 1
  {
    LeaderFacts(run[k], hs[k], i);
    TermsRise(run, hs, k, |run| - 1, i);
  }

  // Node 1 leads, commits its first entry, and node 2 learns of it.

  function W(): Board {
    Five(Cell(1, Leader, [1], 1, Five(2, 2, 2, 1, 1), Five(1, 1, 1, 0, 0)),
         NeverLed(1, [1]).(committed := 1), NeverLed(1, [1]), NeverLed(0, []), NeverLed(0, []))
  }

  lemma PaperW(b1: Board, b2: Board, b3: Board, b4: Board, b5: Board)
    requires b1 == ElectedBoard(Blank(), 1, 2, 3) && b2 == ReplicatedBoard(b1, 1, 2)
    requires b3 == ReplicatedBoard(b2, 1, 3) && b4 == CountedBoard(b3, 1, 2, 0)
    requires b5 == CountedBoard(b4, 1, 3, 1)
    ensures CanElect(Blank(), 1, 2, 3) && CanReplicate(b1, 1, 2) && CanReplicate(b2, 1, 3)
    ensures CanCount(b3, 1, 2, 0) && SameAck(b1.Get(1), b3.Get(1))
    ensures CanCount(b4, 1, 3, 1) && SameAck(b2.Get(1), b4.Get(1))
    ensures CountedCell(b4.Get(1), 3, 1).committed != b4.Get(1).committed && CanReplicate(b5, 1, 2)
    ensures ReplicatedBoard(b5, 1, 2) == W()
  {
    assert b1.a.ts == [1];
  }

  lemma TermW() returns (run: seq<State>)
    ensures Shows(run, W())
  {
    var b1 := ElectedBoard(Blank(), 1, 2, 3);
    var b2 := ReplicatedBoard(b1, 1, 2);
    var b3 := ReplicatedBoard(b2, 1, 3);
    var b4 := CountedBoard(b3, 1, 2, 0);
    var b5 := CountedBoard(b4, 1, 3, 1);
    PaperW(b1, b2, b3, b4, b5);
    var r0 := Start();
    var r1 := ElectOn(r0, Blank(), 1, 2, 3);
    var r2 := ReplicateOn(r1, b1, 1, 2);
    var r3 := ReplicateOn(r2, b2, 1, 3);
    var r4 := CountOn(r3, b3, 1, 2, 0);
    var r5 := CountOn(r4, b4, 1, 3, 1);
    run := ReplicateOn(r5, b5, 1, 2);
  }

  /** Nodes 1 and 2 commit an entry in a run with fresh elections. */
  lemma TwoNodesCommit() returns (run: seq<State>)
    ensures IsRun(run) && TallyExact(|run[0].peers|) && FreshElections(run)
    ensures var s := run[|run| - 1];
      && 1 in s.nodes && s.nodes[1].log.committed == 1 && |Log(s, 1)| == 1
      && 2 in s.nodes && s.nodes[2].log.committed == 1 && |Log(s, 2)| == 1
  {
    run := TermW();
    LiveIsRun(run);
    assert ShowsAt(run, W(), 1) && ShowsAt(run, W(), 2);
    forall i | i in Last(run).nodes
      ensures Last(run).nodes[i].term <= 1
    {
      assert ShowsAt(run, W(), i);
    }
    OneTermIsFresh(run);
  }
}
