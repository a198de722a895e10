/** The search for the point to resume from can get stuck: a run of five nodes in which a
    follower differs from the leader in its very first entry. */
module StuckSearch {
  import opened RaftTypes
  import opened Cluster
  import opened History
  import opened Runs
  import opened FiveNodes
  import D = Deliveries
  import R = Repair

  // Node 1 leads term 1, node 2 term 2, and node 3 term 3 with the entry of node 2.

  function S(): Board {
    Five(Cell(1, Leader, [1], 0, Same(1).Set(1, 2), Same(0).Set(1, 1)),
         Cell(2, Leader, [2], 0, Same(1).Set(2, 2), Same(0).Set(2, 1)),
         Cell(3, Leader, [2, 3], 0, Same(2).Set(3, 3), Same(0).Set(3, 2)), NeverLed(3, []), NeverLed(3, []))
  }

  lemma PaperS(b1: Board, b2: Board, b3: Board)
    requires b1 == ElectedBoard(Blank(), 1, 2, 3) && b2 == ElectedBoard(b1, 2, 3, 4)
    requires b3 == ReplicatedBoard(b2, 2, 3)
    ensures CanElect(Blank(), 1, 2, 3) && CanElect(b1, 2, 3, 4) && CanReplicate(b2, 2, 3) && CanElect(b3, 3, 4, 5)
    ensures ElectedBoard(b3, 3, 4, 5) == S()
  {
    assert b1.a.ts == [1] && b2.b.ts == [2] && b3.c.ts == [2];
    assert ElectedBoard(b3, 3, 4, 5).c.ts == [2, 3];
  }

  lemma TermS() returns (run: seq<State>)
    ensures Shows(run, S()) && Announced(run, 3)
  {
    var b1 := ElectedBoard(Blank(), 1, 2, 3);
    var b2 := ElectedBoard(b1, 2, 3, 4);
    var b3 := ReplicatedBoard(b2, 2, 3);
    PaperS(b1, b2, b3);
    var r0 := Start();
    var r1 := ElectOn(r0, Blank(), 1, 2, 3);
    var r2 := ElectOn(r1, b1, 2, 3, 4);
    var r3 := ReplicateOn(r2, b2, 2, 3);
    run := ElectOn(r3, b3, 3, 4, 5);
  }

  /** The situation: node 3 leads term 3, node 1 is behind in term 1, they differ at index
      1, and the append for node 1 that follows index 1 is on the network. */
  predicate Apart(s: State, m: Message) {
    && 1 in s.nodes && 3 in s.nodes && IsLeader(s, 3, 3) && s.nodes[1].term == 1
    && |Log(s, 1)| == 1 && TermAt(Log(s, 1), 1) == 1 && |Log(s, 3)| == 2 && TermAt(Log(s, 3), 1) == 2
    && m in s.net && m == D.CatchUp(s.nodes[3], 1, 2) && s.nodes[3].id == 3
  }

  lemma Situation() returns (run: seq<State>, m: Message)
    ensures Live(run) && Apart(Last(run), m)
  {
    run := TermS();
    assert ShowsAt(run, S(), 1) && ShowsAt(run, S(), 3);
    var s := Last(run);
    assert |Terms(Log(s, 1))| == |Log(s, 1)| && |Terms(Log(s, 3))| == |Log(s, 3)|;
    assert Terms(Log(s, 1))[0] == 1 && Terms(Log(s, 3))[0] == 2;
    var h := LiveInv(run);
    m := OnTheWay(s, h, 3, 1);
    D.AppendIsCatchUp(s.nodes[3], 1);
  }

  /** The run goes on by the delivery of `m`. */
  lemma Delivering(run: seq<State>, m: Message) returns (run': seq<State>)
    requires Live(run) && m in Last(run).net
    ensures Live(run') && IsRun(run') && run <= run' && |run'| == |run| + 1
    ensures D.DeliveredAt(run', |run| - 1, m, false) && run'[|run| - 1] == Last(run)
  {
    LiveFormed(run);
    run' := Extend(run, Deliver(m, false));
    LiveIsRun(run');
  }

  /** Node 1 rejects without a hint, and node 3 ignores it: it stays in office, nothing is
      sent, and all it has for node 1 is the append that was rejected. */
  lemma SearchStuck() returns (run: seq<State>, k: nat, m: Message, r: Message)
    ensures IsRun(run) && TallyExact(|run[0].peers|) && |run| == k + 3
    ensures Apart(run[k], m) && D.DeliveredAt(run, k, m, false) && D.Sent(run, k, m, false) == [r]
    ensures r == Message(1, 3, 3, AppendResponse(true, 1, NONE)) && D.DeliveredAt(run, k + 1, r, false)
    ensures run[k + 2] == run[k + 1] && D.Sent(run, k + 1, r, false) == []
    ensures 3 in run[k + 2].nodes && run[k + 2].nodes[3] == run[k].nodes[3]
  {
    var r0;
    r0, m := Situation();
    var r1 := Delivering(r0, m);
    k := |r0| - 1;
    R.AppendAnswered(r1, k, m, false);
    r := Message(1, 3, 3, AppendResponse(true, 1, NONE));
    assert D.Sent(r1, k, m, false) == [r];
    InNet(r1, k, m, r);
    run := Delivering(r1, r);
    assert run[k] == r1[k] && run[k + 1] == r1[k + 1];
    R.HintlessIgnored(run, k + 1, r, false);
  }

  lemma InNet(run: seq<State>, k: nat, m: Message, r: Message)
    requires IsRun(run) && TallyExact(|run[0].peers|) && D.DeliveredAt(run, k, m, false)
    requires D.Sent(run, k, m, false) == [r]
    ensures r in run[k + 1].net && forall j :: j in run[k].nodes && j != m.to ==>
      j in run[k + 1].nodes && run[k + 1].nodes[j] == run[k].nodes[j]
  {
    var hs := HistoryOf(run);
    var n, n' := D.Receiver(run, hs, k, m, false);
    assert r in Elems(n'.msgs);
  }
}
