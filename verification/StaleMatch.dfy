/** What goes wrong when a node is elected again. `BecomeLeader` resets `next` but
    not `match` of the other peers, so a new leader may count peers whose logs have
    since been overwritten. The commit theorems therefore need their hypothesis on
    elections, and so do the term lookup of `LeaderCommit` and a Ready round. A board shows the five
    nodes after a term, and the paper lemmas work out the moves of the term. */
module StaleMatch {
  import opened RaftTypes
  import opened LogSpec
  import opened NodeSpec
  import opened Cluster
  import opened CommitQuorum
  import opened Safety
  import opened FiveNodes

  // ----- Two commits at one index -----

  // Term 1: node 1 leads, and node 2 acknowledges two entries.

  function A1(): Board {
    Five(Cell(1, Leader, [1, 1], 0, Five(3, 3, 1, 1, 1), Five(2, 2, 0, 0, 0)),
         NeverLed(1, [1, 1]), NeverLed(1, []), NeverLed(0, []), NeverLed(0, []))
  }

  lemma PaperA1(b1: Board, b2: Board, b3: Board)
    requires b1 == ElectedBoard(Blank(), 1, 2, 3) && b2 == FilledBoard(b1, 1, 1)
    requires b3 == ReplicatedBoard(b2, 1, 2)
    ensures CanElect(Blank(), 1, 2, 3) && b1.a.role == Leader && CanReplicate(b2, 1, 2)
    ensures CanCount(b3, 1, 2, 0) && SameAck(b2.Get(1), b3.Get(1)) && CountedBoard(b3, 1, 2, 0) == A1()
  {
    assert b2.a.ts == [1, 1];
  }

  lemma TermA1() returns (run: seq<State>)
    ensures Shows(run, A1())
  {
    var b1 := ElectedBoard(Blank(), 1, 2, 3);
    var b2 := FilledBoard(b1, 1, 1);
    var b3 := ReplicatedBoard(b2, 1, 2);
    PaperA1(b1, b2, b3);
    var r0 := Start();
    var r1 := ElectOn(r0, Blank(), 1, 2, 3);
    var r2 := FillOn(r1, b1, 1, 1);
    var r3 := ReplicateOn(r2, b2, 1, 2);
    run := CountOn(r3, b3, 1, 2, 0);
  }

  // Term 2: node 3 leads and overwrites nodes 1 and 2.

  function A2(): Board {
    Five(Cell(2, Follower, [2], 0, Five(3, 3, 1, 1, 1), Five(2, 2, 0, 0, 0)), NeverLed(2, [2]),
         Cell(2, Leader, [2], 0, Five(1, 1, 2, 1, 1), Five(0, 0, 1, 0, 0)), NeverLed(2, []), NeverLed(2, []))
  }

  lemma PaperA2(b1: Board, b2: Board)
    requires b1 == ElectedBoard(A1(), 3, 4, 5) && b2 == ReplicatedBoard(b1, 3, 1)
    ensures CanElect(A1(), 3, 4, 5) && CanReplicate(b1, 3, 1) && CanReplicate(b2, 3, 2)
    ensures ReplicatedBoard(b2, 3, 2) == A2()
  {
    assert b1.c.ts == [2];
  }

  lemma TermA2(r0: seq<State>) returns (run: seq<State>)
    requires Shows(r0, A1())
    ensures Shows(run, A2())
  {
    var b1 := ElectedBoard(A1(), 3, 4, 5);
    var b2 := ReplicatedBoard(b1, 3, 1);
    PaperA2(b1, b2);
    var r1 := ElectOn(r0, A1(), 3, 4, 5);
    var r2 := ReplicateOn(r1, b1, 3, 1);
    run := ReplicateOn(r2, b2, 3, 2);
  }

  // Term 3: node 1 leads again; it counts node 2 for what is gone, and commits.

  function A3(): Board {
    Five(Cell(3, Leader, [2, 3], 2, Five(3, 2, 3, 2, 2), Five(2, 2, 2, 0, 0)), NeverLed(3, [2]),
         Cell(3, Follower, [2, 3], 0, Five(1, 1, 2, 1, 1), Five(0, 0, 1, 0, 0)), NeverLed(2, []), NeverLed(2, []))
  }

  lemma PaperA3(b1: Board, b2: Board)
    requires b1 == ElectedBoard(A2(), 1, 2, 3) && b2 == ReplicatedBoard(b1, 1, 3)
    ensures CanElect(A2(), 1, 2, 3) && CanReplicate(b1, 1, 3) && CanCount(b2, 1, 3, 2)
    ensures SameAck(b1.Get(1), b2.Get(1)) && CountedBoard(b2, 1, 3, 2) == A3()
  {
    assert b1.a.ts == [2, 3];
  }

  lemma TermA3(r0: seq<State>) returns (run: seq<State>)
    requires Shows(r0, A2())
    ensures Shows(run, A3())
  {
    var b1 := ElectedBoard(A2(), 1, 2, 3);
    var b2 := ReplicatedBoard(b1, 1, 3);
    PaperA3(b1, b2);
    var r1 := ElectOn(r0, A2(), 1, 2, 3);
    var r2 := ReplicateOn(r1, b1, 1, 3);
    run := CountOn(r2, b2, 1, 3, 2);
  }

  // Term 4: node 2, which lacks the committed entry, leads and commits its own.

  function A4(): Board {
    Five(Cell(4, Follower, [2, 4], 2, Five(3, 2, 3, 2, 2), Five(2, 2, 2, 0, 0)),
         Cell(4, Leader, [2, 4], 2, Five(3, 3, 3, 2, 2), Five(2, 2, 2, 0, 0)),
         Cell(4, Follower, [2, 4], 0, Five(1, 1, 2, 1, 1), Five(0, 0, 1, 0, 0)), NeverLed(4, []), NeverLed(4, []))
  }

  lemma PaperA4(b1: Board, b2: Board, b3: Board, b4: Board)
    requires b1 == ElectedBoard(A3(), 2, 4, 5) && b2 == ReplicatedBoard(b1, 2, 1)
    requires b3 == ReplicatedBoard(b2, 2, 3) && b4 == CountedBoard(b3, 2, 1, 0)
    ensures CanElect(A3(), 2, 4, 5) && CanReplicate(b1, 2, 1) && CanReplicate(b2, 2, 3)
    ensures CanCount(b3, 2, 1, 0) && SameAck(b1.Get(2), b3.Get(2)) && CanCount(b4, 2, 3, 2)
    ensures SameAck(b2.Get(2), b4.Get(2)) && CountedBoard(b4, 2, 3, 2) == A4()
  {
    assert b1.b.ts == [2, 4];
  }

  lemma TermA4(r0: seq<State>) returns (run: seq<State>)
    requires Shows(r0, A3())
    ensures Shows(run, A4()) && r0 <= run
  {
    var b1 := ElectedBoard(A3(), 2, 4, 5);
    var b2 := ReplicatedBoard(b1, 2, 1);
    var b3 := ReplicatedBoard(b2, 2, 3);
    var b4 := CountedBoard(b3, 2, 1, 0);
    PaperA4(b1, b2, b3, b4);
    var r1 := ElectOn(r0, A3(), 2, 4, 5);
    var r2 := ReplicateOn(r1, b1, 2, 1);
    assert r0 <= r2;
    var r3 := ReplicateOn(r2, b2, 2, 3);
    assert r0 <= r3;
    var r4 := CountOn(r3, b3, 2, 1, 0);
    assert r0 <= r4;
    run := CountOn(r4, b4, 2, 3, 2);
  }

  lemma ShownLog(run: seq<State>, b: Board, i: NodeId)
    requires Shows(run, b) && Player(i)
    ensures i in Last(run).nodes && Last(run).nodes[i].log.committed == b.Get(i).committed
    ensures |Log(Last(run), i)| == |b.Get(i).ts| && Terms(Log(Last(run), i)) == b.Get(i).ts
  {
    assert ShowsAt(run, b, i);
  }

  lemma FourTerms() returns (r: seq<State>, run: seq<State>)
    ensures Shows(r, A3()) && Shows(run, A4()) && r <= run
  {
    var r1 := TermA1();
    var r2 := TermA2(r1);
    r := TermA3(r2);
    run := TermA4(r);
  }

  lemma DifferentLogs(s: State, s': State)
    requires 1 in s.nodes && Terms(Log(s, 1)) == [2, 3] && 2 in s'.nodes && Terms(Log(s', 2)) == [2, 4]
    ensures |Log(s, 1)| == 2 && |Log(s', 2)| == 2 && Log(s, 1)[1] != Log(s', 2)[1]
  {
    assert |Log(s, 1)| == |Terms(Log(s, 1))| && |Log(s', 2)| == |Terms(Log(s', 2))|;
    assert Terms(Log(s, 1))[1] == 3 && Terms(Log(s', 2))[1] == 4;
  }

  /** State machine safety fails without the hypothesis on elections: in this run
      nodes 1 and 2 commit different entries at index 2. */
  lemma TwoCommitsAtOneIndex() returns (run: seq<State>, k: nat, l: nat)
    ensures IsRun(run) && TallyExact(|run[0].peers|) && k <= l < |run|
    ensures 1 in run[k].nodes && 2 in run[l].nodes
    ensures run[k].nodes[1].log.committed == 2 && |Log(run[k], 1)| == 2
    ensures run[l].nodes[2].log.committed == 2 && |Log(run[l], 2)| == 2
    ensures Log(run[k], 1)[1] != Log(run[l], 2)[1]
  {
    var r;
    r, run := FourTerms();
    LiveIsRun(run);
    k, l := |r| - 1, |run| - 1;
    ShownLog(r, A3(), 1);
    ShownLog(run, A4(), 2);
    DifferentLogs(Last(r), Last(run));
  }

  // ----- A round outside the log -----

  // Term 1: node 1 leads, and node 2 acknowledges three entries.

  function B1(): Board {
    Five(Cell(1, Leader, [1, 1, 1], 0, Five(4, 4, 1, 1, 1), Five(3, 3, 0, 0, 0)),
         NeverLed(1, [1, 1, 1]), NeverLed(1, []), NeverLed(0, []), NeverLed(0, []))
  }

  lemma PaperB1(b1: Board, b2: Board, b3: Board)
    requires b1 == ElectedBoard(Blank(), 1, 2, 3) && b2 == FilledBoard(b1, 1, 2)
    requires b3 == ReplicatedBoard(b2, 1, 2)
    ensures CanElect(Blank(), 1, 2, 3) && b1.a.role == Leader && CanReplicate(b2, 1, 2)
    ensures CanCount(b3, 1, 2, 0) && SameAck(b2.Get(1), b3.Get(1)) && CountedBoard(b3, 1, 2, 0) == B1()
  {
    assert b2.a.ts == [1, 1, 1];
  }

  lemma TermB1() returns (run: seq<State>)
    ensures Shows(run, B1())
  {
    var b1 := ElectedBoard(Blank(), 1, 2, 3);
    var b2 := FilledBoard(b1, 1, 2);
    var b3 := ReplicatedBoard(b2, 1, 2);
    PaperB1(b1, b2, b3);
    var r0 := Start();
    var r1 := ElectOn(r0, Blank(), 1, 2, 3);
    var r2 := FillOn(r1, b1, 1, 2);
    var r3 := ReplicateOn(r2, b2, 1, 2);
    run := CountOn(r3, b3, 1, 2, 0);
  }

  // Term 2: node 3 leads and overwrites nodes 1 and 2.

  function B2(): Board {
    Five(Cell(2, Follower, [2], 0, Five(4, 4, 1, 1, 1), Five(3, 3, 0, 0, 0)), NeverLed(2, [2]),
         Cell(2, Leader, [2], 0, Five(1, 1, 2, 1, 1), Five(0, 0, 1, 0, 0)), NeverLed(2, []), NeverLed(2, []))
  }

  lemma PaperB2(b1: Board, b2: Board)
    requires b1 == ElectedBoard(B1(), 3, 4, 5) && b2 == ReplicatedBoard(b1, 3, 1)
    ensures CanElect(B1(), 3, 4, 5) && CanReplicate(b1, 3, 1) && CanReplicate(b2, 3, 2)
    ensures ReplicatedBoard(b2, 3, 2) == B2()
  {
    assert b1.c.ts == [2];
  }

  lemma TermB2(r0: seq<State>) returns (run: seq<State>)
    requires Shows(r0, B1())
    ensures Shows(run, B2())
  {
    var b1 := ElectedBoard(B1(), 3, 4, 5);
    var b2 := ReplicatedBoard(b1, 3, 1);
    PaperB2(b1, b2);
    var r1 := ElectOn(r0, B1(), 3, 4, 5);
    var r2 := ReplicateOn(r1, b1, 3, 1);
    run := ReplicateOn(r2, b2, 3, 2);
  }

  // Term 3: node 1 leads again, counts node 2 for what is gone, and commits three.

  function B3(): Board {
    Five(Cell(3, Leader, [2, 3, 3], 3, Five(4, 2, 4, 2, 2), Five(3, 3, 3, 0, 0)), NeverLed(3, [2]),
         Cell(3, Follower, [2, 3, 3], 0, Five(1, 1, 2, 1, 1), Five(0, 0, 1, 0, 0)), NeverLed(2, []), NeverLed(2, []))
  }

  lemma PaperB3(b1: Board, b2: Board, b3: Board)
    requires b1 == ElectedBoard(B2(), 1, 2, 3) && b2 == FilledBoard(b1, 1, 1)
    requires b3 == ReplicatedBoard(b2, 1, 3)
    ensures CanElect(B2(), 1, 2, 3) && b1.a.role == Leader && CanReplicate(b2, 1, 3)
    ensures CanCount(b3, 1, 3, 3) && SameAck(b2.Get(1), b3.Get(1)) && CountedBoard(b3, 1, 3, 3) == B3()
  {
    assert b2.a.ts == [2, 3, 3];
  }

  lemma TermB3(r0: seq<State>) returns (run: seq<State>)
    requires Shows(r0, B2())
    ensures Shows(run, B3())
  {
    var b1 := ElectedBoard(B2(), 1, 2, 3);
    var b2 := FilledBoard(b1, 1, 1);
    var b3 := ReplicatedBoard(b2, 1, 3);
    PaperB3(b1, b2, b3);
    var r1 := ElectOn(r0, B2(), 1, 2, 3);
    var r2 := FillOn(r1, b1, 1, 1);
    var r3 := ReplicateOn(r2, b2, 1, 3);
    run := CountOn(r3, b3, 1, 3, 3);
  }

  // Term 4: node 2 leads and truncates node 1 below its commit index.

  function B4(): Board {
    Five(Cell(4, Follower, [2, 4], 3, Five(4, 2, 4, 2, 2), Five(3, 3, 3, 0, 0)),
         Cell(4, Leader, [2, 4], 0, Five(2, 3, 2, 2, 2), Five(0, 2, 0, 0, 0)), B3().c, NeverLed(4, []), NeverLed(4, []))
  }

  lemma PaperB4(b1: Board)
    requires b1 == ElectedBoard(B3(), 2, 4, 5)
    ensures CanElect(B3(), 2, 4, 5) && CanReplicate(b1, 2, 1) && ReplicatedBoard(b1, 2, 1) == B4()
  {
    assert b1.b.ts == [2, 4];
  }

  lemma TermB4(r0: seq<State>) returns (run: seq<State>)
    requires Shows(r0, B3())
    ensures Shows(run, B4())
  {
    var b1 := ElectedBoard(B3(), 2, 4, 5);
    PaperB4(b1);
    var r1 := ElectOn(r0, B3(), 2, 4, 5);
    run := ReplicateOn(r1, b1, 2, 1);
  }

  lemma UpToFour() returns (run: seq<State>)
    ensures Shows(run, B4())
  {
    var r1 := TermB1();
    var r2 := TermB2(r1);
    var r3 := TermB3(r2);
    run := TermB4(r3);
  }

  /** Without the hypothesis on elections a commit index can come to lie beyond its
      log: in this run node 1 has committed three entries and holds two, so the slice
      of a Ready round leaves the log. */
  lemma RoundOutside() returns (run: seq<State>, i: NodeId)
    ensures IsRun(run) && TallyExact(|run[0].peers|)
    ensures var s := run[|run| - 1];
      && WellFormed(s) && i in s.nodes && s.nodes[i].log.committed == 3 && |Log(s, i)| == 2
      && !NextInRange(s.nodes[i].log) && !Enabled(s, ReadyRound(i))
  {
    run := UpToFour();
    i := 1;
    LiveIsRun(run);
    ShownLog(run, B4(), 1);
    ReadyExactly(run, |run| - 1, 1);
  }

  // ----- A lookup outside the log -----

  // Term 1: node 1 leads, and node 2 acknowledges five entries.

  function C1(): Board {
    Five(Cell(1, Leader, [1, 1, 1, 1, 1], 0, Five(6, 6, 1, 1, 1), Five(5, 5, 0, 0, 0)),
         NeverLed(1, [1, 1, 1, 1, 1]), NeverLed(1, []), NeverLed(0, []), NeverLed(0, []))
  }

  lemma PaperC1(b1: Board, b2: Board, b3: Board)
    requires b1 == ElectedBoard(Blank(), 1, 2, 3) && b2 == FilledBoard(b1, 1, 4)
    requires b3 == ReplicatedBoard(b2, 1, 2)
    ensures CanElect(Blank(), 1, 2, 3) && b1.a.role == Leader && CanReplicate(b2, 1, 2)
    ensures CanCount(b3, 1, 2, 0) && SameAck(b2.Get(1), b3.Get(1)) && CountedBoard(b3, 1, 2, 0) == C1()
  {
    assert b2.a.ts == [1, 1, 1, 1, 1];
  }

  lemma TermC1() returns (run: seq<State>)
    ensures Shows(run, C1())
  {
    var b1 := ElectedBoard(Blank(), 1, 2, 3);
    var b2 := FilledBoard(b1, 1, 4);
    var b3 := ReplicatedBoard(b2, 1, 2);
    PaperC1(b1, b2, b3);
    var r0 := Start();
    var r1 := ElectOn(r0, Blank(), 1, 2, 3);
    var r2 := FillOn(r1, b1, 1, 4);
    var r3 := ReplicateOn(r2, b2, 1, 2);
    run := CountOn(r3, b3, 1, 2, 0);
  }

  function T2(): seq<Term> { [2, 2, 2, 2, 2] }
  function T3(): seq<Term> { [2, 2, 2, 2, 2, 3] }
  function T4(): seq<Term> { [2, 4, 4, 4, 4, 4] }
  function T5(): seq<Term> { [2, 4, 4, 4, 4, 4, 5] }

  // Term 2: node 3 resets the others and brings node 1 to five entries of its own.

  function C2a(): Board {
    Five(C1().a, NeverLed(2, [2]), Cell(2, Leader, [2], 0, Five(1, 1, 2, 1, 1), Five(0, 0, 1, 0, 0)),
         NeverLed(2, [2]), NeverLed(2, [2]))
  }

  lemma PaperC2a(b1: Board, b2: Board, b3: Board)
    requires b1 == ElectedBoard(C1(), 3, 4, 5) && b2 == ReplicatedBoard(b1, 3, 2)
    requires b3 == ReplicatedBoard(b2, 3, 4)
    ensures CanElect(C1(), 3, 4, 5) && CanReplicate(b1, 3, 2) && CanReplicate(b2, 3, 4)
    ensures CanReplicate(b3, 3, 5) && ReplicatedBoard(b3, 3, 5) == C2a()
  {
    assert b1.c.ts == [2];
  }

  lemma TermC2a(r0: seq<State>) returns (run: seq<State>)
    requires Shows(r0, C1())
    ensures Shows(run, C2a())
  {
    var b1 := ElectedBoard(C1(), 3, 4, 5);
    var b2 := ReplicatedBoard(b1, 3, 2);
    var b3 := ReplicatedBoard(b2, 3, 4);
    PaperC2a(b1, b2, b3);
    var r1 := ElectOn(r0, C1(), 3, 4, 5);
    var r2 := ReplicateOn(r1, b1, 3, 2);
    var r3 := ReplicateOn(r2, b2, 3, 4);
    run := ReplicateOn(r3, b3, 3, 5);
  }

  function C2(): Board {
    Five(Cell(2, Follower, T2(), 0, Five(6, 6, 1, 1, 1), Five(5, 5, 0, 0, 0)), NeverLed(2, [2]),
         Cell(2, Leader, T2(), 0, Five(1, 1, 6, 1, 1), Five(0, 0, 5, 0, 0)), NeverLed(2, [2]), NeverLed(2, [2]))
  }

  lemma PaperC2(b1: Board)
    requires b1 == FilledBoard(C2a(), 3, 4)
    ensures C2a().c.role == Leader && CanReplicate(b1, 3, 1) && ReplicatedBoard(b1, 3, 1) == C2()
  {
    assert b1.c.ts == T2();
  }

  lemma TermC2(r0: seq<State>) returns (run: seq<State>)
    requires Shows(r0, C2a())
    ensures Shows(run, C2())
  {
    var b1 := FilledBoard(C2a(), 3, 4);
    PaperC2(b1);
    var r1 := FillOn(r0, C2a(), 3, 4);
    run := ReplicateOn(r1, b1, 3, 1);
  }

  // Term 3: node 1 leads, and node 3 acknowledges six entries. The candidate is an
  // entry of term 2.

  function C3(): Board {
    Five(Cell(3, Leader, T3(), 0, Five(7, 6, 7, 6, 6), Five(6, 5, 6, 0, 0)), NeverLed(2, [2]),
         Cell(3, Follower, T3(), 0, Five(1, 1, 6, 1, 1), Five(0, 0, 5, 0, 0)), NeverLed(3, [2]), NeverLed(3, [2]))
  }

  lemma PaperC3(b1: Board, b2: Board)
    requires b1 == ElectedBoard(C2(), 1, 4, 5) && b2 == ReplicatedBoard(b1, 1, 3)
    ensures CanElect(C2(), 1, 4, 5) && CanReplicate(b1, 1, 3) && CanCount(b2, 1, 3, 5)
    ensures SameAck(b1.Get(1), b2.Get(1)) && CountedBoard(b2, 1, 3, 5) == C3()
  {
    assert b1.a.ts == T3();
  }

  lemma TermC3(r0: seq<State>) returns (run: seq<State>)
    requires Shows(r0, C2())
    ensures Shows(run, C3())
  {
    var b1 := ElectedBoard(C2(), 1, 4, 5);
    var b2 := ReplicatedBoard(b1, 1, 3);
    PaperC3(b1, b2);
    var r1 := ElectOn(r0, C2(), 1, 4, 5);
    var r2 := ReplicateOn(r1, b1, 1, 3);
    run := CountOn(r2, b2, 1, 3, 5);
  }

  // Term 4: node 4 truncates nodes 1 and 3 and brings node 1 to six entries.

  function C4a(): Board {
    Five(C3().a, NeverLed(4, [2]), Cell(4, Follower, [2, 4], 0, Five(1, 1, 6, 1, 1), Five(0, 0, 5, 0, 0)),
         Cell(4, Leader, [2, 4], 0, Five(2, 2, 2, 3, 2), Five(0, 0, 0, 2, 0)), NeverLed(4, [2, 4]))
  }

  lemma PaperC4a(b1: Board, b2: Board)
    requires b1 == ElectedBoard(C3(), 4, 2, 5) && b2 == ReplicatedBoard(b1, 4, 3)
    ensures CanElect(C3(), 4, 2, 5) && CanReplicate(b1, 4, 3) && CanReplicate(b2, 4, 5)
    ensures ReplicatedBoard(b2, 4, 5) == C4a()
  {
    assert b1.d.ts == [2, 4];
  }

  lemma TermC4a(r0: seq<State>) returns (run: seq<State>)
    requires Shows(r0, C3())
    ensures Shows(run, C4a())
  {
    var b1 := ElectedBoard(C3(), 4, 2, 5);
    var b2 := ReplicatedBoard(b1, 4, 3);
    PaperC4a(b1, b2);
    var r1 := ElectOn(r0, C3(), 4, 2, 5);
    var r2 := ReplicateOn(r1, b1, 4, 3);
    run := ReplicateOn(r2, b2, 4, 5);
  }

  function C4(): Board {
    Five(Cell(4, Follower, T4(), 0, Five(7, 6, 7, 6, 6), Five(6, 5, 6, 0, 0)), NeverLed(4, [2]), C4a().c,
         Cell(4, Leader, T4(), 0, Five(2, 2, 2, 7, 2), Five(0, 0, 0, 6, 0)), NeverLed(4, [2, 4]))
  }

  lemma PaperC4(b1: Board)
    requires b1 == FilledBoard(C4a(), 4, 4)
    ensures C4a().d.role == Leader && CanReplicate(b1, 4, 1) && ReplicatedBoard(b1, 4, 1) == C4()
  {
    assert b1.d.ts == T4();
  }

  lemma TermC4(r0: seq<State>) returns (run: seq<State>)
    requires Shows(r0, C4a())
    ensures Shows(run, C4())
  {
    var b1 := FilledBoard(C4a(), 4, 4);
    PaperC4(b1);
    var r1 := FillOn(r0, C4a(), 4, 4);
    run := ReplicateOn(r1, b1, 4, 1);
  }

  // Term 5: node 1 leads, and node 4 acknowledges seven entries. The candidate is an
  // entry of term 4.

  function C5(): Board {
    Five(Cell(5, Leader, T5(), 0, Five(8, 7, 7, 8, 7), Five(7, 5, 6, 7, 0)), NeverLed(4, [2]),
         Cell(5, Follower, [2, 4], 0, Five(1, 1, 6, 1, 1), Five(0, 0, 5, 0, 0)),
         Cell(5, Follower, T5(), 0, Five(2, 2, 2, 7, 2), Five(0, 0, 0, 6, 0)), NeverLed(5, [2, 4]))
  }

  lemma PaperC5(b1: Board, b2: Board)
    requires b1 == ElectedBoard(C4(), 1, 3, 5) && b2 == ReplicatedBoard(b1, 1, 4)
    ensures CanElect(C4(), 1, 3, 5) && CanReplicate(b1, 1, 4) && CanCount(b2, 1, 4, 6)
    ensures SameAck(b1.Get(1), b2.Get(1)) && CountedBoard(b2, 1, 4, 6) == C5()
  {
    assert b1.a.ts == T5();
  }

  lemma TermC5(r0: seq<State>) returns (run: seq<State>)
    requires Shows(r0, C4())
    ensures Shows(run, C5())
  {
    var b1 := ElectedBoard(C4(), 1, 3, 5);
    var b2 := ReplicatedBoard(b1, 1, 4);
    PaperC5(b1, b2);
    var r1 := ElectOn(r0, C4(), 1, 3, 5);
    var r2 := ReplicateOn(r1, b1, 1, 4);
    run := CountOn(r2, b2, 1, 4, 6);
  }

  // Term 6: node 3 truncates node 1 to three entries.

  function C6(): Board {
    Five(Cell(6, Follower, [2, 4, 6], 0, Five(8, 7, 7, 8, 7), Five(7, 5, 6, 7, 0)), NeverLed(6, [2]),
         Cell(6, Leader, [2, 4, 6], 0, Five(3, 3, 4, 3, 3), Five(0, 0, 3, 0, 0)), C5().d, NeverLed(6, [2, 4, 6]))
  }

  lemma PaperC6(b1: Board, b2: Board)
    requires b1 == ElectedBoard(C5(), 3, 2, 5) && b2 == ReplicatedBoard(b1, 3, 1)
    ensures CanElect(C5(), 3, 2, 5) && CanReplicate(b1, 3, 1) && CanReplicate(b2, 3, 5)
    ensures ReplicatedBoard(b2, 3, 5) == C6()
  {
    assert b1.c.ts == [2, 4, 6];
  }

  lemma TermC6(r0: seq<State>) returns (run: seq<State>)
    requires Shows(r0, C5())
    ensures Shows(run, C6())
  {
    var b1 := ElectedBoard(C5(), 3, 2, 5);
    var b2 := ReplicatedBoard(b1, 3, 1);
    PaperC6(b1, b2);
    var r1 := ElectOn(r0, C5(), 3, 2, 5);
    var r2 := ReplicateOn(r1, b1, 3, 1);
    run := ReplicateOn(r2, b2, 3, 5);
  }

  // Term 7: node 1 leads with four entries, and node 5 acknowledges them.

  function C7(): Board {
    Five(Cell(7, Leader, [2, 4, 6, 7], 0, Five(5, 4, 4, 4, 4), Five(4, 5, 6, 7, 0)), NeverLed(7, [2]), C6().c, C6().d,
         NeverLed(7, [2, 4, 6, 7]))
  }

  lemma PaperC7(b1: Board)
    requires b1 == ElectedBoard(C6(), 1, 2, 5)
    ensures CanElect(C6(), 1, 2, 5) && CanReplicate(b1, 1, 5) && ReplicatedBoard(b1, 1, 5) == C7()
  {
    assert b1.a.ts == [2, 4, 6, 7];
  }

  lemma TermC7(r0: seq<State>) returns (run: seq<State>)
    requires Shows(r0, C6())
    ensures Shows(run, C7())
    ensures AckOf(5, 1, C7().a.term, C7().a.ts) in Last(run).net
  {
    var b1 := ElectedBoard(C6(), 1, 2, 5);
    PaperC7(b1);
    var r1 := ElectOn(r0, C6(), 1, 2, 5);
    run := ReplicateOn(r1, b1, 1, 5);
  }

  lemma UpToSeven() returns (run: seq<State>)
    ensures Shows(run, C7()) && AckOf(5, 1, C7().a.term, C7().a.ts) in Last(run).net
  {
    var r1 := TermC1();
    var r2 := TermC2a(r1);
    r2 := TermC2(r2);
    var r3 := TermC3(r2);
    var r4 := TermC4a(r3);
    r4 := TermC4(r4);
    var r5 := TermC5(r4);
    var r6 := TermC6(r5);
    run := TermC7(r6);
  }

  /** Three other nodes are remembered beyond the log. */
  lemma BeyondTheLog(n: Node, m: Message, relaxed: bool)
    requires ValidNode(n) && |n.peers| == 5 && Draws(SketchOf(n), C7().a) && m == AckOf(5, 1, C7().a.term, C7().a.ts)
    ensures m.from in n.prs && m.body.index > n.prs[m.from].matched
    ensures CommitCandidate(SetMatch(n, m.from, m.body.index), relaxed) > |n.log.entries|
  {
    var x := SetMatch(n, m.from, m.body.index);
    ManyReached(x.prs, Five(4, 5, 6, 7, 4), 5);
    assert |n.log.entries| == |SketchOf(n).ts| == 4;
    LookupOutsideExactly(x, relaxed);
  }

  /** Without the hypothesis on elections the term lookup of `LeaderCommit` leaves
      the log: in this run node 1 leads with four entries and is about to count an
      acknowledgement after which it asks for the term of entry 5. */
  lemma LookupOutside(relaxed: bool) returns (run: seq<State>, i: NodeId, m: Message)
    ensures IsRun(run) && TallyExact(|run[0].peers|)
    ensures var s := run[|run| - 1];
      && i in s.nodes && s.nodes[i].role == Leader && ValidNode(s.nodes[i])
      && m in s.net && m.to == i && m.term == s.nodes[i].term && m.body.AppendResponse? && !m.body.reject
      && m.from in s.nodes[i].prs && m.body.index > s.nodes[i].prs[m.from].matched
      && CommitCandidate(SetMatch(s.nodes[i], m.from, m.body.index), relaxed) > |Log(s, i)|
  {
    run := UpToSeven();
    i, m := 1, AckOf(5, 1, C7().a.term, C7().a.ts);
    LiveIsRun(run);
    ShapeOf(run, 1);
    assert ShowsAt(run, C7(), 1);
    BeyondTheLog(Last(run).nodes[1], m, relaxed);
  }
}
