/** The commit rule as a quorum: how many peers have reached the index that
    `LeaderCommit` picks out of the sorted match indices. */
module CommitQuorum {
  import opened RaftTypes
  import opened NodeSpec
  import opened Majorities

  function AtLeast(s: seq<nat>, v: nat): nat {
    if s == [] then 0 else (if s[0] >= v then 1 else 0) + AtLeast(s[1..], v)
  }

  predicate Ascending(s: seq<nat>) {
    forall i, j :: 0 <= i < j < |s| ==> s[i] <= s[j]
  }

  lemma {:induction false} InsertCounts(x: nat, s: seq<nat>, v: nat)
    ensures AtLeast(Insert(x, s), v) == AtLeast([x], v) + AtLeast(s, v)
  {
    if s == [] || x <= s[0] {
      assert ([x] + s)[1..] == s;
    } else {
      InsertCounts(x, s[1..], v);
      assert Insert(x, s)[1..] == Insert(x, s[1..]);
    }
  }

  lemma {:induction false} InsertAscends(x: nat, s: seq<nat>)
    requires Ascending(s)
    ensures Ascending(Insert(x, s))
    ensures forall k :: 0 <= k < |s| + 1 ==> Insert(x, s)[k] == x || Insert(x, s)[k] in s
  {
    if !(s == [] || x <= s[0]) {
      var r := Insert(x, s[1..]);
      InsertAscends(x, s[1..]);
      assert Insert(x, s) == [s[0]] + r;
      forall k | 0 <= k < |r|
        ensures r[k] == x || r[k] in s
        ensures s[0] <= r[k]
      {
      }
    }
  }

  lemma {:induction false} InsertAdds(x: nat, s: seq<nat>)
    ensures multiset(Insert(x, s)) == multiset(s) + multiset{x}
  {
    if !(s == [] || x <= s[0]) {
      InsertAdds(x, s[1..]);
      assert s == [s[0]] + s[1..];
    }
  }

  /** `Sorted` sorts: the result ascends and is a permutation. */
  lemma {:induction false} SortedSorts(s: seq<nat>)
    ensures Ascending(Sorted(s)) && multiset(Sorted(s)) == multiset(s)
  {
    if s != [] {
      SortedSorts(s[1..]);
      InsertAscends(s[0], Sorted(s[1..]));
      InsertAdds(s[0], Sorted(s[1..]));
      assert s == [s[0]] + s[1..];
    }
  }

  lemma {:induction false} SortedCounts(s: seq<nat>, v: nat)
    ensures AtLeast(Sorted(s), v) == AtLeast(s, v)
  {
    if s != [] {
      SortedCounts(s[1..], v);
      InsertCounts(s[0], Sorted(s[1..]), v);
    }
  }

  lemma {:induction false} AllAtLeast(s: seq<nat>, v: nat)
    requires forall k :: 0 <= k < |s| ==> s[k] >= v
    ensures AtLeast(s, v) == |s|
  {
    if s != [] {
      AllAtLeast(s[1..], v);
    }
  }

  lemma {:induction false} AscendingCount(s: seq<nat>, t: nat)
    requires Ascending(s) && t < |s|
    ensures AtLeast(s, s[t]) >= |s| - t
  {
    if t == 0 {
      AllAtLeast(s, s[0]);
    } else {
      AscendingCount(s[1..], t - 1);
    }
  }

  lemma {:induction false} BoundedCount(s: seq<nat>, v: nat)
    ensures AtLeast(s, v) <= |s|
  {
    if s != [] {
      BoundedCount(s[1..], v);
    }
  }

  lemma {:induction false} AscendingBound(s: seq<nat>, t: nat, v: nat)
    requires Ascending(s) && t < |s| && s[t] < v
    ensures AtLeast(s, v) < |s| - t
  {
    if t == 0 {
      BoundedCount(s[1..], v);
    } else {
      AscendingBound(s[1..], t - 1, v);
    }
  }

  /** The peers whose match index has reached `v`. */
  function Reached(prs: map<NodeId, Progress>, v: nat): set<NodeId> {
    set p | p in prs && prs[p].matched >= v
  }

  function ReachedAmong(prs: map<NodeId, Progress>, ps: seq<NodeId>, v: nat): set<NodeId>
    requires forall p :: p in ps ==> p in prs
  {
    set p | p in ps && prs[p].matched >= v
  }

  lemma {:induction false} ReachedCount(prs: map<NodeId, Progress>, ps: seq<NodeId>, v: nat)
    requires Distinct(ps) && forall p :: p in ps ==> p in prs
    ensures |ReachedAmong(prs, ps, v)| == AtLeast(Matches(prs, ps), v)
  {
    var all := ReachedAmong(prs, ps, v);
    if ps == [] {
      assert all == {};
    } else {
      ReachedCount(prs, ps[1..], v);
      ReachedFirst(prs, ps, v, ReachedAmong(prs, ps[1..], v));
      assert Matches(prs, ps)[1..] == Matches(prs, ps[1..]);
    }
  }

  lemma ReachedFirst(prs: map<NodeId, Progress>, ps: seq<NodeId>, v: nat, tail: set<NodeId>)
    requires ps != [] && Distinct(ps) && (forall p :: p in ps ==> p in prs)
    requires tail == ReachedAmong(prs, ps[1..], v)
    ensures |ReachedAmong(prs, ps, v)| == |tail| + if prs[ps[0]].matched >= v then 1 else 0
  {
    assert ps[0] !in tail;
    assert ReachedAmong(prs, ps, v) == if prs[ps[0]].matched >= v then {ps[0]} + tail else tail;
  }

  lemma ReachedIs(n: Node, v: nat)
    requires ValidNode(n)
    ensures |Reached(n.prs, v)| == AtLeast(Sorted(Matches(n.prs, n.peers)), v)
    ensures Ascending(Sorted(Matches(n.prs, n.peers)))
  {
    SortedSorts(Matches(n.prs, n.peers));
    SortedCounts(Matches(n.prs, n.peers), v);
    ReachedCount(n.prs, n.peers, v);
    assert Reached(n.prs, v) == ReachedAmong(n.prs, n.peers, v);
  }

  /** Whatever the peer count and the pending flag: `LeaderCommit` picks the
      largest index that size minus threshold peers have reached, and these are at
      least half of the peers. */
  lemma CommitCandidateReached(n: Node, relaxed: bool)
    requires ValidNode(n)
    ensures var c, need := CommitCandidate(n, relaxed), |n.peers| - Threshold(|n.peers|, relaxed);
      && |Reached(n.prs, c)| >= need
      && 2 * |Reached(n.prs, c)| >= |n.peers|
      && (forall v :: v > c ==> |Reached(n.prs, v)| < need)
  {
    var t := Threshold(|n.peers|, relaxed);
    var s := Sorted(Matches(n.prs, n.peers));
    ReachedIs(n, s[t]);
    AscendingCount(s, t);
    forall v | v > s[t]
      ensures |Reached(n.prs, v)| < |n.peers| - t
    {
      ReachedIs(n, v);
      AscendingBound(s, t, v);
    }
  }

  /** `LeaderCommit` asks for the term of its candidate. That lookup leaves the log
      exactly when enough peers have a match index beyond it. */
  lemma LookupOutsideExactly(n: Node, relaxed: bool)
    requires ValidNode(n)
    ensures CommitCandidate(n, relaxed) > |n.log.entries| <==>
      |Reached(n.prs, |n.log.entries| + 1)| >= |n.peers| - Threshold(|n.peers|, relaxed)
  {
    var c, beyond := CommitCandidate(n, relaxed), |n.log.entries| + 1;
    CommitCandidateReached(n, relaxed);
    if c >= beyond {
      SubsetSize(Reached(n.prs, c), Reached(n.prs, beyond));
    }
  }

  /** Commit and election quorums intersect: the peers that have reached the
      commit candidate and the peers that elected any leader share one. */
  lemma QuorumsIntersect(n: Node, relaxed: bool, voters: set<NodeId>) returns (p: NodeId)
    requires ValidNode(n) && voters <= n.prs.Keys && |voters| > |n.peers| / 2
    ensures p in voters && p in Reached(n.prs, CommitCandidate(n, relaxed))
  {
    CommitCandidateReached(n, relaxed);
    DistinctSize(n.peers);
    assert n.prs.Keys == Members(n.peers);
    p := Overlap(voters, Reached(n.prs, CommitCandidate(n, relaxed)), n.prs.Keys);
  }
}
