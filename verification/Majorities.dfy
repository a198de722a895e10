/** Counting sets of peers. */
module Majorities {
  import opened RaftTypes

  function Members(ps: seq<NodeId>): set<NodeId> { set p | p in ps }

  lemma DistinctSize(ps: seq<NodeId>)
    requires Distinct(ps)
    ensures |Members(ps)| == |ps|
  {
    if ps == [] {
      assert Members(ps) == {};
    } else {
      DistinctSize(ps[1..]);
      assert Members(ps) == {ps[0]} + Members(ps[1..]);
    }
  }

  /** Two sets of peers that together outnumber the peers share one. */
  lemma Overlap(a: set<NodeId>, b: set<NodeId>, all: set<NodeId>) returns (x: NodeId)
    requires a <= all && b <= all && |a| + |b| > |all|
    ensures x in a && x in b
  {
    if a * b == {} {
      assert |a + b| == |a| + |b|;
      SubsetSize(a + b, all);
      assert false;
    }
    x :| x in a * b;
  }

  lemma SubsetSize(a: set<NodeId>, b: set<NodeId>)
    requires a <= b
    ensures |a| <= |b|
  {
    assert b == a + (b - a);
  }
}
