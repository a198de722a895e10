/** Commitment: what enough acknowledgements in one term settle for good, and
    the invariants of commit indices that rest on it. */
module Commits {
  import opened RaftTypes
  import opened LogSpec
  import opened Cluster
  import opened History
  import opened Moves
  import opened Majorities

  /** Who has acknowledged index `k` to the leader of `t`. */
  function Acceptors(all: set<NodeId>, h: History, t: Term, k: nat): set<NodeId> {
    set j | j in all && Ack(j, t) in h.acked && h.acked[Ack(j, t)] >= k
  }

  /** Index `k` is chosen in term `t`: it holds an entry of that term which at
      least half of the nodes have acknowledged. Half is enough, since elections
      need more than half. */
  predicate Chosen(all: set<NodeId>, h: History, t: Term, k: nat) {
    && t in h.reigns
    && |h.reigns[t].base| < k <= |h.reigns[t].log|
    && 2 * |Acceptors(all, h, t, k)| >= |all|
  }

  /** Leader completeness (section 5.4.3 of the Raft paper): every later leader
      starts with what was chosen. */
  lemma {:induction false} ChosenIsInherited(s: State, h: History, t: Term, k: nat, u: Term)
    requires Addressed(s) && Electoral(s, h) && ReignLogs(h) && Quorums(h)
    requires Chosen(s.nodes.Keys, h, t, k) && u in h.reigns && t < u
    ensures h.reigns[t].log[..k] <= h.reigns[u].base
    decreases u
  {
    var r := h.reigns[u];
    assert ReignElected(s, u, r) && QuorumOk(h, u);
    var j := Overlap(Acceptors(s.nodes.Keys, h, t, k), r.quorum, s.nodes.Keys);
    assert Inherits(h, j, u, r.base);
    var a := Ack(j, t);
    assert RetainsAll(h, t, h.acked[a], r.base, u);
    assert Retains(h, t, k, r.base, u);
    if Superseded(h, t, k, u) {
      var v :| v in h.reigns && t < v < u && !Holds(h, t, k, h.reigns[v].base);
      ChosenIsInherited(s, h, t, k, v);
      assert Holds(h, t, k, h.reigns[v].base);
    }
  }

  /** The first `c` entries of `es` were chosen in a term up to `bound`. */
  predicate ChosenAt(all: set<NodeId>, h: History, c: nat, es: seq<Entry>, t: Term, k: nat) {
    Chosen(all, h, t, k) && c <= k && c <= |es| && es[..c] == h.reigns[t].log[..c]
  }

  ghost predicate Settled(all: set<NodeId>, h: History, bound: Term, c: nat, es: seq<Entry>) {
    c == 0 || exists t: Term, k: nat :: t <= bound && ChosenAt(all, h, c, es, t, k)
  }

  predicate MatchOk(h: History, n: Node, p: NodeId)
    requires p in n.prs && n.term in h.reigns
  {
    || n.prs[p].matched <= |h.reigns[n.term].base|
    || (Ack(p, n.term) in h.acked && n.prs[p].matched <= h.acked[Ack(p, n.term)])
  }

  predicate MatchesOk(h: History, n: Node) {
    n.role == Leader && n.term in h.reigns ==>
      forall p {:trigger MatchOk(h, n, p)} :: p in n.prs ==> MatchOk(h, n, p)
  }

  ghost predicate CommitOk(all: set<NodeId>, h: History, n: Node) {
    Settled(all, h, n.term, n.log.committed, n.log.entries) && MatchesOk(h, n)
  }

  ghost predicate CarriesOk(all: set<NodeId>, h: History, m: Message)
    requires m.body.Append?
  {
    && m.body.commit <= m.body.index + |m.body.entries|
    && m.term in h.reigns
    && Settled(all, h, m.term, m.body.commit, h.reigns[m.term].log)
  }

  ghost predicate CommitInv(s: State, h: History) {
    && (forall i {:trigger CommitOk(s.nodes.Keys, h, s.nodes[i])} :: i in s.nodes ==>
          CommitOk(s.nodes.Keys, h, s.nodes[i]))
    && (forall m {:trigger CarriesOk(s.nodes.Keys, h, m)} :: m in s.net && m.body.Append? ==>
          CarriesOk(s.nodes.Keys, h, m))
  }

  // ----- Growth of the history -----

  lemma ChosenStays(all: set<NodeId>, h: History, h': History, t: Term, k: nat)
    requires Extends(h, h') && Chosen(all, h, t, k)
    ensures Chosen(all, h', t, k)
  {
    var a, a' := Acceptors(all, h, t, k), Acceptors(all, h', t, k);
    assert h.reigns[t].log <= h'.reigns[t].log;
    assert a <= a';
    SubsetSize(a, a');
  }

  /** Settled prefixes stay settled when the history and the log grow. */
  lemma SettledStays(all: set<NodeId>, h: History, h': History, b: Term, b': Term, c: nat,
                     es: seq<Entry>, es': seq<Entry>)
    requires Extends(h, h') && b <= b' && Settled(all, h, b, c, es)
    requires c <= |es'| && es[..Min(c, |es|)] == es'[..Min(c, |es|)]
    ensures Settled(all, h', b', c, es')
  {
    if c > 0 {
      var t: Term, k: nat :| t <= b && ChosenAt(all, h, c, es, t, k);
      ChosenStays(all, h, h', t, k);
      assert h.reigns[t].log <= h'.reigns[t].log;
      assert h.reigns[t].log[..c] == h'.reigns[t].log[..c];
      assert ChosenAt(all, h', c, es', t, k);
    }
  }

  lemma SettledLength(all: set<NodeId>, h: History, b: Term, c: nat, es: seq<Entry>)
    requires Settled(all, h, b, c, es)
    ensures c <= |es|
  {
    if c > 0 {
      var t: Term, k: nat :| t <= b && ChosenAt(all, h, c, es, t, k);
    }
  }

  ghost predicate NewCarries(s: State, s': State, h': History) {
    forall m :: m in s'.net && m !in s.net && m.body.Append? ==> CarriesOk(s'.nodes.Keys, h', m)
  }

  lemma CarriesStays(all: set<NodeId>, h: History, h': History, m: Message)
    requires Extends(h, h') && m.body.Append? && CarriesOk(all, h, m)
    ensures CarriesOk(all, h', m)
  {
    var es, es' := h.reigns[m.term].log, h'.reigns[m.term].log;
    assert es <= es';
    SettledLength(all, h, m.term, m.body.commit, es);
    SettledStays(all, h, h', m.term, m.term, m.body.commit, es, es');
  }

  lemma BystanderCommit(all: set<NodeId>, h: History, h': History, n: Node)
    requires Extends(h, h') && CommitOk(all, h, n) && InOffice(h, n)
    ensures CommitOk(all, h', n)
  {
    SettledLength(all, h, n.term, n.log.committed, n.log.entries);
    SettledStays(all, h, h', n.term, n.term, n.log.committed, n.log.entries, n.log.entries);
    if n.role == Leader {
      forall p | p in n.prs
        ensures MatchOk(h', n, p)
      {
        assert MatchOk(h, n, p);
      }
    }
  }

  lemma KeepsCommit(s: State, h: History, s': State, h': History, i: NodeId)
    requires Addressed(s) && Electoral(s, h) && CommitInv(s, h)
    requires Only(s, s', i) && Extends(h, h')
    requires CommitOk(s.nodes.Keys, h', s'.nodes[i]) && NewCarries(s, s', h')
    ensures CommitInv(s', h')
  {
    var all := s.nodes.Keys;
    forall j | j in s'.nodes
      ensures CommitOk(all, h', s'.nodes[j])
    {
      if j != i {
        assert CommitOk(all, h, s.nodes[j]) && Standing(s, h, s.nodes[j]);
        BystanderCommit(all, h, h', s.nodes[j]);
      }
    }
    forall m | m in s'.net && m.body.Append?
      ensures CarriesOk(all, h', m)
    {
      if m in s.net {
        assert CarriesOk(all, h, m);
        CarriesStays(all, h, h', m);
      }
    }
  }
}
