/** A move: one node changes and sends messages. This module gathers the
    conditions under which a move keeps the invariants. */
module Moves {
  import opened RaftTypes
  import opened Cluster
  import opened History

  /** Only node `i` changes; nothing leaves the network. */
  predicate Only(s: State, s': State, i: NodeId) {
    && s'.peers == s.peers
    && i in s.nodes
    && s'.nodes.Keys == s.nodes.Keys
    && (forall j :: j in s.nodes && j != i ==> s'.nodes[j] == s.nodes[j])
    && s.net <= s'.net
  }

  /** Role, term and vote of the node that moves. */
  predicate RoleMove(n: Node, n': Node) {
    && n'.id == n.id
    && n'.term >= n.term
    && (n'.term == n.term && n.role == Follower && n.vote != NONE ==>
          n'.role == Follower && n'.vote == n.vote)
    && (n'.term == n.term && n.role == Leader ==> n'.role == Leader)
    && (n'.term == n.term && n'.role == Candidate ==>
          n.role == Candidate && n'.log.entries == n.log.entries)
  }

  /** Its log: extended, or replaced by one that continues its leader's. */
  predicate LogMove(h': History, n: Node, n': Node) {
    || n.log.entries <= n'.log.entries
    || (n'.term in h'.reigns && h'.reigns[n'.term].base <= n'.log.entries)
  }

  /** The history: at most the reign and the acknowledgement of the node's
      current term change. */
  predicate HistoryMove(h: History, h': History, n': Node) {
    && Extends(h, h')
    && (forall t :: t in h'.reigns && t != n'.term ==> t in h.reigns && h'.reigns[t] == h.reigns[t])
    && (n'.term in h.reigns && h'.reigns[n'.term] != h.reigns[n'.term] ==>
          h.reigns[n'.term].id == n'.id)
    && (forall a :: a in h'.acked && a != Ack(n'.id, n'.term) ==>
          a in h.acked && h'.acked[a] == h.acked[a])
  }

  predicate CurrentAck(h': History, n': Node) {
    var a := Ack(n'.id, n'.term);
    a in h'.acked ==>
      && n'.term in h'.reigns
      && |h'.reigns[n'.term].base| < h'.acked[a] <= |n'.log.entries|
      && n'.log.entries <= h'.reigns[n'.term].log
  }

  ghost predicate NewReign(s': State, h: History, h': History, n': Node) {
    n'.term in h'.reigns ==>
      && ReignLog(h', n'.term)
      && (n'.term !in h.reigns ==>
            ReignElected(s', n'.term, h'.reigns[n'.term]) && QuorumOk(h', n'.term))
  }

  predicate NewNode(s': State, h': History, n': Node) {
    && NodeShape(n') && Acquainted(s', n')
    && Standing(s', h', n')
    && NodeLogOk(h', n')
    && CurrentAck(h', n')
    && ProgressOk(n')
  }

  // Messages sent by the move.

  predicate NewGrants(s: State, s': State, n': Node)
    requires Addressed(s')
  {
    forall m :: m in s'.net && m !in s.net && IsGrant(m) ==>
      && m.from == n'.id && m.term == n'.term
      && n'.role == Follower && n'.vote == m.to
      && s'.nodes[m.to].term >= m.term
  }

  ghost predicate NewBallots(s: State, s': State, h': History)
    requires Addressed(s')
  {
    forall m :: m in s'.net && m !in s.net && IsGrant(m) ==> BallotOk(s', h', m)
  }

  predicate NewRequests(s: State, s': State, n': Node) {
    forall m :: m in s'.net && m !in s.net && m.body.RequestVote? ==>
      && m.from == n'.id && m.term == n'.term
      && m.body.index == |n'.log.entries| && m.body.logTerm == LastTerm(n'.log.entries)
  }

  predicate NewAppends(s: State, s': State, h': History) {
    forall m :: m in s'.net && m !in s.net && m.body.Append? ==> AppendOk(h', m)
  }

  predicate NewReplies(s: State, s': State, h': History) {
    forall m :: m in s'.net && m !in s.net && m.body.AppendResponse? ==> ReplyOk(h', m)
  }

  predicate NewShapes(s: State, s': State) {
    forall m :: m in s'.net && m !in s.net ==> MessageShape(m)
  }

  ghost predicate Move(s: State, h: History, s': State, h': History, i: NodeId) {
    && Only(s, s', i)
    && WellFormed(s')
    && RoleMove(s.nodes[i], s'.nodes[i])
    && LogMove(h', s.nodes[i], s'.nodes[i])
    && HistoryMove(h, h', s'.nodes[i])
    && NewReign(s', h, h', s'.nodes[i])
    && NewNode(s', h', s'.nodes[i])
    && NewGrants(s, s', s'.nodes[i])
    && NewBallots(s, s', h')
    && NewRequests(s, s', s'.nodes[i])
    && NewAppends(s, s', h')
    && NewReplies(s, s', h')
    && NewShapes(s, s')
  }

  // ----- Elections -----

  lemma KeepsGrants(s: State, h: History, s': State, i: NodeId)
    requires Addressed(s) && Addressed(s') && NONE !in s.nodes && Electoral(s, h)
    requires Only(s, s', i) && RoleMove(s.nodes[i], s'.nodes[i]) && NewGrants(s, s', s'.nodes[i])
    ensures forall m :: m in s'.net && IsGrant(m) ==> GrantOk(s', m)
    ensures forall m, m' :: m in s'.net && m' in s'.net && SameBallot(m, m') ==> m.to == m'.to
  {
    forall m | m in s'.net && IsGrant(m)
      ensures GrantOk(s', m)
    {
      if m in s.net {
        assert GrantOk(s, m);
      }
    }
    forall m, m' | m in s'.net && m' in s'.net && SameBallot(m, m')
      ensures m.to == m'.to
    {
      assert GrantOk(s', m) && GrantOk(s', m');
    }
  }

  lemma ReignStaysElected(s: State, s': State, i: NodeId, t: Term, r: Reign)
    requires Addressed(s') && Only(s, s', i)
    requires RoleMove(s.nodes[i], s'.nodes[i]) && NewGrants(s, s', s'.nodes[i])
    requires ReignElected(s, t, r)
    ensures ReignElected(s', t, r)
  {
  }

  lemma KeepsElectoral(s: State, h: History, s': State, h': History, i: NodeId)
    requires Addressed(s) && Addressed(s') && NONE !in s.nodes && Electoral(s, h)
    requires Only(s, s', i) && RoleMove(s.nodes[i], s'.nodes[i]) && NewGrants(s, s', s'.nodes[i])
    requires Standing(s', h', s'.nodes[i])
    requires HistoryMove(h, h', s'.nodes[i]) && NewReign(s', h, h', s'.nodes[i])
    ensures Electoral(s', h')
  {
    KeepsGrants(s, h, s', i);
    forall t | t in h'.reigns
      ensures ReignElected(s', t, h'.reigns[t])
    {
      if t in h.reigns {
        assert ReignElected(s, t, h.reigns[t]);
        ReignStaysElected(s, s', i, t, h.reigns[t]);
        assert ReignElected(s', t, h.reigns[t]);
      }
    }
    forall j | j in s'.nodes
      ensures Standing(s', h', s'.nodes[j])
    {
      if j != i {
        assert Standing(s, h, s.nodes[j]);
      }
    }
  }

  // ----- Logs -----

  lemma ExtendedOnRecord(h: History, h': History, es: seq<Entry>)
    requires Extends(h, h') && OnRecord(h, es)
    ensures OnRecord(h', es)
  {
    if es != [] {
      assert es <= h.reigns[LastTerm(es)].log <= h'.reigns[LastTerm(es)].log;
    }
  }

  lemma KeepsReignLogs(s': State, h: History, h': History, n': Node)
    requires ReignLogs(h) && HistoryMove(h, h', n') && NewReign(s', h, h', n')
    ensures ReignLogs(h')
  {
    forall t | t in h'.reigns
      ensures ReignLog(h', t)
    {
      if t != n'.term {
        assert ReignLog(h, t);
        ExtendedOnRecord(h, h', h.reigns[t].base);
      }
    }
  }

  lemma KeepsNodeLogs(s: State, h: History, s': State, h': History, i: NodeId)
    requires Addressed(s) && NodeLogs(s, h)
    requires Electoral(s, h)
    requires Only(s, s', i) && HistoryMove(h, h', s'.nodes[i]) && s'.nodes[i].id == i
    requires NodeLogOk(h', s'.nodes[i])
    ensures NodeLogs(s', h')
  {
    forall j | j in s'.nodes
      ensures NodeLogOk(h', s'.nodes[j])
    {
      if j != i {
        assert NodeLogOk(h, s.nodes[j]);
        assert Standing(s, h, s.nodes[j]);
        ExtendedOnRecord(h, h', s.nodes[j].log.entries);
      }
    }
  }

  // ----- Messages -----

  lemma ExtendedAppend(h: History, h': History, m: Message)
    requires Extends(h, h') && m.body.Append? && AppendOk(h, m)
    ensures AppendOk(h', m)
  {
    assert h.reigns[m.term].log <= h'.reigns[m.term].log;
  }

  lemma KeepsAppends(s: State, h: History, s': State, h': History)
    requires Appends(s, h) && Extends(h, h') && NewAppends(s, s', h')
    ensures Appends(s', h')
  {
    forall m | m in s'.net && m.body.Append?
      ensures AppendOk(h', m)
    {
      if m in s.net {
        assert AppendOk(h, m);
        ExtendedAppend(h, h', m);
      }
    }
  }

  lemma KeepsReplies(s: State, h: History, s': State, h': History)
    requires Replies(s, h) && Extends(h, h') && NewReplies(s, s', h')
    ensures Replies(s', h')
  {
    forall m | m in s'.net && m.body.AppendResponse?
      ensures ReplyOk(h', m)
    {
      if m in s.net {
        assert ReplyOk(h, m);
      }
    }
  }

  lemma KeepsRequests(s: State, s': State, i: NodeId)
    requires Addressed(s) && Addressed(s') && Requests(s)
    requires Only(s, s', i) && RoleMove(s.nodes[i], s'.nodes[i])
    requires NewRequests(s, s', s'.nodes[i]) && NewGrants(s, s', s'.nodes[i])
    ensures Requests(s')
  {
    forall m | m in s'.net && m.body.RequestVote?
      ensures RequestOk(s', m)
    {
      if m in s.net {
        assert RequestOk(s, m);
      }
    }
  }

  // ----- Acknowledgements -----

  lemma ExtendedRetains(h: History, h': History, t: Term, n: nat, es: seq<Entry>, bound: Term, bound': Term)
    requires Extends(h, h')
    requires t in h.reigns && n <= |h.reigns[t].log|
    requires Retains(h, t, n, es, bound) && bound <= bound'
    ensures t in h'.reigns && n <= |h'.reigns[t].log|
    ensures Retains(h', t, n, es, bound')
  {
    assert h.reigns[t].log <= h'.reigns[t].log;
    assert h'.reigns[t].log[..n] == h.reigns[t].log[..n];
    if Superseded(h, t, n, bound) {
      var u :| u in h.reigns && t < u < bound && !Holds(h, t, n, h.reigns[u].base);
      assert u in h'.reigns && !Holds(h', t, n, h'.reigns[u].base);
    }
  }

  lemma ExtendedRetainsAll(h: History, h': History, t: Term, n: nat, es: seq<Entry>, bound: Term, bound': Term)
    requires Extends(h, h')
    requires t in h.reigns && n <= |h.reigns[t].log|
    requires RetainsAll(h, t, n, es, bound) && bound <= bound'
    ensures t in h'.reigns && n <= |h'.reigns[t].log|
    ensures RetainsAll(h', t, n, es, bound')
  {
    assert h.reigns[t].log <= h'.reigns[t].log;
    forall k | |h'.reigns[t].base| < k <= n
      ensures Retains(h', t, k, es, bound')
    {
      ExtendedRetains(h, h', t, k, es, bound, bound');
    }
  }

  /** The node that moves still remembers an acknowledgement of an earlier
      term. */
  lemma MoverRemembers(h: History, h': History, v: Node, v': Node, t: Term, n: nat)
    requires Extends(h, h') && LogMove(h', v, v') && v.term <= v'.term && t < v'.term
    requires t in h.reigns && n <= |h.reigns[t].log|
    requires Retains(h, t, n, v.log.entries, v.term + 1)
    ensures t in h'.reigns && n <= |h'.reigns[t].log|
    ensures Retains(h', t, n, v'.log.entries, v'.term + 1)
  {
    ExtendedRetains(h, h', t, n, v.log.entries, v.term + 1, v'.term + 1);
    var p := h'.reigns[t].log[..n];
    if v.log.entries <= v'.log.entries {
      if p <= v.log.entries {
        assert p <= v'.log.entries;
      }
    } else {
      var u := v'.term;
      if Holds(h', t, n, h'.reigns[u].base) {
        assert p <= v'.log.entries;
      } else {
        assert Superseded(h', t, n, v'.term + 1);
      }
    }
  }

  lemma MoverRemembersAll(h: History, h': History, v: Node, v': Node, t: Term, n: nat)
    requires Extends(h, h') && LogMove(h', v, v') && v.term <= v'.term && t < v'.term
    requires t in h.reigns && n <= |h.reigns[t].log|
    requires RetainsAll(h, t, n, v.log.entries, v.term + 1)
    ensures t in h'.reigns && n <= |h'.reigns[t].log|
    ensures RetainsAll(h', t, n, v'.log.entries, v'.term + 1)
  {
    assert h.reigns[t].log <= h'.reigns[t].log;
    var es, bound := v'.log.entries, v'.term + 1;
    forall k | |h'.reigns[t].base| < k <= n
      ensures Retains(h', t, k, es, bound)
    {
      MoverRemembers(h, h', v, v', t, k);
    }
  }

  lemma CurrentAckRemembered(s': State, h': History, i: NodeId, a: Ack)
    requires i in s'.nodes && s'.nodes[i].id == i && a == Ack(i, s'.nodes[i].term)
    requires CurrentAck(h', s'.nodes[i]) && a in h'.acked
    ensures AckOk(s', h', a) && Remembers(s', h', a)
  {
    var es, bound := s'.nodes[i].log.entries, s'.nodes[i].term + 1;
    forall n | |h'.reigns[a.term].base| < n <= h'.acked[a]
      ensures Retains(h', a.term, n, es, bound)
    {
      assert h'.reigns[a.term].log[..n] <= es;
    }
  }

  lemma OlderAckRemembered(s: State, h: History, s': State, h': History, i: NodeId, a: Ack)
    requires Addressed(s') && Only(s, s', i) && HistoryMove(h, h', s'.nodes[i])
    requires s.nodes[i].term <= s'.nodes[i].term
    requires LogMove(h', s.nodes[i], s'.nodes[i])
    requires a in h.acked && a != Ack(i, s'.nodes[i].term) && AckOk(s, h, a) && Remembers(s, h, a)
    ensures AckOk(s', h', a) && Remembers(s', h', a)
  {
    assert a in h'.acked && h'.acked[a] == h.acked[a];
    assert h.reigns[a.term].log <= h'.reigns[a.term].log;
    var w, w' := s.nodes[a.node], s'.nodes[a.node];
    if a.node == i {
      MoverRemembersAll(h, h', w, w', a.term, h.acked[a]);
    } else {
      ExtendedRetainsAll(h, h', a.term, h.acked[a], w.log.entries, w.term + 1, w'.term + 1);
    }
  }

  lemma KeepsAcks(s: State, h: History, s': State, h': History, i: NodeId)
    requires Addressed(s') && Acks(s, h) && Only(s, s', i) && HistoryMove(h, h', s'.nodes[i])
    requires s.nodes[i].term <= s'.nodes[i].term
    requires LogMove(h', s.nodes[i], s'.nodes[i]) && CurrentAck(h', s'.nodes[i])
    ensures Acks(s', h')
  {
    forall a | a in h'.acked
      ensures AckOk(s', h', a) && Remembers(s', h', a)
    {
      if a == Ack(i, s'.nodes[i].term) {
        CurrentAckRemembered(s', h', i, a);
      } else {
        assert AckOk(s, h, a) && Remembers(s, h, a);
        OlderAckRemembered(s, h, s', h', i, a);
      }
    }
  }

  // ----- Ballots and quorums -----

  /** Once `j` has voted in term `t`, what it acknowledged before is settled. */
  lemma ExtendedInherits(h: History, h': History, n': Node, j: NodeId, t: Term, es: seq<Entry>)
    requires HistoryMove(h, h', n')
    requires j == n'.id ==> t <= n'.term
    requires Inherits(h, j, t, es)
    ensures Inherits(h', j, t, es)
  {
    forall a | a in h'.acked && a.node == j && a.term < t
      ensures a.term in h'.reigns && h'.acked[a] <= |h'.reigns[a.term].log|
      ensures RetainsAll(h', a.term, h'.acked[a], es, t)
    {
      assert a in h.acked && h'.acked[a] == h.acked[a];
      ExtendedRetainsAll(h, h', a.term, h.acked[a], es, t, t);
    }
  }

  lemma KeepsBallots(s: State, h: History, s': State, h': History, i: NodeId)
    requires Addressed(s) && Addressed(s') && Electoral(s, h) && Requests(s) && Ballots(s, h)
    requires Only(s, s', i) && RoleMove(s.nodes[i], s'.nodes[i])
    requires HistoryMove(h, h', s'.nodes[i]) && NewBallots(s, s', h')
    ensures Ballots(s', h')
  {
    forall m | m in s'.net && IsGrant(m)
      ensures BallotOk(s', h', m)
    {
      if m in s.net {
        assert BallotOk(s, h, m) && GrantOk(s, m);
        var c, c' := s.nodes[m.to], s'.nodes[m.to];
        assert c.term >= m.term;
        if c'.role == Candidate && c'.term == m.term && m.term !in h'.reigns {
          ExtendedInherits(h, h', s'.nodes[i], m.from, m.term, c.log.entries);
        }
      }
    }
  }

  lemma KeepsQuorums(s: State, h: History, s': State, h': History, i: NodeId)
    requires Addressed(s) && Electoral(s, h) && Quorums(h)
    requires Only(s, s', i) && RoleMove(s.nodes[i], s'.nodes[i])
    requires HistoryMove(h, h', s'.nodes[i]) && NewReign(s', h, h', s'.nodes[i])
    ensures Quorums(h')
  {
    forall t | t in h'.reigns
      ensures QuorumOk(h', t)
    {
      if t in h.reigns {
        assert ReignElected(s, t, h.reigns[t]) && QuorumOk(h, t);
        forall j | j in h'.reigns[t].quorum
          ensures Inherits(h', j, t, h'.reigns[t].base)
        {
          if j != h.reigns[t].id {
            assert GrantOk(s, Grant(j, h.reigns[t].id, t));
          }
          ExtendedInherits(h, h', s'.nodes[i], j, t, h.reigns[t].base);
        }
      }
    }
  }

  lemma KeepsProgresses(s: State, s': State, i: NodeId)
    requires Progresses(s) && Only(s, s', i) && ProgressOk(s'.nodes[i])
    ensures Progresses(s')
  {
    forall j | j in s'.nodes
      ensures ProgressOk(s'.nodes[j])
    {
      assert ProgressOk(s.nodes[j]);
    }
  }

  lemma KeepsShapes(s: State, s': State, i: NodeId)
    requires Shapes(s) && Only(s, s', i) && NewShapes(s, s')
    requires NodeShape(s'.nodes[i]) && Acquainted(s', s'.nodes[i])
    ensures Shapes(s')
  {
    forall j | j in s'.nodes
      ensures NodeShape(s'.nodes[j]) && Acquainted(s', s'.nodes[j])
    {
      assert NodeShape(s.nodes[j]);
    }
  }

  /** A move keeps the invariants. */
  lemma MoveKeepsInv(s: State, h: History, s': State, h': History, i: NodeId)
    requires Inv(s, h)
    requires Move(s, h, s', h', i)
    ensures Inv(s', h')
  {
    Open(s, h);
    KeepsShapes(s, s', i);
    KeepsProgresses(s, s', i);
    KeepsElectoral(s, h, s', h', i);
    KeepsReignLogs(s', h, h', s'.nodes[i]);
    KeepsNodeLogs(s, h, s', h', i);
    KeepsAppends(s, h, s', h');
    KeepsReplies(s, h, s', h');
    KeepsRequests(s, s', i);
    KeepsAcks(s, h, s', h', i);
    KeepsBallots(s, h, s', h', i);
    KeepsQuorums(s, h, s', h', i);
    Close(s', h');
  }
}
