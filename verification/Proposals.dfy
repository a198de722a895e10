/** Proposals of several entries. The loop of `AppendEntries` never advances its
    counter, so every entry of one proposal gets the same index. */
module Proposals {
  import opened RaftTypes
  import opened LogSpec
  import opened LogFacts
  import opened NodeSpec

  /** The entries a leader takes from a proposal: all but the configuration
      changes that find one pending. */
  function Admitted(pending: nat, es: seq<Entry>): seq<Entry>
    decreases |es|
  {
    if es == [] then []
    else if es[0].etype == EntryConfChange then
      if pending != NONE then Admitted(pending, es[1..]) else [es[0]] + Admitted(1, es[1..])
    else [es[0]] + Admitted(pending, es[1..])
  }

  function Stamped(es: seq<Entry>, t: Term, index: nat): seq<Entry> {
    seq(|es|, k requires 0 <= k < |es| => es[k].(term := t, index := index))
  }

  lemma AdmittedPending(p: nat, q: nat, es: seq<Entry>)
    requires p != NONE && q != NONE
    ensures Admitted(p, es) == Admitted(q, es)
    decreases |es|
  {
  }

  lemma StampedCons(e: Entry, rest: seq<Entry>, t: Term, index: nat)
    ensures Stamped([e] + rest, t, index) == [e.(term := t, index := index)] + Stamped(rest, t, index)
  {
  }

  lemma {:induction false} PushedAre(n: Node, es: seq<Entry>, last: nat)
    requires ValidNode(n)
    ensures PushProposals(n, es, last).log.entries ==
      n.log.entries + Stamped(Admitted(n.pendingConf, es), n.term, last + 1)
    decreases |es|
  {
    if es == [] {
      assert Stamped([], n.term, last + 1) == [];
    } else if es[0].etype == EntryConfChange && n.pendingConf != NONE {
      PushedAre(n, es[1..], last);
    } else {
      PushedFirst(n, es, last);
    }
  }

  lemma PushedFirst(n: Node, es: seq<Entry>, last: nat)
    requires ValidNode(n) && es != [] && !(es[0].etype == EntryConfChange && n.pendingConf != NONE)
    ensures PushProposals(n, es, last).log.entries ==
      n.log.entries + Stamped(Admitted(n.pendingConf, es), n.term, last + 1)
    decreases |es|, 0
  {
    var e := es[0].(term := n.term, index := last + 1);
    var pc := if e.etype == EntryConfChange then e.index else n.pendingConf;
    var a := n.(pendingConf := pc, log := n.log.(entries := n.log.entries + [e]));
    PushedAre(a, es[1..], last);
    if e.etype == EntryConfChange {
      AdmittedPending(pc, 1, es[1..]);
    }
    StampedCons(es[0], Admitted(pc, es[1..]), n.term, last + 1);
  }

  /** A proposal keeps the log contiguous exactly when at most one of its entries
      is taken. */
  lemma ProposalExactly(n: Node, es: seq<Entry>)
    requires ValidNode(n) && LogShape(n.log)
    ensures Contiguous(PushProposals(n, es, LastIndex(n.log)).log.entries, n.log.first) <==>
      |Admitted(n.pendingConf, es)| <= 1
  {
    var last, a := LastIndex(n.log), Admitted(n.pendingConf, es);
    LastIndexOf(n.log);
    PushedAre(n, es, last);
    var r := PushProposals(n, es, last).log.entries;
    if |a| > 1 {
      assert r[|n.log.entries| + 1].index == last + 1;
    }
  }

  /** Two normal entries in one proposal, to any node: they get the same index. */
  lemma TwoEntriesFail(n: Node, e: Entry, e': Entry)
    requires ValidNode(n) && LogShape(n.log) && e.etype == EntryNormal && e'.etype == EntryNormal
    ensures !Contiguous(PushProposals(n, [e, e'], LastIndex(n.log)).log.entries, n.log.first)
  {
    assert [e, e'][1..] == [e'] && [e'][1..] == [];
    assert Admitted(n.pendingConf, [e']) == [e'];
    ProposalExactly(n, [e, e']);
  }
}
