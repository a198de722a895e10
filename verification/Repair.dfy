/** How a leader finds the point from which a follower has to be brought up: what a
    rejection says, what the leader does with it, and that the search goes down. */
module Repair {
  import opened RaftTypes
  import opened LogSpec
  import opened LogFacts
  import opened NodeSpec
  import opened Cluster
  import opened History
  import opened HistoryFacts
  import opened Moves
  import opened Actions
  import opened Reigns
  import opened Steps
  import opened Runs
  import opened Safety
  import opened Deliveries

  // ----- What a rejection says -----

  /** The log has the entry that the append is to follow. */
  predicate Fitting(es: seq<Entry>, b: Body)
    requires b.Append?
  {
    b.index <= |es| && TermAt(es, b.index) == b.logTerm
  }

  /** Below the first index there is term 0. */
  predicate Rooted(b: Body)
    requires b.Append?
  {
    b.index == 0 ==> b.logTerm == 0
  }

  /** The rejection of an append that does not fit: one past the log when the log is too
      short, and otherwise the index below together with the term found. */
  function Rejection(es: seq<Entry>, b: Body): Body
    requires b.Append? && !Fitting(es, b) && Rooted(b)
  {
    if b.index > |es| then AppendResponse(true, NONE, |es| + 1)
    else AppendResponse(true, TermAt(es, b.index), b.index - 1)
  }

  lemma ConflictsIs(n: Node, b: Body)
    requires ValidNode(n) && NodeShape(n) && b.Append? && b.index <= |n.log.entries|
    requires Rooted(b)
    ensures Conflicts(n, b) <==> !Fitting(n.log.entries, b)
    ensures Conflicts(n, b) ==>
      var t := TermOf(n.log, b.index);
      var end := Min(Sub64(b.index + 1, n.log.first), |n.log.entries|);
      t == TermAt(n.log.entries, b.index) && LastWithTerm(n.log.entries, end, t) == b.index - 1
  {
    Lookups(n);
  }

  lemma Rejects(n: Node, m: Message)
    requires ValidNode(n) && NodeShape(n) && m.body.Append? && m.term == n.term >= 1
    requires Rooted(m.body)
    requires !Fitting(n.log.entries, m.body)
    ensures HandleAppendEntries(n, m) == Send(n.(lead := m.from), m.from, Rejection(n.log.entries, m.body))
  {
    Lookups(n);
    var f := n.(lead := m.from);
    if m.body.index <= |n.log.entries| {
      ConflictsIs(f, m.body);
    }
  }

  // ----- What an append leaves -----

  /** The log with the entries of the append in their place: unchanged if they are there,
      and otherwise cut behind them. */
  function Spliced(es: seq<Entry>, b: Body): seq<Entry>
    requires b.Append? && b.index <= |es|
  {
    var end := b.index + |b.entries|;
    if end <= |es| && es[b.index..end] == b.entries then es else es[..b.index] + b.entries
  }

  lemma SplicedIsMerged(h: History, es: seq<Entry>, m: Message)
    requires ReignLogs(h) && OnRecord(h, es) && m.body.Append? && AppendOk(h, m) && Fitting(es, m.body)
    ensures Merged(es, m.body.index, m.body.entries) == Spliced(es, m.body)
  {
    var b, log := m.body, h.reigns[m.term].log;
    ReignOnRecord(h, m.term, |log|);
    assert log[..|log|] == log;
    if b.index > 0 {
      Matching(h, es, log, b.index - 1);
    }
    assert es[..b.index] == log[..b.index];
    MergedLog(h, es, log, b.index, b.entries);
    SplicedFrom(es, b, log);
  }

  lemma SplicedFrom(es: seq<Entry>, b: Body, log: seq<Entry>)
    requires b.Append? && b.index <= |es| && b.index + |b.entries| <= |log| && es[..b.index] == log[..b.index]
    requires b.entries == log[b.index..b.index + |b.entries|]
    requires var r, end := Merged(es, b.index, b.entries), b.index + |b.entries|;
      r == log[..end] || (r == es && end <= |es| && es[..end] == log[..end])
    ensures Merged(es, b.index, b.entries) == Spliced(es, b)
  {
    var off, end := b.index, b.index + |b.entries|;
    assert log[..end] == log[..off] + b.entries;
    AllAgree(es, off, b.entries);
    if Merged(es, off, b.entries) != log[..end] {
      assert es[off..end] == es[..end][off..] == log[..end][off..];
    }
  }

  lemma {:induction false} AllAgree(es: seq<Entry>, off: nat, batch: seq<Entry>)
    requires off <= |es|
    ensures off + |batch| <= |es| && es[off..off + |batch|] == batch ==> Merged(es, off, batch) == es
  {
    AgreeingIs(es, off, batch);
    var c := Agreeing(es, off, batch);
    if c < |batch| && off + |batch| <= |es| {
      assert es[off..off + |batch|][c] == es[off + c];
    }
  }

  function Max(x: nat, y: nat): nat { if x >= y then x else y }

  /** The receiver of an append of its term: a follower of the sender. */
  lemma Faces(n: Node, m: Message, relaxed: bool) returns (f: Node)
    requires ValidNode(n) && FromPeer(n, m) && m.body.Append? && n.term <= m.term && 1 <= m.term
    requires n.role == Leader ==> n.term < m.term
    ensures f == n.(role := Follower, term := m.term, vote := f.vote, lead := f.lead, transferee := f.transferee)
    ensures Step(n, m, relaxed) == HandleAppendEntries(f, m)
  {
    f := Observe(n, m.term);
    if f.role == Candidate {
      f := BecomeFollower(f, m.term, m.from);
    }
  }

  lemma NoConflict(f: Node, m: Message)
    requires ValidNode(f) && NodeShape(f) && m.body.Append? && m.term == f.term >= 1
    requires Fitting(f.log.entries, m.body) && Rooted(m.body)
    ensures HandleAppendEntries(f, m) == Accept(f.(lead := m.from), m)
  {
    Lookups(f);
    ConflictsIs(f.(lead := m.from), m.body);
  }

  lemma SpliceReceived(h: History, f: Node, m: Message) returns (l: LogState)
    requires ReignLogs(h) && NodeShape(f) && OnRecord(h, f.log.entries)
    requires m.body.Append? && AppendOk(h, m) && Fitting(f.log.entries, m.body)
    ensures l == Absorb(f.log, m.body.entries, 0, 0) && l == f.log.(entries := l.entries, stabled := l.stabled)
    ensures l.entries == Spliced(f.log.entries, m.body) && LastIndexOr0(l) == |l.entries|
  {
    var b := m.body;
    assert WellIndexed(h.reigns[m.term].log) by {
      assert ReignLog(h, m.term);
    }
    SliceContiguous(h.reigns[m.term].log, 1, b.index, b.index + |b.entries|);
    AbsorbIsMerged(f.log, b.entries, b.index);
    SplicedIsMerged(h, f.log.entries, m);
    l := Absorb(f.log, b.entries, 0, 0);
    LastIndexOf(l);
  }

  lemma Accepts(h: History, f: Node, m: Message)
    requires ReignLogs(h) && ValidNode(f) && NodeShape(f) && OnRecord(h, f.log.entries) && f.msgs == []
    requires m.body.Append? && AppendOk(h, m) && m.term == f.term >= 1 && Fitting(f.log.entries, m.body)
    ensures var f', b := HandleAppendEntries(f, m), m.body;
      var end := b.index + |b.entries|;
      && f' == f.(lead := m.from, log := f'.log, msgs := f'.msgs)
      && f'.log.entries == Spliced(f.log.entries, b)
      && f'.log.committed == (if b.commit > f.log.committed then Min(b.commit, end) else f.log.committed)
      && f'.msgs == [Message(f.id, m.from, f.term, AppendResponse(false, NONE, |f'.log.entries|))]
  {
    NoConflict(f, m);
    var l := SpliceReceived(h, f, m);
  }

  /** The reply to an append: a refusal without a hint if its term is over, a rejection if
      it does not fit, and otherwise the length of the log as it is then. */
  function Reply(n: Node, m: Message, end: nat): Body
    requires m.body.Append? && Rooted(m.body)
  {
    if m.term < n.term then AppendResponse(true, NONE, NONE)
    else if !Fitting(n.log.entries, m.body) then Rejection(n.log.entries, m.body)
    else AppendResponse(false, NONE, end)
  }

  /** What the receiver has become. */
  predicate Followed(n: Node, m: Message, n': Node)
    requires m.body.Append?
  {
    var b := m.body;
    var end := b.index + |b.entries|;
    if m.term < n.term then n' == n
    else
      && n'.role == Follower && n'.lead == m.from && n'.term == m.term
      && (Fitting(n.log.entries, b) ==>
            && n'.log.entries == Spliced(n.log.entries, b)
            && n'.log.committed == (if b.commit > n.log.committed then Min(b.commit, end) else n.log.committed))
      && (!Fitting(n.log.entries, b) ==> n'.log == n.log)
  }

  lemma Handles(h: History, n: Node, m: Message, relaxed: bool)
    requires ReignLogs(h) && ValidNode(n) && NodeShape(n) && OnRecord(h, n.log.entries) && n.msgs == []
    requires m.body.Append? && AppendOk(h, m) && 1 <= m.term && FromPeer(n, m)
    requires n.role == Leader ==> m.term != n.term
    ensures Rooted(m.body)
    ensures var n' := Step(n, m, relaxed);
      && Followed(n, m, n'.(msgs := []))
      && n'.msgs == [Message(n.id, m.from, Max(n.term, m.term), Reply(n, m, |n'.log.entries|))]
  {
    if m.term < n.term {
      StaleAppend(n, m, relaxed);
    } else {
      var f := Faces(n, m, relaxed);
      if Fitting(n.log.entries, m.body) {
        Accepts(h, f, m);
      } else {
        Rejects(f, m);
      }
    }
  }

  lemma StaleAppend(n: Node, m: Message, relaxed: bool)
    requires ValidNode(n) && FromPeer(n, m) && m.body.Append? && 1 <= m.term < n.term
    ensures Step(n, m, relaxed) == Send(n, m.from, AppendResponse(true, NONE, NONE))
  {
  }

  /** Every append delivered in a run is answered by exactly one reply, to its sender.
      Unless its term is over, the receiver is then a follower of the sender in that term,
      and its log is as it was or, if the append fits, has the entries in their place. */
  lemma AppendAnswered(run: seq<State>, k: nat, m: Message, relaxed: bool)
    requires IsRun(run) && TallyExact(|run[0].peers|) && DeliveredAt(run, k, m, relaxed) && m.body.Append?
    ensures Rooted(m.body) && m.to in run[k].nodes && m.to in run[k + 1].nodes
    ensures var n, n' := run[k].nodes[m.to], run[k + 1].nodes[m.to];
      && Followed(n, m, n')
      && Sent(run, k, m, relaxed) ==
           [Message(m.to, m.from, Max(n.term, m.term), Reply(n, m, |n'.log.entries|))]
  {
    var hs := HistoryOf(run);
    var n, n' := Receiver(run, hs, k, m, relaxed);
    MessageFacts(run[k], hs[k], m);
    NodeFacts(run[k], hs[k], m.to);
    assert Satisfies(run[k], hs[k], Logs);
    if n.role == Leader {
      NoRivalAppend(run[k], hs[k], m.to, m);
    }
    Handles(hs[k], n, m, relaxed);
  }

  // ----- What the leader does with a rejection -----

  /** Where a leader with log `es` resumes: at its last entry, if that is all it has added
      to a log that ends in the term named, and otherwise at the hint. */
  function Resumed(es: seq<Entry>, b: Body): nat
    requires b.AppendResponse?
  {
    if b.logTerm != NONE && |es| >= 2 && TermAt(es, |es| - 1) == b.logTerm then |es| else b.index
  }

  lemma BackOffIs(n: Node, b: Body)
    requires NodeShape(n) && n.log.entries != [] && b.AppendResponse? && LastTerm(n.log.entries) > b.logTerm
    ensures BackOff(n, b) == Resumed(n.log.entries, b)
  {
    LastAboveTop(n.log.entries, b.logTerm);
  }

  lemma Resends(n: Node, m: Message, relaxed: bool, next: nat)
    requires ValidNode(n) && NodeShape(n) && n.role == Leader && n.msgs == [] && m.from in n.prs
    requires m.body.AppendResponse? && m.body.reject && m.body.index != NONE && m.term == n.term
    requires next == BackOff(n, m.body) && 1 <= next <= |n.log.entries|
    ensures Step(n, m, relaxed) ==
      n.(prs := n.prs[m.from := n.prs[m.from].(next := next)], msgs := [CatchUp(n, m.from, next)])
  {
    var x := SetNext(n, m.from, next);
    AppendIsCatchUp(x, m.from);
    assert HandleAppendEntriesResponse(n, m, relaxed) == SendAppend(x, m.from);
  }

  lemma RejectionRead(run: seq<State>, hs: seq<History>, k: nat, m: Message)
    requires Chronicle(run, hs) && k < |run| && m in run[k].net && IsLeader(run[k], m.to, m.term)
    requires m.body.AppendResponse? && m.body.reject && m.body.index != NONE
    ensures var n := run[k].nodes[m.to];
      var es, next := n.log.entries, BackOff(n, m.body);
      WellHinted(es, m.body, next) && 1 <= next <= |es|
  {
    var n := run[k].nodes[m.to];
    NodeFacts(run[k], hs[k], m.to);
    LeaderFacts(run[k], hs[k], m.to);
    MessageFacts(run[k], hs[k], m);
    BackOffInRange(hs[k], n, m);
    BackOffIs(n, m.body);
  }

  /** The leader resumes at `next` for the sender of `m`, and nothing else changes. */
  predicate ResumesAt(n: Node, m: Message, next: nat, n': Node) {
    && m.from in n.prs && 1 <= next <= |n.log.entries|
    && n' == n.(prs := n.prs[m.from := n.prs[m.from].(next := next)])
  }

  /** `next` is the hint, or the first entry behind those of the term named. */
  predicate WellHinted(es: seq<Entry>, b: Body, next: nat)
    requires b.AppendResponse?
  {
    && next == Resumed(es, b)
    && (next == b.index || (TermAt(es, next - 1) == b.logTerm && TermAt(es, next) > b.logTerm))
  }

  /** Every rejection of its own term with a hint makes a leader send exactly one append,
      to the sender of the rejection, from the new `next` up to its last entry. `next` is
      the hint, or the first entry behind those of the term named. Nothing else about the
      leader changes. */
  lemma RejectionAnswered(run: seq<State>, k: nat, m: Message, relaxed: bool) returns (next: nat)
    requires IsRun(run) && TallyExact(|run[0].peers|) && DeliveredAt(run, k, m, relaxed)
    requires IsLeader(run[k], m.to, m.term) && m.body.AppendResponse? && m.body.reject && m.body.index != NONE
    ensures m.to in run[k + 1].nodes && WellHinted(Log(run[k], m.to), m.body, next)
    ensures ResumesAt(run[k].nodes[m.to], m, next, run[k + 1].nodes[m.to])
    ensures var a := CatchUp(run[k].nodes[m.to], m.from, next);
      Sent(run, k, m, relaxed) == [a] && a in run[k + 1].net
  {
    var hs := HistoryOf(run);
    RejectionRead(run, hs, k, m);
    next := Resumed(Log(run[k], m.to), m.body);
    RejectionStep(run, hs, k, m, relaxed, next);
  }

  lemma RejectionStep(run: seq<State>, hs: seq<History>, k: nat, m: Message, relaxed: bool, next: nat)
    requires Chronicle(run, hs) && DeliveredAt(run, k, m, relaxed) && IsLeader(run[k], m.to, m.term)
    requires m.body.AppendResponse? && m.body.reject && m.body.index != NONE
    requires next == BackOff(run[k].nodes[m.to], m.body) && 1 <= next <= |Log(run[k], m.to)|
    ensures m.to in run[k + 1].nodes && ResumesAt(run[k].nodes[m.to], m, next, run[k + 1].nodes[m.to])
    ensures var a := CatchUp(run[k].nodes[m.to], m.from, next);
      Sent(run, k, m, relaxed) == [a] && a in run[k + 1].net
  {
    var n, n' := Receiver(run, hs, k, m, relaxed);
    Resends(n, m, relaxed, next);
    assert n'.msgs[0] in Elems(n'.msgs);
  }

  // ----- The search goes down -----

  /** Two logs that both have term `t` at an index up to which one of them runs. */
  lemma SameTermBelow(h: History, es: seq<Entry>, log: seq<Entry>, x: nat, y: nat, t: Term)
    requires ReignLogs(h) && OnRecord(h, es) && OnRecord(h, log) && 1 <= x <= y <= |log| && x <= |es|
    requires TermAt(es, x) == t && TermAt(log, y) == t
    ensures TermAt(log, x) == t
  {
    Covered(h, es, x - 1);
    Covered(h, log, y - 1);
    assert es[x - 1] == es[..x][x - 1] == h.reigns[t].log[x - 1];
    assert log[x - 1] == log[..y][x - 1] == h.reigns[t].log[x - 1];
  }

  /** Where the leader resumes when log `es` rejected an append at `x`. */
  lemma ResumesBelow(h: History, es: seq<Entry>, a: Body, log: seq<Entry>)
    requires ReignLogs(h) && OnRecord(h, es) && OnRecord(h, log) && a.Append? && Rooted(a)
    requires !Fitting(es, a) && a.index <= |log| && a.logTerm == TermAt(log, a.index)
    ensures Resumed(log, Rejection(es, a)) <= a.index
  {
    var b := Rejection(es, a);
    if b.logTerm != NONE && |log| >= 2 && TermAt(log, |log| - 1) == b.logTerm && a.index < |log| {
      SameTermBelow(h, es, log, a.index, |log| - 1, b.logTerm);
      assert false;
    }
  }

  /** Append `a` is delivered in step `k` and rejected by `r`, `r` is delivered in step `l`,
      and append `more` answers it; the flags are those of the two deliveries. */
  datatype Probe = Probe(a: Message, k: nat, relaxed: bool, r: Message, l: nat, relaxed': bool, more: Message)

  ghost predicate Probes(run: seq<State>, p: Probe) {
    && DeliveredAt(run, p.k, p.a, p.relaxed) && p.a.body.Append? && p.r in Sent(run, p.k, p.a, p.relaxed)
    && p.r.body.AppendResponse? && p.r.body.reject && p.r.body.index != NONE
    && p.k < p.l && DeliveredAt(run, p.l, p.r, p.relaxed') && IsLeader(run[p.l], p.r.to, p.r.term)
    && p.more in Sent(run, p.l, p.r, p.relaxed')
  }

  lemma AppendStands(run: seq<State>, hs: seq<History>, k: nat, l: nat, a: Message)
    requires Chronicle(run, hs) && k <= l < |run| && a in run[k].net && a.body.Append?
    requires IsLeader(run[l], a.from, a.term)
    ensures a.body.index <= |Log(run[l], a.from)| && a.body.logTerm == TermAt(Log(run[l], a.from), a.body.index)
  {
    MessageFacts(run[k], hs[k], a);
    HistoryGrows(run, hs, k, l);
    ExtendedAppend(hs[k], hs[l], a);
    Reigning(run[l], hs[l], a.from);
  }

  lemma ProbeRejected(run: seq<State>, p: Probe)
    requires IsRun(run) && TallyExact(|run[0].peers|) && Probes(run, p)
    ensures p.a.to in run[p.k].nodes && Rooted(p.a.body) && !Fitting(Log(run[p.k], p.a.to), p.a.body)
    ensures p.r == Message(p.a.to, p.a.from, p.a.term, Rejection(Log(run[p.k], p.a.to), p.a.body))
  {
    AppendAnswered(run, p.k, p.a, p.relaxed);
  }

  lemma ProbeAnswered(run: seq<State>, p: Probe)
    requires IsRun(run) && TallyExact(|run[0].peers|) && Probes(run, p)
    ensures var next := Resumed(Log(run[p.l], p.r.to), p.r.body);
      && 1 <= next <= |Log(run[p.l], p.r.to)| && run[p.l].nodes[p.r.to].id == p.r.to
      && p.more == CatchUp(run[p.l].nodes[p.r.to], p.r.from, next)
  {
    var next := RejectionAnswered(run, p.l, p.r, p.relaxed');
  }

  lemma ProbeBelow(run: seq<State>, hs: seq<History>, p: Probe)
    requires Chronicle(run, hs) && Probes(run, p)
    requires p.a.to in run[p.k].nodes && Rooted(p.a.body) && !Fitting(Log(run[p.k], p.a.to), p.a.body)
    requires p.r == Message(p.a.to, p.a.from, p.a.term, Rejection(Log(run[p.k], p.a.to), p.a.body))
    ensures Resumed(Log(run[p.l], p.r.to), p.r.body) <= p.a.body.index
  {
    AppendStands(run, hs, p.k, p.l, p.a);
    RecordedAt(run, hs, p.k, p.l, p.a.to);
    RecordedAt(run, hs, p.l, p.l, p.r.to);
    ResumesBelow(hs[p.l], Log(run[p.k], p.a.to), p.a.body, Log(run[p.l], p.r.to));
  }

  /** One append leads to another, from and to the same nodes, that starts earlier. */
  predicate Descends(a: Message, a': Message) {
    && a.body.Append? && a'.body.Append? && a'.from == a.from && a'.to == a.to && a'.term == a.term
    && a'.body.index < a.body.index
  }

  /** The append that answers a rejection starts before the one that was rejected. */
  lemma SearchDescends(run: seq<State>, p: Probe)
    requires IsRun(run) && TallyExact(|run[0].peers|) && Probes(run, p)
    ensures Descends(p.a, p.more)
  {
    var hs := HistoryOf(run);
    ProbeRejected(run, p);
    ProbeAnswered(run, p);
    ProbeBelow(run, hs, p);
  }

  /** Each append of the search answers the rejection of the one before. */
  predicate Linked(ps: seq<Probe>) {
    forall j {:trigger ps[j].more} :: 0 <= j < |ps| - 1 ==> ps[j].more == ps[j + 1].a
  }

  lemma {:induction false} DescentIsShort(ps: seq<Probe>)
    requires ps != [] && Linked(ps) && forall j :: 0 <= j < |ps| ==> Descends(ps[j].a, ps[j].more)
    ensures ps[|ps| - 1].more.body.Append? && ps[0].a.body.Append?
    ensures ps[|ps| - 1].more.body.index + |ps| <= ps[0].a.body.index
    decreases |ps|
  {
    var last := |ps| - 1;
    assert Descends(ps[last].a, ps[last].more);
    if last > 0 {
      var init := ps[..last];
      assert forall j :: 0 <= j < |init| ==> init[j] == ps[j];
      DescentIsShort(init);
      assert init[last - 1].more == ps[last].a;
    }
  }

  /** So the search takes at most as many rounds as the index of its first append. */
  lemma SearchEnds(run: seq<State>, ps: seq<Probe>)
    requires IsRun(run) && TallyExact(|run[0].peers|) && ps != []
    requires Linked(ps) && forall j :: 0 <= j < |ps| ==> Probes(run, ps[j])
    ensures ps[0].a.body.Append? && |ps| <= ps[0].a.body.index
  {
    forall j | 0 <= j < |ps|
      ensures Descends(ps[j].a, ps[j].more)
    {
      SearchDescends(run, ps[j]);
    }
    DescentIsShort(ps);
  }

  // ----- Where the search gets stuck -----

  /** A rejection carries a hint except when the term is over, or when the log differs in
      its very first entry: the code then sends the index 0. */
  lemma HintMissingExactly(run: seq<State>, k: nat, m: Message, relaxed: bool, r: Message)
    requires IsRun(run) && TallyExact(|run[0].peers|) && DeliveredAt(run, k, m, relaxed) && m.body.Append?
    requires r in Sent(run, k, m, relaxed) && r.body.AppendResponse? && r.body.reject && m.to in run[k].nodes
    ensures r.body.index == NONE <==>
      m.term < run[k].nodes[m.to].term || (m.body.index == 1 && Log(run[k], m.to) != [])
  {
    AppendAnswered(run, k, m, relaxed);
  }

  /** A leader does nothing about a rejection without a hint. */
  lemma HintlessIgnored(run: seq<State>, k: nat, m: Message, relaxed: bool)
    requires IsRun(run) && TallyExact(|run[0].peers|) && DeliveredAt(run, k, m, relaxed)
    requires IsLeader(run[k], m.to, m.term) && m.body.AppendResponse? && m.body.reject && m.body.index == NONE
    ensures run[k + 1] == run[k] && Sent(run, k, m, relaxed) == []
  {
    var hs := HistoryOf(run);
    var n, n' := Receiver(run, hs, k, m, relaxed);
    assert n' == n;
    Nothing(run[k], m.to);
  }
}
