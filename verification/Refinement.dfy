/** The objects and the runs: in every state of every run, what the methods of
    `RaftContext` and `RawNode` take for granted holds. */
module Refinement {
  import opened RaftTypes
  import opened Cluster
  import opened Actions
  import opened Steps
  import opened Runs
  import opened Safety
  import RaftCore

  /** `RaftContext.Step` may be called with every input of a run. */
  lemma StepDefined(run: seq<State>, k: nat, i: NodeId, m: Message)
    requires IsRun(run) && TallyExact(|run[0].peers|) && k < |run|
    requires i in run[k].nodes && Input(run[k], i, m)
    ensures RaftCore.Steppable(run[k].nodes[i], m)
  {
    var hs := HistoryOf(run);
    NodeFacts(run[k], hs[k], i);
    InputTransfer(run[k], hs[k], i, m);
    var n := run[k].nodes[i];
    if m in run[k].net && m.to == i {
      MessageFacts(run[k], hs[k], m);
      if n.role == Leader && m.term == n.term && m.body.AppendResponse? && m.body.reject && m.body.index != NONE {
        ConflictSearchDefined(run, k, i, m);
      }
    }
  }

  /** A round of `RawNode` may be taken in every state of a run with fresh
      elections. */
  lemma RoundDefined(run: seq<State>, k: nat, i: NodeId)
    requires IsRun(run) && TallyExact(|run[0].peers|) && FreshElections(run)
    requires k < |run| && i in run[k].nodes
    ensures RaftCore.Roundable(run[k].nodes[i].log)
  {
    StorageAgrees(run, k, i);
    ReadyInRange(run, k, i);
  }
}
