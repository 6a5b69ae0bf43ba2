/** The lifecycle relations of executions and steps, their terminal sets and the
    two validators that every stored transition goes through. */
module StateMachine {

  datatype ExecutionStatus =
    | Created | Planning | Executing | Validating | AwaitingApproval
    | Completed | Failed | Cancelled

  datatype StepStatus = Pending | Running | Succeeded | StepFailed | Skipped | StepCancelled

  datatype Verdict = Permitted | RefusedTerminal | RefusedEdge

  /** The allowed execution edges.  There is deliberately no edge from `Executing`
      to `Completed`. */
  predicate ExecutionEdge(from: ExecutionStatus, to: ExecutionStatus) {
    match from
    case Created => to.Planning? || to.Failed? || to.Cancelled?
    case Planning => to.Executing? || to.Failed? || to.Cancelled?
    case Executing => to.Validating? || to.Failed? || to.Cancelled?
    case Validating =>
      to.Completed? || to.Executing? || to.Failed? || to.AwaitingApproval? || to.Cancelled?
    case AwaitingApproval => to.Completed? || to.Failed? || to.Cancelled?
    case _ => false
  }

  predicate StepEdge(from: StepStatus, to: StepStatus) {
    match from
    case Pending => to.Running? || to.Skipped? || to.StepCancelled?
    case Running => to.Succeeded? || to.StepFailed? || to.StepCancelled?
    case _ => false
  }

  predicate Terminal(status: ExecutionStatus) {
    status.Completed? || status.Failed? || status.Cancelled?
  }

  predicate StepTerminal(status: StepStatus) {
    status.Succeeded? || status.StepFailed? || status.Skipped? || status.StepCancelled?
  }

  /** The validator first refuses leaving a terminal status and only then looks the
      pair up, so the two tests together permit exactly the edges. */
  function ValidateExecution(from: ExecutionStatus, to: ExecutionStatus): (v: Verdict)
    ensures v.Permitted? <==> ExecutionEdge(from, to)
    ensures Terminal(from) ==> !v.Permitted?
  {
    if Terminal(from) && from != to then RefusedTerminal
    else if !ExecutionEdge(from, to) then RefusedEdge
    else Permitted
  }

  function ValidateStep(from: StepStatus, to: StepStatus): (v: Verdict)
    ensures v.Permitted? <==> StepEdge(from, to)
    ensures StepTerminal(from) ==> !v.Permitted?
  {
    if StepTerminal(from) && from != to then RefusedTerminal
    else if !StepEdge(from, to) then RefusedEdge
    else Permitted
  }

  /** A path through the relation. */
  ghost predicate Path(p: seq<ExecutionStatus>) {
    forall i :: 0 < i < |p| ==> ExecutionEdge(p[i - 1], p[i])
  }

  /** Every path from creation to completion goes through validation. */
  lemma {:induction false} CompletionPassesValidation(p: seq<ExecutionStatus>)
    requires Path(p) && p != [] && p[0].Created? && p[|p| - 1].Completed?
    ensures Validating in p
  {
    var n := |p| - 1;
    assert ExecutionEdge(p[n - 1], p[n]);
    if p[n - 1].AwaitingApproval? {
      assert ExecutionEdge(p[n - 2], p[n - 1]);
      assert p[n - 2] == Validating;
    } else {
      assert p[n - 1] == Validating;
    }
  }
}
