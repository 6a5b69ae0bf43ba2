/** The shared value types: JSON documents, executions, plans, steps, governance rows. */
module Records {
  import opened StateMachine

  type Id = nat
  type Time = int

  datatype Option<+T> = None | Some(value: T)

  datatype Json =
    | JNull | JBool(flag: bool) | JNum(num: int) | JStr(text: string)
    | JArr(items: seq<Json>) | JObj(fields: map<Key, Json>)

  /** A dictionary key.  The keys the platform reserves are constructors of their own;
      `Field` is any other name. */
  datatype Key =
    | RuntimeMetaKey | ProvenanceKey
    | CancellationRequestedKey | CancellationRequestedAtKey | CancellationReasonKey
    | QueuedAtKey | WorkerIdKey | WorkerStartedAtKey
    | Field(name: string)

  type Dict = map<Key, Json>

  predicate Truthy(j: Json) {
    match j
    case JNull => false
    case JBool(b) => b
    case JNum(n) => n != 0
    case JStr(s) => s != ""
    case JArr(items) => items != []
    case JObj(fields) => fields != map[]
  }

  /** The names the control plane branches on, and every other name. */
  datatype Workflow = IncidentTriage | CostAttribution | OtherWorkflow(name: string)
  datatype Environment = Prod | OtherEnvironment(name: string)
  datatype PolicyScope = Phase3Deny | Phase3Conditional | OtherScope(name: string)
  datatype ActionType = EscalateIncident | OtherAction(name: string)

  datatype PolicyDecision = Allow | Deny | Conditional
  datatype ProposalStatus = Proposed | PolicyDenied | ProposalAwaiting | Approved | Rejected
  datatype ApprovalDecision = Approve | Reject | Defer
  datatype ReplayMode = Exact | Investigative

  /** The rows a step's own work may append between its start and its completion. */
  datatype WorkKind = ModelReasoning | KnowledgeRetrieved | ToolCallCompleted

  datatype Event =
    | StatusRow(status: ExecutionStatus)
    | StepStarted(stepId: Id)
    | StepCompleted(stepId: Id)
    | ValidationPerformed(stepId: Id)
    | StepTrace(stepId: Id, kind: WorkKind)
    | ActionProposed(proposalId: Id)
    | PolicyEvaluated(evaluationId: Id, decision: PolicyDecision)
    | ApprovalRequired(proposalId: Id, evaluationId: Id)
    | ApprovalReceived(approvalId: Id, verdict: ApprovalDecision)
    | GovernedOutcome(proposalId: Id)
    | ReplayCreated(sourceId: Id, mode: ReplayMode)

  datatype Row = Row(at: Time, event: Event)

  /** Who asked for a cancellation: the loop head that saw the flag, or a caller. */
  datatype Why = FlagSeen | AskedBy(text: string)

  datatype Reason =
    | Deadlock | NotInValidating | UnexpectedSteps | NoPlan | MissingStep | MissingContext
    | Cancellation(why: Why)

  datatype Outcome = OutcomeSuccess | OutcomeFailed | OutcomeAwaiting | OutcomeCancelled

  datatype Governance = Governance(proposalId: Id, evaluationId: Id)

  /** The parts of a stored `result` document that the control plane itself writes. */
  datatype Result = Result(
    outcome: Outcome,
    stepCount: nat,
    reason: Option<Reason>,
    proposedAction: Option<Id>,
    policyDecision: Option<PolicyDecision>,
    governance: Option<Governance>)

  datatype Context = Context(environment: Environment, policyScope: PolicyScope)

  datatype Execution = Execution(
    executionId: Id,
    workflow: Workflow,
    status: ExecutionStatus,
    contextId: Id,
    parentId: Option<Id>,
    planId: Option<Id>,
    input: Dict,
    result: Option<Result>,
    timeline: seq<Row>,
    createdAt: Time,
    updatedAt: Time,
    completedAt: Option<Time>,
    cancelledAt: Option<Time>)

  datatype Spec = Spec(key: string, kind: string)
  datatype Edge = Edge(from: string, to: string)

  /** What a planner returns: specs in plan order and dependency edges between keys. */
  datatype Draft = Draft(specs: seq<Spec>, edges: seq<Edge>)

  datatype Plan = Plan(executionId: Id, draft: Draft, createdAt: Time)

  datatype StepType = ValidationStep | WorkStep(kind: string)

  datatype Step = Step(
    executionId: Id,
    planId: Id,
    key: string,
    stepType: StepType,
    status: StepStatus,
    dependencies: seq<Id>,
    createdAt: Time,
    updatedAt: Time)

  datatype StepResult = StepResult(output: Json)

  datatype Proposal = Proposal(
    executionId: Id, actionType: ActionType, status: ProposalStatus, requiresApproval: bool)

  datatype Evaluation = Evaluation(executionId: Id, decision: PolicyDecision, proposalId: Id)

  datatype Approval = Approval(
    executionId: Id, evaluationId: Id, proposalId: Id,
    approver: string, decision: ApprovalDecision, decidedAt: Time)

  function Lower(s: string): (r: string)
    ensures |r| == |s|
  {
    if s == "" then ""
    else [if 'A' <= s[0] <= 'Z' then s[0] - 'A' + 'a' else s[0]] + Lower(s[1..])
  }

  predicate NoCapitals(s: string) {
    s == "" || (!('A' <= s[0] <= 'Z') && NoCapitals(s[1..]))
  }

  lemma {:induction false} LowerKeepsLower(s: string)
    requires NoCapitals(s)
    ensures Lower(s) == s
  {
    if s != "" {
      LowerKeepsLower(s[1..]);
    }
  }

  const VALIDATION: string := "validation"

  /** A kind counts as validation whatever its letter case; anything else is work. */
  function TypeOf(kind: string): StepType {
    if Lower(kind) == VALIDATION then ValidationStep else WorkStep(kind)
  }
}
