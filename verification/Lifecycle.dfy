/** One execution's rows and the atomic sections that change them.

    A `Case` is everything the store holds for one execution.  Each function below is
    one get..update section of the orchestrator, or of one of the services that act on
    the same execution, and `Apply` puts them together as a transition system: one engine
    runner, whose position is a `Pc`, interleaved in any order with enqueue, worker,
    cancellation and approval actors. */
module Lifecycle {
  import opened StateMachine
  import opened Records
  import opened RuntimeMeta
  import Policy

  datatype Case = Case(
    ex: Execution,
    ctx: Option<Context>,
    plans: map<Id, Plan>,
    steps: map<Id, Step>,
    results: map<Id, StepResult>,
    proposals: map<Id, Proposal>,
    evaluations: map<Id, Evaluation>,
    approvals: map<Id, Approval>)

  /** Where the engine runner stands between two atomic sections. */
  datatype Pc =
    | AtStart
    | AtLoop
    | AtDecide
    | AtStepBegin(stepId: Id)
    | AtStepStarted(stepId: Id)
    | AtStepWork(stepId: Id)
    | AtStepDone(stepId: Id)
    | AtCancel
    | AtRaised(reason: Reason)
    | AtRest(crashed: bool)

  /** What the work of a step does next: append a trace row, return, or raise. */
  datatype Report = Traces(kind: WorkKind) | Returns(result: StepResult) | Raises

  /** Everything the engine takes from outside during one section: the clock, a fresh
      identifier, the planner's answer and what the step's work does next. */
  datatype Input = Input(now: Time, newId: Id, draft: Draft, report: Report)

  datatype Action =
    | Engine(input: Input)
    | StartRun
    | Enqueue(at: Time)
    | WorkerMark(worker: string, at: Time)
    | RequestCancel(why: Why, at: Time)
    | CancelNow(why: Why, at: Time)
    | SubmitApproval(decision: ApprovalDecision, approver: string, id: Id, at: Time)

  datatype Sys = Sys(c: Case, pc: Pc)

  // ---------------------------------------------------------------- record updates

  function Append(ex: Execution, event: Event, now: Time): Execution {
    ex.(timeline := ex.timeline + [Row(now, event)], updatedAt := now)
  }

  function Enter(ex: Execution, status: ExecutionStatus, now: Time): Execution {
    Append(ex.(status := status), StatusRow(status), now)
  }

  function SetStep(c: Case, sid: Id, status: StepStatus, now: Time): Case
    requires sid in c.steps
  {
    c.(steps := c.steps[sid := c.steps[sid].(status := status, updatedAt := now)])
  }

  // ---------------------------------------------------------------- planning

  function Keys(specs: seq<Spec>): set<string> {
    set s | s in specs :: s.key
  }

  /** The dictionary from keys to new step ids keeps the last id of a repeated key. */
  function LastIndex(specs: seq<Spec>, key: string): (i: nat)
    requires key in Keys(specs)
    ensures i < |specs| && specs[i].key == key
    ensures forall j :: i < j < |specs| ==> specs[j].key != key
  {
    if specs[|specs| - 1].key == key then |specs| - 1
    else LastIndex(specs[..|specs| - 1], key)
  }

  /** An edge into a known key must come from a known key, or instantiation fails. */
  predicate EdgesResolve(draft: Draft) {
    forall e :: e in draft.edges && e.to in Keys(draft.specs) ==> e.from in Keys(draft.specs)
  }

  function StepId(draft: Draft, planId: Id, key: string): Id
    requires key in Keys(draft.specs)
  {
    planId + 1 + LastIndex(draft.specs, key)
  }

  function Dependencies(draft: Draft, planId: Id, edges: seq<Edge>, key: string): (ds: seq<Id>)
    requires forall e :: e in edges && e.to == key ==> e.from in Keys(draft.specs)
    ensures forall e :: e in edges && e.to == key ==> StepId(draft, planId, e.from) in ds
    ensures forall d :: d in ds ==>
      exists e :: e in edges && e.to == key && d == StepId(draft, planId, e.from)
  {
    if edges == [] then []
    else
      var ds := Dependencies(draft, planId, edges[..|edges| - 1], key);
      var e := edges[|edges| - 1];
      if e.to == key then ds + [StepId(draft, planId, e.from)] else ds
  }

  function NewStep(draft: Draft, execId: Id, planId: Id, now: Time, i: nat): Step
    requires EdgesResolve(draft) && i < |draft.specs|
  {
    var s := draft.specs[i];
    assert s.key in Keys(draft.specs);
    Step(execId, planId, s.key, TypeOf(s.kind), Pending,
         Dependencies(draft, planId, draft.edges, s.key), now, now)
  }

  /** Index `i` survives when no later spec carries the same key. */
  predicate Survives(specs: seq<Spec>, i: nat) {
    i < |specs| && forall j :: i < j < |specs| ==> specs[j].key != specs[i].key
  }

  predicate SurvivingId(draft: Draft, planId: Id, sid: Id) {
    planId < sid <= planId + |draft.specs| && Survives(draft.specs, sid - planId - 1)
  }

  function NewSteps(draft: Draft, execId: Id, planId: Id, now: Time): map<Id, Step>
    requires EdgesResolve(draft)
  {
    map sid: Id | planId < sid <= planId + |draft.specs| && SurvivingId(draft, planId, sid)
      :: NewStep(draft, execId, planId, now, sid - planId - 1)
  }

  // ---------------------------------------------------------------- scheduling

  predicate Ready(steps: map<Id, Step>, sid: Id) {
    && sid in steps
    && steps[sid].status.Pending?
    && forall d :: d in steps[sid].dependencies ==> d in steps && steps[d].status.Succeeded?
  }

  ghost predicate ReadyWithKey(steps: map<Id, Step>, key: string, sid: Id) {
    Ready(steps, sid) && steps[sid].key == key
  }

  ghost function ReadyStepOf(steps: map<Id, Step>, key: string): (r: Option<Id>)
    ensures r.Some? ==> ReadyWithKey(steps, key, r.value)
    ensures r.None? ==> forall sid :: !ReadyWithKey(steps, key, sid)
  {
    if exists sid :: ReadyWithKey(steps, key, sid) then
      var sid :| ReadyWithKey(steps, key, sid);
      Some(sid)
    else None
  }

  /** The first ready step in plan order. */
  ghost function NextReady(specs: seq<Spec>, steps: map<Id, Step>): (r: Option<Id>)
    ensures r.Some? ==> Ready(steps, r.value)
  {
    if specs == [] then None
    else if ReadyStepOf(steps, specs[0].key).Some? then ReadyStepOf(steps, specs[0].key)
    else NextReady(specs[1..], steps)
  }

  predicate AllSucceeded(steps: map<Id, Step>) {
    forall sid :: sid in steps ==> steps[sid].status.Succeeded?
  }

  predicate WorkSucceeded(steps: map<Id, Step>) {
    forall sid :: sid in steps && steps[sid].stepType.WorkStep? ==> steps[sid].status.Succeeded?
  }

  predicate HasValidation(steps: map<Id, Step>) {
    exists sid :: sid in steps && steps[sid].stepType.ValidationStep?
  }

  predicate HasWork(steps: map<Id, Step>) {
    exists sid :: sid in steps && steps[sid].stepType.WorkStep?
  }

  predicate HasPendingValidation(steps: map<Id, Step>) {
    exists sid :: sid in steps && steps[sid].stepType.ValidationStep? && steps[sid].status.Pending?
  }

  predicate HasPending(steps: map<Id, Step>) {
    exists sid :: sid in steps && steps[sid].status.Pending?
  }

  /** When the loop head moves an execution into its validation phase. */
  predicate GateOpens(steps: map<Id, Step>) {
    HasWork(steps) && WorkSucceeded(steps) && HasPendingValidation(steps)
  }

  // ---------------------------------------------------------------- engine sections

  /** Store the planner's answer, instantiate its steps and start executing.  An edge
      from an unknown key raises an error that nobody catches, with the plan already
      stored. */
  function Instantiate(c: Case, input: Input): (Case, Pc) {
    var planId := input.newId;
    var c1 := c.(plans := c.plans[planId := Plan(c.ex.executionId, input.draft, input.now)]);
    if !EdgesResolve(input.draft) then (c1, AtRest(true))
    else
      (c1.(steps := c.steps + NewSteps(input.draft, c.ex.executionId, planId, input.now),
           ex := Enter(c.ex.(planId := Some(planId)), Executing, input.now)),
       AtLoop)
  }

  function Begin(c: Case, input: Input): (Case, Pc) {
    match c.ex.status
    case Created => Instantiate(c.(ex := Enter(c.ex, Planning, input.now)), input)
    case Planning => Instantiate(c, input)
    case _ => if Terminal(c.ex.status) then (c, AtRest(false)) else (c, AtLoop)
  }

  predicate PlanResolves(c: Case) {
    c.ex.planId.Some? && c.ex.planId.value in c.plans
  }

  function LoopHead(c: Case, now: Time): (Case, Pc) {
    if CancellationRequested(c.ex.input) then (c, AtCancel)
    else if c.ex.status.AwaitingApproval? || Terminal(c.ex.status) then (c, AtRest(false))
    else if !PlanResolves(c) then (c, AtRaised(NoPlan))
    else if c.ex.status.Executing? && GateOpens(c.steps) then
      (c.(ex := Enter(c.ex, Validating, now)), AtDecide)
    else (c, AtDecide)
  }

  function Complete(ex: Execution, result: Result, now: Time): Execution {
    Enter(ex.(completedAt := Some(now), result := Some(result)), Completed, now)
  }

  function GovernedResult(
    outcome: Outcome, stepCount: nat, pid: Id, decision: PolicyDecision, gov: Option<Governance>): Result
  {
    Result(outcome, stepCount, None, Some(pid), Some(decision), gov)
  }

  /** The proposal as it is left after policy evaluation. */
  function FinalizedProposal(execId: Id, decision: PolicyDecision): Proposal {
    match decision
    case Deny => Proposal(execId, EscalateIncident, PolicyDenied, false)
    case Allow => Proposal(execId, EscalateIncident, Approved, false)
    case Conditional => Proposal(execId, EscalateIncident, ProposalAwaiting, true)
  }

  function FinalStatus(decision: PolicyDecision): ExecutionStatus {
    match decision
    case Deny => Failed
    case Allow => Completed
    case Conditional => AwaitingApproval
  }

  function FinalRow(decision: PolicyDecision, pid: Id, eid: Id): Event {
    if decision.Conditional? then ApprovalRequired(pid, eid) else GovernedOutcome(pid)
  }

  function FinalDoc(decision: PolicyDecision, stepCount: nat, pid: Id, eid: Id): Result {
    match decision
    case Deny => GovernedResult(OutcomeFailed, stepCount, pid, Deny, None)
    case Allow => GovernedResult(OutcomeSuccess, stepCount, pid, Allow, None)
    case Conditional => GovernedResult(OutcomeAwaiting, stepCount, pid, Conditional, Some(Governance(pid, eid)))
  }

  function FinalRows(decision: PolicyDecision, pid: Id, eid: Id, now: Time): seq<Row> {
    [Row(now, ActionProposed(pid)), Row(now, PolicyEvaluated(eid, decision)),
     Row(now, FinalRow(decision, pid, eid)), Row(now, StatusRow(FinalStatus(decision)))]
  }

  /** All changes a settling section makes to the execution record at once. */
  function Settle(
    ex: Execution, status: ExecutionStatus, doc: Result, rows: seq<Row>, now: Time): Execution
  {
    ex.(status := status, result := Some(doc), timeline := ex.timeline + rows, updatedAt := now,
        completedAt := if status.Completed? then Some(now) else ex.completedAt)
  }

  function FinalizedExecution(
    ex: Execution, stepCount: nat, decision: PolicyDecision, pid: Id, eid: Id, now: Time): Execution
  {
    Settle(ex, FinalStatus(decision), FinalDoc(decision, stepCount, pid, eid),
           FinalRows(decision, pid, eid, now), now)
  }

  /** The proposal and the evaluation, as policy evaluation leaves them. */
  function WithGovernanceRows(c: Case, decision: PolicyDecision, pid: Id): Case {
    c.(proposals := c.proposals[pid := FinalizedProposal(c.ex.executionId, decision)],
       evaluations := c.evaluations[pid + 1 := Evaluation(c.ex.executionId, decision, pid)])
  }

  /** Propose the escalation, evaluate policy, and branch on the decision. */
  function Finalize(c: Case, ctx: Context, input: Input): Case {
    var decision := Policy.Decision(ctx, EscalateIncident);
    var pid := input.newId;
    WithGovernanceRows(c, decision, pid).(
      ex := FinalizedExecution(c.ex, |c.steps|, decision, pid, pid + 1, input.now))
  }

  function Finish(c: Case, input: Input): (Case, Pc) {
    if c.ex.workflow.IncidentTriage? then
      if c.ctx.None? then (c, AtRaised(MissingContext))
      else (Finalize(c, c.ctx.value, input), AtRest(false))
    else
      (c.(ex := Complete(c.ex, Result(OutcomeSuccess, |c.steps|, None, None, None, None), input.now)),
       AtRest(false))
  }

  ghost function Decide(c: Case, input: Input): (Case, Pc) {
    if Terminal(c.ex.status) then (c, AtRest(false))
    else if !PlanResolves(c) then (c, AtRaised(NoPlan))
    else
      var next := NextReady(c.plans[c.ex.planId.value].draft.specs, c.steps);
      if next.Some? then (c, AtStepBegin(next.value))
      else if AllSucceeded(c.steps) && c.ex.status.Validating? then Finish(c, input)
      else if AllSucceeded(c.steps) && c.ex.status.Executing? then (c, AtRaised(NotInValidating))
      else if HasPending(c.steps) then (c, AtRaised(Deadlock))
      else (c, AtRaised(UnexpectedSteps))
  }

  function BeginStep(c: Case, sid: Id, now: Time): (Case, Pc) {
    if sid !in c.steps then (c, AtRaised(MissingStep))
    else if !ValidateStep(c.steps[sid].status, Running).Permitted? then (c, AtRest(true))
    else (SetStep(c, sid, Running, now), AtStepStarted(sid))
  }

  /** Work that raises leaves the run with its step still marked as running. */
  function WorkOnStep(c: Case, sid: Id, input: Input): (Case, Pc) {
    match input.report
    case Traces(kind) => (c.(ex := Append(c.ex, StepTrace(sid, kind), input.now)), AtStepWork(sid))
    case Raises => (c, AtRest(true))
    case Returns(result) =>
      if sid !in c.steps then (c, AtRest(true))
      else (SetStep(c, sid, Succeeded, input.now).(results := c.results[sid := result]), AtStepDone(sid))
  }

  function CompletedRecord(ex: Execution, checks: bool, sid: Id, now: Time): Execution {
    var done := Append(ex, StepCompleted(sid), now);
    if checks then Append(done, ValidationPerformed(sid), now) else done
  }

  function CompleteStep(c: Case, sid: Id, now: Time): Case {
    c.(ex := CompletedRecord(c.ex, sid in c.steps && c.steps[sid].stepType.ValidationStep?, sid, now))
  }

  /** Completing a step appends its row, and one more for a validation step, and changes
      nothing else in the record. */
  lemma CompletedRecordShape(ex: Execution, checks: bool, sid: Id, now: Time)
    ensures var ex' := CompletedRecord(ex, checks, sid, now);
      && ex' == ex.(timeline := ex'.timeline, updatedAt := now)
      && (var one := ex.timeline + [Row(now, StepCompleted(sid))];
          ex'.timeline == if checks then one + [Row(now, ValidationPerformed(sid))] else one)
  {
  }

  lemma CompleteStepShape(c: Case, sid: Id, now: Time)
    ensures var c' := CompleteStep(c, sid, now);
      && c' == c.(ex := c'.ex) && c'.ex == c.ex.(timeline := c'.ex.timeline, updatedAt := now)
      && (var one := c.ex.timeline + [Row(now, StepCompleted(sid))];
          c'.ex.timeline == one || c'.ex.timeline == one + [Row(now, ValidationPerformed(sid))])
  {
    CompletedRecordShape(c.ex, sid in c.steps && c.steps[sid].stepType.ValidationStep?, sid, now);
  }

  function WithInput(c: Case, input: Dict): Case {
    c.(ex := c.ex.(input := input))
  }

  function Cancel(c: Case, why: Why, now: Time): Case {
    EnterCancelled(WithInput(c, MarkCancelled(c.ex.input, why, now)), why, now)
  }

  function EnterCancelled(c: Case, why: Why, now: Time): Case {
    if !ValidateExecution(c.ex.status, Cancelled).Permitted? then c
    else
      var doc := Result(OutcomeCancelled, 0, Some(Cancellation(why)), None, None, None);
      c.(ex := Enter(c.ex.(cancelledAt := Some(now), result := Some(doc)), Cancelled, now))
  }

  function Fail(c: Case, reason: Reason, now: Time): Case {
    if !ValidateExecution(c.ex.status, Failed).Permitted? then c
    else
      var doc := Result(OutcomeFailed, 0, Some(reason), None, None, None);
      c.(ex := Enter(c.ex.(result := Some(doc)), Failed, now))
  }

  ghost function EngineNext(c: Case, pc: Pc, input: Input): (Case, Pc) {
    match pc
    case AtStart => Begin(c, input)
    case AtLoop => LoopHead(c, input.now)
    case AtDecide => Decide(c, input)
    case AtStepBegin(sid) => BeginStep(c, sid, input.now)
    case AtStepStarted(sid) => (c.(ex := Append(c.ex, StepStarted(sid), input.now)), AtStepWork(sid))
    case AtStepWork(sid) => WorkOnStep(c, sid, input)
    case AtStepDone(sid) => (CompleteStep(c, sid, input.now), AtLoop)
    case AtCancel => (Cancel(c, FlagSeen, input.now), AtRest(false))
    case AtRaised(reason) => (Fail(c, reason, input.now), AtRest(false))
    case AtRest(_) => (c, pc)
  }

  // ---------------------------------------------------------------- the other actors

  datatype ApprovalError = NotAwaiting | MissingGovernance | DeferUnsupported | ProposalMissing

  /** The decision either leaves an error and the case it stopped in, or settles the
      execution. */
  function Decided(c: Case, decision: ApprovalDecision, approver: string, id: Id, now: Time):
    (Case, Option<ApprovalError>)
  {
    if !c.ex.status.AwaitingApproval? then (c, Some(NotAwaiting))
    else if c.ex.result.None? || c.ex.result.value.governance.None? then (c, Some(MissingGovernance))
    else if decision.Defer? then (c, Some(DeferUnsupported))
    else
      var gov := c.ex.result.value.governance.value;
      var pid := gov.proposalId;
      var c1 := c.(approvals := c.approvals[id :=
        Approval(c.ex.executionId, gov.evaluationId, pid, approver, decision, now)]);
      if pid !in c.proposals then (c1, Some(ProposalMissing))
      else
        (c1.(proposals := c.proposals[pid := c.proposals[pid].(status := DecidedProposal(decision))],
             ex := DecidedExecution(c.ex, |c.steps|, decision, pid, id, now)),
         None)
  }

  function DecidedProposal(decision: ApprovalDecision): ProposalStatus {
    if decision.Reject? then Rejected else Approved
  }

  function DecidedStatus(decision: ApprovalDecision): ExecutionStatus {
    if decision.Reject? then Failed else Completed
  }

  function DecidedExecution(
    ex: Execution, stepCount: nat, decision: ApprovalDecision, pid: Id, id: Id, now: Time): Execution
  {
    var outcome := if decision.Reject? then OutcomeFailed else OutcomeSuccess;
    Settle(ex, DecidedStatus(decision), GovernedResult(outcome, stepCount, pid, Conditional, None),
           [Row(now, ApprovalReceived(id, decision)), Row(now, GovernedOutcome(pid)),
            Row(now, StatusRow(DecidedStatus(decision)))], now)
  }

  ghost function Apply(s: Sys, a: Action): Sys {
    match a
    case Engine(input) => var (c, pc) := EngineNext(s.c, s.pc, input); Sys(c, pc)
    case StartRun => if s.pc.AtRest? then s.(pc := AtStart) else s
    case Enqueue(at) => s.(c := WithInput(s.c, MarkQueued(s.c.ex.input, at)))
    case WorkerMark(worker, at) => s.(c := WithInput(s.c, MarkWorkerStarted(s.c.ex.input, worker, at)))
    case RequestCancel(why, at) => s.(c := WithInput(s.c, MarkCancelled(s.c.ex.input, why, at)))
    case CancelNow(why, at) => s.(c := Cancel(s.c, why, at))
    case SubmitApproval(decision, approver, id, at) =>
      s.(c := Decided(s.c, decision, approver, id, at).0)
  }

  ghost function Run(s: Sys, acts: seq<Action>): Sys
    decreases |acts|
  {
    if acts == [] then s else Run(Apply(s, acts[0]), acts[1..])
  }

  /** What `create_execution` stores, possibly with rows a replay put there at creation. */
  predicate Fresh(c: Case) {
    && c.ex.status.Created?
    && c.ctx.Some?
    && c.ex.planId.None? && c.ex.result.None? && c.ex.completedAt.None? && c.ex.cancelledAt.None?
    && (forall r :: r in c.ex.timeline ==> r.event.ReplayCreated?)
    && c.plans == map[] && c.steps == map[] && c.results == map[]
    && c.proposals == map[] && c.evaluations == map[] && c.approvals == map[]
  }

  ghost predicate Initial(s: Sys) {
    Fresh(s.c) && s.pc == AtRest(false)
  }
}
