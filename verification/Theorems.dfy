/** Theorems over every run of one execution: an arbitrary interleaving of the engine
    runner with enqueue, worker, cancellation and approval actors. */
module Theorems {
  import opened StateMachine
  import opened Records
  import opened RuntimeMeta
  import opened Timeline
  import opened Lifecycle
  import opened Safety
  import opened Effects
  import Policy

  // ---------------------------------------------------------------- runs

  lemma {:induction false} RunConcat(s: Sys, a: seq<Action>, b: seq<Action>)
    ensures Run(s, a + b) == Run(Run(s, a), b)
    decreases |a|
  {
    if a == [] {
      assert a + b == b;
    } else {
      assert (a + b)[1..] == a[1..] + b;
      RunConcat(Apply(s, a[0]), a[1..], b);
    }
  }

  lemma RunSnoc(s: Sys, acts: seq<Action>, i: nat)
    requires i < |acts|
    ensures Run(s, acts[..i + 1]) == Apply(Run(s, acts[..i]), acts[i])
  {
    assert acts[..i + 1] == acts[..i] + [acts[i]];
    RunConcat(s, acts[..i], [acts[i]]);
    assert Run(Run(s, acts[..i]), [acts[i]]) == Run(Apply(Run(s, acts[..i]), acts[i]), []);
  }

  lemma ReachableInv(s: Sys, acts: seq<Action>)
    requires Initial(s)
    ensures Inv(Run(s, acts))
  {
    InvInitial(s);
    RunKeeps(s, acts);
  }

  // ---------------------------------------------------------------- terminal is final

  /** Once terminal, the status, the result and both terminal stamps never change,
      whatever any actor does; this needs no invariant. */
  lemma {:induction false} TerminalFrozen(s: Sys, acts: seq<Action>)
    requires Terminal(s.c.ex.status)
    ensures SameOutcome(s.c.ex, Run(s, acts).c.ex)
    decreases |acts|
  {
    if acts != [] {
      ActionEffect(s, acts[0]);
      TerminalFrozen(Apply(s, acts[0]), acts[1..]);
    }
  }

  // ---------------------------------------------------------------- stamps and results

  function OutcomeFor(status: ExecutionStatus): Option<Outcome> {
    match status
    case Completed => Some(OutcomeSuccess)
    case Failed => Some(OutcomeFailed)
    case Cancelled => Some(OutcomeCancelled)
    case AwaitingApproval => Some(OutcomeAwaiting)
    case _ => None
  }

  /** The stamps and the result say what the status says. */
  predicate StampsAgree(ex: Execution) {
    && (ex.completedAt.Some? <==> ex.status.Completed?)
    && (ex.cancelledAt.Some? <==> ex.status.Cancelled?)
    && OutcomeFor(ex.status) == (if ex.result.Some? then Some(ex.result.value.outcome) else None)
  }

  lemma DecideStamps(c: Case, input: Input)
    requires StampsAgree(c.ex)
    ensures StampsAgree(Decide(c, input).0.ex)
  {
  }

  lemma BeginStamps(c: Case, input: Input)
    requires StampsAgree(c.ex)
    ensures StampsAgree(Begin(c, input).0.ex)
  {
    if c.ex.status.Created? {
      InstantiateStamps(c.(ex := Enter(c.ex, Planning, input.now)), input);
    } else if c.ex.status.Planning? {
      InstantiateStamps(c, input);
    }
  }

  lemma InstantiateStamps(c: Case, input: Input)
    requires StampsAgree(c.ex) && c.ex.status.Planning?
    ensures StampsAgree(Instantiate(c, input).0.ex)
  {
  }

  lemma ApprovalStamps(c: Case, d: ApprovalDecision, approver: string, id: Id, now: Time)
    requires StampsAgree(c.ex)
    ensures StampsAgree(Decided(c, d, approver, id, now).0.ex)
  {
  }

  lemma CancelStamps(c: Case, why: Why, now: Time)
    requires StampsAgree(c.ex)
    ensures StampsAgree(Cancel(c, why, now).ex)
  {
    var c1 := WithInput(c, MarkCancelled(c.ex.input, why, now));
    assert StampsAgree(EnterCancelled(c1, why, now).ex);
  }

  predicate SameStamps(a: Execution, b: Execution) {
    && b.completedAt == a.completedAt && b.cancelledAt == a.cancelledAt && b.result == a.result
    && OutcomeFor(b.status) == OutcomeFor(a.status)
  }

  lemma SameAgree(a: Execution, b: Execution)
    requires StampsAgree(a) && SameStamps(a, b)
    ensures StampsAgree(b)
  {
  }

  lemma StepSame(c: Case, pc: Pc, input: Input)
    requires pc.AtStepBegin? || pc.AtStepStarted? || pc.AtStepWork? || pc.AtStepDone? || pc.AtRest?
    ensures SameStamps(c.ex, EngineNext(c, pc, input).0.ex)
  {
    match pc
    case AtStepWork(sid) => WorkSame(c, sid, input);
    case AtStepDone(sid) => EndSame(c, sid, input.now);
    case _ =>
  }

  lemma WorkSame(c: Case, sid: Id, input: Input)
    ensures SameStamps(c.ex, WorkOnStep(c, sid, input).0.ex)
  {
  }

  lemma EndSame(c: Case, sid: Id, now: Time)
    ensures SameStamps(c.ex, CompleteStep(c, sid, now).ex)
  {
    CompleteStepShape(c, sid, now);
  }

  lemma StepStamps(c: Case, pc: Pc, input: Input)
    requires StampsAgree(c.ex)
    requires pc.AtStepBegin? || pc.AtStepStarted? || pc.AtStepWork? || pc.AtStepDone? || pc.AtRest?
    ensures StampsAgree(EngineNext(c, pc, input).0.ex)
  {
    StepSame(c, pc, input);
    SameAgree(c.ex, EngineNext(c, pc, input).0.ex);
  }

  lemma HeadStamps(c: Case, now: Time)
    requires StampsAgree(c.ex)
    ensures StampsAgree(LoopHead(c, now).0.ex)
  {
  }

  lemma FailStamps(c: Case, reason: Reason, now: Time)
    requires StampsAgree(c.ex)
    ensures StampsAgree(Fail(c, reason, now).ex)
  {
  }

  lemma EngineStamps(s: Sys, input: Input)
    requires StampsAgree(s.c.ex)
    ensures StampsAgree(EngineNext(s.c, s.pc, input).0.ex)
  {
    if s.pc.AtStart? || s.pc.AtLoop? || s.pc.AtDecide? {
      LoopStamps(s, input);
    } else if s.pc.AtCancel? {
      CancelStamps(s.c, FlagSeen, input.now);
    } else if s.pc.AtRaised? {
      FailStamps(s.c, s.pc.reason, input.now);
    } else {
      StepStamps(s.c, s.pc, input);
    }
  }

  lemma LoopStamps(s: Sys, input: Input)
    requires StampsAgree(s.c.ex) && (s.pc.AtStart? || s.pc.AtLoop? || s.pc.AtDecide?)
    ensures StampsAgree(EngineNext(s.c, s.pc, input).0.ex)
  {
    if s.pc.AtStart? {
      BeginStamps(s.c, input);
    } else if s.pc.AtLoop? {
      HeadStamps(s.c, input.now);
    } else {
      DecideStamps(s.c, input);
    }
  }

  lemma SectionStamps(s: Sys, a: Action)
    requires StampsAgree(s.c.ex)
    ensures StampsAgree(Apply(s, a).c.ex)
  {
    match a
    case Engine(input) => EngineStamps(s, input);
    case CancelNow(why, at) => CancelStamps(s.c, why, at);
    case SubmitApproval(d, approver, id, at) => ApprovalStamps(s.c, d, approver, id, at);
    case _ =>
  }

  /** In every reachable state completed_at is set exactly for COMPLETED, cancelled_at
      exactly for CANCELLED, and there is a result exactly for the four statuses that have
      an outcome, with that outcome. */
  lemma {:induction false} StampsAlwaysAgree(s: Sys, acts: seq<Action>)
    requires StampsAgree(s.c.ex)
    ensures StampsAgree(Run(s, acts).c.ex)
    decreases |acts|
  {
    if acts != [] {
      SectionStamps(s, acts[0]);
      StampsAlwaysAgree(Apply(s, acts[0]), acts[1..]);
    }
  }

  // ---------------------------------------------------------------- the timeline

  /** Every stored timeline is a prefix of all later ones. */
  lemma {:induction false} TimelineOnlyGrows(s: Sys, acts: seq<Action>)
    ensures s.c.ex.timeline <= Run(s, acts).c.ex.timeline
    decreases |acts|
  {
    if acts != [] {
      ActionEffect(s, acts[0]);
      TimelineOnlyGrows(Apply(s, acts[0]), acts[1..]);
    }
  }

  /** In every reachable state the status rows record a path through the allowed
      relation from creation to the stored status, so every stored status change, also
      the two inside one planning section, is an allowed edge. */
  lemma StatusHistory(s: Sys, acts: seq<Action>)
    requires Initial(s)
    ensures var ex := Run(s, acts).c.ex;
      Path(Statuses(ex.timeline)) && StatusOf(ex.timeline) == ex.status
  {
    ReachableInv(s, acts);
  }

  /** Whether the engine is between two steps. */
  predicate Boundary(pc: Pc) {
    !MidStep(pc)
  }

  predicate HasStatus(c: Case, sid: Id, status: StepStatus) {
    sid in c.steps && c.steps[sid].status == status
  }

  /** Each step has at most one start and one completion row, in that order.  Between steps
      it has both exactly when it is stored as succeeded, only the first exactly when it is
      stored as running, and none exactly when it is neither. */
  lemma StepRowsMatchStatus(s: Sys, acts: seq<Action>, sid: Id)
    requires Initial(s)
    ensures var t := Run(s, acts); var marks := Marks(t.c.ex.timeline, sid);
      && marks <= [Began, Ended]
      && (Boundary(t.pc) ==>
            && (marks == [Began, Ended] <==> HasStatus(t.c, sid, Succeeded))
            && (marks == [Began] <==> HasStatus(t.c, sid, Running))
            && (marks == [] <==> sid !in t.c.steps || HasStatus(t.c, sid, Pending)))
  {
    ReachableInv(s, acts);
    MarksRead(Run(s, acts), sid);
  }

  lemma MarksRead(t: Sys, sid: Id)
    requires Inv(t)
    ensures var marks := Marks(t.c.ex.timeline, sid);
      && marks == ExpectedMarks(t.c, t.pc, sid) && marks <= [Began, Ended]
      && (Boundary(t.pc) ==>
            && (marks == [Began, Ended] <==> HasStatus(t.c, sid, Succeeded))
            && (marks == [Began] <==> HasStatus(t.c, sid, Running))
            && (marks == [] <==> sid !in t.c.steps || HasStatus(t.c, sid, Pending)))
  {
    assert Marks(t.c.ex.timeline, sid) == ExpectedMarks(t.c, t.pc, sid);
    if sid in t.c.steps {
      assert StepInv(t.c, t.pc, sid);
    }
  }

  predicate AtStep(pc: Pc, sid: Id) {
    pc == AtStepStarted(sid) || pc == AtStepWork(sid)
  }

  lemma BeginRunsNothing(c: Case, input: Input, sid: Id)
    requires HasStatus(Begin(c, input).0, sid, Running)
    ensures HasStatus(c, sid, Running)
  {
    if EdgesResolve(input.draft) && sid in NewSteps(input.draft, c.ex.executionId, input.newId, input.now) {
      NewStepsPend(input.draft, c.ex.executionId, input.newId, input.now, sid);
    }
  }

  lemma StepBecomesRunning(c: Case, pc: Pc, input: Input, sid: Id)
    requires pc.AtStepBegin? || pc.AtStepStarted? || pc.AtStepWork? || pc.AtStepDone? || pc.AtRest?
    requires HasStatus(EngineNext(c, pc, input).0, sid, Running)
    ensures HasStatus(c, sid, Running) || pc == AtStepBegin(sid)
  {
  }

  lemma CancelRunsNothing(c: Case, why: Why, now: Time)
    ensures Cancel(c, why, now).steps == c.steps
  {
  }

  /** Only choosing a step makes it run. */
  lemma BecomesRunning(s: Sys, a: Action, sid: Id)
    requires HasStatus(Apply(s, a).c, sid, Running)
    ensures HasStatus(s.c, sid, Running) || (a.Engine? && s.pc == AtStepBegin(sid))
  {
    match a
    case Engine(input) => EngineBecomesRunning(s, input, sid);
    case CancelNow(why, at) => CancelRunsNothing(s.c, why, at);
    case SubmitApproval(d, approver, id, at) => ApprovalEffect(s.c, d, approver, id, at);
    case _ =>
  }

  lemma EngineBecomesRunning(s: Sys, input: Input, sid: Id)
    requires HasStatus(EngineNext(s.c, s.pc, input).0, sid, Running)
    ensures HasStatus(s.c, sid, Running) || s.pc == AtStepBegin(sid)
  {
    match s.pc
    case AtStart => BeginRunsNothing(s.c, input, sid);
    case AtDecide => DecideEffect(s.c, input);
    case AtCancel => CancelRunsNothing(s.c, FlagSeen, input.now);
    case AtLoop =>
    case AtRaised(_) =>
    case _ => StepBecomesRunning(s.c, s.pc, input, sid);
  }

  /** The work of step `sid` raised in the action at position `i`. */
  ghost predicate RaisedAt(s: Sys, acts: seq<Action>, i: nat, sid: Id) {
    && i < |acts| && Run(s, acts[..i]).pc == AtStepWork(sid)
    && acts[i].Engine? && acts[i].input.report.Raises?
  }

  /** A step is stored as running while the runner is elsewhere only if its work raised. */
  lemma {:induction false} RunningOnlyIfRaised(s: Sys, acts: seq<Action>, sid: Id) returns (i: nat)
    requires Initial(s) && HasStatus(Run(s, acts).c, sid, Running) && !AtStep(Run(s, acts).pc, sid)
    ensures RaisedAt(s, acts, i, sid)
    decreases |acts|
  {
    var n := |acts| - 1;
    assert acts[..n + 1] == acts;
    RunSnoc(s, acts, n);
    var before := Run(s, acts[..n]);
    BecomesRunning(before, acts[n], sid);
    ReachableInv(s, acts[..n]);
    if HasStatus(before.c, sid, Running) && !AtStep(before.pc, sid) {
      i := RunningOnlyIfRaised(s, acts[..n], sid);
      assert acts[..n][..i] == acts[..i];
    } else {
      i := n;
    }
  }

  // ---------------------------------------------------------------- steps

  lemma DependencyDone(s: Sys, d: Id)
    requires Inv(s) && s.pc.AtStepBegin? && d in s.c.steps && s.c.steps[d].status.Succeeded?
    ensures d in s.c.results && Marks(s.c.ex.timeline, d) == [Began, Ended]
  {
    assert StepInv(s.c, s.pc, d);
    assert Marks(s.c.ex.timeline, d) == ExpectedMarks(s.c, s.pc, d);
  }

  /** A step starts only after every dependency has a stored result and both its
      timeline rows; and in the validation phase only validation steps start. */
  lemma StartsAfterDependencies(s: Sys, acts: seq<Action>, a: Action, sid: Id)
    requires Initial(s) && Started(Run(s, acts).c, Apply(Run(s, acts), a).c, sid)
    ensures var c := Run(s, acts).c;
      && (forall d :: d in c.steps[sid].dependencies ==>
            d in c.steps && c.steps[d].status.Succeeded? && d in c.results
            && Marks(c.ex.timeline, d) == [Began, Ended])
      && Marks(c.ex.timeline, sid) == []
      && (c.ex.status.Validating? ==> c.steps[sid].stepType.ValidationStep?)
  {
    ReachableInv(s, acts);
    var t := Run(s, acts);
    ActionEffect(t, a);
    assert t.pc == AtStepBegin(sid);
    forall d | d in t.c.steps[sid].dependencies
      ensures d in t.c.steps && t.c.steps[d].status.Succeeded? && d in t.c.results
              && Marks(t.c.ex.timeline, d) == [Began, Ended]
    {
      DependencyDone(t, d);
    }
    assert Marks(t.c.ex.timeline, sid) == ExpectedMarks(t.c, t.pc, sid);
  }

  /** Completion is reached only through validation, with every step succeeded and the
      stored result of at least one validation step. */
  lemma ValidationGate(s: Sys, acts: seq<Action>) returns (gate: Id)
    requires Initial(s) && Run(s, acts).c.ex.status.Completed?
    ensures var c := Run(s, acts).c;
      && Validating in Statuses(c.ex.timeline)
      && AllSucceeded(c.steps)
      && gate in c.steps && c.steps[gate].stepType.ValidationStep? && gate in c.results
      && Marks(c.ex.timeline, gate) == [Began, Ended]
  {
    ReachableInv(s, acts);
    var t := Run(s, acts);
    CompletionPassesValidation(Statuses(t.c.ex.timeline));
    gate :| gate in t.c.steps && t.c.steps[gate].stepType.ValidationStep?;
    assert StepInv(t.c, t.pc, gate);
    assert Marks(t.c.ex.timeline, gate) == ExpectedMarks(t.c, t.pc, gate);
  }

  // ---------------------------------------------------------------- governance

  /** What the stored records say in each status of an incident execution. */
  lemma RecordsAgree(s: Sys, acts: seq<Action>)
    requires Initial(s) && s.c.ex.workflow.IncidentTriage?
    ensures var c := Run(s, acts).c;
      && (c.ex.status.Completed? ==>
            (exists pid, eid :: AllowedRecords(c, pid, eid))
            || (exists pid, eid, aid :: GrantedRecords(c, pid, eid, aid)))
      && (c.ex.status.AwaitingApproval? ==>
            && c.ex.result.Some? && c.ex.result.value.governance.Some?
            && var g := c.ex.result.value.governance.value; AwaitingRecords(c, g.proposalId, g.evaluationId))
      && (Unplanned(c.ex.status) || c.ex.status.Executing? || c.ex.status.Validating? ==> Ungoverned(c))
  {
    ReachableInv(s, acts);
    IdentityKept(s, acts);
  }

  lemma SingleGoverned(c: Case, pid: Id, eid: Id, ps: ProposalStatus, d: PolicyDecision)
    requires Governed(c, pid, eid, ps, d)
    ensures |c.proposals| == 1 && |c.evaluations| == 1
  {
    assert |c.proposals.Keys| == 1 && |c.evaluations.Keys| == 1;
  }

  lemma SingleApproved(c: Case, pid: Id, eid: Id, d: ApprovalDecision, aid: Id)
    requires ApprovedBy(c, pid, eid, d, aid)
    ensures |c.approvals| == 1
  {
    assert |c.approvals.Keys| == 1;
  }

  lemma CompletedBounds(c: Case)
    requires GovernanceInv(c) && c.ex.status.Completed?
    ensures |c.approvals| <= 1 && |c.proposals| <= 1 && |c.evaluations| <= 1
  {
    if pid, eid :| AllowedRecords(c, pid, eid) {
      SingleGoverned(c, pid, eid, Approved, Allow);
    } else if pid, eid, aid :| GrantedRecords(c, pid, eid, aid) {
      SingleGoverned(c, pid, eid, Approved, Conditional);
      SingleApproved(c, pid, eid, Approve, aid);
    }
  }

  lemma FailedBounds(c: Case)
    requires GovernanceInv(c) && c.ex.status.Failed?
    ensures |c.approvals| <= 1 && |c.proposals| <= 1 && |c.evaluations| <= 1
  {
    if pid, eid :| DeniedRecords(c, pid, eid) {
      SingleGoverned(c, pid, eid, PolicyDenied, Deny);
    } else if pid, eid, aid :| RejectedRecords(c, pid, eid, aid) {
      SingleGoverned(c, pid, eid, Rejected, Conditional);
      SingleApproved(c, pid, eid, Reject, aid);
    }
  }

  /** No execution ever gets two approvals, two proposals or two evaluations. */
  lemma AtMostOneDecision(s: Sys, acts: seq<Action>)
    requires Initial(s)
    ensures var c := Run(s, acts).c;
      |c.approvals| <= 1 && |c.proposals| <= 1 && |c.evaluations| <= 1
  {
    ReachableInv(s, acts);
    var c := Run(s, acts).c;
    if c.ex.status.Completed? {
      CompletedBounds(c);
    } else if c.ex.status.Failed? {
      FailedBounds(c);
    } else if pid, eid :| AwaitingRecords(c, pid, eid) {
      SingleGoverned(c, pid, eid, ProposalAwaiting, Conditional);
    }
  }

  /** The context a run was created with never changes. */
  lemma {:induction false} IdentityKept(s: Sys, acts: seq<Action>)
    ensures Run(s, acts).c.ctx == s.c.ctx
    ensures Run(s, acts).c.ex.workflow == s.c.ex.workflow
    decreases |acts|
  {
    if acts != [] {
      ActionEffect(s, acts[0]);
      IdentityKept(Apply(s, acts[0]), acts[1..]);
    }
  }

  // ---------------------------------------------------------------- policy, end to end

  /** An incident execution in a denying scope never completes. */
  lemma DeniedNeverCompletes(s: Sys, acts: seq<Action>)
    requires Initial(s) && s.c.ex.workflow.IncidentTriage?
    requires Policy.DeniesEscalation(s.c.ctx.value)
    ensures !Run(s, acts).c.ex.status.Completed?
  {
    ReachableInv(s, acts);
    IdentityKept(s, acts);
  }

  /** The action at position `i` approved an execution that was awaiting approval. */
  ghost predicate ApprovedAt(s: Sys, acts: seq<Action>, i: nat) {
    && i < |acts|
    && acts[i].SubmitApproval? && acts[i].decision.Approve?
    && Run(s, acts[..i]).c.ex.status.AwaitingApproval?
  }

  /** The position at which a run completes. */
  lemma {:induction false} CompletionPoint(s: Sys, acts: seq<Action>) returns (i: nat)
    requires !s.c.ex.status.Completed? && Run(s, acts).c.ex.status.Completed?
    ensures i < |acts|
    ensures !Run(s, acts[..i]).c.ex.status.Completed?
    ensures Apply(Run(s, acts[..i]), acts[i]).c.ex.status.Completed?
    decreases |acts|
  {
    var n := |acts| - 1;
    assert acts[..n + 1] == acts;
    RunSnoc(s, acts, n);
    if Run(s, acts[..n]).c.ex.status.Completed? {
      i := CompletionPoint(s, acts[..n]);
      assert acts[..n][..i] == acts[..i];
    } else {
      i := n;
    }
  }

  /** An incident execution in `prod` or in a conditional scope completes only if an
      approving decision was submitted after it had reached `AwaitingApproval`. */
  lemma ConditionalNeedsApproval(s: Sys, acts: seq<Action>) returns (i: nat)
    requires Initial(s) && s.c.ex.workflow.IncidentTriage?
    requires Policy.NeedsApproval(s.c.ctx.value)
    requires Run(s, acts).c.ex.status.Completed?
    ensures ApprovedAt(s, acts, i)
  {
    i := CompletionPoint(s, acts);
    var before := Run(s, acts[..i]);
    ReachableInv(s, acts[..i]);
    IdentityKept(s, acts[..i]);
    ActionEffect(before, acts[i]);
  }

  // ---------------------------------------------------------------- redelivery

  /** The runner has nothing left to do with this execution. */
  predicate Settled(c: Case) {
    Terminal(c.ex.status) || (c.ex.status.AwaitingApproval? && !CancellationRequested(c.ex.input))
  }

  /** Past the loop head the cancellation flag is down unless the execution is already
      terminal, as long as nobody raises it without cancelling. */
  predicate FlagInv(s: Sys) {
    CancellationRequested(s.c.ex.input) ==>
      || Terminal(s.c.ex.status)
      || (!s.c.ex.status.AwaitingApproval?
          && (s.pc.AtStart? || s.pc.AtLoop? || s.pc.AtCancel? || s.pc.AtRest?))
  }

  lemma FlagStep(s: Sys, a: Action)
    requires Inv(s) && FlagInv(s) && !a.RequestCancel?
    ensures FlagInv(Apply(s, a))
  {
    match a
    case Engine(input) =>
      ActionEffect(s, a);
      FlagEngine(s, input);
    case CancelNow(why, at) => CancelEffect(s.c, why, at);
    case SubmitApproval(d, approver, id, at) => ApprovalEffect(s.c, d, approver, id, at);
    case _ =>
  }

  lemma FlagBegin(s: Sys, input: Input)
    requires Inv(s) && FlagInv(s) && s.pc.AtStart?
    ensures var (c', pc') := Begin(s.c, input);
      FlagInv(Sys(c', pc')) && (pc' == AtRest(false) ==> Terminal(c'.ex.status))
  {
    BeginEffect(s.c, input);
  }

  lemma FlagDecide(s: Sys, input: Input)
    requires Inv(s) && FlagInv(s) && s.pc.AtDecide?
    ensures var (c', pc') := Decide(s.c, input);
      FlagInv(Sys(c', pc')) && (pc' == AtRest(false) ==> Settled(c'))
  {
    DecideEffect(s.c, input);
  }

  lemma FlagEngine(s: Sys, input: Input)
    requires Inv(s) && FlagInv(s)
    ensures FlagInv(Apply(s, Engine(input)))
    ensures var t := Apply(s, Engine(input));
      !s.pc.AtRest? && t.pc == AtRest(false) ==> Settled(t.c)
  {
    match s.pc
    case AtStart => FlagBegin(s, input);
    case AtLoop =>
    case AtDecide => FlagDecide(s, input);
    case AtCancel => CancelEffect(s.c, FlagSeen, input.now);
    case AtRaised(reason) => FailEffect(s.c, reason, input.now);
    case AtRest(_) =>
    case _ => StepEffect(s.c, s.pc, input);
  }

  lemma {:induction false} FlagRun(s: Sys, acts: seq<Action>)
    requires Inv(s) && FlagInv(s) && forall a :: a in acts ==> !a.RequestCancel?
    ensures FlagInv(Run(s, acts))
    decreases |acts|
  {
    if acts != [] {
      FlagStep(s, acts[0]);
      StepKeeps(s, acts[0]);
      FlagRun(Apply(s, acts[0]), acts[1..]);
    }
  }

  /** A run that returns leaves the execution terminal or waiting for approval, whatever the
      other actors do. */
  lemma ReturnedRunEnds(s: Sys, acts: seq<Action>, input: Input)
    requires Initial(s)
    requires !Run(s, acts).pc.AtRest? && Apply(Run(s, acts), Engine(input)).pc == AtRest(false)
    ensures var c := Apply(Run(s, acts), Engine(input)).c; Terminal(c.ex.status) || c.ex.status.AwaitingApproval?
  {
    ReachableInv(s, acts);
    ReturnsEnded(Run(s, acts), input);
  }

  lemma ReturnsEnded(s: Sys, input: Input)
    requires Inv(s) && !s.pc.AtRest? && Apply(s, Engine(input)).pc == AtRest(false)
    ensures var c := Apply(s, Engine(input)).c; Terminal(c.ex.status) || c.ex.status.AwaitingApproval?
  {
    match s.pc
    case AtDecide => DecideEffect(s.c, input);
    case AtCancel => CancelEffect(s.c, FlagSeen, input.now);
    case AtRaised(reason) => FailEffect(s.c, reason, input.now);
    case _ =>
  }

  /** And if it waits, no cancellation has been asked for; only a request that raised the
      flag in mid-run and has not yet cancelled can delay that. */
  lemma ReturnedRunSettles(s: Sys, acts: seq<Action>, input: Input)
    requires Initial(s) && forall a :: a in acts ==> !a.RequestCancel?
    requires !Run(s, acts).pc.AtRest? && Apply(Run(s, acts), Engine(input)).pc == AtRest(false)
    ensures Settled(Apply(Run(s, acts), Engine(input)).c)
  {
    ReachableInv(s, acts);
    InvInitial(s);
    FlagRun(s, acts);
    FlagEngine(Run(s, acts), input);
  }

  predicate SameButInput(a: Case, b: Case) {
    b == a.(ex := a.ex.(input := b.ex.input))
  }

  /** What delivering an execution again amounts to: queueing it, marking the worker, and
      running the engine from the start. */
  predicate Redelivery(a: Action) {
    a.Engine? || a.StartRun? || a.Enqueue? || a.WorkerMark?
  }

  /** No step is under way or chosen, and what is left of the run changes nothing. */
  predicate Idle(s: Sys) {
    || s.pc.AtRest? || s.pc.AtStart? || s.pc.AtLoop?
    || (Terminal(s.c.ex.status) && (s.pc.AtDecide? || s.pc.AtRaised? || s.pc.AtCancel?))
  }

  lemma RedeliveryStep(s: Sys, a: Action)
    requires Settled(s.c) && Idle(s) && (Redelivery(a) || Terminal(s.c.ex.status))
    ensures var t := Apply(s, a);
      Settled(t.c) && Idle(t) && SameButInput(s.c, t.c)
  {
  }

  /** Processing a settled execution again changes nothing but its runtime metadata: not
      its steps, results, timeline, status or governance records. */
  lemma {:induction false} RedeliveryHarmless(s: Sys, acts: seq<Action>)
    requires Settled(s.c) && Idle(s) && forall a :: a in acts ==> Redelivery(a)
    ensures SameButInput(s.c, Run(s, acts).c)
    decreases |acts|
  {
    if acts != [] {
      RedeliveryStep(s, acts[0]);
      RedeliveryHarmless(Apply(s, acts[0]), acts[1..]);
    }
  }

  /** A terminal execution with no step under way is left alone by every actor; so one
      cancelled before it is dequeued never runs a step. */
  lemma {:induction false} TerminalStaysAtRest(s: Sys, acts: seq<Action>)
    requires Terminal(s.c.ex.status) && Idle(s)
    ensures SameButInput(s.c, Run(s, acts).c)
    decreases |acts|
  {
    if acts != [] {
      RedeliveryStep(s, acts[0]);
      ActionEffect(s, acts[0]);
      TerminalStaysAtRest(Apply(s, acts[0]), acts[1..]);
    }
  }

  lemma CancelledBeforeDequeueNeverRuns(s: Sys, why: Why, at: Time, acts: seq<Action>)
    requires Initial(s)
    ensures var c := Run(Apply(s, CancelNow(why, at)), acts).c;
      c.ex.status.Cancelled? && c.steps == map[] && c.plans == map[] && c.results == map[]
  {
    var t := Apply(s, CancelNow(why, at));
    assert t.c.ex.status.Cancelled?;
    TerminalStaysAtRest(t, acts);
  }

  /** The step whose start row is still to come. */
  function StartsLeft(pc: Pc): seq<Id> {
    match pc
    case AtStepBegin(sid) => [sid]
    case AtStepStarted(sid) => [sid]
    case _ => []
  }

  predicate UnderWayAt(pc: Pc, sid: Id) {
    pc == AtStepBegin(sid) || pc == AtStepStarted(sid) || pc == AtStepWork(sid) || pc == AtStepDone(sid)
  }

  /** Only the step under way moved, and it started if it was to start. */
  ghost predicate OnlyChosen(s: Sys, t: Sys) {
    && StartedSteps(t.c.ex.timeline) + StartsLeft(t.pc) == StartedSteps(s.c.ex.timeline) + StartsLeft(s.pc)
    && t.c.steps.Keys == s.c.steps.Keys
    && (forall sid :: UnderWayAt(t.pc, sid) ==> UnderWayAt(s.pc, sid))
    && (forall sid :: sid in s.c.steps && !UnderWayAt(s.pc, sid) ==> t.c.steps[sid] == s.c.steps[sid])
  }

  lemma OtherActionSame(s: Sys, a: Action)
    requires Terminal(s.c.ex.status) && !a.Engine?
    ensures SameButInput(s.c, Apply(s, a).c)
    ensures Apply(s, a).pc == s.pc || (s.pc.AtRest? && Apply(s, a).pc.AtStart?)
  {
  }

  lemma ChosenBegins(c: Case, sid: Id, now: Time)
    requires Ready(c.steps, sid)
    ensures var (c', pc') := BeginStep(c, sid, now); OnlyChosen(Sys(c, AtStepBegin(sid)), Sys(c', pc'))
  {
  }

  lemma ChosenStarts(c: Case, sid: Id, now: Time)
    ensures OnlyChosen(Sys(c, AtStepStarted(sid)), Sys(c.(ex := Append(c.ex, StepStarted(sid), now)), AtStepWork(sid)))
  {
    Snoc(c.ex.timeline, Row(now, StepStarted(sid)));
  }

  lemma ChosenWorks(c: Case, sid: Id, input: Input)
    requires sid in c.steps
    ensures var (c', pc') := WorkOnStep(c, sid, input); OnlyChosen(Sys(c, AtStepWork(sid)), Sys(c', pc'))
  {
    if input.report.Traces? {
      Snoc(c.ex.timeline, Row(input.now, StepTrace(sid, input.report.kind)));
    }
  }

  lemma ChosenEnds(c: Case, sid: Id, now: Time)
    ensures OnlyChosen(Sys(c, AtStepDone(sid)), Sys(CompleteStep(c, sid, now), AtLoop))
  {
    CompleteStepShape(c, sid, now);
    Snoc(c.ex.timeline, Row(now, StepCompleted(sid)));
    Snoc(c.ex.timeline + [Row(now, StepCompleted(sid))], Row(now, ValidationPerformed(sid)));
  }

  lemma ChosenMoves(s: Sys, input: Input)
    requires s.pc.AtStepBegin? || s.pc.AtStepStarted? || s.pc.AtStepWork? || s.pc.AtStepDone?
    requires PcInv(s.c, s.pc)
    ensures OnlyChosen(s, Apply(s, Engine(input)))
  {
    match s.pc
    case AtStepBegin(sid) => ChosenBegins(s.c, sid, input.now);
    case AtStepStarted(sid) => ChosenStarts(s.c, sid, input.now);
    case AtStepWork(sid) => ChosenWorks(s.c, sid, input);
    case AtStepDone(sid) => ChosenEnds(s.c, sid, input.now);
  }

  /** What an action can still do to the steps of a terminal execution. */
  lemma TerminalStep(s: Sys, a: Action)
    requires Inv(s) && Terminal(s.c.ex.status)
    ensures OnlyChosen(s, Apply(s, a))
  {
    if !a.Engine? {
      OtherActionSame(s, a);
    } else if Idle(s) {
      RedeliveryStep(s, a);
    } else {
      ChosenMoves(s, a.input);
    }
  }

  /** After an execution has become terminal, by a cancellation in mid-run say, at most the
      step already chosen starts, and no other step changes. */
  lemma {:induction false} TerminalStartsNoOther(s: Sys, acts: seq<Action>)
    requires Inv(s) && Terminal(s.c.ex.status)
    ensures var t := Run(s, acts);
      && StartedSteps(t.c.ex.timeline) <= StartedSteps(s.c.ex.timeline) + StartsLeft(s.pc)
      && t.c.steps.Keys == s.c.steps.Keys
      && (forall sid :: sid in s.c.steps && !UnderWayAt(s.pc, sid) ==> t.c.steps[sid] == s.c.steps[sid])
    decreases |acts|
  {
    if acts != [] {
      TerminalStep(s, acts[0]);
      StepKeeps(s, acts[0]);
      ActionEffect(s, acts[0]);
      TerminalStartsNoOther(Apply(s, acts[0]), acts[1..]);
    }
  }

  // ---------------------------------------------------------------- why sections must be atomic

  /** The loop head as separate repository calls.  It writes only if it gets past its tests
      on the record it read, and then it writes that record, whatever is stored by now. */
  function StaleLoopHead(read: Case, stored: Case, now: Time): Case {
    if LoopHead(read, now).1.AtDecide? then stored.(ex := LoopHead(read, now).0.ex) else stored
  }

  /** At that granularity a cancellation that lands between the read and the write survives
      exactly if the record read sends the loop head elsewhere: its flag was up already, it
      awaits approval, or it has no plan. */
  lemma CancellationSurvivesIff(c: Case, why: Why, at: Time, now: Time)
    requires !Terminal(c.ex.status)
    ensures var stored := Cancel(c, why, at); var after := StaleLoopHead(c, stored, now);
      && stored.ex.status.Cancelled?
      && (after == stored <==>
            CancellationRequested(c.ex.input) || c.ex.status.AwaitingApproval? || !PlanResolves(c))
      && (after.ex.status.Cancelled? <==> after == stored)
  {
    CancelEffect(c, why, at);
    assert !LoopHead(c, now).0.ex.status.Cancelled?;
  }

  /** So in every reachable state it is lost unless the flag was up or approval is awaited,
      and then everything of it is lost: the terminal status, its stamp, its flag and its
      timeline row are all overwritten, along no allowed edge. */
  lemma StaleWriteLosesCancellation(c: Case, why: Why, at: Time, now: Time)
    requires Inv(Sys(c, AtLoop)) && !Terminal(c.ex.status)
    ensures var stored := Cancel(c, why, at); var after := StaleLoopHead(c, stored, now);
      if CancellationRequested(c.ex.input) || c.ex.status.AwaitingApproval? then after == stored
      else Lost(stored, after)
  {
    CancellationSurvivesIff(c, why, at, now);
    if !CancellationRequested(c.ex.input) && !c.ex.status.AwaitingApproval? {
      var stored := Cancel(c, why, at);
      var after := StaleLoopHead(c, stored, now);
      assert !LoopHead(c, now).0.ex.status.Cancelled?;
      RowLost(c, why, at, now);
    }
  }

  predicate Lost(stored: Case, after: Case) {
    && stored.ex.status.Cancelled? && CancellationRequested(stored.ex.input)
    && !Terminal(after.ex.status) && !ExecutionEdge(stored.ex.status, after.ex.status)
    && after.ex.cancelledAt.None? && !CancellationRequested(after.ex.input)
    && !(stored.ex.timeline <= after.ex.timeline)
  }

  lemma RowLost(c: Case, why: Why, at: Time, now: Time)
    requires !Terminal(c.ex.status)
    ensures !(Cancel(c, why, at).ex.timeline <= LoopHead(c, now).0.ex.timeline)
  {
    var stored, after := Cancel(c, why, at).ex.timeline, LoopHead(c, now).0.ex.timeline;
    var n := |c.ex.timeline|;
    assert stored[n].event == StatusRow(Cancelled);
    if |after| > n {
      assert after[n].event == StatusRow(Validating);
    }
  }
}
