/** What one section can do at most, section by section. */
module Effects {
  import opened StateMachine
  import opened Records
  import opened RuntimeMeta
  import opened Timeline
  import opened Lifecycle
  import Policy

  predicate SameOutcome(a: Execution, b: Execution) {
    && b.status == a.status && b.result == a.result
    && b.completedAt == a.completedAt && b.cancelledAt == a.cancelledAt
  }

  /** The action moved step `sid` from pending to running. */
  predicate Started(c: Case, c': Case, sid: Id) {
    && sid in c.steps && c.steps[sid].status.Pending?
    && sid in c'.steps && c'.steps[sid].status.Running?
  }

  predicate Completes(c: Case, c': Case) {
    !c.ex.status.Completed? && c'.ex.status.Completed?
  }

  /** No section rewrites the identity of an execution, shortens its timeline or touches
      a terminal outcome. */
  predicate Conserves(c: Case, c': Case) {
    && c'.ctx == c.ctx
    && c'.ex.workflow == c.ex.workflow && c'.ex.executionId == c.ex.executionId
    && c.ex.timeline <= c'.ex.timeline
    && (Terminal(c.ex.status) ==> SameOutcome(c.ex, c'.ex))
  }

  ghost predicate Harmless(c: Case, c': Case) {
    Conserves(c, c') && !Completes(c, c') && forall sid :: !Started(c, c', sid)
  }

  lemma NewStepsPend(draft: Draft, execId: Id, planId: Id, now: Time, sid: Id)
    requires EdgesResolve(draft) && sid in NewSteps(draft, execId, planId, now)
    ensures NewSteps(draft, execId, planId, now)[sid].status.Pending?
  {
  }

  lemma InstantiateEffect(c: Case, input: Input)
    requires c.ex.status.Planning?
    ensures var c' := Instantiate(c, input).0; Harmless(c, c') && c'.ex.input == c.ex.input
  {
    var c' := Instantiate(c, input).0;
    forall sid ensures !Started(c, c', sid) {
      if EdgesResolve(input.draft) {
        var added := NewSteps(input.draft, c.ex.executionId, input.newId, input.now);
        if sid in added {
          NewStepsPend(input.draft, c.ex.executionId, input.newId, input.now, sid);
          assert c'.steps[sid] == added[sid];
        }
      }
    }
  }

  lemma StillHarmless(c: Case, c1: Case, c': Case)
    requires !Terminal(c.ex.status) && c1.ctx == c.ctx && c1.steps == c.steps
    requires c1.ex.workflow == c.ex.workflow && c1.ex.executionId == c.ex.executionId
    requires c.ex.timeline <= c1.ex.timeline && !c1.ex.status.Completed? && Harmless(c1, c')
    ensures Harmless(c, c')
  {
    forall sid ensures !Started(c, c', sid) {
      assert !Started(c1, c', sid);
    }
  }

  lemma BeginEffect(c: Case, input: Input)
    ensures var c' := Begin(c, input).0; Harmless(c, c') && c'.ex.input == c.ex.input
  {
    if c.ex.status.Created? {
      var c1 := c.(ex := Enter(c.ex, Planning, input.now));
      InstantiateEffect(c1, input);
      StillHarmless(c, c1, Instantiate(c1, input).0);
    } else if c.ex.status.Planning? {
      InstantiateEffect(c, input);
    }
  }

  lemma LoopHeadEffect(c: Case, now: Time)
    ensures var c' := LoopHead(c, now).0; Harmless(c, c') && c'.ex.input == c.ex.input
  {
  }

  lemma FinalizeEffect(c: Case, ctx: Context, input: Input)
    requires c.ex.status.Validating?
    ensures var c' := Finalize(c, ctx, input);
      && Conserves(c, c') && c'.steps == c.steps && c'.ex.input == c.ex.input
      && (Terminal(c'.ex.status) || c'.ex.status.AwaitingApproval?)
      && (Completes(c, c') ==> Policy.Decision(ctx, EscalateIncident).Allow?)
  {
    FinalizeFields(c, ctx, input);
  }

  lemma FinalizeFields(c: Case, ctx: Context, input: Input)
    ensures var c' := Finalize(c, ctx, input);
      && c'.ctx == c.ctx && c'.steps == c.steps && c'.ex.input == c.ex.input
      && c'.ex.workflow == c.ex.workflow && c'.ex.executionId == c.ex.executionId
      && match Policy.Decision(ctx, EscalateIncident)
         case Deny => c'.ex.status.Failed?
         case Allow => c'.ex.status.Completed?
         case Conditional => c'.ex.status.AwaitingApproval?
  {
  }

  lemma FinishEffect(c: Case, input: Input)
    requires c.ex.status.Validating?
    ensures var (c', pc') := Finish(c, input);
      && Conserves(c, c') && c'.steps == c.steps && c'.ex.input == c.ex.input
      && (pc' == AtRest(false) ==> Terminal(c'.ex.status) || c'.ex.status.AwaitingApproval?)
      && (Completes(c, c') && c.ex.workflow.IncidentTriage? ==>
            c.ctx.Some? && Policy.Decision(c.ctx.value, EscalateIncident).Allow?)
  {
    if c.ex.workflow.IncidentTriage? && c.ctx.Some? {
      FinalizeEffect(c, c.ctx.value, input);
    }
  }

  lemma DecideEffect(c: Case, input: Input)
    ensures var (c', pc') := Decide(c, input);
      && Conserves(c, c') && c'.steps == c.steps && c'.ex.input == c.ex.input
      && (pc' == AtRest(false) ==> Terminal(c'.ex.status) || c'.ex.status.AwaitingApproval?)
      && (Completes(c, c') ==>
            && c.ex.status.Validating?
            && (c.ex.workflow.IncidentTriage? ==>
                  c.ctx.Some? && Policy.Decision(c.ctx.value, EscalateIncident).Allow?))
  {
    if c.ex.status.Validating? {
      FinishEffect(c, input);
    }
  }

  lemma CompleteStepEffect(c: Case, sid: Id, now: Time)
    ensures var c' := CompleteStep(c, sid, now); Harmless(c, c') && c'.ex.input == c.ex.input
  {
    CompleteStepShape(c, sid, now);
    CalmIsHarmless(c, CompleteStep(c, sid, now));
  }

  lemma WorkOnStepEffect(c: Case, sid: Id, input: Input)
    ensures var c' := WorkOnStep(c, sid, input).0; Harmless(c, c') && c'.ex.input == c.ex.input
  {
    var c' := WorkOnStep(c, sid, input).0;
    if input.report.Returns? && sid in c.steps {
      SuccessStartsNothing(c, c', sid);
    }
  }

  lemma SuccessStartsNothing(c: Case, c': Case, sid: Id)
    requires sid in c.steps && sid in c'.steps && c'.steps == c.steps[sid := c'.steps[sid]]
    requires c'.steps[sid].status.Succeeded?
    ensures forall t :: !Started(c, c', t)
  {
  }

  lemma StepEffect(c: Case, pc: Pc, input: Input)
    requires pc.AtStepBegin? || pc.AtStepStarted? || pc.AtStepWork? || pc.AtStepDone?
    ensures var c' := EngineNext(c, pc, input).0;
      && Conserves(c, c') && !Completes(c, c') && c'.ex.input == c.ex.input
      && forall sid :: Started(c, c', sid) ==> pc == AtStepBegin(sid)
  {
    if pc.AtStepDone? {
      CompleteStepEffect(c, pc.stepId, input.now);
    } else if pc.AtStepWork? {
      WorkOnStepEffect(c, pc.stepId, input);
    }
  }

  /** A section that leaves the steps alone and completes nothing. */
  lemma CalmIsHarmless(c: Case, c': Case)
    requires Conserves(c, c') && !Completes(c, c') && c'.steps == c.steps
    ensures Harmless(c, c')
  {
  }

  lemma CancelFields(c: Case, why: Why, now: Time)
    ensures var c' := EnterCancelled(c, why, now);
      && Conserves(c, c') && !Completes(c, c') && c'.steps == c.steps && Terminal(c'.ex.status)
  {
  }

  lemma CancelEffect(c: Case, why: Why, now: Time)
    ensures var c' := Cancel(c, why, now); Harmless(c, c') && Terminal(c'.ex.status)
  {
    var c1 := WithInput(c, MarkCancelled(c.ex.input, why, now));
    CancelFields(c1, why, now);
    CalmIsHarmless(c, Cancel(c, why, now));
  }

  lemma FailFields(c: Case, reason: Reason, now: Time)
    ensures var c' := Fail(c, reason, now);
      && Conserves(c, c') && !Completes(c, c') && c'.steps == c.steps
      && c'.ex.input == c.ex.input && Terminal(c'.ex.status)
  {
  }

  lemma FailEffect(c: Case, reason: Reason, now: Time)
    ensures var c' := Fail(c, reason, now); Harmless(c, c') && c'.ex.input == c.ex.input
    ensures Terminal(Fail(c, reason, now).ex.status)
  {
    FailFields(c, reason, now);
    CalmIsHarmless(c, Fail(c, reason, now));
  }

  lemma ApprovalEffect(c: Case, d: ApprovalDecision, approver: string, id: Id, now: Time)
    ensures var c' := Decided(c, d, approver, id, now).0;
      && Conserves(c, c') && c'.steps == c.steps && c'.ex.input == c.ex.input
      && (Completes(c, c') ==> d.Approve? && c.ex.status.AwaitingApproval?)
  {
    DecidedShape(c, d, approver, id, now);
    if !d.Defer? {
      DecidedFields(c.ex, |c.steps|, d, c.ex.result, id, now);
    }
  }

  /** A decision leaves the record alone or settles it. */
  lemma DecidedShape(c: Case, d: ApprovalDecision, approver: string, id: Id, now: Time)
    ensures var c' := Decided(c, d, approver, id, now).0; var doc := c.ex.result;
      && c'.ctx == c.ctx && c'.steps == c.steps
      && (c'.ex == c.ex ||
           (c.ex.status.AwaitingApproval? && !d.Defer? && doc.Some? && doc.value.governance.Some?
            && c'.ex == DecidedExecution(c.ex, |c.steps|, d, doc.value.governance.value.proposalId, id, now)))
  {
  }

  lemma DecidedFields(ex: Execution, n: nat, d: ApprovalDecision, doc: Option<Result>, id: Id, now: Time)
    requires !d.Defer?
    ensures doc.Some? && doc.value.governance.Some? ==>
      var ex' := DecidedExecution(ex, n, d, doc.value.governance.value.proposalId, id, now);
      && ex'.workflow == ex.workflow && ex'.executionId == ex.executionId && ex'.input == ex.input
      && ex.timeline <= ex'.timeline && (ex'.status.Completed? <==> d.Approve?)
  {
  }

  /** Which action completes an execution, and which starts a step. */
  ghost predicate Explained(s: Sys, a: Action, c': Case) {
    && (Completes(s.c, c') ==>
          || (a.SubmitApproval? && a.decision.Approve? && s.c.ex.status.AwaitingApproval?)
          || (a.Engine? && s.c.ex.status.Validating?
              && (s.c.ex.workflow.IncidentTriage? ==>
                    s.c.ctx.Some? && Policy.Decision(s.c.ctx.value, EscalateIncident).Allow?)))
    && (forall sid :: Started(s.c, c', sid) ==> s.pc == AtStepBegin(sid))
  }

  lemma EngineEffect(s: Sys, input: Input)
    ensures Conserves(s.c, EngineNext(s.c, s.pc, input).0)
    ensures Explained(s, Engine(input), EngineNext(s.c, s.pc, input).0)
  {
    match s.pc
    case AtStart => BeginEffect(s.c, input);
    case AtLoop => LoopHeadEffect(s.c, input.now);
    case AtDecide => DecideEffect(s.c, input);
    case AtCancel => CancelEffect(s.c, FlagSeen, input.now);
    case AtRaised(reason) => FailEffect(s.c, reason, input.now);
    case AtRest(_) =>
    case _ => StepEffect(s.c, s.pc, input);
  }

  lemma ActionEffect(s: Sys, a: Action)
    ensures Conserves(s.c, Apply(s, a).c) && Explained(s, a, Apply(s, a).c)
  {
    match a
    case Engine(input) => EngineEffect(s, input);
    case CancelNow(why, at) => CancelEffect(s.c, why, at);
    case SubmitApproval(d, approver, id, at) => ApprovalEffect(s.c, d, approver, id, at);
    case _ =>
  }
}
