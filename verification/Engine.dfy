/** The execution engine over the store.  Each method changes the tables in place; its
    contract gives the new case of the execution as sections of `Lifecycle`, and leaves
    every other execution's rows as they were.  `now` is whatever the clock returns. */
module Engine {
  import opened StateMachine
  import opened Records
  import opened RuntimeMeta
  import opened Lifecycle
  import opened Safety
  import opened Theorems
  import opened Scheduling
  import opened SerialRun
  import opened Origins
  import opened Repository
  import opened Dispatch
  import Accounts
  import Effects
  import Policy

  /** What the work of a step does: the trace rows it appends, and its result unless it
      raises instead. */
  datatype StepWork = StepWork(traces: seq<WorkKind>, result: Option<StepResult>)

  /** The report of sections that ask for none. */
  const NO_REPORT: Report := Returns(StepResult(JNull))

  datatype RunEnd = NotFound | Returned | RaisedError(reason: Reason) | Crashed

  function PcAfter(end: RunEnd): Pc {
    match end
    case NotFound => AtStart
    case Returned => AtRest(false)
    case RaisedError(reason) => AtRaised(reason)
    case Crashed => AtRest(true)
  }

  lemma RunExtends(s: Sys, acts: seq<Action>, a: Action)
    ensures Run(s, acts + [a]) == Apply(Run(s, acts), a)
  {
    RunConcat(s, acts, [a]);
    assert Run(Run(s, acts), [a]) == Run(Apply(Run(s, acts), a), []);
  }

  ghost predicate EngineOnly(acts: seq<Action>) {
    forall a :: a in acts ==> a.Engine?
  }

  class ExecutionEngine {
    const repo: InMemoryRepository
    const planner: Workflow -> Draft
    const work: Step -> StepWork

    constructor (repo: InMemoryRepository, planner: Workflow -> Draft, work: Step -> StepWork)
      ensures this.repo == repo && this.planner == planner && this.work == work
    {
      this.repo, this.planner, this.work := repo, planner, work;
    }

    /** The store is consistent for execution `e`, with the runner at `pc`. */
    ghost predicate At(e: Id, pc: Pc)
      reads repo
    {
      repo.Valid() && e in repo.cases && Inv(Sys(repo.cases[e], pc))
    }

    /** One get..append..update section. */
    method AppendTimeline(e: Id, event: Event, now: Time)
      requires repo.Valid() && e in repo.cases
      modifies repo
      ensures repo.Valid()
      ensures var c := old(repo.cases[e]); repo.cases == old(repo.cases)[e := c.(ex := Append(c.ex, event, now))]
    {
      var ex := repo.GetExecution(e);
      repo.UpdateExecution(Append(ex, event, now));
    }

    // ---------------------------------------------------------------- planning

    /** The first section of a run: plan a new execution and instantiate its steps. */
    method BeginRun(e: Id, now: Time) returns (ghost input: Input, pc: Pc)
      requires At(e, AtStart)
      modifies repo
      ensures repo.Valid()
      ensures input.draft == planner(old(repo.cases[e].ex.workflow)) && !input.report.Raises?
      ensures var (c', pc') := Begin(old(repo.cases[e]), input);
        repo.cases == old(repo.cases)[e := c'] && pc == pc'
    {
      var ex := repo.GetExecution(e);
      var draft := planner(ex.workflow);
      input := Input(now, repo.nextId, draft, NO_REPORT);
      if Terminal(ex.status) {
        return input, AtRest(false);
      }
      if ex.status.Created? {
        ex := Enter(ex, Planning, now);
        repo.UpdateExecution(ex);
      }
      if ex.status.Planning? {
        pc := InstantiatePlan(e, draft, now, input);
      } else {
        pc := AtLoop;
      }
    }

    method InstantiatePlan(e: Id, draft: Draft, now: Time, ghost input: Input) returns (pc: Pc)
      requires repo.Valid() && e in repo.cases
      requires input.now == now && input.newId == repo.nextId && input.draft == draft
      modifies repo
      ensures repo.Valid()
      ensures var (c', pc') := Instantiate(old(repo.cases[e]), input);
        repo.cases == old(repo.cases)[e := c'] && pc == pc'
    {
      var ex := repo.GetExecution(e);
      var planId := repo.NewIds(1 + |draft.specs|);
      repo.SavePlan(planId, Plan(e, draft, now));
      if !EdgesResolve(draft) {
        return AtRest(true);
      }
      SaveSteps(e, draft, planId, now);
      repo.UpdateExecution(Enter(ex.(planId := Some(planId)), Executing, now));
      pc := AtLoop;
    }

    /** Steps from `planId` on belong to `e`. */
    ghost predicate OwnSteps(e: Id, planId: Id)
      reads repo
    {
      forall id :: id in repo.steps && id >= planId ==> repo.steps[id].executionId == e
    }

    method SaveOne(e: Id, draft: Draft, planId: Id, now: Time, i: nat, ghost saved: map<Id, Step>)
      returns (ghost more: map<Id, Step>)
      requires repo.Valid() && e in repo.cases && EdgesResolve(draft) && i < |draft.specs|
      requires repo.nextId == planId + 1 + |draft.specs| && OwnSteps(e, planId)
      requires SavedUpTo(draft, e, planId, now, i, saved)
      modifies repo`steps, repo`cases
      ensures repo.Valid() && OwnSteps(e, planId)
      ensures exists id, step :: more == saved[id := step] && repo.cases == Storing(old(repo.cases), e, id, step)
      ensures SavedUpTo(draft, e, planId, now, i + 1, more)
    {
      var key := draft.specs[i].key;
      assert key in Keys(draft.specs);
      var id := StepId(draft, planId, key);
      var step := NewStep(draft, e, planId, now, i);
      SavedOneMore(draft, e, planId, now, i, saved);
      repo.SaveStep(id, step);
      more := saved[id := step];
      assert more == saved[id := step] && repo.cases == Storing(old(repo.cases), e, id, step);
    }

    /** Save the instantiated steps one by one; a repeated key overwrites its step. */
    method SaveSteps(e: Id, draft: Draft, planId: Id, now: Time)
      requires repo.Valid() && e in repo.cases && EdgesResolve(draft)
      requires repo.nextId == planId + 1 + |draft.specs|
      requires forall id :: id in repo.steps ==> id < planId
      modifies repo`steps, repo`cases
      ensures repo.Valid()
      ensures var c := old(repo.cases[e]);
        repo.cases == old(repo.cases)[e := c.(steps := c.steps + NewSteps(draft, e, planId, now))]
    {
      ghost var saved: map<Id, Step> := map[];
      NothingStored(repo.cases, e);
      for i := 0 to |draft.specs|
        invariant repo.Valid() && OwnSteps(e, planId)
        invariant Stored(old(repo.cases), e, saved, repo.cases)
        invariant SavedUpTo(draft, e, planId, now, i, saved)
      {
        ghost var before, had := repo.cases, saved;
        saved := SaveOne(e, draft, planId, now, i, saved);
        StoredOne(old(repo.cases), e, had, before, saved, repo.cases);
      }
      SavedAll(draft, e, planId, now, saved);
    }

    // ---------------------------------------------------------------- the loop

    /** The loop head: notice a cancellation, stop at rest, open the validation gate. */
    method HeadSection(e: Id, now: Time) returns (pc: Pc)
      requires repo.Valid() && e in repo.cases
      modifies repo
      ensures repo.Valid()
      ensures var (c', pc') := LoopHead(old(repo.cases[e]), now);
        repo.cases == old(repo.cases)[e := c'] && pc == pc'
    {
      var ex := repo.GetExecution(e);
      if CancellationRequested(ex.input) {
        return AtCancel;
      }
      if ex.status.AwaitingApproval? || Terminal(ex.status) {
        return AtRest(false);
      }
      var rows := repo.ListSteps(e);
      if ex.planId.None? {
        return AtRaised(NoPlan);
      }
      var plan := repo.GetPlan(e);
      ListingGate(rows, repo.cases[e].steps);
      if ex.status.Executing? && GateOpensIn(rows) {
        ex := Enter(ex, Validating, now);
      }
      repo.UpdateExecution(ex);
      pc := AtDecide;
    }

    /** Choose the next step, or finish, or raise. */
    method DecideSection(e: Id, now: Time) returns (pc: Pc, ghost input: Input)
      requires At(e, AtDecide)
      modifies repo
      ensures repo.Valid() && !input.report.Raises?
      ensures var (c', pc') := Decide(old(repo.cases[e]), input);
        repo.cases == old(repo.cases)[e := c'] && pc == pc'
    {
      ghost var c := repo.cases[e];
      input := Input(now, repo.nextId, Draft([], []), NO_REPORT);
      var ex := repo.GetExecution(e);
      if Terminal(ex.status) {
        return AtRest(false), input;
      }
      var rows := repo.ListSteps(e);
      var plan := repo.GetPlan(e);
      var next := ChooseNext(rows, plan.draft.specs, c.steps);
      if next.Some? {
        return AtStepBegin(next.value), input;
      }
      ListingTests(rows, c.steps);
      if AllSucceededIn(rows) {
        if ex.status.Validating? {
          input := FinishRun(e, rows, now);
          return AtRest(false), input;
        }
        if ex.status.Executing? {
          return AtRaised(NotInValidating), input;
        }
      }
      if PendingIn(rows) {
        return AtRaised(Deadlock), input;
      }
      return AtRaised(UnexpectedSteps), input;
    }

    // ---------------------------------------------------------------- finishing

    /** All steps have succeeded and the gate is open. */
    method FinishRun(e: Id, rows: seq<StepRow>, now: Time) returns (ghost input: Input)
      requires repo.Valid() && e in repo.cases && repo.cases[e].ctx.Some?
      requires |rows| == |repo.cases[e].steps|
      modifies repo
      ensures repo.Valid() && !input.report.Raises?
      ensures var (c', pc') := Finish(old(repo.cases[e]), input);
        repo.cases == old(repo.cases)[e := c'] && pc' == AtRest(false)
    {
      var ex := repo.GetExecution(e);
      if ex.workflow.IncidentTriage? {
        var pid;
        ex, pid := FinalizeGovernance(e, |rows|, now);
        input := Input(now, pid, Draft([], []), NO_REPORT);
      } else {
        input := Input(now, repo.nextId, Draft([], []), NO_REPORT);
        ex := Complete(ex, Result(OutcomeSuccess, |rows|, None, None, None, None), now);
      }
      repo.UpdateExecution(ex);
    }

    /** Store a proposal for the escalation and what policy says about it. */
    method ProposeAndEvaluate(e: Id) returns (pid: Id, decision: PolicyDecision)
      requires repo.Valid() && e in repo.cases && repo.cases[e].ctx.Some?
      modifies repo
      ensures repo.Valid() && pid < repo.nextId
      ensures var c := old(repo.cases[e]);
        && decision == Policy.Decision(c.ctx.value, EscalateIncident)
        && repo.cases == old(repo.cases)[e :=
             c.(proposals := c.proposals[pid := Proposal(e, EscalateIncident, Proposed, false)],
                evaluations := c.evaluations[pid + 1 := Evaluation(e, decision, pid)])]
    {
      var ctx := repo.GetContext(e);
      pid := repo.NewIds(2);
      repo.SaveProposal(pid, Proposal(e, EscalateIncident, Proposed, false));
      var verdict := Policy.Evaluate(ctx, EscalateIncident);
      decision := verdict.decision;
      repo.SaveEvaluation(pid + 1, Evaluation(e, decision, pid));
    }

    /** After validation: propose the escalation, evaluate policy and store both rows; the
        caller stores the returned execution. */
    method FinalizeGovernance(e: Id, stepCount: nat, now: Time) returns (ex: Execution, pid: Id)
      requires repo.Valid() && e in repo.cases && repo.cases[e].ctx.Some?
      modifies repo
      ensures repo.Valid()
      ensures var c := old(repo.cases[e]); var d := Policy.Decision(c.ctx.value, EscalateIncident);
        && repo.cases == old(repo.cases)[e := WithGovernanceRows(c, d, pid)]
        && ex == FinalizedExecution(c.ex, stepCount, d, pid, pid + 1, now)
        && ex.executionId == e
    {
      ghost var c := repo.cases[e];
      var before := repo.GetExecution(e);
      var decision;
      pid, decision := ProposeAndEvaluate(e);
      var settled;
      settled, ex := SettleRecord(e, before, stepCount, decision, pid, now);
      TwoWrites(c.proposals, pid, Proposal(e, EscalateIncident, Proposed, false), settled);
      repo.SaveProposal(pid, settled);
    }

    /** The three branches on the policy decision. */
    method SettleRecord(e: Id, before: Execution, stepCount: nat, decision: PolicyDecision, pid: Id, now: Time)
      returns (p: Proposal, ex: Execution)
      ensures p == FinalizedProposal(e, decision)
      ensures ex == FinalizedExecution(before, stepCount, decision, pid, pid + 1, now)
    {
      ex := Append(before, ActionProposed(pid), now);
      ex := Append(ex, PolicyEvaluated(pid + 1, decision), now);
      p := Proposal(e, EscalateIncident, Proposed, false);
      if decision.Deny? {
        p := p.(status := PolicyDenied);
        ex := ex.(result := Some(GovernedResult(OutcomeFailed, stepCount, pid, Deny, None)));
        ex := Append(ex, GovernedOutcome(pid), now);
        ex := Enter(ex, Failed, now);
      } else if decision.Allow? {
        p := p.(status := Approved);
        ex := Append(ex, GovernedOutcome(pid), now);
        ex := Complete(ex, GovernedResult(OutcomeSuccess, stepCount, pid, Allow, None), now);
      } else {
        p := p.(status := ProposalAwaiting, requiresApproval := true);
        var gov := Some(Governance(pid, pid + 1));
        ex := ex.(result := Some(GovernedResult(OutcomeAwaiting, stepCount, pid, Conditional, gov)));
        ex := Append(ex, ApprovalRequired(pid, pid + 1), now);
        ex := Enter(ex, AwaitingApproval, now);
      }
      assert ex.timeline == before.timeline + FinalRows(decision, pid, pid + 1, now);
    }

    // ---------------------------------------------------------------- one step

    /** Run one chosen step: start it, do its work, and unless that raises store its result
        and record its end. */
    method RunStep(e: Id, sid: Id) returns (raised: bool, ghost acts: seq<Action>)
      requires repo.Valid() && e in repo.cases && Ready(repo.cases[e].steps, sid)
      modifies repo
      ensures repo.Valid() && e in repo.cases && repo.cases == old(repo.cases)[e := repo.cases[e]]
      ensures EngineOnly(acts) && (!raised ==> Undisturbed(acts))
      ensures Run(Sys(old(repo.cases[e]), AtStepBegin(sid)), acts)
           == Sys(repo.cases[e], if raised then AtRest(true) else AtLoop)
      ensures OneFewerPending(old(repo.cases[e]).steps, repo.cases[e].steps, sid)
      ensures StepWorked(work, old(repo.cases[e]), repo.cases[e], sid, raised)
    {
      ghost var s := Sys(repo.cases[e], AtStepBegin(sid));
      var running;
      ghost var start, traced;
      running, start := StartStep(e, sid);
      ghost var c1 := repo.cases[e];
      raised, traced := DoWork(e, sid, running);
      WorkedAt(work, old(repo.cases[e]), c1, repo.cases[e], sid, running, raised);
      if raised {
        RunConcat(s, start, traced);
        return true, start + traced;
      }
      ghost var s3 := Sys(repo.cases[e], AtStepDone(sid));
      var now: Time := *;
      EndStep(e, sid, running.stepType, now);
      ThreeParts(s, start, traced, Engine(Tick(now)), s3);
      DoneSection(s3.c, sid, now);
      EndKeepsWork(work, old(repo.cases[e]), s3.c, sid, now);
      acts := start + traced + [Engine(Tick(now))];
    }

    /** Two sections: store the running step, then its timeline row. */
    method StartStep(e: Id, sid: Id) returns (running: Step, ghost acts: seq<Action>)
      requires repo.Valid() && e in repo.cases && Ready(repo.cases[e].steps, sid)
      modifies repo
      ensures repo.Valid() && e in repo.cases && repo.cases == old(repo.cases)[e := repo.cases[e]]
      ensures EngineOnly(acts) && Undisturbed(acts)
      ensures Run(Sys(old(repo.cases[e]), AtStepBegin(sid)), acts) == Sys(repo.cases[e], AtStepWork(sid))
      ensures repo.cases[e].steps == old(repo.cases[e]).steps[sid := running] && running.executionId == e
      ensures running == RunningSince(old(repo.cases[e]).steps[sid], running.updatedAt)
      ensures repo.cases[e].results == old(repo.cases[e]).results
      ensures TraceLog(repo.cases[e].ex.timeline) == TraceLog(old(repo.cases[e]).ex.timeline)
    {
      ghost var s := Sys(repo.cases[e], AtStepBegin(sid));
      var step := repo.GetStep(e, sid);
      var now: Time := *;
      running := step.(status := Running, updatedAt := now);
      repo.UpdateStep(sid, running);
      ghost var s1 := Sys(repo.cases[e], AtStepStarted(sid));
      ghost var a := Engine(Tick(now));
      now := *;
      TraceLogMore(repo.cases[e].ex.timeline, Row(now, StepStarted(sid)));
      AppendTimeline(e, StepStarted(sid), now);
      acts := [a, Engine(Tick(now))];
      TwoSections(s, a, s1, acts[1], Sys(repo.cases[e], AtStepWork(sid)));
    }

    method EndStep(e: Id, sid: Id, stepType: StepType, now: Time)
      requires repo.Valid() && e in repo.cases
      requires sid in repo.cases[e].steps && repo.cases[e].steps[sid].stepType == stepType
      modifies repo
      ensures repo.Valid()
      ensures repo.cases == old(repo.cases)[e := CompleteStep(old(repo.cases[e]), sid, now)]
    {
      var ex := repo.GetExecution(e);
      ex := Append(ex, StepCompleted(sid), now);
      if stepType.ValidationStep? {
        ex := Append(ex, ValidationPerformed(sid), now);
      }
      repo.UpdateExecution(ex);
    }

    /** The step's own work: any number of trace rows, then its result and its success, or
        nothing more if it raises. */
    method DoWork(e: Id, sid: Id, running: Step) returns (raised: bool, ghost acts: seq<Action>)
      requires repo.Valid() && e in repo.cases && running.executionId == e && running.status.Running?
      requires sid in repo.cases[e].steps && repo.cases[e].steps[sid] == running
      modifies repo
      ensures repo.Valid() && e in repo.cases && repo.cases == old(repo.cases)[e := repo.cases[e]]
      ensures EngineOnly(acts) && (!raised ==> Undisturbed(acts))
      ensures Run(Sys(old(repo.cases[e]), AtStepWork(sid)), acts)
           == Sys(repo.cases[e], if raised then AtRest(true) else AtStepDone(sid))
      ensures sid in repo.cases[e].steps && !repo.cases[e].steps[sid].status.Pending?
      ensures repo.cases[e].steps[sid].stepType == running.stepType
      ensures repo.cases[e].steps == old(repo.cases[e]).steps[sid := repo.cases[e].steps[sid]]
      ensures WorkStored(work(running), old(repo.cases[e]), repo.cases[e], sid, raised)
    {
      ghost var s := Sys(repo.cases[e], AtStepWork(sid));
      acts := [];
      var report := work(running);
      for i := 0 to |report.traces|
        invariant repo.Valid() && e in repo.cases && repo.cases == old(repo.cases)[e := repo.cases[e]]
        invariant Undisturbed(acts) && Run(s, acts) == Sys(repo.cases[e], AtStepWork(sid))
        invariant repo.cases[e].steps == old(repo.cases[e]).steps
        invariant repo.cases[e].results == old(repo.cases[e]).results
        invariant TraceLog(repo.cases[e].ex.timeline) ==
          TraceLog(old(repo.cases[e]).ex.timeline) + TracesOf(sid, report.traces[..i])
      {
        var now: Time := *;
        TraceLogMore(repo.cases[e].ex.timeline, Row(now, StepTrace(sid, report.traces[i])));
        assert TracesOf(sid, report.traces[..i + 1]) == TracesOf(sid, report.traces[..i]) + [Trace(sid, report.traces[i])];
        AppendTimeline(e, StepTrace(sid, report.traces[i]), now);
        ghost var a := Engine(Tick(now).(report := Traces(report.traces[i])));
        RunExtends(s, acts, a);
        acts := acts + [a];
      }
      assert report.traces[..|report.traces|] == report.traces;
      var now: Time := *;
      ghost var last := if report.result.Some? then Returns(report.result.value) else Raises;
      ghost var a := Engine(Tick(now).(report := last));
      RunExtends(s, acts, a);
      acts := acts + [a];
      raised := report.result.None?;
      if !raised {
        StoreResult(e, sid, running, report.result.value, now);
      }
    }

    method StoreResult(e: Id, sid: Id, running: Step, result: StepResult, now: Time)
      requires repo.Valid() && e in repo.cases && running.executionId == e
      requires sid in repo.cases[e].steps && repo.cases[e].steps[sid] == running
      modifies repo
      ensures repo.Valid()
      ensures var c := old(repo.cases[e]); repo.cases == old(repo.cases)[e :=
        SetStep(c, sid, Succeeded, now).(results := c.results[sid := result])]
    {
      repo.SaveStepResult(e, sid, result);
      var done := running.(status := Succeeded, updatedAt := now);
      repo.UpdateStep(sid, done);
    }

    // ---------------------------------------------------------------- runs

    /** Drive an execution until it rests or raises: the engine's sections of one
        uninterrupted run, in order, on the rows of `e` alone. */
    method RunExecution(e: Id) returns (end: RunEnd, ghost acts: seq<Action>)
      requires repo.Valid() && (e in repo.cases ==> At(e, AtStart))
      modifies repo
      ensures repo.Valid()
      ensures e !in old(repo.cases) ==> end == NotFound && repo.cases == old(repo.cases)
      ensures e in old(repo.cases) ==>
        && end != NotFound && e in repo.cases && repo.cases == old(repo.cases)[e := repo.cases[e]]
        && EngineOnly(acts) && acts != []
        && acts[0].input.draft == planner(old(repo.cases[e].ex.workflow))
        && Run(Sys(old(repo.cases[e]), AtStart), acts) == Sys(repo.cases[e], PcAfter(end))
        && (!end.Crashed? ==> Undisturbed(acts))
        && NewResultsWorked(work, old(repo.cases[e]), repo.cases[e])
    {
      var known := repo.Knows(e);
      if !known {
        return NotFound, [];
      }
      ghost var s := Sys(repo.cases[e], AtStart);
      var now: Time := *;
      ghost var input;
      var from, pc;
      input, from := BeginRun(e, now);
      acts := [Engine(input)];
      ghost var begun := Sys(repo.cases[e], from);
      FirstRan(s, input, begun);
      BeginResults(s.c, input);
      ghost var rest;
      pc, rest := RunLoop(e, from);
      RunGoesOn(s, acts, begun, rest, Sys(repo.cases[e], pc));
      acts := acts + rest;
      end := match pc
        case AtRest(crashed) => if crashed then Crashed else Returned
        case AtRaised(reason) => RaisedError(reason)
        case _ => Returned;
    }

    /** The loop, entered with the runner at `from`. */
    method RunLoop(e: Id, from: Pc) returns (pc: Pc, ghost acts: seq<Action>)
      requires At(e, from) && (from.AtLoop? || from.AtRest? || from.AtRaised?)
      modifies repo
      ensures repo.Valid() && e in repo.cases && repo.cases == old(repo.cases)[e := repo.cases[e]]
      ensures EngineOnly(acts) && Run(Sys(old(repo.cases[e]), from), acts) == Sys(repo.cases[e], pc)
      ensures from != AtRest(true) && pc != AtRest(true) ==> Undisturbed(acts)
      ensures from == AtRest(true) ==> acts == []
      ensures pc.AtRest? || pc.AtRaised?
      ensures NewResultsWorked(work, old(repo.cases[e]), repo.cases[e])
    {
      ghost var s := Sys(repo.cases[e], from);
      pc, acts := from, [];
      while pc.AtLoop?
        invariant repo.Valid() && e in repo.cases && repo.cases == old(repo.cases)[e := repo.cases[e]]
        invariant Ran(s, acts, Sys(repo.cases[e], pc)) && (from == AtRest(true) ==> acts == [])
        invariant pc.AtLoop? || pc.AtRest? || pc.AtRaised?
        invariant NewResultsWorked(work, old(repo.cases[e]), repo.cases[e])
        decreases if pc.AtLoop? then 1 else 0, PendingIds(repo.cases[e].steps)
      {
        ghost var c := repo.cases[e];
        ghost var turn;
        pc, turn := OneTurn(e);
        RanOn(s, acts, Sys(c, AtLoop), turn, Sys(repo.cases[e], pc));
        FixedAlong(Sys(c, AtLoop), turn);
        ResultsThen(work, s.c, c, repo.cases[e]);
        acts := acts + turn;
      }
    }

    /** One iteration of the loop: either the run ends here or one more step has run. */
    method OneTurn(e: Id) returns (pc: Pc, ghost acts: seq<Action>)
      requires At(e, AtLoop)
      modifies repo
      ensures repo.Valid() && e in repo.cases && repo.cases == old(repo.cases)[e := repo.cases[e]]
      ensures EngineOnly(acts) && Run(Sys(old(repo.cases[e]), AtLoop), acts) == Sys(repo.cases[e], pc)
      ensures pc != AtRest(true) ==> Undisturbed(acts)
      ensures pc.AtLoop? || pc.AtRest? || pc.AtRaised?
      ensures pc.AtLoop? ==> FewerPending(old(repo.cases[e]).steps, repo.cases[e].steps)
      ensures NewResultsWorked(work, old(repo.cases[e]), repo.cases[e])
    {
      ghost var s := Sys(repo.cases[e], AtLoop);
      var now: Time := *;
      pc := HeadSection(e, now);
      acts := [Engine(Tick(now))];
      HeadLeaves(s, now, Sys(repo.cases[e], pc));
      ghost var rest := [];
      if pc.AtCancel? {
        rest := CancelTurn(e);
        pc := AtRest(false);
        RunConcat(s, acts, rest);
      } else if pc.AtDecide? {
        pc, rest := DecideTurn(e);
        RunConcat(s, acts, rest);
      }
      acts := acts + rest;
    }

    /** The flag was up: cancel and rest. */
    method CancelTurn(e: Id) returns (ghost acts: seq<Action>)
      requires repo.Valid() && e in repo.cases
      modifies repo
      ensures repo.Valid() && e in repo.cases && repo.cases == old(repo.cases)[e := repo.cases[e]]
      ensures EngineOnly(acts) && Undisturbed(acts) && repo.cases[e].results == old(repo.cases[e]).results
      ensures Run(Sys(old(repo.cases[e]), AtCancel), acts) == Sys(repo.cases[e], AtRest(false))
    {
      var now: Time := *;
      OneSection(Sys(repo.cases[e], AtCancel), Engine(Tick(now)));
      CancelExecution(e, FlagSeen, now);
      acts := [Engine(Tick(now))];
    }

    /** From the decision on: end here, or run the chosen step. */
    method DecideTurn(e: Id) returns (pc: Pc, ghost acts: seq<Action>)
      requires At(e, AtDecide)
      modifies repo
      ensures repo.Valid() && e in repo.cases && repo.cases == old(repo.cases)[e := repo.cases[e]]
      ensures EngineOnly(acts) && Run(Sys(old(repo.cases[e]), AtDecide), acts) == Sys(repo.cases[e], pc)
      ensures pc != AtRest(true) ==> Undisturbed(acts)
      ensures pc.AtLoop? || pc.AtRest? || pc.AtRaised?
      ensures pc.AtLoop? ==> FewerPending(old(repo.cases[e]).steps, repo.cases[e].steps)
      ensures NewResultsWorked(work, old(repo.cases[e]), repo.cases[e])
    {
      ghost var s := Sys(repo.cases[e], AtDecide);
      var now: Time := *;
      ghost var input;
      pc, input := DecideSection(e, now);
      acts := [Engine(input)];
      DecideLeaves(s, input, Sys(repo.cases[e], pc));
      DecideResults(s.c, input);
      if pc.AtStepBegin? {
        var raised;
        ghost var c, ran := repo.cases[e], [];
        raised, ran := RunStep(e, pc.stepId);
        StepBrings(work, c, pc.stepId, ran, repo.cases[e], raised);
        RunConcat(s, acts, ran);
        FewerThan(s.c.steps, repo.cases[e].steps, pc.stepId);
        acts := acts + ran;
        pc := if raised then AtRest(true) else AtLoop;
      }
    }

    // ---------------------------------------------------------------- cancellation, failure, approval

    method CancelExecution(e: Id, why: Why, now: Time)
      requires repo.Valid() && e in repo.cases
      modifies repo
      ensures repo.Valid() && repo.cases == old(repo.cases)[e := Cancel(old(repo.cases[e]), why, now)]
    {
      var ex := repo.GetExecution(e);
      ex := ex.(input := MarkCancelled(ex.input, why, now));
      if ValidateExecution(ex.status, Cancelled).Permitted? {
        var doc := Result(OutcomeCancelled, 0, Some(Cancellation(why)), None, None, None);
        ex := Enter(ex.(cancelledAt := Some(now), result := Some(doc)), Cancelled, now);
      }
      repo.UpdateExecution(ex);
    }

    method FailExecution(e: Id, reason: Reason, now: Time)
      requires repo.Valid() && e in repo.cases
      modifies repo
      ensures repo.Valid() && repo.cases == old(repo.cases)[e := Fail(old(repo.cases[e]), reason, now)]
    {
      var ex := repo.GetExecution(e);
      if ValidateExecution(ex.status, Failed).Permitted? {
        var doc := Result(OutcomeFailed, 0, Some(reason), None, None, None);
        repo.UpdateExecution(Enter(ex.(result := Some(doc)), Failed, now));
      }
    }

    /** Record a human decision on an execution that awaits approval. */
    method SubmitApproval(e: Id, decision: ApprovalDecision, approver: string, now: Time)
      returns (error: Option<ApprovalError>, ghost id: Id)
      requires At(e, AtRest(false))
      modifies repo
      ensures repo.Valid()
      ensures var (c', error') := Decided(old(repo.cases[e]), decision, approver, id, now);
        repo.cases == old(repo.cases)[e := c'] && error == error'
    {
      id := repo.nextId;
      var ex := repo.GetExecution(e);
      if !ex.status.AwaitingApproval? {
        return Some(NotAwaiting), id;
      }
      if ex.result.None? || ex.result.value.governance.None? {
        return Some(MissingGovernance), id;
      }
      if decision.Defer? {
        return Some(DeferUnsupported), id;
      }
      var gov := ex.result.value.governance.value;
      DecidedWrites(repo.cases[e], gov, decision, approver, id, now);
      RecordDecision(e, gov, decision, approver, now);
      error := None;
    }

    method RecordDecision(e: Id, gov: Governance, decision: ApprovalDecision, approver: string, now: Time)
      requires repo.Valid() && e in repo.cases && repo.cases[e].ex.status.AwaitingApproval?
      requires repo.cases[e].ex.result.Some? && repo.cases[e].ex.result.value.governance == Some(gov)
      requires gov.proposalId in repo.cases[e].proposals && !decision.Defer?
      modifies repo
      ensures repo.Valid()
      ensures repo.cases ==
        old(repo.cases)[e := AfterDecision(old(repo.cases[e]), gov, decision, approver, old(repo.nextId), now)]
    {
      ghost var c := repo.cases[e];
      var approvalId := repo.NewIds(1);
      var approval := Approval(e, gov.evaluationId, gov.proposalId, approver, decision, now);
      repo.SaveApproval(approvalId, approval);
      ghost var c1 := c.(approvals := c.approvals[approvalId := approval]);
      assert repo.cases == old(repo.cases)[e := c1];
      var rows := repo.ListSteps(e);
      ListingTests(rows, c.steps);
      var before := repo.GetExecution(e);
      var ex := DecideRecord(before, |rows|, decision, gov.proposalId, approvalId, now);
      SettleProposal(e, gov.proposalId, if decision.Reject? then Rejected else Approved, ex);
    }

    method SettleProposal(e: Id, pid: Id, status: ProposalStatus, ex: Execution)
      requires repo.Valid() && e in repo.cases && pid in repo.cases[e].proposals
      requires ex.executionId == e && ex.contextId == repo.cases[e].ex.contextId
      requires ex.planId == repo.cases[e].ex.planId
      modifies repo
      ensures repo.Valid() && repo.nextId == old(repo.nextId)
      ensures var c := old(repo.cases[e]); repo.cases == old(repo.cases)[e :=
        c.(proposals := c.proposals[pid := c.proposals[pid].(status := status)], ex := ex)]
    {
      var p := repo.GetProposal(e, pid);
      repo.SaveProposal(pid, p.(status := status));
      assert repo.Tied(e);
      repo.UpdateExecution(ex);
    }

    /** The two branches on the human decision. */
    method DecideRecord(before: Execution, stepCount: nat, decision: ApprovalDecision, pid: Id, id: Id, now: Time)
      returns (ex: Execution)
      ensures ex == DecidedExecution(before, stepCount, decision, pid, id, now)
    {
      ex := Append(before, ApprovalReceived(id, decision), now);
      if decision.Reject? {
        ex := ex.(result := Some(GovernedResult(OutcomeFailed, stepCount, pid, Conditional, None)));
        ex := Append(ex, GovernedOutcome(pid), now);
        ex := Enter(ex, Failed, now);
      } else {
        ex := ex.(result := Some(GovernedResult(OutcomeSuccess, stepCount, pid, Conditional, None)));
        ex := ex.(completedAt := Some(now));
        ex := Append(ex, GovernedOutcome(pid), now);
        ex := Enter(ex, Completed, now);
      }
      assert ex.timeline == before.timeline + [Row(now, ApprovalReceived(id, decision)),
        Row(now, GovernedOutcome(pid)), Row(now, StatusRow(DecidedStatus(decision)))];
    }
  }

  // ---------------------------------------------------------------- what work leaves behind

  /** A step as it is handed to its work. */
  function RunningSince(step: Step, at: Time): Step {
    step.(status := Running, updatedAt := at)
  }

  function TracesOf(sid: Id, kinds: seq<WorkKind>): seq<Trace> {
    seq(|kinds|, i requires 0 <= i < |kinds| => Trace(sid, kinds[i]))
  }

  /** The work of step `sid` reported `report`: its trace rows are in the timeline, in order,
      and its result, unless it raised, is the one stored. */
  predicate WorkStored(report: StepWork, c: Case, c': Case, sid: Id, raised: bool) {
    && raised == report.result.None?
    && c'.results == (if raised then c.results else c.results[sid := report.result.value])
    && TraceLog(c'.ex.timeline) == TraceLog(c.ex.timeline) + TracesOf(sid, report.traces)
  }

  predicate WorkedSince(work: Step -> StepWork, c: Case, c': Case, sid: Id, raised: bool, at: Time) {
    sid in c.steps && WorkStored(work(RunningSince(c.steps[sid], at)), c, c', sid, raised)
  }

  /** What is stored of step `sid` is what its work did, given the step as stored running. */
  ghost predicate StepWorked(work: Step -> StepWork, c: Case, c': Case, sid: Id, raised: bool) {
    exists at :: WorkedSince(work, c, c', sid, raised, at)
  }

  predicate ResultSince(work: Step -> StepWork, step: Step, result: StepResult, at: Time) {
    work(RunningSince(step, at)).result == Some(result)
  }

  /** Some time or other, the step's work answered with this result. */
  ghost predicate ResultOfWork(work: Step -> StepWork, step: Step, result: StepResult) {
    exists at :: ResultSince(work, step, result, at)
  }

  /** Every result that is new in `c'` is the work of its step, and no other has changed. */
  ghost predicate NewResultsWorked(work: Step -> StepWork, c: Case, c': Case) {
    forall sid :: sid in c'.results ==>
      || (sid in c.results && c'.results[sid] == c.results[sid])
      || (sid in c'.steps && ResultOfWork(work, c'.steps[sid], c'.results[sid]))
  }

  lemma TraceLogMore(tl: seq<Row>, r: Row)
    ensures TraceLog(tl + [r]) ==
      TraceLog(tl) + if r.event.StepTrace? then [Trace(r.event.stepId, r.event.kind)] else []
  {
    assert (tl + [r])[..|tl|] == tl;
  }

  lemma WorkedAt(
    work: Step -> StepWork, c: Case, c1: Case, c': Case, sid: Id, running: Step, raised: bool)
    requires sid in c.steps && running == RunningSince(c.steps[sid], running.updatedAt)
    requires c1.results == c.results && TraceLog(c1.ex.timeline) == TraceLog(c.ex.timeline)
    requires WorkStored(work(running), c1, c', sid, raised)
    ensures StepWorked(work, c, c', sid, raised)
  {
    assert WorkedSince(work, c, c', sid, raised, running.updatedAt);
  }

  lemma EndKeepsWork(work: Step -> StepWork, c: Case, c': Case, sid: Id, now: Time)
    requires StepWorked(work, c, c', sid, false)
    ensures StepWorked(work, c, CompleteStep(c', sid, now), sid, false)
  {
    var at :| WorkedSince(work, c, c', sid, false, at);
    var tl := c'.ex.timeline;
    CompleteStepShape(c', sid, now);
    TraceLogMore(tl, Row(now, StepCompleted(sid)));
    TraceLogMore(tl + [Row(now, StepCompleted(sid))], Row(now, ValidationPerformed(sid)));
    assert WorkedSince(work, c, CompleteStep(c', sid, now), sid, false, at);
  }

  /** One step that has run brings at most its own result. */
  lemma OneResult(work: Step -> StepWork, c: Case, c': Case, sid: Id, raised: bool)
    requires StepWorked(work, c, c', sid, raised) && sid in c'.steps
    requires Accounts.Fixed(c'.steps[sid]) == Accounts.Fixed(c.steps[sid])
    ensures NewResultsWorked(work, c, c')
  {
    var at :| WorkedSince(work, c, c', sid, raised, at);
    if !raised {
      assert RunningSince(c'.steps[sid], at) == RunningSince(c.steps[sid], at);
      assert ResultSince(work, c'.steps[sid], c'.results[sid], at);
    }
  }

  lemma StepBrings(work: Step -> StepWork, c: Case, sid: Id, ran: seq<Action>, c': Case, raised: bool)
    requires EngineOnly(ran) && StepWorked(work, c, c', sid, raised)
    requires Run(Sys(c, AtStepBegin(sid)), ran).c == c'
    ensures NewResultsWorked(work, c, c')
  {
    FixedAlong(Sys(c, AtStepBegin(sid)), ran);
    OneResult(work, c, c', sid, raised);
  }

  /** Steps keep what work is given. */
  predicate FixedSteps(c: Case, c': Case) {
    forall sid :: sid in c.steps ==> sid in c'.steps && Accounts.Fixed(c'.steps[sid]) == Accounts.Fixed(c.steps[sid])
  }

  lemma ResultsThen(work: Step -> StepWork, c: Case, c1: Case, c2: Case)
    requires NewResultsWorked(work, c, c1) && NewResultsWorked(work, c1, c2) && FixedSteps(c1, c2)
    ensures NewResultsWorked(work, c, c2)
  {
    forall sid | sid in c2.results && sid in c1.results && c2.results[sid] == c1.results[sid]
                 && sid in c1.steps && ResultOfWork(work, c1.steps[sid], c1.results[sid])
      ensures sid in c2.steps && ResultOfWork(work, c2.steps[sid], c2.results[sid])
    {
      var at :| ResultSince(work, c1.steps[sid], c1.results[sid], at);
      assert RunningSince(c2.steps[sid], at) == RunningSince(c1.steps[sid], at);
      assert ResultSince(work, c2.steps[sid], c2.results[sid], at);
    }
  }

  lemma {:induction false} FixedAlong(s: Sys, acts: seq<Action>)
    requires EngineOnly(acts) && !s.pc.AtStart?
    ensures FixedSteps(s.c, Run(s, acts).c)
    decreases |acts|
  {
    if acts != [] {
      var t := Apply(s, acts[0]);
      Accounts.SectionMoves(s, acts[0]);
      NeverBackToStart(s, acts[0].input);
      FixedAlong(t, acts[1..]);
      FixedThen(s.c, t.c, Run(s, acts).c, TimeOf(acts[0]));
    }
  }

  lemma FixedThen(c: Case, c1: Case, c2: Case, now: Time)
    requires Accounts.StepsMove(c, c1, now) && FixedSteps(c1, c2)
    ensures FixedSteps(c, c2)
  {
  }

  lemma NeverBackToStart(s: Sys, input: Input)
    requires !s.pc.AtStart?
    ensures !Apply(s, Engine(input)).pc.AtStart?
  {
  }

  function Tick(now: Time): Input {
    Input(now, 0, Draft([], []), NO_REPORT)
  }

  /** The writes of a decision on a case that waits for it. */
  function AfterDecision(
    c: Case, gov: Governance, decision: ApprovalDecision, approver: string, id: Id, now: Time): Case
    requires gov.proposalId in c.proposals
  {
    c.(approvals := c.approvals[id :=
         Approval(c.ex.executionId, gov.evaluationId, gov.proposalId, approver, decision, now)],
       proposals := c.proposals[gov.proposalId :=
         c.proposals[gov.proposalId].(status := if decision.Reject? then Rejected else Approved)],
       ex := DecidedExecution(c.ex, |c.steps|, decision, gov.proposalId, id, now))
  }

  lemma DecidedWrites(c: Case, gov: Governance, decision: ApprovalDecision, approver: string, id: Id, now: Time)
    requires c.ex.status.AwaitingApproval? && !decision.Defer? && gov.proposalId in c.proposals
    requires c.ex.result.Some? && c.ex.result.value.governance == Some(gov)
    ensures Decided(c, decision, approver, id, now) == (AfterDecision(c, gov, decision, approver, id, now), None)
  {
  }

  lemma TwoWrites<T>(m: map<Id, T>, id: Id, a: T, b: T)
    ensures m[id := a][id := b] == m[id := b]
  {
  }

  lemma TwoSections(s: Sys, a: Action, s1: Sys, b: Action, s2: Sys)
    requires s1 == Apply(s, a) && s2 == Apply(s1, b)
    ensures Run(s, [a, b]) == s2
  {
    OneSection(s1, b);
    assert [a, b][1..] == [b];
  }

  /** The sections `acts` of one uninterrupted run lead from `s` to `t`. */
  ghost predicate Ran(s: Sys, acts: seq<Action>, t: Sys) {
    EngineOnly(acts) && Run(s, acts) == t && Inv(t) && (t.pc != AtRest(true) ==> Undisturbed(acts))
  }

  lemma FirstRan(s: Sys, input: Input, t: Sys)
    requires Inv(s) && t == Apply(s, Engine(input)) && !input.report.Raises?
    ensures Ran(s, [Engine(input)], t)
  {
    OneSection(s, Engine(input));
    StepKeeps(s, Engine(input));
  }

  /** The same after a first section that may already have crashed. */
  lemma RunGoesOn(s: Sys, acts: seq<Action>, t: Sys, rest: seq<Action>, t': Sys)
    requires Ran(s, acts, t) && EngineOnly(rest) && Run(t, rest) == t'
    requires t.pc != AtRest(true) && t'.pc != AtRest(true) ==> Undisturbed(rest)
    requires t.pc == AtRest(true) ==> rest == []
    ensures Ran(s, acts + rest, t')
  {
    if rest == [] {
      assert acts + rest == acts;
    } else {
      RanOn(s, acts, t, rest, t');
    }
  }

  lemma RanOn(s: Sys, acts: seq<Action>, t: Sys, turn: seq<Action>, t': Sys)
    requires Ran(s, acts, t) && t.pc != AtRest(true)
    requires EngineOnly(turn) && Run(t, turn) == t' && (t'.pc != AtRest(true) ==> Undisturbed(turn))
    ensures Ran(s, acts + turn, t')
  {
    RunConcat(s, acts, turn);
    RunKeeps(t, turn);
  }

  predicate OneFewerPending(before: map<Id, Step>, after: map<Id, Step>, sid: Id) {
    sid in after && !after[sid].status.Pending? && after == before[sid := after[sid]]
  }

  /** The pending steps are fewer by at least one. */
  predicate FewerPending(before: map<Id, Step>, after: map<Id, Step>) {
    PendingIds(after) < PendingIds(before)
  }

  lemma FewerThan(before: map<Id, Step>, after: map<Id, Step>, sid: Id)
    requires OneFewerPending(before, after, sid) && Ready(before, sid)
    ensures FewerPending(before, after)
  {
    assert sid in PendingIds(before) && sid !in PendingIds(after);
  }

  /** The loop head changes no step and leads to a cancellation, to rest, or onwards. */
  lemma HeadLeaves(s: Sys, now: Time, s': Sys)
    requires Inv(s) && s.pc == AtLoop && s' == (var (c', pc') := LoopHead(s.c, now); Sys(c', pc'))
    ensures Run(s, [Engine(Tick(now))]) == s' && Inv(s') && s'.c.steps == s.c.steps
    ensures s'.pc.AtCancel? || s'.pc.AtRest? || s'.pc.AtRaised? || s'.pc.AtDecide?
  {
    OneSection(s, Engine(Tick(now)));
    StepKeeps(s, Engine(Tick(now)));
  }

  /** The decision changes no step and leads to rest, to an error, or to a ready step. */
  lemma DecideLeaves(s: Sys, input: Input, s': Sys)
    requires Inv(s) && s.pc == AtDecide && s' == (var (c', pc') := Decide(s.c, input); Sys(c', pc'))
    ensures Run(s, [Engine(input)]) == s' && s'.c.steps == s.c.steps
    ensures s'.pc.AtRest? || s'.pc.AtRaised? || (s'.pc.AtStepBegin? && Ready(s.c.steps, s'.pc.stepId))
  {
    OneSection(s, Engine(input));
    Effects.DecideEffect(s.c, input);
  }

  lemma DoneSection(c: Case, sid: Id, now: Time)
    ensures Apply(Sys(c, AtStepDone(sid)), Engine(Tick(now))) == Sys(CompleteStep(c, sid, now), AtLoop)
  {
  }

  lemma ThreeParts(s: Sys, start: seq<Action>, traced: seq<Action>, last: Action, s3: Sys)
    requires Run(Run(s, start), traced) == s3
    ensures Run(s, start + traced + [last]) == Apply(s3, last)
  {
    RunConcat(s, start, traced);
    RunExtends(s, start + traced, last);
  }

  lemma OneSection(s: Sys, a: Action)
    ensures Run(s, [a]) == Apply(s, a)
  {
    assert Run(s, [a]) == Run(Apply(s, a), []);
  }

  // ---------------------------------------------------------------- saving the steps of a plan

  ghost function Storing(cases: map<Id, Case>, e: Id, id: Id, step: Step): map<Id, Case>
    requires e in cases
  {
    cases[e := cases[e].(steps := cases[e].steps[id := step])]
  }

  /** The steps in `saved` have been added to the case of `e`. */
  ghost predicate Stored(before: map<Id, Case>, e: Id, saved: map<Id, Step>, after: map<Id, Case>) {
    e in before && after == before[e := before[e].(steps := before[e].steps + saved)]
  }

  lemma NothingStored(cases: map<Id, Case>, e: Id)
    requires e in cases
    ensures Stored(cases, e, map[], cases)
  {
    assert cases[e].steps + map[] == cases[e].steps;
  }

  lemma StoredOne(
    before: map<Id, Case>, e: Id, saved: map<Id, Step>, mid: map<Id, Case>,
    more: map<Id, Step>, after: map<Id, Case>)
    requires Stored(before, e, saved, mid)
    requires exists id, step :: more == saved[id := step] && after == Storing(mid, e, id, step)
    ensures Stored(before, e, more, after)
  {
    var id, step :| more == saved[id := step] && after == Storing(mid, e, id, step);
    assert (before[e].steps + saved)[id := step] == before[e].steps + more;
  }

  /** The first `n` specs are saved: one step for each of their keys, from the last spec
      with that key. */
  ghost predicate SavedUpTo(draft: Draft, e: Id, planId: Id, now: Time, n: nat, saved: map<Id, Step>)
    requires EdgesResolve(draft) && n <= |draft.specs|
  {
    && (forall id :: id in saved ==> exists k :: KeyOfId(draft, planId, n, k, id))
    && (forall k, id :: KeyOfId(draft, planId, n, k, id) ==>
          id in saved && saved[id] == NewStep(draft, e, planId, now, LastIndex(draft.specs[..n], k)))
  }

  ghost predicate KeyOfId(draft: Draft, planId: Id, n: nat, key: string, id: Id)
    requires n <= |draft.specs|
  {
    key in Keys(draft.specs[..n]) && key in Keys(draft.specs) && id == StepId(draft, planId, key)
  }

  lemma LastKeySaved(draft: Draft, planId: Id, n: nat)
    requires n < |draft.specs| && draft.specs[n].key in Keys(draft.specs)
    ensures KeyOfId(draft, planId, n + 1, draft.specs[n].key, StepId(draft, planId, draft.specs[n].key))
    ensures LastIndex(draft.specs[..n + 1], draft.specs[n].key) == n
  {
    assert draft.specs[..n + 1][n] in draft.specs[..n + 1];
  }

  lemma SavedStep(draft: Draft, e: Id, planId: Id, now: Time, n: nat, saved: map<Id, Step>, k: string, id: Id)
    requires EdgesResolve(draft) && n < |draft.specs| && SavedUpTo(draft, e, planId, now, n, saved)
    requires k != draft.specs[n].key && KeyOfId(draft, planId, n + 1, k, id)
    ensures id in saved && saved[id] == NewStep(draft, e, planId, now, LastIndex(draft.specs[..n + 1], k))
  {
    LaterKey(draft, planId, n, k, id);
    LastIndexPrefix(draft.specs, n, k);
  }

  lemma LastIndexPrefix(specs: seq<Spec>, n: nat, k: string)
    requires n < |specs| && k in Keys(specs[..n]) && k in Keys(specs[..n + 1]) && specs[n].key != k
    ensures LastIndex(specs[..n + 1], k) == LastIndex(specs[..n], k)
  {
    assert specs[..n + 1][..n] == specs[..n];
  }

  lemma SavedOneMore(draft: Draft, e: Id, planId: Id, now: Time, n: nat, saved: map<Id, Step>)
    requires EdgesResolve(draft) && n < |draft.specs| && SavedUpTo(draft, e, planId, now, n, saved)
    requires draft.specs[n].key in Keys(draft.specs)
    ensures var id := StepId(draft, planId, draft.specs[n].key);
      SavedUpTo(draft, e, planId, now, n + 1, saved[id := NewStep(draft, e, planId, now, n)])
  {
    var key := draft.specs[n].key;
    var nid := StepId(draft, planId, key);
    var more := saved[nid := NewStep(draft, e, planId, now, n)];
    var m := n + 1;
    LastKeySaved(draft, planId, n);
    forall id | id in more ensures exists k :: KeyOfId(draft, planId, m, k, id) {
      if id == nid {
        assert KeyOfId(draft, planId, m, key, id);
      } else {
        var k :| KeyOfId(draft, planId, n, k, id);
        EarlierKey(draft, planId, n, k, id);
      }
    }
    forall k, id | KeyOfId(draft, planId, m, k, id)
      ensures id in more && more[id] == NewStep(draft, e, planId, now, LastIndex(draft.specs[..m], k))
    {
      if k != key {
        LaterKey(draft, planId, n, k, id);
        SavedStep(draft, e, planId, now, n, saved, k, id);
      }
    }
  }

  lemma EarlierKey(draft: Draft, planId: Id, n: nat, k: string, id: Id)
    requires n < |draft.specs| && KeyOfId(draft, planId, n, k, id)
    ensures KeyOfId(draft, planId, n + 1, k, id)
  {
    var s :| s in draft.specs[..n] && s.key == k;
    assert s in draft.specs[..n + 1];
  }

  lemma LaterKey(draft: Draft, planId: Id, n: nat, k: string, id: Id)
    requires n < |draft.specs| && KeyOfId(draft, planId, n + 1, k, id) && k != draft.specs[n].key
    ensures KeyOfId(draft, planId, n, k, id)
    ensures id != StepId(draft, planId, draft.specs[n].key) || draft.specs[n].key !in Keys(draft.specs)
  {
    var s :| s in draft.specs[..n + 1] && s.key == k;
    var j :| 0 <= j < n + 1 && draft.specs[..n + 1][j] == s;
    assert draft.specs[..n][j] == s;
  }

  lemma SavedIsNew(draft: Draft, e: Id, planId: Id, now: Time, saved: map<Id, Step>, id: Id)
    requires EdgesResolve(draft) && SavedUpTo(draft, e, planId, now, |draft.specs|, saved)
    requires id in saved
    ensures id in NewSteps(draft, e, planId, now) && saved[id] == NewSteps(draft, e, planId, now)[id]
  {
    var n := |draft.specs|;
    assert draft.specs[..n] == draft.specs;
    var k :| KeyOfId(draft, planId, n, k, id);
    SerialRun.KeyStored(draft, e, planId, now, k);
  }

  lemma NewIsSaved(draft: Draft, e: Id, planId: Id, now: Time, saved: map<Id, Step>, id: Id)
    requires EdgesResolve(draft) && SavedUpTo(draft, e, planId, now, |draft.specs|, saved)
    requires id in NewSteps(draft, e, planId, now)
    ensures id in saved
  {
    var n := |draft.specs|;
    assert draft.specs[..n] == draft.specs;
    var i := id - planId - 1;
    LastIndexUnique(draft.specs, i);
    assert KeyOfId(draft, planId, n, draft.specs[i].key, id);
  }

  lemma SameMaps<T>(a: map<Id, T>, b: map<Id, T>)
    requires forall id :: id in a ==> id in b && a[id] == b[id]
    requires forall id :: id in b ==> id in a
    ensures a == b
  {
  }

  lemma SavedAll(draft: Draft, e: Id, planId: Id, now: Time, saved: map<Id, Step>)
    requires EdgesResolve(draft) && SavedUpTo(draft, e, planId, now, |draft.specs|, saved)
    ensures saved == NewSteps(draft, e, planId, now)
  {
    forall id | id in saved
      ensures id in NewSteps(draft, e, planId, now) && saved[id] == NewSteps(draft, e, planId, now)[id]
    {
      SavedIsNew(draft, e, planId, now, saved, id);
    }
    forall id | id in NewSteps(draft, e, planId, now) ensures id in saved {
      NewIsSaved(draft, e, planId, now, saved, id);
    }
    SameMaps(saved, NewSteps(draft, e, planId, now));
  }
}
