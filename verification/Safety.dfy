/** What every reachable state of one execution satisfies, whatever the interleaving. */
module Safety {
  import opened StateMachine
  import opened Records
  import opened RuntimeMeta
  import opened Timeline
  import opened Lifecycle
  import Policy

  // ---------------------------------------------------------------- the invariant

  /** The status is the fold of the timeline, along allowed edges, and the terminal
      stamps are set exactly in their statuses. */
  predicate TimelineInv(ex: Execution) {
    && StatusOf(ex.timeline) == ex.status
    && ChainOk(ex.timeline)
    && (ex.completedAt.Some? <==> ex.status.Completed?)
    && (ex.cancelledAt.Some? <==> ex.status.Cancelled?)
  }

  predicate Unplanned(status: ExecutionStatus) {
    status.Created? || status.Planning?
  }

  predicate UniqueKeys(steps: map<Id, Step>) {
    forall s, t :: s in steps && t in steps && steps[s].key == steps[t].key ==> s == t
  }

  predicate DependenciesSucceeded(steps: map<Id, Step>, sid: Id)
    requires sid in steps
  {
    forall d :: d in steps[sid].dependencies ==> d in steps && steps[d].status.Succeeded?
  }

  predicate StepInv(c: Case, pc: Pc, sid: Id)
    requires sid in c.steps
  {
    var st := c.steps[sid].status;
    && c.steps[sid].executionId == c.ex.executionId
    && (st.Pending? || st.Running? || st.Succeeded?)
    && (pc == AtStepStarted(sid) || pc == AtStepWork(sid) ==> st.Running?)
    && (st.Succeeded? <==> sid in c.results)
    && (!st.Pending? ==> DependenciesSucceeded(c.steps, sid))
  }

  ghost predicate StepsInv(c: Case, pc: Pc) {
    && UniqueKeys(c.steps)
    && c.results.Keys <= c.steps.Keys
    && (forall sid :: sid in c.steps ==> StepInv(c, pc, sid))
    && (Unplanned(c.ex.status) ==> c.steps == map[])
    && (!Unplanned(c.ex.status) && !Terminal(c.ex.status) ==> PlanResolves(c))
  }

  function ExpectedMarks(c: Case, pc: Pc, sid: Id): seq<Mark> {
    if sid !in c.steps || c.steps[sid].status.Pending? || pc == AtStepStarted(sid) then []
    else if c.steps[sid].status.Running? || pc == AtStepDone(sid) then [Began]
    else [Began, Ended]
  }

  ghost predicate MarksInv(c: Case, pc: Pc) {
    forall sid :: Marks(c.ex.timeline, sid) == ExpectedMarks(c, pc, sid)
  }

  predicate GateInv(c: Case) {
    && (c.ex.status.Validating? || c.ex.status.AwaitingApproval? || c.ex.status.Completed? ==>
          WorkSucceeded(c.steps) && HasValidation(c.steps))
    && (c.ex.status.AwaitingApproval? || c.ex.status.Completed? ==> AllSucceeded(c.steps))
  }

  /** The execution has exactly one proposal and one evaluation, and the evaluation is
      what the policy pack says about the execution's own context. */
  predicate Governed(c: Case, pid: Id, eid: Id, ps: ProposalStatus, d: PolicyDecision) {
    && c.proposals.Keys == {pid}
    && c.proposals[pid].actionType.EscalateIncident?
    && c.proposals[pid].status == ps
    && c.evaluations.Keys == {eid}
    && c.evaluations[eid].decision == d
    && c.evaluations[eid].proposalId == pid
    && c.ctx.Some? && d == Policy.Decision(c.ctx.value, EscalateIncident)
  }

  predicate Ungoverned(c: Case) {
    c.proposals == map[] && c.evaluations == map[] && c.approvals == map[]
  }

  predicate ApprovedBy(c: Case, pid: Id, eid: Id, d: ApprovalDecision, aid: Id) {
    && c.approvals.Keys == {aid}
    && c.approvals[aid].decision == d
    && c.approvals[aid].proposalId == pid
    && c.approvals[aid].evaluationId == eid
  }

  predicate AwaitingRecords(c: Case, pid: Id, eid: Id) {
    Governed(c, pid, eid, ProposalAwaiting, Conditional) && c.approvals == map[]
  }

  /** Allowed outright, with no approval row. */
  predicate AllowedRecords(c: Case, pid: Id, eid: Id) {
    Governed(c, pid, eid, Approved, Allow) && c.approvals == map[]
  }

  /** Conditional, with exactly one approving row. */
  predicate GrantedRecords(c: Case, pid: Id, eid: Id, aid: Id) {
    Governed(c, pid, eid, Approved, Conditional) && ApprovedBy(c, pid, eid, Approve, aid)
  }

  predicate DeniedRecords(c: Case, pid: Id, eid: Id) {
    Governed(c, pid, eid, PolicyDenied, Deny) && c.approvals == map[]
  }

  predicate RejectedRecords(c: Case, pid: Id, eid: Id, aid: Id) {
    Governed(c, pid, eid, Rejected, Conditional) && ApprovedBy(c, pid, eid, Reject, aid)
  }

  ghost predicate GovernanceInv(c: Case) {
    match c.ex.status
    case AwaitingApproval =>
      && c.ex.workflow.IncidentTriage?
      && c.ex.result.Some? && c.ex.result.value.governance.Some?
      && var g := c.ex.result.value.governance.value; AwaitingRecords(c, g.proposalId, g.evaluationId)
    case Completed =>
      if !c.ex.workflow.IncidentTriage? then Ungoverned(c)
      else
        || (exists pid, eid :: AllowedRecords(c, pid, eid))
        || (exists pid, eid, aid :: GrantedRecords(c, pid, eid, aid))
    case Failed =>
      || Ungoverned(c)
      || (exists pid, eid :: DeniedRecords(c, pid, eid))
      || (exists pid, eid, aid :: RejectedRecords(c, pid, eid, aid))
    case Cancelled =>
      Ungoverned(c) || (exists pid, eid :: AwaitingRecords(c, pid, eid))
    case _ => Ungoverned(c)
  }

  /** Which positions of the runner go with which stored rows. */
  predicate PcInv(c: Case, pc: Pc) {
    var st := c.ex.status;
    match pc
    case AtStart => true
    case AtLoop => !Unplanned(st)
    case AtDecide => !Unplanned(st) && !st.AwaitingApproval?
    case AtStepBegin(sid) => !Unplanned(st) && !st.AwaitingApproval? && Ready(c.steps, sid)
    case AtStepStarted(sid) =>
      !Unplanned(st) && !st.AwaitingApproval? && sid in c.steps && c.steps[sid].status.Running?
    case AtStepWork(sid) =>
      !Unplanned(st) && !st.AwaitingApproval? && sid in c.steps && c.steps[sid].status.Running?
    case AtStepDone(sid) =>
      !Unplanned(st) && !st.AwaitingApproval? && !st.Completed?
      && sid in c.steps && c.steps[sid].status.Succeeded?
    case AtCancel => true
    case AtRaised(_) => !Unplanned(st) && !st.AwaitingApproval?
    case AtRest(_) => true
  }

  ghost predicate Inv(s: Sys) {
    && s.c.ctx.Some?
    && TimelineInv(s.c.ex)
    && StepsInv(s.c, s.pc)
    && MarksInv(s.c, s.pc)
    && GateInv(s.c)
    && GovernanceInv(s.c)
    && PcInv(s.c, s.pc)
  }

  // ---------------------------------------------------------------- it holds at creation

  lemma InvInitial(s: Sys)
    requires Initial(s)
    ensures Inv(s)
  {
    QuietRows(s.c.ex.timeline);
  }

  // ---------------------------------------------------------------- and every section keeps it

  predicate MidStep(pc: Pc) {
    pc.AtStepStarted? || pc.AtStepWork? || pc.AtStepDone?
  }

  /** Appending a row other than a step's start or completion, with or without a change
      of status, keeps what is known about the timeline. */
  lemma AppendKeeps(ex: Execution, event: Event, now: Time)
    requires !event.StepStarted? && !event.StepCompleted?
    ensures var ex' := Append(ex, event, now);
      && (forall sid :: Marks(ex'.timeline, sid) == Marks(ex.timeline, sid))
      && StartedSteps(ex'.timeline) == StartedSteps(ex.timeline)
      && StatusOf(ex'.timeline) == (if event.StatusRow? then event.status else StatusOf(ex.timeline))
      && (ChainOk(ex.timeline) && (event.StatusRow? ==> ExecutionEdge(StatusOf(ex.timeline), event.status))
          ==> ChainOk(ex'.timeline))
  {
    Snoc(ex.timeline, Row(now, event));
  }

  /** A section that writes no step row leaves the step part of the invariant alone. */
  lemma StepsUntouched(c: Case, pc: Pc, c': Case, pc': Pc)
    requires StepsInv(c, pc) && MarksInv(c, pc)
    requires c'.steps == c.steps && c'.results == c.results
    requires c'.ex.executionId == c.ex.executionId
    requires forall sid :: Marks(c'.ex.timeline, sid) == Marks(c.ex.timeline, sid)
    requires Unplanned(c'.ex.status) ==> Unplanned(c.ex.status)
    requires Terminal(c'.ex.status) || Unplanned(c'.ex.status) || PlanResolves(c')
    requires pc' == pc || (!MidStep(pc) && !MidStep(pc'))
    ensures StepsInv(c', pc') && MarksInv(c', pc')
  {
    forall sid | sid in c'.steps ensures StepInv(c', pc', sid) {
      assert StepInv(c, pc, sid);
    }
    forall sid ensures Marks(c'.ex.timeline, sid) == ExpectedMarks(c', pc', sid) {
      assert Marks(c.ex.timeline, sid) == ExpectedMarks(c, pc, sid);
    }
  }

  lemma StepIds(draft: Draft, execId: Id, planId: Id, now: Time)
    requires EdgesResolve(draft)
    ensures var steps := NewSteps(draft, execId, planId, now);
      && UniqueKeys(steps)
      && forall sid :: sid in steps ==> steps[sid].status.Pending? && steps[sid].executionId == execId
  {
  }

  /** Pending steps nobody has run yet, where there were none. */
  lemma FirstStepsKeep(c: Case, c': Case)
    requires StepsInv(c, AtStart) && MarksInv(c, AtStart) && c.steps == map[]
    requires c'.results == c.results && PlanResolves(c') && !Unplanned(c'.ex.status)
    requires UniqueKeys(c'.steps)
    requires forall sid :: sid in c'.steps ==>
      c'.steps[sid].status.Pending? && c'.steps[sid].executionId == c'.ex.executionId
    requires forall sid :: Marks(c'.ex.timeline, sid) == Marks(c.ex.timeline, sid)
    ensures StepsInv(c', AtLoop) && MarksInv(c', AtLoop)
  {
    forall sid ensures Marks(c'.ex.timeline, sid) == ExpectedMarks(c', AtLoop, sid) {
      assert Marks(c.ex.timeline, sid) == ExpectedMarks(c, AtStart, sid);
    }
  }

  lemma InstantiateKeeps(c: Case, input: Input)
    requires Inv(Sys(c, AtStart)) && c.ex.status.Planning?
    ensures var (c', pc') := Instantiate(c, input); Inv(Sys(c', pc'))
  {
    var (c', pc') := Instantiate(c, input);
    if !EdgesResolve(input.draft) {
      StepsUntouched(c, AtStart, c', pc');
    } else {
      AppendKeeps(c.ex, StatusRow(Executing), input.now);
      StepIds(input.draft, c.ex.executionId, input.newId, input.now);
      FirstStepsKeep(c, c');
    }
  }

  lemma BeginKeeps(c: Case, input: Input)
    requires Inv(Sys(c, AtStart))
    ensures var (c', pc') := Begin(c, input); Inv(Sys(c', pc'))
  {
    var (c', pc') := Begin(c, input);
    if c.ex.status.Created? {
      var c1 := c.(ex := Enter(c.ex, Planning, input.now));
      AppendKeeps(c.ex, StatusRow(Planning), input.now);
      StepsUntouched(c, AtStart, c1, AtStart);
      InstantiateKeeps(c1, input);
    } else if c.ex.status.Planning? {
      InstantiateKeeps(c, input);
    } else {
      StepsUntouched(c, AtStart, c', pc');
    }
  }

  lemma LoopHeadKeeps(c: Case, now: Time)
    requires Inv(Sys(c, AtLoop))
    ensures var (c', pc') := LoopHead(c, now); Inv(Sys(c', pc'))
  {
    if LoopHead(c, now).0 == c {
      RunnerMoves(c, AtLoop, LoopHead(c, now).1);
    } else {
      GateOpensKeeps(c, now);
    }
  }

  /** Between steps the runner may move without a write. */
  lemma RunnerMoves(c: Case, pc: Pc, pc': Pc)
    requires Inv(Sys(c, pc)) && PcInv(c, pc') && !MidStep(pc) && !MidStep(pc')
    ensures Inv(Sys(c, pc'))
  {
    StepsUntouched(c, pc, c, pc');
  }

  lemma GateOpensKeeps(c: Case, now: Time)
    requires Inv(Sys(c, AtLoop)) && c.ex.status.Executing? && GateOpens(c.steps)
    ensures Inv(Sys(c.(ex := Enter(c.ex, Validating, now)), AtDecide))
  {
    AppendKeeps(c.ex, StatusRow(Validating), now);
    StepsUntouched(c, AtLoop, c.(ex := Enter(c.ex, Validating, now)), AtDecide);
  }

  /** A section that only settles the outcome of finished work. */
  lemma SettledKeeps(c: Case, pc: Pc, c': Case, pc': Pc)
    requires Inv(Sys(c, pc)) && AllSucceeded(c.steps) && HasValidation(c.steps)
    requires TimelineInv(c'.ex) && GovernanceInv(c') && PlanResolves(c') && !Unplanned(c'.ex.status)
    requires c'.steps == c.steps && c'.results == c.results && c'.ctx == c.ctx
    requires c'.ex.executionId == c.ex.executionId
    requires forall sid :: Marks(c'.ex.timeline, sid) == Marks(c.ex.timeline, sid)
    requires !MidStep(pc) && pc'.AtRest?
    ensures Inv(Sys(c', pc'))
  {
    StepsUntouched(c, pc, c', pc');
  }

  lemma CompleteKeeps(c: Case, result: Result, now: Time)
    requires Inv(Sys(c, AtDecide)) && c.ex.status.Validating? && AllSucceeded(c.steps)
    requires !c.ex.workflow.IncidentTriage?
    ensures Inv(Sys(c.(ex := Complete(c.ex, result, now)), AtRest(false)))
  {
    var c' := c.(ex := Complete(c.ex, result, now));
    AppendKeeps(c.ex, StatusRow(Completed), now);
    assert Ungoverned(c');
    SettledKeeps(c, AtDecide, c', AtRest(false));
  }

  predicate Quiet(event: Event) {
    !event.StepStarted? && !event.StepCompleted? && !event.StatusRow?
  }

  /** Some rows that say nothing about steps or status, and then a status row. */
  lemma {:induction false} RowsKeep(tl: seq<Row>, rows: seq<Row>)
    requires ChainOk(tl) && rows != [] && rows[|rows| - 1].event.StatusRow?
    requires forall i :: 0 <= i < |rows| - 1 ==> Quiet(rows[i].event)
    requires ExecutionEdge(StatusOf(tl), rows[|rows| - 1].event.status)
    ensures StatusOf(tl + rows) == rows[|rows| - 1].event.status && ChainOk(tl + rows)
    ensures StartedSteps(tl + rows) == StartedSteps(tl)
    ensures forall sid :: Marks(tl + rows, sid) == Marks(tl, sid)
    decreases |rows|
  {
    Snoc(tl, rows[0]);
    if |rows| == 1 {
      assert rows == [rows[0]];
    } else {
      RowsKeep(tl + [rows[0]], rows[1..]);
      assert tl + rows == tl + [rows[0]] + rows[1..];
    }
  }

  lemma SettleKeeps(ex: Execution, status: ExecutionStatus, doc: Result, rows: seq<Row>, now: Time)
    requires TimelineInv(ex) && ExecutionEdge(ex.status, status) && !status.Cancelled?
    requires rows != [] && rows[|rows| - 1].event == StatusRow(status)
    requires forall i :: 0 <= i < |rows| - 1 ==> Quiet(rows[i].event)
    ensures var ex' := Settle(ex, status, doc, rows, now);
      && TimelineInv(ex')
      && StartedSteps(ex'.timeline) == StartedSteps(ex.timeline)
      && forall sid :: Marks(ex'.timeline, sid) == Marks(ex.timeline, sid)
  {
    RowsKeep(ex.timeline, rows);
  }

  lemma FinalizeTimeline(c: Case, input: Input)
    requires TimelineInv(c.ex) && c.ex.status.Validating? && c.ctx.Some?
    ensures var c' := Finalize(c, c.ctx.value, input);
      && TimelineInv(c'.ex)
      && StartedSteps(c'.ex.timeline) == StartedSteps(c.ex.timeline)
      && forall sid :: Marks(c'.ex.timeline, sid) == Marks(c.ex.timeline, sid)
  {
    var d := Policy.Decision(c.ctx.value, EscalateIncident);
    var pid := input.newId;
    SettleKeeps(c.ex, FinalStatus(d), FinalDoc(d, |c.steps|, pid, pid + 1),
                FinalRows(d, pid, pid + 1, input.now), input.now);
  }

  lemma FinalizeRecords(c: Case, input: Input)
    requires Ungoverned(c) && c.ctx.Some? && c.ex.workflow.IncidentTriage?
    ensures GovernanceInv(Finalize(c, c.ctx.value, input))
  {
    var pid, eid := input.newId, input.newId + 1;
    var c' := Finalize(c, c.ctx.value, input);
    match Policy.Decision(c.ctx.value, EscalateIncident) {
      case Deny => assert DeniedRecords(c', pid, eid);
      case Allow => assert AllowedRecords(c', pid, eid);
      case Conditional => assert AwaitingRecords(c', pid, eid);
    }
  }

  lemma FinalizeKeeps(c: Case, input: Input)
    requires Inv(Sys(c, AtDecide)) && c.ex.status.Validating? && AllSucceeded(c.steps)
    requires c.ex.workflow.IncidentTriage?
    ensures Inv(Sys(Finalize(c, c.ctx.value, input), AtRest(false)))
  {
    var c' := Finalize(c, c.ctx.value, input);
    FinalizeTimeline(c, input);
    FinalizeRecords(c, input);
    SettledKeeps(c, AtDecide, c', AtRest(false));
  }

  lemma DecideKeeps(c: Case, input: Input)
    requires Inv(Sys(c, AtDecide))
    ensures var (c', pc') := Decide(c, input); Inv(Sys(c', pc'))
  {
    var (c', pc') := Decide(c, input);
    if c' == c {
      StepsUntouched(c, AtDecide, c', pc');
    } else if c.ex.workflow.IncidentTriage? {
      FinalizeKeeps(c, input);
    } else {
      CompleteKeeps(c, Result(OutcomeSuccess, |c.steps|, None, None, None, None), input.now);
    }
  }

  /** Writing one step row, and nothing else but possibly its result. */
  lemma StepWritten(c: Case, pc: Pc, c': Case, pc': Pc, sid: Id)
    requires StepsInv(c, pc) && sid in c.steps && DependenciesSucceeded(c.steps, sid)
    requires c'.ex == c.ex && c'.plans == c.plans
    requires c'.steps.Keys == c.steps.Keys
    requires forall t :: t in c.steps && t != sid ==> c'.steps[t] == c.steps[t]
    requires c'.steps[sid] == c.steps[sid].(status := c'.steps[sid].status, updatedAt := c'.steps[sid].updatedAt)
    requires
      || (c.steps[sid].status.Pending? && pc == AtStepBegin(sid)
          && c'.steps[sid].status.Running? && pc' == AtStepStarted(sid) && c'.results == c.results)
      || (c.steps[sid].status.Running? && pc == AtStepWork(sid)
          && c'.steps[sid].status.Succeeded? && pc' == AtStepDone(sid)
          && c'.results.Keys == c.results.Keys + {sid})
    ensures StepsInv(c', pc')
  {
    forall t | t in c'.steps ensures StepInv(c', pc', t) {
      assert StepInv(c, pc, t);
      if !c'.steps[t].status.Pending? {
        assert DependenciesSucceeded(c.steps, t);
      }
    }
  }

  /** The timeline rows of a step follow its status by one section. */
  lemma MarksAfterStepWritten(c: Case, pc: Pc, c': Case, pc': Pc, sid: Id)
    requires MarksInv(c, pc) && sid in c.steps && c'.ex == c.ex
    requires c'.steps.Keys == c.steps.Keys
    requires forall t :: t in c.steps && t != sid ==> c'.steps[t] == c.steps[t]
    requires
      || (c.steps[sid].status.Pending? && pc == AtStepBegin(sid) && pc' == AtStepStarted(sid))
      || (c.steps[sid].status.Running? && pc == AtStepWork(sid)
          && c'.steps[sid].status.Succeeded? && pc' == AtStepDone(sid))
    ensures MarksInv(c', pc')
  {
    forall t ensures Marks(c'.ex.timeline, t) == ExpectedMarks(c', pc', t) {
      assert Marks(c.ex.timeline, t) == ExpectedMarks(c, pc, t);
    }
  }

  lemma BeginStepKeeps(c: Case, sid: Id, now: Time)
    requires Inv(Sys(c, AtStepBegin(sid)))
    ensures var (c', pc') := BeginStep(c, sid, now); Inv(Sys(c', pc'))
  {
    var (c', pc') := BeginStep(c, sid, now);
    StepWritten(c, AtStepBegin(sid), c', pc', sid);
    MarksAfterStepWritten(c, AtStepBegin(sid), c', pc', sid);
    assert GateInv(c');
    GovernanceSame(c, c');
  }

  lemma TraceKeeps(c: Case, sid: Id, kind: WorkKind, now: Time)
    requires Inv(Sys(c, AtStepWork(sid)))
    ensures Inv(Sys(c.(ex := Append(c.ex, StepTrace(sid, kind), now)), AtStepWork(sid)))
  {
    var c' := c.(ex := Append(c.ex, StepTrace(sid, kind), now));
    AppendKeeps(c.ex, StepTrace(sid, kind), now);
    StepsUntouched(c, AtStepWork(sid), c', AtStepWork(sid));
    GovernanceSame(c, c');
  }

  lemma SucceedGate(c: Case, c': Case, sid: Id)
    requires GateInv(c) && c'.ex == c.ex && sid in c.steps && c'.steps.Keys == c.steps.Keys
    requires c'.steps[sid].status.Succeeded? && c'.steps[sid].stepType == c.steps[sid].stepType
    requires forall t :: t in c.steps && t != sid ==> c'.steps[t] == c.steps[t]
    ensures GateInv(c')
  {
    if HasValidation(c.steps) {
      assert HasValidation(c'.steps) by {
        var t :| t in c.steps && c.steps[t].stepType.ValidationStep?;
        assert c'.steps[t].stepType.ValidationStep?;
      }
    }
  }

  lemma SucceedKeeps(c: Case, sid: Id, result: StepResult, now: Time)
    requires Inv(Sys(c, AtStepWork(sid)))
    ensures Inv(Sys(SetStep(c, sid, Succeeded, now).(results := c.results[sid := result]), AtStepDone(sid)))
  {
    var c' := SetStep(c, sid, Succeeded, now).(results := c.results[sid := result]);
    assert StepInv(c, AtStepWork(sid), sid);
    StepWritten(c, AtStepWork(sid), c', AtStepDone(sid), sid);
    MarksAfterStepWritten(c, AtStepWork(sid), c', AtStepDone(sid), sid);
    SucceedGate(c, c', sid);
    GovernanceSame(c, c');
  }

  lemma WorkOnStepKeeps(c: Case, sid: Id, input: Input)
    requires Inv(Sys(c, AtStepWork(sid)))
    ensures var (c', pc') := WorkOnStep(c, sid, input); Inv(Sys(c', pc'))
  {
    WorkHasStep(c, sid);
    match input.report
    case Traces(kind) => TraceKeeps(c, sid, kind, input.now);
    case Returns(result) => SucceedKeeps(c, sid, result, input.now);
    case Raises => RaiseKeeps(c, sid);
  }

  lemma WorkHasStep(c: Case, sid: Id)
    requires PcInv(c, AtStepWork(sid))
    ensures sid in c.steps
  {
  }

  /** The step that raised keeps its running status and its start row. */
  lemma RaiseKeeps(c: Case, sid: Id)
    requires Inv(Sys(c, AtStepWork(sid)))
    ensures Inv(Sys(c, AtRest(true)))
  {
    forall t | t in c.steps ensures StepInv(c, AtRest(true), t) {
      assert StepInv(c, AtStepWork(sid), t);
    }
    forall t ensures Marks(c.ex.timeline, t) == ExpectedMarks(c, AtRest(true), t) {
      assert Marks(c.ex.timeline, t) == ExpectedMarks(c, AtStepWork(sid), t);
    }
  }

  lemma StartedKeeps(c: Case, sid: Id, now: Time)
    requires Inv(Sys(c, AtStepStarted(sid)))
    ensures Inv(Sys(c.(ex := Append(c.ex, StepStarted(sid), now)), AtStepWork(sid)))
  {
    var c' := c.(ex := Append(c.ex, StepStarted(sid), now));
    Snoc(c.ex.timeline, Row(now, StepStarted(sid)));
    assert StepsInv(c', AtStepWork(sid)) by {
      forall t | t in c'.steps ensures StepInv(c', AtStepWork(sid), t) {
        assert StepInv(c, AtStepStarted(sid), t);
      }
    }
    assert MarksInv(c', AtStepWork(sid)) by {
      forall t ensures Marks(c'.ex.timeline, t) == ExpectedMarks(c', AtStepWork(sid), t) {
        assert Marks(c.ex.timeline, t) == ExpectedMarks(c, AtStepStarted(sid), t);
      }
    }
    GovernanceSame(c, c');
  }

  lemma CompletedRowKeeps(c: Case, sid: Id, now: Time)
    requires Inv(Sys(c, AtStepDone(sid)))
    ensures Inv(Sys(c.(ex := Append(c.ex, StepCompleted(sid), now)), AtLoop))
  {
    var c' := c.(ex := Append(c.ex, StepCompleted(sid), now));
    Snoc(c.ex.timeline, Row(now, StepCompleted(sid)));
    assert StepsInv(c', AtLoop) by {
      forall t | t in c'.steps ensures StepInv(c', AtLoop, t) {
        assert StepInv(c, AtStepDone(sid), t);
      }
    }
    assert MarksInv(c', AtLoop) by {
      forall t ensures Marks(c'.ex.timeline, t) == ExpectedMarks(c', AtLoop, t) {
        assert Marks(c.ex.timeline, t) == ExpectedMarks(c, AtStepDone(sid), t);
      }
    }
    GovernanceSame(c, c');
  }

  lemma ValidationRowKeeps(c: Case, sid: Id, now: Time)
    requires Inv(Sys(c, AtLoop))
    ensures Inv(Sys(c.(ex := Append(c.ex, ValidationPerformed(sid), now)), AtLoop))
  {
    var c' := c.(ex := Append(c.ex, ValidationPerformed(sid), now));
    AppendKeeps(c.ex, ValidationPerformed(sid), now);
    StepsUntouched(c, AtLoop, c', AtLoop);
    GovernanceSame(c, c');
  }

  lemma CompleteStepKeeps(c: Case, sid: Id, now: Time)
    requires Inv(Sys(c, AtStepDone(sid)))
    ensures Inv(Sys(CompleteStep(c, sid, now), AtLoop))
  {
    var c1 := c.(ex := Append(c.ex, StepCompleted(sid), now));
    CompletedRowKeeps(c, sid, now);
    if sid in c.steps && c.steps[sid].stepType.ValidationStep? {
      ValidationRowKeeps(c1, sid, now);
    }
  }

  lemma CancelledFields(c: Case, why: Why, now: Time)
    ensures var c' := EnterCancelled(c, why, now);
      && c'.ctx == c.ctx && c'.steps == c.steps && c'.results == c.results && c'.plans == c.plans
      && c'.ex.executionId == c.ex.executionId && c'.ex.planId == c.ex.planId
      && (c' == c || (c'.ex.status.Cancelled? && c'.ex.cancelledAt.Some? && c'.ex.completedAt == c.ex.completedAt))
      && Terminal(c'.ex.status)
      && (c'.ex.timeline == c.ex.timeline || c'.ex.timeline == c.ex.timeline + [Row(now, StatusRow(Cancelled))])
  {
  }

  lemma EnterCancelledKeeps(c: Case, pc: Pc, pc': Pc, why: Why, now: Time)
    requires Inv(Sys(c, pc))
    requires pc' == pc || (pc == AtCancel && pc'.AtRest?)
    ensures Inv(Sys(EnterCancelled(c, why, now), pc'))
  {
    var c' := EnterCancelled(c, why, now);
    AppendKeeps(c.ex, StatusRow(Cancelled), now);
    CancelledFields(c, why, now);
    StepsUntouched(c, pc, c', pc');
    CancelledRecords(c, why, now);
  }

  lemma CancelledRecords(c: Case, why: Why, now: Time)
    requires GovernanceInv(c)
    ensures GovernanceInv(EnterCancelled(c, why, now))
  {
    var c' := EnterCancelled(c, why, now);
    if c.ex.status.AwaitingApproval? {
      var g := c.ex.result.value.governance.value;
      assert AwaitingRecords(c', g.proposalId, g.evaluationId);
    }
  }

  lemma CancelKeeps(c: Case, pc: Pc, pc': Pc, why: Why, now: Time)
    requires Inv(Sys(c, pc))
    requires pc' == pc || (pc == AtCancel && pc'.AtRest?)
    ensures Inv(Sys(Cancel(c, why, now), pc'))
  {
    var input := MarkCancelled(c.ex.input, why, now);
    MetaKeeps(c, pc, input);
    EnterCancelledKeeps(WithInput(c, input), pc, pc', why, now);
  }

  lemma FailKeeps(c: Case, reason: Reason, now: Time)
    requires Inv(Sys(c, AtRaised(reason)))
    ensures Inv(Sys(Fail(c, reason, now), AtRest(false)))
  {
    if Terminal(c.ex.status) {
      assert Fail(c, reason, now) == c;
      RunnerMoves(c, AtRaised(reason), AtRest(false));
    } else {
      FailEntersKeeps(c, reason, now);
    }
  }

  lemma FailEntersKeeps(c: Case, reason: Reason, now: Time)
    requires Inv(Sys(c, AtRaised(reason))) && !Terminal(c.ex.status)
    ensures Inv(Sys(Fail(c, reason, now), AtRest(false)))
  {
    assert Ungoverned(c);
    AppendKeeps(c.ex, StatusRow(Failed), now);
    StepsUntouched(c, AtRaised(reason), Fail(c, reason, now), AtRest(false));
  }

  lemma EngineKeeps(c: Case, pc: Pc, input: Input)
    requires Inv(Sys(c, pc))
    ensures var (c', pc') := EngineNext(c, pc, input); Inv(Sys(c', pc'))
  {
    match pc
    case AtStart => BeginKeeps(c, input);
    case AtLoop => LoopHeadKeeps(c, input.now);
    case AtDecide => DecideKeeps(c, input);
    case AtStepBegin(sid) => BeginStepKeeps(c, sid, input.now);
    case AtStepStarted(sid) => StartedKeeps(c, sid, input.now);
    case AtStepWork(sid) => WorkOnStepKeeps(c, sid, input);
    case AtStepDone(sid) => CompleteStepKeeps(c, sid, input.now);
    case AtCancel => CancelKeeps(c, pc, AtRest(false), FlagSeen, input.now);
    case AtRaised(reason) => FailKeeps(c, reason, input.now);
    case AtRest(_) =>
  }

  lemma ApprovalTimeline(c: Case, d: ApprovalDecision, approver: string, id: Id, now: Time)
    requires TimelineInv(c.ex)
    ensures var c' := Decided(c, d, approver, id, now).0;
      && TimelineInv(c'.ex)
      && forall sid :: Marks(c'.ex.timeline, sid) == Marks(c.ex.timeline, sid)
  {
    var (c', error) := Decided(c, d, approver, id, now);
    if error.None? {
      var n := |c.ex.timeline|;
      SettleKeeps(c.ex, DecidedStatus(d), c'.ex.result.value, c'.ex.timeline[n..], now);
      assert c'.ex.timeline[n..] == [Row(now, ApprovalReceived(id, d)),
        Row(now, GovernedOutcome(c.ex.result.value.governance.value.proposalId)),
        Row(now, StatusRow(DecidedStatus(d)))];
    }
  }

  lemma ApprovalRecords(c: Case, d: ApprovalDecision, approver: string, id: Id, now: Time)
    requires GovernanceInv(c)
    ensures GovernanceInv(Decided(c, d, approver, id, now).0)
  {
    var c' := Decided(c, d, approver, id, now).0;
    if c.ex.status.AwaitingApproval? && !d.Defer? {
      var g := c.ex.result.value.governance.value;
      if d.Reject? {
        assert RejectedRecords(c', g.proposalId, g.evaluationId, id);
      } else {
        assert GrantedRecords(c', g.proposalId, g.evaluationId, id);
      }
    }
  }

  lemma ApprovalKeeps(c: Case, pc: Pc, d: ApprovalDecision, approver: string, id: Id, now: Time)
    requires Inv(Sys(c, pc))
    ensures Inv(Sys(Decided(c, d, approver, id, now).0, pc))
  {
    var c' := Decided(c, d, approver, id, now).0;
    ApprovalTimeline(c, d, approver, id, now);
    ApprovalRecords(c, d, approver, id, now);
    StepsUntouched(c, pc, c', pc);
    assert GateInv(c');
  }

  /** The governance part reads no timeline, input, plan or step row. */
  lemma GovernanceSame(c: Case, c': Case)
    requires GovernanceInv(c)
    requires c'.ex.status == c.ex.status && c'.ex.result == c.ex.result
    requires c'.ex.workflow == c.ex.workflow && c'.ctx == c.ctx
    requires c'.proposals == c.proposals && c'.evaluations == c.evaluations && c'.approvals == c.approvals
    ensures GovernanceInv(c')
  {
    forall pid, eid | AwaitingRecords(c, pid, eid) ensures AwaitingRecords(c', pid, eid) {}
    forall pid, eid | AllowedRecords(c, pid, eid) ensures AllowedRecords(c', pid, eid) {}
    forall pid, eid | DeniedRecords(c, pid, eid) ensures DeniedRecords(c', pid, eid) {}
    forall pid, eid, aid | GrantedRecords(c, pid, eid, aid) ensures GrantedRecords(c', pid, eid, aid) {}
    forall pid, eid, aid | RejectedRecords(c, pid, eid, aid) ensures RejectedRecords(c', pid, eid, aid) {}
  }

  lemma MetaKeeps(c: Case, pc: Pc, input: Dict)
    requires Inv(Sys(c, pc))
    ensures Inv(Sys(WithInput(c, input), pc))
  {
    var c' := WithInput(c, input);
    StepsUntouched(c, pc, c', pc);
    GovernanceSame(c, c');
  }

  lemma StepKeeps(s: Sys, a: Action)
    requires Inv(s)
    ensures Inv(Apply(s, a))
  {
    match a
    case Engine(input) => EngineKeeps(s.c, s.pc, input);
    case StartRun =>
    case Enqueue(at) => MetaKeeps(s.c, s.pc, MarkQueued(s.c.ex.input, at));
    case WorkerMark(worker, at) => MetaKeeps(s.c, s.pc, MarkWorkerStarted(s.c.ex.input, worker, at));
    case RequestCancel(why, at) => MetaKeeps(s.c, s.pc, MarkCancelled(s.c.ex.input, why, at));
    case CancelNow(why, at) => CancelKeeps(s.c, s.pc, s.pc, why, at);
    case SubmitApproval(d, approver, id, at) => ApprovalKeeps(s.c, s.pc, d, approver, id, at);
  }

  lemma {:induction false} RunKeeps(s: Sys, acts: seq<Action>)
    requires Inv(s)
    ensures Inv(Run(s, acts))
    decreases |acts|
  {
    if acts != [] {
      StepKeeps(s, acts[0]);
      RunKeeps(Apply(s, acts[0]), acts[1..]);
    }
  }
}
