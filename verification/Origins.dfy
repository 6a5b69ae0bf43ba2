/** Where everything stored comes from.  Over every run: each timeline row, each result, each
    approval and each ending has the one action that wrote it, with what that action was
    given; and the records, the timeline and the result document tell the same story. */
module Origins {
  import opened StateMachine
  import opened Records
  import opened RuntimeMeta
  import opened Timeline
  import opened Lifecycle
  import opened Safety
  import opened Effects
  import opened Theorems
  import Policy

  /** The clock of an action. */
  function TimeOf(a: Action): Time {
    match a
    case Engine(input) => input.now
    case StartRun => 0
    case Enqueue(at) => at
    case WorkerMark(_, at) => at
    case RequestCancel(_, at) => at
    case CancelNow(_, at) => at
    case SubmitApproval(_, _, _, at) => at
  }

  // ---------------------------------------------------------------- results

  /** The action at position `i` is the return of step `sid`'s work with `result`. */
  ghost predicate ReturnedAt(s: Sys, acts: seq<Action>, i: nat, sid: Id, result: StepResult) {
    && i < |acts| && Run(s, acts[..i]).pc == AtStepWork(sid)
    && acts[i].Engine? && acts[i].input.report == Returns(result)
  }

  lemma BeginResults(c: Case, input: Input)
    ensures Begin(c, input).0.results == c.results
  {
  }

  lemma DecideResults(c: Case, input: Input)
    ensures Decide(c, input).0.results == c.results
  {
    FinishResults(c, input);
  }

  lemma FinishResults(c: Case, input: Input)
    ensures Finish(c, input).0.results == c.results
  {
  }

  lemma WorkResults(c: Case, sid: Id, input: Input, t: Id)
    requires t in WorkOnStep(c, sid, input).0.results
    ensures var r := WorkOnStep(c, sid, input).0.results[t];
      (t in c.results && c.results[t] == r) || (t == sid && input.report == Returns(r))
  {
  }

  lemma EngineResults(s: Sys, input: Input, sid: Id)
    requires sid in EngineNext(s.c, s.pc, input).0.results
    ensures var r := EngineNext(s.c, s.pc, input).0.results[sid];
      (sid in s.c.results && s.c.results[sid] == r) || (s.pc == AtStepWork(sid) && input.report == Returns(r))
  {
    match s.pc
    case AtStart => BeginResults(s.c, input);
    case AtDecide => DecideResults(s.c, input);
    case AtStepWork(t) => WorkResults(s.c, t, input, sid);
    case _ =>
  }

  lemma SectionResults(s: Sys, a: Action, sid: Id)
    requires sid in Apply(s, a).c.results
    ensures var r := Apply(s, a).c.results[sid];
      || (sid in s.c.results && s.c.results[sid] == r)
      || (s.pc == AtStepWork(sid) && a.Engine? && a.input.report == Returns(r))
  {
    if a.Engine? {
      EngineResults(s, a.input, sid);
    }
  }

  /** In every reachable state the stored result of a step is what its work returned. */
  lemma {:induction false} ResultsAreReturned(s: Sys, acts: seq<Action>, sid: Id) returns (i: nat)
    requires Initial(s) && sid in Run(s, acts).c.results
    ensures ReturnedAt(s, acts, i, sid, Run(s, acts).c.results[sid])
    decreases |acts|
  {
    var n := |acts| - 1;
    assert acts[..n + 1] == acts;
    RunSnoc(s, acts, n);
    var before := Run(s, acts[..n]);
    SectionResults(before, acts[n], sid);
    if sid in before.c.results && before.c.results[sid] == Run(s, acts).c.results[sid] {
      i := ResultsAreReturned(s, acts[..n], sid);
      assert acts[..n][..i] == acts[..i];
    } else {
      i := n;
    }
  }

  // ---------------------------------------------------------------- rows

  /** The action may write a row with this event. */
  ghost predicate Causes(s: Sys, a: Action, event: Event) {
    match event
    case StatusRow(status) => ExecutionEdge(s.c.ex.status, status) || (s.c.ex.status.Created? && status.Executing?)
    case StepStarted(sid) => a.Engine? && s.pc == AtStepStarted(sid)
    case StepCompleted(sid) => a.Engine? && s.pc == AtStepDone(sid)
    case ValidationPerformed(sid) =>
      a.Engine? && s.pc == AtStepDone(sid) && sid in s.c.steps && s.c.steps[sid].stepType.ValidationStep?
    case StepTrace(sid, kind) => a.Engine? && s.pc == AtStepWork(sid) && a.input.report == Traces(kind)
    case ActionProposed(pid) => Finishes(s, a) && pid == a.input.newId
    case PolicyEvaluated(eid, d) => Finishes(s, a) && Decides(s.c, d)
    case ApprovalRequired(pid, eid) => Finishes(s, a) && pid == a.input.newId && Decides(s.c, Conditional)
    case ApprovalReceived(id, verdict) => a.SubmitApproval? && a.id == id && a.decision == verdict
    case GovernedOutcome(pid) => (Finishes(s, a) && !Decides(s.c, Conditional)) || a.SubmitApproval?
    case ReplayCreated(_, _) => false
  }

  /** The engine finishes an incident execution after its validation. */
  ghost predicate Finishes(s: Sys, a: Action) {
    a.Engine? && s.pc == AtDecide && s.c.ex.status.Validating? && s.c.ex.workflow.IncidentTriage?
  }

  /** What policy says about an escalation, spelled out. */
  predicate Decides(c: Case, d: PolicyDecision) {
    c.ctx.Some? &&
    match d
    case Deny => c.ctx.value.policyScope.Phase3Deny?
    case Conditional =>
      !c.ctx.value.policyScope.Phase3Deny?
      && (c.ctx.value.environment.Prod? || c.ctx.value.policyScope.Phase3Conditional?)
    case Allow => !c.ctx.value.environment.Prod? && c.ctx.value.policyScope.OtherScope?
  }

  /** The parts of a record that never change. */
  predicate SameIdentity(ex: Execution, ex': Execution) {
    && ex'.executionId == ex.executionId && ex'.workflow == ex.workflow && ex'.contextId == ex.contextId
    && ex'.parentId == ex.parentId && ex'.createdAt == ex.createdAt
  }

  /** What `a` appends to the record of `s` carries its time and has a cause. */
  ghost predicate RowsWritten(s: Sys, a: Action, ex': Execution) {
    && SameIdentity(s.c.ex, ex')
    && s.c.ex.timeline <= ex'.timeline
    && (forall k :: |s.c.ex.timeline| <= k < |ex'.timeline| ==>
          ex'.timeline[k].at == TimeOf(a) && Causes(s, a, ex'.timeline[k].event))
    && ex'.updatedAt == if ex'.timeline == s.c.ex.timeline then s.c.ex.updatedAt else TimeOf(a)
  }

  lemma NothingWritten(s: Sys, a: Action, ex': Execution)
    requires SameIdentity(s.c.ex, ex')
    requires ex'.timeline == s.c.ex.timeline && ex'.updatedAt == s.c.ex.updatedAt
    ensures RowsWritten(s, a, ex')
  {
  }

  lemma OneWritten(s: Sys, a: Action, ex': Execution, event: Event)
    requires SameIdentity(s.c.ex, ex')
    requires ex'.timeline == s.c.ex.timeline + [Row(TimeOf(a), event)] && ex'.updatedAt == TimeOf(a)
    requires Causes(s, a, event)
    ensures RowsWritten(s, a, ex')
  {
  }

  lemma SeveralWritten(s: Sys, a: Action, ex': Execution, rows: seq<Row>)
    requires SameIdentity(s.c.ex, ex')
    requires rows != [] && ex'.timeline == s.c.ex.timeline + rows && ex'.updatedAt == TimeOf(a)
    requires forall r :: r in rows ==> r.at == TimeOf(a) && Causes(s, a, r.event)
    ensures RowsWritten(s, a, ex')
  {
    forall k | |s.c.ex.timeline| <= k < |ex'.timeline|
      ensures ex'.timeline[k].at == TimeOf(a) && Causes(s, a, ex'.timeline[k].event)
    {
      assert ex'.timeline[k] == rows[k - |s.c.ex.timeline|];
    }
  }

  lemma BeginRows(s: Sys, input: Input)
    requires s.pc == AtStart
    ensures RowsWritten(s, Engine(input), Begin(s.c, input).0.ex)
  {
    var a, ex' := Engine(input), Begin(s.c, input).0.ex;
    var planning, executing := Row(input.now, StatusRow(Planning)), Row(input.now, StatusRow(Executing));
    if s.c.ex.status.Created? {
      if EdgesResolve(input.draft) {
        assert s.c.ex.timeline + [planning] + [executing] == s.c.ex.timeline + [planning, executing];
        SeveralWritten(s, a, ex', [planning, executing]);
      } else {
        OneWritten(s, a, ex', StatusRow(Planning));
      }
    } else if s.c.ex.status.Planning? && EdgesResolve(input.draft) {
      OneWritten(s, a, ex', StatusRow(Executing));
    } else {
      NothingWritten(s, a, ex');
    }
  }

  lemma HeadRows(s: Sys, input: Input)
    requires s.pc == AtLoop
    ensures RowsWritten(s, Engine(input), LoopHead(s.c, input.now).0.ex)
  {
    var ex' := LoopHead(s.c, input.now).0.ex;
    if ex' == s.c.ex {
      NothingWritten(s, Engine(input), ex');
    } else {
      OneWritten(s, Engine(input), ex', StatusRow(Validating));
    }
  }

  lemma DecisionIs(c: Case, d: PolicyDecision)
    requires c.ctx.Some?
    ensures Decides(c, d) <==> Policy.Decision(c.ctx.value, EscalateIncident) == d
  {
  }

  lemma FinalizeRows(s: Sys, input: Input)
    requires Finishes(s, Engine(input)) && s.c.ctx.Some?
    ensures RowsWritten(s, Engine(input), Finalize(s.c, s.c.ctx.value, input).ex)
  {
    var d := Policy.Decision(s.c.ctx.value, EscalateIncident);
    DecisionIs(s.c, d);
    DecisionIs(s.c, Conditional);
    SeveralWritten(s, Engine(input), Finalize(s.c, s.c.ctx.value, input).ex,
                   FinalRows(d, input.newId, input.newId + 1, input.now));
  }

  lemma FinishRows(s: Sys, input: Input)
    requires s.pc == AtDecide && s.c.ex.status.Validating? && s.c.ctx.Some?
    ensures RowsWritten(s, Engine(input), Finish(s.c, input).0.ex)
  {
    if s.c.ex.workflow.IncidentTriage? {
      FinalizeRows(s, input);
    } else {
      OneWritten(s, Engine(input), Finish(s.c, input).0.ex, StatusRow(Completed));
    }
  }

  lemma DecideRows(s: Sys, input: Input)
    requires s.pc == AtDecide && s.c.ctx.Some?
    ensures RowsWritten(s, Engine(input), Decide(s.c, input).0.ex)
  {
    if s.c.ex.status.Validating? {
      FinishRows(s, input);
    }
    if Decide(s.c, input).0.ex == s.c.ex {
      NothingWritten(s, Engine(input), s.c.ex);
    }
  }

  lemma WorkRows(s: Sys, sid: Id, input: Input)
    requires s.pc == AtStepWork(sid)
    ensures RowsWritten(s, Engine(input), WorkOnStep(s.c, sid, input).0.ex)
  {
    var ex' := WorkOnStep(s.c, sid, input).0.ex;
    if input.report.Traces? {
      OneWritten(s, Engine(input), ex', StepTrace(sid, input.report.kind));
    } else {
      NothingWritten(s, Engine(input), ex');
    }
  }

  lemma DoneRows(s: Sys, sid: Id, input: Input)
    requires s.pc == AtStepDone(sid)
    ensures RowsWritten(s, Engine(input), CompleteStep(s.c, sid, input.now).ex)
  {
    var checks := sid in s.c.steps && s.c.steps[sid].stepType.ValidationStep?;
    var ex' := CompleteStep(s.c, sid, input.now).ex;
    var done, checked := Row(input.now, StepCompleted(sid)), Row(input.now, ValidationPerformed(sid));
    CompletedRecordShape(s.c.ex, checks, sid, input.now);
    if checks {
      assert s.c.ex.timeline + [done] + [checked] == s.c.ex.timeline + [done, checked];
      SeveralWritten(s, Engine(input), ex', [done, checked]);
    } else {
      OneWritten(s, Engine(input), ex', StepCompleted(sid));
    }
  }

  lemma CancelRows(s: Sys, a: Action, why: Why)
    ensures RowsWritten(s, a, Cancel(s.c, why, TimeOf(a)).ex)
  {
    var ex' := Cancel(s.c, why, TimeOf(a)).ex;
    if ExecutionEdge(s.c.ex.status, Cancelled) {
      OneWritten(s, a, ex', StatusRow(Cancelled));
    } else {
      NothingWritten(s, a, ex');
    }
  }

  lemma FailRows(s: Sys, a: Action, reason: Reason)
    ensures RowsWritten(s, a, Fail(s.c, reason, TimeOf(a)).ex)
  {
    var ex' := Fail(s.c, reason, TimeOf(a)).ex;
    if ExecutionEdge(s.c.ex.status, Failed) {
      OneWritten(s, a, ex', StatusRow(Failed));
    } else {
      NothingWritten(s, a, ex');
    }
  }

  lemma ApprovalRows(s: Sys, a: Action)
    requires a.SubmitApproval?
    ensures RowsWritten(s, a, Decided(s.c, a.decision, a.approver, a.id, a.at).0.ex)
  {
    var ex' := Decided(s.c, a.decision, a.approver, a.id, a.at).0.ex;
    DecidedShape(s.c, a.decision, a.approver, a.id, a.at);
    if ex' == s.c.ex {
      NothingWritten(s, a, ex');
    } else {
      var pid := s.c.ex.result.value.governance.value.proposalId;
      SeveralWritten(s, a, ex', [Row(a.at, ApprovalReceived(a.id, a.decision)), Row(a.at, GovernedOutcome(pid)),
                                 Row(a.at, StatusRow(DecidedStatus(a.decision)))]);
    }
  }

  lemma BeginStepRows(s: Sys, sid: Id, input: Input)
    ensures RowsWritten(s, Engine(input), BeginStep(s.c, sid, input.now).0.ex)
  {
    NothingWritten(s, Engine(input), BeginStep(s.c, sid, input.now).0.ex);
  }

  lemma StartedRows(s: Sys, sid: Id, input: Input)
    requires s.pc == AtStepStarted(sid)
    ensures RowsWritten(s, Engine(input), EngineNext(s.c, s.pc, input).0.ex)
  {
    OneWritten(s, Engine(input), EngineNext(s.c, s.pc, input).0.ex, StepStarted(sid));
  }

  lemma EngineRows(s: Sys, input: Input)
    requires s.c.ctx.Some?
    ensures RowsWritten(s, Engine(input), EngineNext(s.c, s.pc, input).0.ex)
  {
    match s.pc
    case AtStart => BeginRows(s, input);
    case AtLoop => HeadRows(s, input);
    case AtDecide => DecideRows(s, input);
    case AtStepBegin(sid) => BeginStepRows(s, sid, input);
    case AtStepStarted(sid) => StartedRows(s, sid, input);
    case AtStepWork(sid) => WorkRows(s, sid, input);
    case AtStepDone(sid) => DoneRows(s, sid, input);
    case AtCancel => CancelRows(s, Engine(input), FlagSeen);
    case AtRaised(reason) => FailRows(s, Engine(input), reason);
    case AtRest(_) => NothingWritten(s, Engine(input), s.c.ex);
  }

  /** One action, whatever it is: its rows carry its time and have their cause. */
  lemma SectionRows(s: Sys, a: Action)
    requires s.c.ctx.Some?
    ensures RowsWritten(s, a, Apply(s, a).c.ex)
  {
    match a
    case Engine(input) => EngineRows(s, input);
    case CancelNow(why, at) => CancelRows(s, a, why);
    case SubmitApproval(_, _, _, _) => ApprovalRows(s, a);
    case _ => NothingWritten(s, a, Apply(s, a).c.ex);
  }

  /** The rows of one action. */
  lemma RowsOf(s: Sys, a: Action) returns (rows: seq<Row>)
    requires s.c.ctx.Some?
    ensures Apply(s, a).c.ex.timeline == s.c.ex.timeline + rows
    ensures forall r :: r in rows ==> Causes(s, a, r.event)
  {
    var tl, tl' := s.c.ex.timeline, Apply(s, a).c.ex.timeline;
    SectionRows(s, a);
    rows := tl'[|tl|..];
    forall r | r in rows ensures Causes(s, a, r.event) {
      var k :| 0 <= k < |rows| && rows[k] == r;
      assert tl'[|tl| + k] == r;
    }
  }

  /** The action at position `i` wrote row `k`. */
  ghost predicate WroteRow(s: Sys, acts: seq<Action>, i: nat, k: nat, row: Row) {
    && i < |acts|
    && |Run(s, acts[..i]).c.ex.timeline| <= k < |Run(s, acts[..i + 1]).c.ex.timeline|
    && Run(s, acts[..i + 1]).c.ex.timeline[k] == row
    && row.at == TimeOf(acts[i]) && Causes(Run(s, acts[..i]), acts[i], row.event)
  }

  /** Every row that was not there at creation was written by one action of the run, at its
      time, and is one of those that action may write. */
  lemma {:induction false} EveryRowHasItsCause(s: Sys, acts: seq<Action>, k: nat) returns (i: nat)
    requires s.c.ctx.Some? && |s.c.ex.timeline| <= k < |Run(s, acts).c.ex.timeline|
    ensures WroteRow(s, acts, i, k, Run(s, acts).c.ex.timeline[k])
    decreases |acts|
  {
    var n := |acts| - 1;
    assert acts[..n + 1] == acts;
    RunSnoc(s, acts, n);
    IdentityKept(s, acts[..n]);
    var before := Run(s, acts[..n]);
    SectionRows(before, acts[n]);
    if k < |before.c.ex.timeline| {
      i := EveryRowHasItsCause(s, acts[..n], k);
      assert acts[..n][..i] == acts[..i] && acts[..n][..i + 1] == acts[..i + 1];
    } else {
      i := n;
    }
  }

  /** The record keeps its identity, and is as old as its last row. */
  lemma {:induction false} UpdatedWithTheLastRow(s: Sys, acts: seq<Action>)
    requires s.c.ctx.Some?
    ensures SameIdentity(s.c.ex, Run(s, acts).c.ex)
    ensures var tl := Run(s, acts).c.ex.timeline;
      && s.c.ex.timeline <= tl
      && Run(s, acts).c.ex.updatedAt == if tl == s.c.ex.timeline then s.c.ex.updatedAt else tl[|tl| - 1].at
    decreases |acts|
  {
    if acts != [] {
      var n := |acts| - 1;
      assert acts[..n + 1] == acts;
      RunSnoc(s, acts, n);
      IdentityKept(s, acts[..n]);
      UpdatedWithTheLastRow(s, acts[..n]);
      SectionRows(Run(s, acts[..n]), acts[n]);
    }
  }

  // ---------------------------------------------------------------- trace rows

  datatype Trace = Trace(stepId: Id, kind: WorkKind)

  /** The trace rows of a timeline. */
  function TraceLog(tl: seq<Row>): seq<Trace> {
    if tl == [] then []
    else
      var last := tl[|tl| - 1].event;
      TraceLog(tl[..|tl| - 1]) + if last.StepTrace? then [Trace(last.stepId, last.kind)] else []
  }

  /** What the work of the steps reported in one action. */
  function Reported(s: Sys, a: Action): seq<Trace> {
    if a.Engine? && s.pc.AtStepWork? && a.input.report.Traces?
    then [Trace(s.pc.stepId, a.input.report.kind)]
    else []
  }

  ghost function AllReported(s: Sys, acts: seq<Action>): seq<Trace>
    decreases |acts|
  {
    if acts == [] then [] else Reported(s, acts[0]) + AllReported(Apply(s, acts[0]), acts[1..])
  }

  lemma {:induction false} TraceLogConcat(a: seq<Row>, b: seq<Row>)
    ensures TraceLog(a + b) == TraceLog(a) + TraceLog(b)
  {
    if b == [] {
      assert a + b == a;
    } else {
      assert (a + b)[..|a + b| - 1] == a + b[..|b| - 1];
      TraceLogConcat(a, b[..|b| - 1]);
    }
  }

  lemma {:induction false} NoTraces(rows: seq<Row>)
    requires forall r :: r in rows ==> !r.event.StepTrace?
    ensures TraceLog(rows) == []
  {
    if rows != [] {
      assert forall r :: r in rows[..|rows| - 1] ==> r in rows;
      assert rows[|rows| - 1] in rows;
      NoTraces(rows[..|rows| - 1]);
    }
  }

  lemma QuietTraces(s: Sys, a: Action)
    requires s.c.ctx.Some? && Reported(s, a) == []
    ensures TraceLog(Apply(s, a).c.ex.timeline) == TraceLog(s.c.ex.timeline)
  {
    var rows := RowsOf(s, a);
    TraceLogConcat(s.c.ex.timeline, rows);
    forall r | r in rows ensures !r.event.StepTrace? {
      assert Causes(s, a, r.event);
    }
    NoTraces(rows);
  }

  lemma WorkTraces(s: Sys, input: Input)
    requires s.pc.AtStepWork? && input.report.Traces?
    ensures TraceLog(Apply(s, Engine(input)).c.ex.timeline) ==
      TraceLog(s.c.ex.timeline) + [Trace(s.pc.stepId, input.report.kind)]
  {
    TraceLogSnoc(s.c.ex.timeline, Row(input.now, StepTrace(s.pc.stepId, input.report.kind)));
  }

  lemma TraceLogSnoc(tl: seq<Row>, row: Row)
    requires row.event.StepTrace?
    ensures TraceLog(tl + [row]) == TraceLog(tl) + [Trace(row.event.stepId, row.event.kind)]
  {
    assert (tl + [row])[..|tl|] == tl;
  }

  lemma SectionTraces(s: Sys, a: Action)
    requires s.c.ctx.Some?
    ensures TraceLog(Apply(s, a).c.ex.timeline) == TraceLog(s.c.ex.timeline) + Reported(s, a)
    ensures Apply(s, a).c.ctx.Some?
  {
    ActionEffect(s, a);
    if Reported(s, a) == [] {
      QuietTraces(s, a);
    } else {
      WorkTraces(s, a.input);
    }
  }

  /** The trace rows of any run are exactly what the work of its steps reported, in order. */
  lemma {:induction false} TracesAreReported(s: Sys, acts: seq<Action>)
    requires s.c.ctx.Some?
    ensures TraceLog(Run(s, acts).c.ex.timeline) == TraceLog(s.c.ex.timeline) + AllReported(s, acts)
    decreases |acts|
  {
    if acts != [] {
      var t := Apply(s, acts[0]);
      SectionTraces(s, acts[0]);
      TracesAreReported(t, acts[1..]);
      assert AllReported(s, acts) == Reported(s, acts[0]) + AllReported(t, acts[1..]);
    }
  }
}
