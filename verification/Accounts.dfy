/** The books of an execution: over every run, governance records, result document, timeline
    and stamps tell the same story, and each ending and each approval is told as it was. */
module Accounts {
  import opened StateMachine
  import opened Records
  import opened RuntimeMeta
  import opened Timeline
  import opened Lifecycle
  import opened Safety
  import opened Effects
  import opened Theorems
  import opened Origins
  import Policy

  // ---------------------------------------------------------------- the governance log

  predicate AboutGovernance(event: Event) {
    || event.ActionProposed? || event.PolicyEvaluated? || event.ApprovalRequired?
    || event.ApprovalReceived? || event.GovernedOutcome?
  }

  /** The governance rows of a timeline, in order. */
  function GovernanceLog(tl: seq<Row>): seq<Event> {
    if tl == [] then []
    else
      var last := tl[|tl| - 1].event;
      GovernanceLog(tl[..|tl| - 1]) + if AboutGovernance(last) then [last] else []
  }

  lemma LogSnoc(tl: seq<Row>, r: Row)
    ensures GovernanceLog(tl + [r]) == GovernanceLog(tl) + if AboutGovernance(r.event) then [r.event] else []
  {
    assert (tl + [r])[..|tl|] == tl;
  }

  lemma {:induction false} LogOfOthers(tl: seq<Row>, rows: seq<Row>)
    requires forall r :: r in rows ==> !AboutGovernance(r.event)
    ensures GovernanceLog(tl + rows) == GovernanceLog(tl)
  {
    if rows == [] {
      assert tl + rows == tl;
    } else {
      var init, last := rows[..|rows| - 1], rows[|rows| - 1];
      assert last in rows && forall r :: r in init ==> r in rows;
      assert tl + rows == (tl + init) + [last];
      LogOfOthers(tl, init);
      LogSnoc(tl + init, last);
    }
  }

  // ---------------------------------------------------------------- the books

  /** What the timeline says of a proposal, its evaluation and the decision on it, if there
      was one. */
  function Story(pid: Id, eid: Id, d: PolicyDecision, told: Option<(Id, ApprovalDecision)>): seq<Event> {
    [ActionProposed(pid), PolicyEvaluated(eid, d)]
    + if !d.Conditional? then [GovernedOutcome(pid)]
      else
        [ApprovalRequired(pid, eid)]
        + if told.None? then [] else [ApprovalReceived(told.value.0, told.value.1), GovernedOutcome(pid)]
  }

  predicate CancelledDoc(doc: Option<Result>) {
    doc.Some? && doc.value.reason.Some? && doc.value.reason.value.Cancellation?
    && doc.value == Result(OutcomeCancelled, 0, doc.value.reason, None, None, None)
  }

  /** The result document of a governed execution. */
  predicate GovernedDoc(c: Case, pid: Id, eid: Id, d: PolicyDecision, verdict: Option<ApprovalDecision>) {
    match c.ex.status
    case AwaitingApproval =>
      && d.Conditional? && verdict.None?
      && c.ex.result ==
           Some(Result(OutcomeAwaiting, |c.steps|, None, Some(pid), Some(Conditional), Some(Governance(pid, eid))))
    case Completed =>
      && (if d.Conditional? then verdict == Some(Approve) else d.Allow? && verdict.None?)
      && c.ex.result == Some(Result(OutcomeSuccess, |c.steps|, None, Some(pid), Some(d), None))
    case Failed =>
      && (if d.Conditional? then verdict == Some(Reject) else d.Deny? && verdict.None?)
      && c.ex.result == Some(Result(OutcomeFailed, |c.steps|, None, Some(pid), Some(d), None))
    case Cancelled => d.Conditional? && verdict.None? && CancelledDoc(c.ex.result)
    case _ => false
  }

  /** The result document of an execution that governance has not touched. */
  predicate PlainDoc(c: Case) {
    match c.ex.status
    case AwaitingApproval => false
    case Completed =>
      && !c.ex.workflow.IncidentTriage?
      && c.ex.result == Some(Result(OutcomeSuccess, |c.steps|, None, None, None, None))
    case Failed =>
      && c.ex.result.Some? && c.ex.result.value.reason.Some?
      && c.ex.result.value == Result(OutcomeFailed, 0, c.ex.result.value.reason, None, None, None)
    case Cancelled => CancelledDoc(c.ex.result)
    case _ => c.ex.result.None?
  }

  /** No governance at all. */
  predicate Untouched(c: Case) {
    Ungoverned(c) && GovernanceLog(c.ex.timeline) == [] && PlainDoc(c)
  }

  /** The one proposal and its evaluation are this execution's, policy asked for `d` as its
      scope and environment say, and only a conditional proposal needs approval. */
  predicate Filed(c: Case, pid: Id, eid: Id, d: PolicyDecision) {
    && c.ex.workflow.IncidentTriage? && Decides(c, d)
    && c.proposals.Keys == {pid} && c.evaluations.Keys == {eid}
    && c.proposals[pid].executionId == c.ex.executionId && c.proposals[pid].actionType.EscalateIncident?
    && (c.proposals[pid].requiresApproval <==> d.Conditional?)
    && c.evaluations[eid] == Evaluation(c.ex.executionId, d, pid)
  }

  /** Governance without a human decision. */
  predicate Undecided(c: Case, pid: Id, eid: Id, d: PolicyDecision) {
    && Filed(c, pid, eid, d) && c.approvals == map[]
    && GovernanceLog(c.ex.timeline) == Story(pid, eid, d, None)
    && GovernedDoc(c, pid, eid, d, None)
  }

  /** Governance with one. */
  predicate DecidedOn(c: Case, pid: Id, eid: Id, d: PolicyDecision, aid: Id) {
    && Filed(c, pid, eid, d) && c.approvals.Keys == {aid}
    && (var row := c.approvals[aid];
        && row.executionId == c.ex.executionId && row.evaluationId == eid && row.proposalId == pid
        && GovernanceLog(c.ex.timeline) == Story(pid, eid, d, Some((aid, row.decision)))
        && GovernedDoc(c, pid, eid, d, Some(row.decision)))
  }

  ghost predicate Balanced(c: Case) {
    || Untouched(c)
    || (exists pid, eid, d :: Undecided(c, pid, eid, d))
    || (exists pid, eid, d, aid :: DecidedOn(c, pid, eid, d, aid))
  }

  // ---------------------------------------------------------------- and are kept

  /** Nothing the books speak of has changed. */
  predicate SameBooks(c: Case, c': Case) {
    && c'.ctx == c.ctx && c'.ex.workflow == c.ex.workflow && c'.ex.executionId == c.ex.executionId
    && c'.proposals == c.proposals && c'.evaluations == c.evaluations && c'.approvals == c.approvals
    && GovernanceLog(c'.ex.timeline) == GovernanceLog(c.ex.timeline)
  }

  lemma SameStory(c: Case, c': Case)
    requires Balanced(c) && SameBooks(c, c')
    requires c'.ex.status == c.ex.status && c'.ex.result == c.ex.result && |c'.steps| == |c.steps|
    ensures Balanced(c')
  {
    if pid, eid, d :| Undecided(c, pid, eid, d) {
      assert Undecided(c', pid, eid, d);
    } else if pid, eid, d, aid :| DecidedOn(c, pid, eid, d, aid) {
      assert DecidedOn(c', pid, eid, d, aid);
    }
  }

  lemma UngovernedIsUntouched(c: Case)
    requires Balanced(c) && Ungoverned(c)
    ensures Untouched(c)
  {
    forall pid, eid, d ensures !Undecided(c, pid, eid, d) {
      assert Undecided(c, pid, eid, d) ==> pid in c.proposals;
    }
    forall pid, eid, d, aid ensures !DecidedOn(c, pid, eid, d, aid) {
      assert DecidedOn(c, pid, eid, d, aid) ==> pid in c.proposals;
    }
  }

  /** Between creation and governance there is no result document. */
  lemma UntouchedMoves(c: Case, c': Case)
    requires Untouched(c) && SameBooks(c, c') && PlainDoc(c')
    ensures Balanced(c')
  {
  }

  lemma FinalizeBalances(c: Case, input: Input)
    requires Untouched(c) && c.ex.workflow.IncidentTriage? && c.ctx.Some?
    ensures Balanced(Finalize(c, c.ctx.value, input))
  {
    var d, pid := Policy.Decision(c.ctx.value, EscalateIncident), input.newId;
    FinalizeFiles(c, input, d, pid);
    FinalizeDoc(c, input, d, pid);
    FinalizeLog(c.ex.timeline, d, pid, pid + 1, input.now);
    assert Undecided(Finalize(c, c.ctx.value, input), pid, pid + 1, d);
  }

  lemma FinalizeFiles(c: Case, input: Input, d: PolicyDecision, pid: Id)
    requires Ungoverned(c) && c.ex.workflow.IncidentTriage? && c.ctx.Some?
    requires d == Policy.Decision(c.ctx.value, EscalateIncident) && pid == input.newId
    ensures Filed(Finalize(c, c.ctx.value, input), pid, pid + 1, d)
  {
    var c' := Finalize(c, c.ctx.value, input);
    DecisionIs(c, d);
    assert c'.proposals == map[pid := FinalizedProposal(c.ex.executionId, d)];
    assert c'.evaluations == map[pid + 1 := Evaluation(c.ex.executionId, d, pid)];
  }

  lemma FinalizeDoc(c: Case, input: Input, d: PolicyDecision, pid: Id)
    requires c.ctx.Some? && d == Policy.Decision(c.ctx.value, EscalateIncident) && pid == input.newId
    ensures GovernedDoc(Finalize(c, c.ctx.value, input), pid, pid + 1, d, None)
  {
  }

  lemma FinalizeLog(tl: seq<Row>, d: PolicyDecision, pid: Id, eid: Id, now: Time)
    requires GovernanceLog(tl) == []
    ensures GovernanceLog(tl + FinalRows(d, pid, eid, now)) == Story(pid, eid, d, None)
  {
    var rows := FinalRows(d, pid, eid, now);
    var t1 := tl + [rows[0]];
    var t2 := t1 + [rows[1]];
    var t3 := t2 + [rows[2]];
    LogSnoc(tl, rows[0]);
    LogSnoc(t1, rows[1]);
    LogSnoc(t2, rows[2]);
    LogSnoc(t3, rows[3]);
    assert tl + rows == t3 + [rows[3]];
  }

  lemma DecidedLog(tl: seq<Row>, pid: Id, eid: Id, id: Id, verdict: ApprovalDecision, last: Row, now: Time)
    requires GovernanceLog(tl) == Story(pid, eid, Conditional, None) && last.event.StatusRow?
    ensures GovernanceLog(tl + [Row(now, ApprovalReceived(id, verdict)), Row(now, GovernedOutcome(pid)), last])
         == Story(pid, eid, Conditional, Some((id, verdict)))
  {
    var a, b := Row(now, ApprovalReceived(id, verdict)), Row(now, GovernedOutcome(pid));
    LogSnoc(tl, a);
    LogSnoc(tl + [a], b);
    LogSnoc(tl + [a] + [b], last);
    assert tl + [a, b, last] == tl + [a] + [b] + [last];
  }

  /** An execution that waits is undecided, under the identifiers its document names. */
  lemma WaitingIsUndecided(c: Case) returns (pid: Id, eid: Id)
    requires Balanced(c) && c.ex.status.AwaitingApproval?
    ensures Undecided(c, pid, eid, Conditional)
    ensures c.ex.result.Some? && c.ex.result.value.governance == Some(Governance(pid, eid))
  {
    assert forall p, e, d, aid :: !DecidedOn(c, p, e, d, aid);
    var p, e, d :| Undecided(c, p, e, d);
    pid, eid := p, e;
  }

  /** The exact outcome of a human decision on an execution whose books balance. */
  lemma DecisionOutcome(c: Case, d: ApprovalDecision, approver: string, id: Id, now: Time)
    requires Balanced(c)
    ensures var (c', error) := Decided(c, d, approver, id, now);
      && (!c.ex.status.AwaitingApproval? ==> error == Some(NotAwaiting) && c' == c)
      && (c.ex.status.AwaitingApproval? && d.Defer? ==> error == Some(DeferUnsupported) && c' == c)
      && (c.ex.status.AwaitingApproval? && !d.Defer? ==>
            && error.None? && c'.ex.status == (if d.Approve? then Completed else Failed)
            && id in c'.approvals && c'.approvals[id].approver == approver
            && c'.approvals[id].decision == d && c'.approvals[id].decidedAt == now)
  {
    if c.ex.status.AwaitingApproval? {
      var pid, eid := WaitingIsUndecided(c);
      assert pid in c.proposals;
    }
  }

  lemma DecisionBalances(c: Case, d: ApprovalDecision, approver: string, id: Id, now: Time)
    requires Balanced(c)
    ensures Balanced(Decided(c, d, approver, id, now).0)
  {
    DecisionOutcome(c, d, approver, id, now);
    if c.ex.status.AwaitingApproval? && !d.Defer? {
      var pid, eid := WaitingIsUndecided(c);
      DecidedBalances(c, pid, eid, d, approver, id, now);
    }
  }

  lemma DecidedBalances(
    c: Case, pid: Id, eid: Id, d: ApprovalDecision, approver: string, id: Id, now: Time)
    requires Undecided(c, pid, eid, Conditional) && c.ex.status.AwaitingApproval? && !d.Defer?
    ensures DecidedOn(Decided(c, d, approver, id, now).0, pid, eid, Conditional, id)
  {
    assert pid in c.proposals;
    DecidedLog(c.ex.timeline, pid, eid, id, d, Row(now, StatusRow(DecidedStatus(d))), now);
    var c' := Decided(c, d, approver, id, now).0;
    assert c'.approvals == map[id := Approval(c.ex.executionId, eid, pid, approver, d, now)];
    assert c'.proposals.Keys == {pid};
  }

  lemma QuietBooks(s: Sys, a: Action)
    requires s.c.ctx.Some? && !Finishes(s, a) && !a.SubmitApproval?
    ensures GovernanceLog(Apply(s, a).c.ex.timeline) == GovernanceLog(s.c.ex.timeline)
  {
    var rows := RowsOf(s, a);
    forall r | r in rows ensures !AboutGovernance(r.event) {
      assert Causes(s, a, r.event);
    }
    LogOfOthers(s.c.ex.timeline, rows);
  }

  /** The tables of governance change only where governance happens. */
  lemma QuietTables(s: Sys, a: Action)
    requires !Finishes(s, a) && !a.SubmitApproval?
    ensures var c' := Apply(s, a).c;
      c'.proposals == s.c.proposals && c'.evaluations == s.c.evaluations && c'.approvals == s.c.approvals
  {
    if a.Engine? {
      QuietEngine(s, a.input);
    }
  }

  lemma QuietEngine(s: Sys, input: Input)
    requires !Finishes(s, Engine(input))
    ensures var c' := EngineNext(s.c, s.pc, input).0;
      c'.proposals == s.c.proposals && c'.evaluations == s.c.evaluations && c'.approvals == s.c.approvals
  {
    match s.pc
    case AtStart => QuietBegin(s.c, input);
    case AtDecide => QuietDecide(s.c, input);
    case AtStepWork(sid) => QuietWork(s.c, sid, input);
    case _ =>
  }

  lemma QuietBegin(c: Case, input: Input)
    ensures var c' := Begin(c, input).0;
      c'.proposals == c.proposals && c'.evaluations == c.evaluations && c'.approvals == c.approvals
  {
  }

  lemma QuietDecide(c: Case, input: Input)
    requires !(c.ex.status.Validating? && c.ex.workflow.IncidentTriage?)
    ensures var c' := Decide(c, input).0;
      c'.proposals == c.proposals && c'.evaluations == c.evaluations && c'.approvals == c.approvals
  {
  }

  lemma QuietWork(c: Case, sid: Id, input: Input)
    ensures var c' := WorkOnStep(c, sid, input).0;
      c'.proposals == c.proposals && c'.evaluations == c.evaluations && c'.approvals == c.approvals
  {
  }

  lemma WorkingIsUntouched(s: Sys)
    requires Inv(s) && Balanced(s.c) && OutcomeFor(s.c.ex.status).None?
    ensures Untouched(s.c)
  {
    UngovernedIsUntouched(s.c);
  }

  lemma QuietSame(s: Sys, a: Action)
    requires s.c.ctx.Some? && !Finishes(s, a) && !a.SubmitApproval?
    ensures SameBooks(s.c, Apply(s, a).c)
  {
    QuietBooks(s, a);
    QuietTables(s, a);
    ActionEffect(s, a);
  }

  lemma BeginKeepsBooks(s: Sys, input: Input)
    requires Inv(s) && Balanced(s.c) && s.pc == AtStart && SameBooks(s.c, Begin(s.c, input).0)
    ensures Balanced(Begin(s.c, input).0)
  {
    var c' := Begin(s.c, input).0;
    if Unplanned(s.c.ex.status) {
      WorkingIsUntouched(s);
      BeginDoc(s.c, input);
      UntouchedMoves(s.c, c');
    }
  }

  /** What planning leaves behind, with and without an edge from an unknown key. */
  predicate Planned(c: Case, input: Input, c': Case) {
    && c'.ex.result == c.ex.result && c'.ex.executionId == c.ex.executionId
    && c'.plans == c.plans[input.newId := Plan(c.ex.executionId, input.draft, input.now)]
    && if EdgesResolve(input.draft) then
         && c'.ex.status.Executing? && c'.ex.planId == Some(input.newId)
         && c'.steps == c.steps + NewSteps(input.draft, c.ex.executionId, input.newId, input.now)
       else c'.ex.status.Planning? && c'.ex.planId == c.ex.planId && c'.steps == c.steps
  }

  lemma InstantiatePlans(c: Case, input: Input)
    requires c.ex.status.Planning?
    ensures Planned(c, input, Instantiate(c, input).0)
  {
  }

  lemma BeginPlans(c: Case, input: Input)
    requires Unplanned(c.ex.status)
    ensures Planned(c, input, Begin(c, input).0)
  {
    if c.ex.status.Created? {
      InstantiatePlans(c.(ex := Enter(c.ex, Planning, input.now)), input);
    } else {
      InstantiatePlans(c, input);
    }
  }

  lemma BeginDoc(c: Case, input: Input)
    requires Unplanned(c.ex.status) && c.ex.result.None?
    ensures PlainDoc(Begin(c, input).0)
  {
    BeginPlans(c, input);
  }

  lemma HeadKeepsBooks(s: Sys, now: Time)
    requires Inv(s) && Balanced(s.c) && s.pc == AtLoop && SameBooks(s.c, LoopHead(s.c, now).0)
    ensures Balanced(LoopHead(s.c, now).0)
  {
    if LoopHead(s.c, now).0 != s.c {
      WorkingIsUntouched(s);
      UntouchedMoves(s.c, LoopHead(s.c, now).0);
    }
  }

  lemma DecideKeepsBooks(s: Sys, input: Input)
    requires Inv(s) && Balanced(s.c) && s.pc == AtDecide
    requires !Finishes(s, Engine(input)) ==> SameBooks(s.c, Decide(s.c, input).0)
    ensures Balanced(Decide(s.c, input).0)
  {
    if Decide(s.c, input).0 != s.c {
      WorkingIsUntouched(s);
      if s.c.ex.workflow.IncidentTriage? {
        FinalizeBalances(s.c, input);
      } else {
        UntouchedMoves(s.c, Decide(s.c, input).0);
      }
    }
  }

  lemma CancelDoc(c: Case, why: Why, now: Time)
    ensures var c' := Cancel(c, why, now);
      if Terminal(c.ex.status) then c'.ex.status == c.ex.status && c'.ex.result == c.ex.result
      else c'.ex.status.Cancelled? && CancelledDoc(c'.ex.result)
    ensures Cancel(c, why, now).steps == c.steps
  {
    CancelFields(WithInput(c, MarkCancelled(c.ex.input, why, now)), why, now);
  }

  lemma CancelKeepsBooks(s: Sys, why: Why, now: Time)
    requires Inv(s) && Balanced(s.c) && SameBooks(s.c, Cancel(s.c, why, now))
    ensures Balanced(Cancel(s.c, why, now))
  {
    var c' := Cancel(s.c, why, now);
    CancelDoc(s.c, why, now);
    if Terminal(s.c.ex.status) {
      SameStory(s.c, c');
    } else if s.c.ex.status.AwaitingApproval? {
      var pid, eid := WaitingIsUndecided(s.c);
      assert Undecided(c', pid, eid, Conditional);
    } else {
      WorkingIsUntouched(s);
      UntouchedMoves(s.c, c');
    }
  }

  lemma FailKeepsBooks(s: Sys, reason: Reason, now: Time)
    requires Inv(s) && Balanced(s.c) && s.pc == AtRaised(reason) && SameBooks(s.c, Fail(s.c, reason, now))
    ensures Balanced(Fail(s.c, reason, now))
  {
    if !Terminal(s.c.ex.status) {
      WorkingIsUntouched(s);
      UntouchedMoves(s.c, Fail(s.c, reason, now));
    }
  }

  lemma StepKeepsBooks(s: Sys, input: Input)
    requires Balanced(s.c) && SameBooks(s.c, EngineNext(s.c, s.pc, input).0)
    requires s.pc.AtStepBegin? || s.pc.AtStepStarted? || s.pc.AtStepWork? || s.pc.AtStepDone?
    ensures Balanced(EngineNext(s.c, s.pc, input).0)
  {
    var c' := EngineNext(s.c, s.pc, input).0;
    StepDoc(s.c, s.pc, input);
    assert |c'.steps| == |c'.steps.Keys| && |s.c.steps| == |s.c.steps.Keys|;
    SameStory(s.c, c');
  }

  lemma StepDoc(c: Case, pc: Pc, input: Input)
    requires pc.AtStepBegin? || pc.AtStepStarted? || pc.AtStepWork? || pc.AtStepDone?
    ensures var c' := EngineNext(c, pc, input).0;
      c'.ex.status == c.ex.status && c'.ex.result == c.ex.result && c'.steps.Keys == c.steps.Keys
  {
    match pc
    case AtStepBegin(_) =>
    case AtStepStarted(_) =>
    case AtStepWork(sid) => WorkDoc(c, sid, input);
    case AtStepDone(sid) => CompleteStepShape(c, sid, input.now);
  }

  lemma WorkDoc(c: Case, sid: Id, input: Input)
    ensures var c' := WorkOnStep(c, sid, input).0;
      c'.ex.status == c.ex.status && c'.ex.result == c.ex.result && c'.steps.Keys == c.steps.Keys
  {
  }

  lemma EngineKeepsBooks(s: Sys, input: Input)
    requires Inv(s) && Balanced(s.c)
    requires !Finishes(s, Engine(input)) ==> SameBooks(s.c, EngineNext(s.c, s.pc, input).0)
    ensures Balanced(EngineNext(s.c, s.pc, input).0)
  {
    match s.pc
    case AtStart => BeginKeepsBooks(s, input);
    case AtLoop => HeadKeepsBooks(s, input.now);
    case AtDecide => DecideKeepsBooks(s, input);
    case AtCancel => CancelKeepsBooks(s, FlagSeen, input.now);
    case AtRaised(reason) => FailKeepsBooks(s, reason, input.now);
    case AtRest(_) =>
    case _ => StepKeepsBooks(s, input);
  }

  lemma SectionKeepsBooks(s: Sys, a: Action)
    requires Inv(s) && Balanced(s.c)
    ensures Balanced(Apply(s, a).c)
  {
    if a.SubmitApproval? {
      DecisionBalances(s.c, a.decision, a.approver, a.id, a.at);
    } else {
      if !Finishes(s, a) {
        QuietSame(s, a);
      }
      match a
      case Engine(input) => EngineKeepsBooks(s, input);
      case CancelNow(why, at) => CancelKeepsBooks(s, why, at);
      case _ => SameStory(s.c, Apply(s, a).c);
    }
  }

  lemma {:induction false} BooksBalanceFrom(s: Sys, acts: seq<Action>)
    requires Inv(s) && Balanced(s.c)
    ensures Balanced(Run(s, acts).c)
    decreases |acts|
  {
    if acts != [] {
      StepKeeps(s, acts[0]);
      SectionKeepsBooks(s, acts[0]);
      BooksBalanceFrom(Apply(s, acts[0]), acts[1..]);
    }
  }

  /** In every reachable state the books balance: the governance rows of the timeline are
      exactly the story of the stored proposal, evaluation and approval, those rows name
      each other and this execution, the decision is the one that scope and environment ask
      for, and the result document says the same. */
  lemma BooksBalance(s: Sys, acts: seq<Action>)
    requires Initial(s)
    ensures Balanced(Run(s, acts).c)
  {
    InvInitial(s);
    LogOfOthers([], s.c.ex.timeline);
    assert [] + s.c.ex.timeline == s.c.ex.timeline;
    BooksBalanceFrom(s, acts);
  }

  /** So an execution that waits for approval has said so, for the proposal and evaluation
      it names, and nothing after that about governance. */
  lemma WaitingIsAnnounced(s: Sys, acts: seq<Action>) returns (pid: Id, eid: Id)
    requires Initial(s) && Run(s, acts).c.ex.status.AwaitingApproval?
    ensures var c := Run(s, acts).c;
      && c.ex.result.Some? && c.ex.result.value.governance == Some(Governance(pid, eid))
      && GovernanceLog(c.ex.timeline) ==
           [ActionProposed(pid), PolicyEvaluated(eid, Conditional), ApprovalRequired(pid, eid)]
      && exists k :: 0 <= k < |c.ex.timeline| && c.ex.timeline[k].event == ApprovalRequired(pid, eid)
  {
    BooksBalance(s, acts);
    pid, eid := WaitingIsUndecided(Run(s, acts).c);
    var log := GovernanceLog(Run(s, acts).c.ex.timeline);
    assert log[2] == ApprovalRequired(pid, eid);
    LogIsOfRows(Run(s, acts).c.ex.timeline, log[2]);
  }

  lemma {:induction false} LogIsOfRows(tl: seq<Row>, event: Event)
    requires event in GovernanceLog(tl)
    ensures exists k :: 0 <= k < |tl| && tl[k].event == event
  {
    var n := |tl| - 1;
    if event in GovernanceLog(tl[..n]) {
      LogIsOfRows(tl[..n], event);
      var k :| 0 <= k < n && tl[..n][k].event == event;
      assert tl[k].event == event;
    } else {
      assert tl[n].event == event;
    }
  }

  // ---------------------------------------------------------------- endings

  /** The action that ended the execution, and how the record tells it: the terminal stamp
      is its time, a cancellation gives its reason, a raised error its own. */
  ghost predicate Ends(t: Sys, a: Action, ex: Execution) {
    && !Terminal(t.c.ex.status)
    && match ex.status
       case Completed =>
         && ex.completedAt == Some(TimeOf(a))
         && ((a.Engine? && t.pc == AtDecide && t.c.ex.status.Validating?)
             || (a.SubmitApproval? && a.decision.Approve? && t.c.ex.status.AwaitingApproval?))
       case Failed =>
         || (a.Engine? && t.pc.AtRaised? && ex.result.Some? && ex.result.value.reason == Some(t.pc.reason))
         || (Finishes(t, a) && Decides(t.c, Deny))
         || (a.SubmitApproval? && a.decision.Reject? && t.c.ex.status.AwaitingApproval?)
       case Cancelled =>
         && ex.cancelledAt == Some(TimeOf(a)) && ex.result.Some?
         && (if a.CancelNow? then ex.result.value.reason == Some(Cancellation(a.why))
             else a.Engine? && t.pc == AtCancel && ex.result.value.reason == Some(Cancellation(FlagSeen)))
       case _ => false
  }

  lemma SameEnding(t: Sys, a: Action, x: Execution, y: Execution)
    requires Ends(t, a, x) && SameOutcome(x, y)
    ensures Ends(t, a, y)
  {
  }

  lemma CancelEnds(s: Sys, a: Action, why: Why)
    requires !Terminal(s.c.ex.status)
    requires if a.CancelNow? then why == a.why else a.Engine? && s.pc == AtCancel && why == FlagSeen
    ensures Ends(s, a, Cancel(s.c, why, TimeOf(a)).ex)
  {
  }

  lemma FailEnds(s: Sys, input: Input)
    requires !Terminal(s.c.ex.status) && s.pc.AtRaised?
    ensures var ex' := Fail(s.c, s.pc.reason, input.now).ex; Terminal(ex'.status) ==> Ends(s, Engine(input), ex')
  {
  }

  lemma DecideEnds(s: Sys, input: Input)
    requires Inv(s) && !Terminal(s.c.ex.status) && s.pc == AtDecide
    ensures var ex' := Decide(s.c, input).0.ex; Terminal(ex'.status) ==> Ends(s, Engine(input), ex')
  {
    if Terminal(Decide(s.c, input).0.ex.status) {
      FinishEnds(s, input);
      assert Decide(s.c, input) == Finish(s.c, input);
    }
  }

  lemma FinishEnds(s: Sys, input: Input)
    requires Inv(s) && s.pc == AtDecide && s.c.ex.status.Validating?
    ensures var ex' := Finish(s.c, input).0.ex; Terminal(ex'.status) ==> Ends(s, Engine(input), ex')
  {
    if s.c.ex.workflow.IncidentTriage? {
      DecisionIs(s.c, Policy.Decision(s.c.ctx.value, EscalateIncident));
    }
  }

  lemma ApprovalEnds(s: Sys, a: Action)
    requires !Terminal(s.c.ex.status) && a.SubmitApproval?
    ensures var ex' := Decided(s.c, a.decision, a.approver, a.id, a.at).0.ex;
      Terminal(ex'.status) ==> Ends(s, a, ex')
  {
    DecidedShape(s.c, a.decision, a.approver, a.id, a.at);
  }

  lemma EngineEnds(s: Sys, input: Input)
    requires Inv(s) && !Terminal(s.c.ex.status)
    ensures var ex' := EngineNext(s.c, s.pc, input).0.ex; Terminal(ex'.status) ==> Ends(s, Engine(input), ex')
  {
    match s.pc
    case AtStart => BeginGoesOn(s.c, input);
    case AtLoop =>
    case AtDecide => DecideEnds(s, input);
    case AtCancel => CancelEnds(s, Engine(input), FlagSeen);
    case AtRaised(_) => FailEnds(s, input);
    case AtRest(_) =>
    case _ => StepDoc(s.c, s.pc, input);
  }

  lemma BeginGoesOn(c: Case, input: Input)
    requires !Terminal(c.ex.status)
    ensures !Terminal(Begin(c, input).0.ex.status)
  {
    if Unplanned(c.ex.status) {
      BeginPlans(c, input);
    }
  }

  lemma SectionEnds(s: Sys, a: Action)
    requires Inv(s) && !Terminal(s.c.ex.status) && Terminal(Apply(s, a).c.ex.status)
    ensures Ends(s, a, Apply(s, a).c.ex)
  {
    match a
    case Engine(input) => EngineEnds(s, input);
    case CancelNow(why, at) => CancelEnds(s, a, why);
    case SubmitApproval(_, _, _, _) => ApprovalEnds(s, a);
    case _ =>
  }

  lemma EndedStays(s: Sys, a: Action)
    requires Terminal(s.c.ex.status)
    ensures SameOutcome(s.c.ex, Apply(s, a).c.ex)
  {
    ActionEffect(s, a);
  }

  /** Every ended execution was ended by one action of its run, and its record tells which:
      the stamp, the reason of a cancellation and the reason of an error are that action's. */
  lemma {:induction false} EndingIsTold(s: Sys, acts: seq<Action>) returns (i: nat)
    requires Initial(s) && Terminal(Run(s, acts).c.ex.status)
    ensures i < |acts| && Ends(Run(s, acts[..i]), acts[i], Run(s, acts).c.ex)
    decreases |acts|
  {
    var n := |acts| - 1;
    assert acts[..n + 1] == acts;
    RunSnoc(s, acts, n);
    ReachableInv(s, acts[..n]);
    var before := Run(s, acts[..n]);
    if Terminal(before.c.ex.status) {
      i := EndingIsTold(s, acts[..n]);
      assert acts[..n][..i] == acts[..i];
      EndedStays(before, acts[n]);
      SameEnding(Run(s, acts[..i]), acts[i], before.c.ex, Run(s, acts).c.ex);
    } else {
      i := n;
      SectionEnds(before, acts[n]);
    }
  }

  // ---------------------------------------------------------------- approvals

  /** The action at position `i` submitted this approval, for what the execution then
      waited for. */
  ghost predicate SubmittedAt(s: Sys, acts: seq<Action>, i: nat, aid: Id, row: Approval) {
    && i < |acts|
    && acts[i] == SubmitApproval(row.decision, row.approver, aid, row.decidedAt)
    && var c := Run(s, acts[..i]).c;
       && c.ex.status.AwaitingApproval? && c.ex.result.Some?
       && c.ex.result.value.governance == Some(Governance(row.proposalId, row.evaluationId))
       && row.executionId == c.ex.executionId
  }

  lemma SectionApprovals(s: Sys, a: Action, aid: Id)
    requires aid in Apply(s, a).c.approvals
    ensures var row := Apply(s, a).c.approvals[aid];
      || (aid in s.c.approvals && s.c.approvals[aid] == row)
      || (&& a == SubmitApproval(row.decision, row.approver, aid, row.decidedAt)
          && s.c.ex.status.AwaitingApproval? && s.c.ex.result.Some?
          && s.c.ex.result.value.governance == Some(Governance(row.proposalId, row.evaluationId))
          && row.executionId == s.c.ex.executionId)
  {
    if !a.SubmitApproval? {
      ApprovalsQuiet(s, a);
    }
  }

  lemma ApprovalsQuiet(s: Sys, a: Action)
    requires !a.SubmitApproval?
    ensures Apply(s, a).c.approvals == s.c.approvals
  {
    if a.Engine? && s.pc == AtDecide {
      DecideApprovals(s.c, a.input);
    } else {
      QuietTables(s, a);
    }
  }

  lemma DecideApprovals(c: Case, input: Input)
    ensures Decide(c, input).0.approvals == c.approvals
  {
  }

  /** Every stored approval is one that was submitted: its approver, decision and time are
      the caller's, its proposal and evaluation those the execution was waiting for. */
  lemma {:induction false} ApprovalsAreSubmitted(s: Sys, acts: seq<Action>, aid: Id) returns (i: nat)
    requires Initial(s) && aid in Run(s, acts).c.approvals
    ensures SubmittedAt(s, acts, i, aid, Run(s, acts).c.approvals[aid])
    decreases |acts|
  {
    var n := |acts| - 1;
    assert acts[..n + 1] == acts;
    RunSnoc(s, acts, n);
    var before := Run(s, acts[..n]);
    SectionApprovals(before, acts[n], aid);
    if aid in before.c.approvals && before.c.approvals[aid] == Run(s, acts).c.approvals[aid] {
      i := ApprovalsAreSubmitted(s, acts[..n], aid);
      assert acts[..n][..i] == acts[..i];
    } else {
      i := n;
    }
  }

  // ---------------------------------------------------------------- steps and plans

  /** The parts of a step that never change. */
  function Fixed(step: Step): Step {
    step.(status := Pending, updatedAt := 0)
  }

  /** All steps are the current plan's, made when it was made. */
  predicate StepsOfPlan(c: Case) {
    && (c.steps != map[] ==> PlanResolves(c))
    && (PlanResolves(c) ==>
          && c.plans[c.ex.planId.value].executionId == c.ex.executionId
          && forall sid :: sid in c.steps ==>
               && c.steps[sid].planId == c.ex.planId.value
               && c.steps[sid].createdAt == c.plans[c.ex.planId.value].createdAt)
  }

  /** Steps and plan are as before, statuses aside; a step that moved carries the time. */
  predicate StepsMove(c: Case, c': Case, now: Time) {
    && c'.plans == c.plans && c'.ex.planId == c.ex.planId && c'.ex.executionId == c.ex.executionId
    && c'.steps.Keys == c.steps.Keys
    && forall sid :: sid in c.steps ==>
         && Fixed(c'.steps[sid]) == Fixed(c.steps[sid])
         && (c'.steps[sid] != c.steps[sid] ==> c'.steps[sid].updatedAt == now)
  }

  lemma StepMoves(c: Case, pc: Pc, input: Input)
    requires pc.AtStepBegin? || pc.AtStepStarted? || pc.AtStepWork? || pc.AtStepDone?
    ensures StepsMove(c, EngineNext(c, pc, input).0, input.now)
  {
    match pc
    case AtStepBegin(sid) => BeginMoves(c, sid, input.now);
    case AtStepStarted(_) =>
    case AtStepWork(sid) => WorkMoves(c, sid, input);
    case AtStepDone(sid) => CompleteStepShape(c, sid, input.now);
  }

  lemma BeginMoves(c: Case, sid: Id, now: Time)
    ensures StepsMove(c, BeginStep(c, sid, now).0, now)
  {
    if sid in c.steps {
      OneMoves(c.steps, sid, Running, now);
    }
  }

  lemma OneMoves(steps: map<Id, Step>, sid: Id, status: StepStatus, now: Time)
    requires sid in steps
    ensures var steps' := steps[sid := steps[sid].(status := status, updatedAt := now)];
      && steps'.Keys == steps.Keys
      && forall t :: t in steps ==>
           Fixed(steps'[t]) == Fixed(steps[t]) && (steps'[t] != steps[t] ==> steps'[t].updatedAt == now)
  {
  }

  lemma WorkMoves(c: Case, sid: Id, input: Input)
    ensures StepsMove(c, WorkOnStep(c, sid, input).0, input.now)
  {
    if sid in c.steps {
      OneMoves(c.steps, sid, Succeeded, input.now);
    }
  }

  lemma DecideMoves(c: Case, input: Input)
    ensures StepsMove(c, Decide(c, input).0, input.now)
  {
    DecideEffect(c, input);
    DecidePlans(c, input);
  }

  lemma DecidePlans(c: Case, input: Input)
    ensures var c' := Decide(c, input).0; c'.plans == c.plans && c'.ex.planId == c.ex.planId
  {
    FinishPlans(c, input);
  }

  lemma FinishPlans(c: Case, input: Input)
    ensures var c' := Finish(c, input).0; c'.plans == c.plans && c'.ex.planId == c.ex.planId
  {
  }

  lemma CancelMoves(c: Case, why: Why, now: Time)
    ensures StepsMove(c, Cancel(c, why, now), now)
  {
    CancelledFields(WithInput(c, MarkCancelled(c.ex.input, why, now)), why, now);
  }

  lemma EngineMoves(s: Sys, input: Input)
    requires s.pc != AtStart || !Unplanned(s.c.ex.status)
    ensures StepsMove(s.c, EngineNext(s.c, s.pc, input).0, input.now)
  {
    match s.pc
    case AtStart =>
    case AtLoop =>
    case AtDecide => DecideMoves(s.c, input);
    case AtCancel => CancelMoves(s.c, FlagSeen, input.now);
    case AtRaised(_) =>
    case AtRest(_) =>
    case _ => StepMoves(s.c, s.pc, input);
  }

  /** Steps never change but in status, and then carry the time of the change. */
  lemma SectionMoves(s: Sys, a: Action)
    requires !(a.Engine? && s.pc == AtStart && Unplanned(s.c.ex.status))
    ensures StepsMove(s.c, Apply(s, a).c, TimeOf(a))
  {
    match a
    case Engine(input) => EngineMoves(s, input);
    case CancelNow(why, at) => CancelMoves(s.c, why, at);
    case SubmitApproval(d, approver, id, at) =>
      DecidedShape(s.c, d, approver, id, at);
      DecidedPlans(s.c, d, approver, id, at);
    case _ =>
  }

  lemma DecidedPlans(c: Case, d: ApprovalDecision, approver: string, id: Id, now: Time)
    ensures var c' := Decided(c, d, approver, id, now).0;
      c'.plans == c.plans && c'.ex.planId == c.ex.planId && c'.ex.executionId == c.ex.executionId
  {
  }

  lemma BeginStepsOfPlan(c: Case, input: Input)
    requires Unplanned(c.ex.status) && c.steps == map[] && c.ex.planId.None?
    ensures StepsOfPlan(Begin(c, input).0)
  {
    BeginPlans(c, input);
    if EdgesResolve(input.draft) {
      NewStepsFixed(input.draft, c.ex.executionId, input.newId, input.now);
      assert c.steps + NewSteps(input.draft, c.ex.executionId, input.newId, input.now)
          == NewSteps(input.draft, c.ex.executionId, input.newId, input.now);
    }
  }

  lemma NewStepsFixed(draft: Draft, execId: Id, planId: Id, now: Time)
    requires EdgesResolve(draft)
    ensures var steps := NewSteps(draft, execId, planId, now);
      forall sid :: sid in steps ==> steps[sid].planId == planId && steps[sid].createdAt == now
  {
  }

  /** Before there is a plan there is none current. */
  predicate NoPlanYet(c: Case) {
    Unplanned(c.ex.status) ==> c.ex.planId.None?
  }

  lemma UnplannedStays(s: Sys, a: Action)
    requires Unplanned(Apply(s, a).c.ex.status)
    ensures Unplanned(s.c.ex.status) && Apply(s, a).c.ex.planId == s.c.ex.planId
  {
    match a
    case Engine(input) => UnplannedEngine(s, input);
    case CancelNow(why, at) => CancelDoc(s.c, why, at); CancelMoves(s.c, why, at);
    case SubmitApproval(d, approver, id, at) => DecidedShape(s.c, d, approver, id, at);
    case _ =>
  }

  lemma UnplannedEngine(s: Sys, input: Input)
    requires Unplanned(EngineNext(s.c, s.pc, input).0.ex.status)
    ensures Unplanned(s.c.ex.status) && EngineNext(s.c, s.pc, input).0.ex.planId == s.c.ex.planId
  {
    match s.pc
    case AtDecide => DecidePlans(s.c, input); DecideUnplanned(s.c, input);
    case AtCancel => CancelDoc(s.c, FlagSeen, input.now); CancelMoves(s.c, FlagSeen, input.now);
    case AtStart => BeginUnplanned(s.c, input);
    case AtLoop =>
    case AtRaised(_) =>
    case AtRest(_) =>
    case _ => StepDoc(s.c, s.pc, input); StepMoves(s.c, s.pc, input);
  }

  lemma DecideUnplanned(c: Case, input: Input)
    requires Unplanned(Decide(c, input).0.ex.status)
    ensures Unplanned(c.ex.status)
  {
    if c.ex.status.Validating? {
      FinishPlanned(c, input);
    }
  }

  lemma FinishPlanned(c: Case, input: Input)
    requires c.ex.status.Validating?
    ensures !Unplanned(Finish(c, input).0.ex.status)
  {
  }

  lemma BeginUnplanned(c: Case, input: Input)
    requires Unplanned(Begin(c, input).0.ex.status)
    ensures Unplanned(c.ex.status) && Begin(c, input).0.ex.planId == c.ex.planId
  {
    if Unplanned(c.ex.status) {
      BeginPlans(c, input);
    }
  }

  lemma SectionPlans(s: Sys, a: Action)
    requires Inv(s) && StepsOfPlan(s.c) && NoPlanYet(s.c)
    ensures StepsOfPlan(Apply(s, a).c) && NoPlanYet(Apply(s, a).c)
  {
    if Unplanned(Apply(s, a).c.ex.status) {
      UnplannedStays(s, a);
    }
    if a.Engine? && s.pc == AtStart && Unplanned(s.c.ex.status) {
      BeginStepsOfPlan(s.c, a.input);
    } else {
      SectionMoves(s, a);
      MovedStepsOfPlan(s.c, Apply(s, a).c, TimeOf(a));
    }
  }

  lemma MovedStepsOfPlan(c: Case, c': Case, now: Time)
    requires StepsOfPlan(c) && StepsMove(c, c', now)
    ensures StepsOfPlan(c')
  {
    forall sid | sid in c'.steps
      ensures c'.steps[sid].planId == c.steps[sid].planId && c'.steps[sid].createdAt == c.steps[sid].createdAt
    {
      assert Fixed(c'.steps[sid]) == Fixed(c.steps[sid]);
    }
  }

  lemma {:induction false} PlansFrom(s: Sys, acts: seq<Action>)
    requires Inv(s) && StepsOfPlan(s.c) && NoPlanYet(s.c)
    ensures StepsOfPlan(Run(s, acts).c)
    decreases |acts|
  {
    if acts != [] {
      StepKeeps(s, acts[0]);
      SectionPlans(s, acts[0]);
      PlansFrom(Apply(s, acts[0]), acts[1..]);
    }
  }

  /** In every reachable state all stored steps belong to the current plan, which is this
      execution's own, and are as old as it. */
  lemma StepsBelongToThePlan(s: Sys, acts: seq<Action>)
    requires Initial(s)
    ensures StepsOfPlan(Run(s, acts).c)
  {
    InvInitial(s);
    PlansFrom(s, acts);
  }

  // ---------------------------------------------------------------- validation rows

  /** How often a timeline records an event. */
  function Times(tl: seq<Row>, event: Event): nat {
    if tl == [] then 0 else Times(tl[..|tl| - 1], event) + if tl[|tl| - 1].event == event then 1 else 0
  }

  lemma TimesSnoc(tl: seq<Row>, r: Row, event: Event)
    ensures Times(tl + [r], event) == Times(tl, event) + if r.event == event then 1 else 0
  {
    assert (tl + [r])[..|tl|] == tl;
  }

  lemma {:induction false} TimesOfOthers(tl: seq<Row>, rows: seq<Row>, event: Event)
    requires forall r :: r in rows ==> r.event != event
    ensures Times(tl + rows, event) == Times(tl, event)
  {
    if rows == [] {
      assert tl + rows == tl;
    } else {
      var init, last := rows[..|rows| - 1], rows[|rows| - 1];
      assert last in rows && forall r :: r in init ==> r in rows;
      assert tl + rows == (tl + init) + [last];
      TimesOfOthers(tl, init, event);
      TimesSnoc(tl + init, last, event);
    }
  }

  predicate Checks(c: Case, sid: Id) {
    sid in c.steps && c.steps[sid].stepType.ValidationStep?
  }

  /** The validation rows of a step go with its completions, if it is a validation step. */
  predicate CheckedAt(c: Case, sid: Id) {
    var ended := Times(c.ex.timeline, StepCompleted(sid));
    && (ended > 0 ==> sid in c.steps)
    && Times(c.ex.timeline, ValidationPerformed(sid)) == if Checks(c, sid) then ended else 0
  }

  lemma QuietChecks(s: Sys, a: Action, sid: Id)
    requires s.c.ctx.Some? && !(a.Engine? && s.pc == AtStepDone(sid))
    ensures var tl, tl' := s.c.ex.timeline, Apply(s, a).c.ex.timeline;
      && Times(tl', StepCompleted(sid)) == Times(tl, StepCompleted(sid))
      && Times(tl', ValidationPerformed(sid)) == Times(tl, ValidationPerformed(sid))
  {
    var rows := RowsOf(s, a);
    forall r | r in rows ensures r.event != StepCompleted(sid) && r.event != ValidationPerformed(sid) {
      assert Causes(s, a, r.event);
    }
    TimesOfOthers(s.c.ex.timeline, rows, StepCompleted(sid));
    TimesOfOthers(s.c.ex.timeline, rows, ValidationPerformed(sid));
  }

  lemma DoneChecks(s: Sys, input: Input, sid: Id)
    requires Inv(s) && s.pc == AtStepDone(sid) && CheckedAt(s.c, sid)
    ensures CheckedAt(CompleteStep(s.c, sid, input.now), sid)
  {
    var tl, done, checked := s.c.ex.timeline, Row(input.now, StepCompleted(sid)), Row(input.now, ValidationPerformed(sid));
    CompletedRecordShape(s.c.ex, Checks(s.c, sid), sid, input.now);
    TimesSnoc(tl, done, StepCompleted(sid));
    TimesSnoc(tl, done, ValidationPerformed(sid));
    TimesSnoc(tl + [done], checked, StepCompleted(sid));
    TimesSnoc(tl + [done], checked, ValidationPerformed(sid));
  }

  lemma SectionChecks(s: Sys, a: Action, sid: Id)
    requires Inv(s) && CheckedAt(s.c, sid)
    ensures CheckedAt(Apply(s, a).c, sid)
  {
    if a.Engine? && s.pc == AtStepDone(sid) {
      DoneChecks(s, a.input, sid);
    } else {
      QuietChecks(s, a, sid);
      if !(a.Engine? && s.pc == AtStart && Unplanned(s.c.ex.status)) {
        SectionMoves(s, a);
        assert sid in s.c.steps ==> Fixed(Apply(s, a).c.steps[sid]) == Fixed(s.c.steps[sid]);
      }
    }
  }

  lemma {:induction false} ChecksFrom(s: Sys, acts: seq<Action>, sid: Id)
    requires Inv(s) && CheckedAt(s.c, sid)
    ensures CheckedAt(Run(s, acts).c, sid)
    decreases |acts|
  {
    if acts != [] {
      StepKeeps(s, acts[0]);
      SectionChecks(s, acts[0], sid);
      ChecksFrom(Apply(s, acts[0]), acts[1..], sid);
    }
  }

  /** In every reachable state each completion of a validation step, and no other, has its
      validation row. */
  lemma ValidationIsRecorded(s: Sys, acts: seq<Action>, sid: Id)
    requires Initial(s)
    ensures var c := Run(s, acts).c;
      Times(c.ex.timeline, ValidationPerformed(sid)) ==
        if sid in c.steps && c.steps[sid].stepType.ValidationStep? then Times(c.ex.timeline, StepCompleted(sid)) else 0
  {
    InvInitial(s);
    var tl := s.c.ex.timeline;
    TimesOfOthers([], tl, StepCompleted(sid));
    TimesOfOthers([], tl, ValidationPerformed(sid));
    assert [] + tl == tl;
    ChecksFrom(s, acts, sid);
  }
}
