/** The errors the engine can raise, over every interleaved run of every plan: which ones
    there are, and what each says about the plan. */
module Errors {
  import opened StateMachine
  import opened Records
  import opened RuntimeMeta
  import opened Timeline
  import opened Lifecycle
  import opened Safety
  import opened Effects
  import opened Theorems
  import opened Scheduling
  import opened SerialRun

  import Planner

  // ---------------------------------------------------------------- what an error says

  predicate HasRunning(steps: map<Id, Step>) {
    exists sid :: sid in steps && steps[sid].status.Running?
  }

  /** The draft of the current plan. */
  function CurrentDraft(c: Case): Draft
    requires PlanResolves(c)
  {
    c.plans[c.ex.planId.value].draft
  }

  /** Without a step whose work raised, the graph of the current plan decides the error;
      with one, whether other steps are still pending does. */
  predicate Justified(c: Case, reason: Reason) {
    && PlanResolves(c)
    && (if HasRunning(c.steps) then reason == (if HasPending(c.steps) then Deadlock else UnexpectedSteps)
        else GraphReason(CurrentDraft(c), reason))
  }

  /** The reason a failed execution has stored, if the engine stored it. */
  predicate Stored(c: Case, reason: Reason) {
    c.ex.result.Some? && c.ex.result.value.reason == Some(reason) && !reason.Cancellation?
  }

  // ---------------------------------------------------------------- the invariant

  /** The same case without its input, which no scheduling decision but the cancellation
      test looks at. */
  function Bare(c: Case): Case {
    WithInput(c, map[])
  }

  ghost predicate Abandoned(s: Sys) {
    exists sid :: HasStatus(s.c, sid, Running) && !AtStep(s.pc, sid)
  }

  ghost predicate OnCourse(c: Case, pc: Pc) {
    exists draft, done :: SerialRun.Running(Bare(c), pc, draft, done)
  }

  predicate UnderExecution(c: Case) {
    c.ex.status.Executing? || c.ex.status.Validating?
  }

  predicate Unstarted(c: Case) {
    Unplanned(c.ex.status) ==> StartedSteps(c.ex.timeline) == []
  }

  ghost predicate CourseKept(s: Sys) {
    Abandoned(s) || !UnderExecution(s.c) || s.pc.AtCancel? || OnCourse(s.c, s.pc)
  }

  predicate RaisedKept(s: Sys) {
    s.pc.AtRaised? ==> Justified(s.c, s.pc.reason)
  }

  /** The runner is before or at a loop head, or done. */
  predicate Eased(pc: Pc) {
    pc.AtRest? || pc.AtStart? || pc.AtLoop? || pc.AtCancel?
  }

  ghost predicate StoredKept(s: Sys) {
    forall reason :: Stored(s.c, reason) ==> Justified(s.c, reason) && Terminal(s.c.ex.status) && Eased(s.pc)
  }

  ghost predicate ErrorInv(s: Sys) {
    Inv(s) && Unstarted(s.c) && CourseKept(s) && RaisedKept(s) && StoredKept(s)
  }

  lemma ErrorInitial(s: Sys)
    requires Initial(s)
    ensures ErrorInv(s)
  {
    InvInitial(s);
    QuietRows(s.c.ex.timeline);
  }

  // ---------------------------------------------------------------- sections that read no plan

  /** Steps, plans and the current plan are as before. */
  predicate SamePlan(c: Case, c': Case) {
    c'.steps == c.steps && c'.plans == c.plans && c'.ex.planId == c.ex.planId
  }

  lemma JustifiedKept(c: Case, c': Case, reason: Reason)
    requires Justified(c, reason) && SamePlan(c, c')
    ensures Justified(c', reason)
  {
  }

  lemma RaisedStays(c: Case, pc: Pc, c': Case)
    requires RaisedKept(Sys(c, pc)) && SamePlan(c, c')
    ensures RaisedKept(Sys(c', pc))
  {
  }

  /** A change to the input alone. */
  lemma MetaErrors(s: Sys, input: Dict)
    requires ErrorInv(s)
    ensures ErrorInv(s.(c := WithInput(s.c, input)))
  {
    var t := s.(c := WithInput(s.c, input));
    MetaKeeps(s.c, s.pc, input);
    assert Bare(t.c) == Bare(s.c);
    assert CourseKept(t) by {
      if sid :| HasStatus(s.c, sid, Running) && !AtStep(s.pc, sid) {
        assert HasStatus(t.c, sid, Running);
      }
    }
    RaisedStays(s.c, s.pc, t.c);
    forall reason | Stored(t.c, reason) ensures Justified(t.c, reason) && Terminal(t.c.ex.status) && Eased(t.pc) {
      assert Stored(s.c, reason);
      JustifiedKept(s.c, t.c, reason);
    }
  }

  /** A section that settles the execution without an error of the engine. */
  lemma SettledErrors(s: Sys, t: Sys)
    requires ErrorInv(s) && Inv(t) && SamePlan(s.c, t.c) && (t.pc == s.pc || t.pc.AtRest?)
    requires !Unplanned(t.c.ex.status) && !UnderExecution(t.c)
    requires forall reason :: !Stored(t.c, reason)
    ensures ErrorInv(t)
  {
  }

  lemma CancelNowErrors(s: Sys, pc': Pc, why: Why, now: Time)
    requires ErrorInv(s) && Inv(Sys(Cancel(s.c, why, now), pc')) && (pc' == s.pc || pc' == AtRest(false))
    ensures ErrorInv(Sys(Cancel(s.c, why, now), pc'))
  {
    var c1 := WithInput(s.c, MarkCancelled(s.c.ex.input, why, now));
    MetaErrors(s, MarkCancelled(s.c.ex.input, why, now));
    var t := Sys(Cancel(s.c, why, now), pc');
    CancelShape(s.c, c1, t.c, why, now);
    if Terminal(s.c.ex.status) {
      assert t.c == c1;
      RestErrors(Sys(c1, s.pc), t);
    } else {
      SettledErrors(s, t);
    }
  }

  lemma CancelShape(c: Case, c1: Case, c': Case, why: Why, now: Time)
    requires c1 == WithInput(c, MarkCancelled(c.ex.input, why, now)) && c' == Cancel(c, why, now)
    ensures SamePlan(c, c')
    ensures Terminal(c.ex.status) ==> c' == c1
    ensures !Terminal(c.ex.status) ==>
      c'.ex.status.Cancelled? && forall reason :: !Stored(c', reason)
  {
  }

  /** A runner that stops, or goes on, with nothing but a terminal execution in hand. */
  lemma RestErrors(s: Sys, t: Sys)
    requires ErrorInv(s) && Inv(t) && t.c == s.c && (t.pc == s.pc || t.pc.AtRest?)
    requires Terminal(s.c.ex.status)
    ensures ErrorInv(t)
  {
    forall reason | Stored(t.c, reason) ensures Justified(t.c, reason) && Eased(t.pc) {
      assert Stored(s.c, reason);
    }
  }

  lemma ApprovalErrors(s: Sys, d: ApprovalDecision, approver: string, id: Id, now: Time)
    requires ErrorInv(s)
    ensures ErrorInv(s.(c := Decided(s.c, d, approver, id, now).0))
  {
    var (c', error) := Decided(s.c, d, approver, id, now);
    ApprovalKeeps(s.c, s.pc, d, approver, id, now);
    if c' != s.c {
      ApprovalShape(s.c, d, approver, id, now);
      SettledErrors(s, s.(c := c'));
    }
  }

  lemma ApprovalShape(c: Case, d: ApprovalDecision, approver: string, id: Id, now: Time)
    requires GovernanceInv(c) && Decided(c, d, approver, id, now).0 != c
    ensures var c' := Decided(c, d, approver, id, now).0;
      SamePlan(c, c') && Terminal(c'.ex.status) && forall reason :: !Stored(c', reason)
  {
  }

  // ---------------------------------------------------------------- abandoned steps

  lemma RunningStays(s: Sys, input: Input, sid: Id)
    requires Inv(s) && HasStatus(s.c, sid, Running) && !AtStep(s.pc, sid)
    ensures var (c', pc') := EngineNext(s.c, s.pc, input); HasStatus(c', sid, Running) && !AtStep(pc', sid)
  {
    match s.pc
    case AtStart => BeginRunningStays(s, input, sid);
    case AtDecide => DecideEffect(s.c, input);
    case AtCancel => Theorems.CancelRunsNothing(s.c, FlagSeen, input.now);
    case AtStepBegin(t) => assert Ready(s.c.steps, t);
    case AtStepWork(t) => OtherRunningStays(s.c, t, input, sid);
    case _ =>
  }

  lemma BeginRunningStays(s: Sys, input: Input, sid: Id)
    requires Inv(s) && s.pc.AtStart? && HasStatus(s.c, sid, Running)
    ensures var (c', pc') := Begin(s.c, input); HasStatus(c', sid, Running) && !AtStep(pc', sid)
  {
  }

  lemma OtherRunningStays(c: Case, t: Id, input: Input, sid: Id)
    requires HasStatus(c, sid, Running) && t != sid
    ensures var (c', pc') := WorkOnStep(c, t, input); HasStatus(c', sid, Running) && !AtStep(pc', sid)
  {
  }

  lemma AbandonedStays(s: Sys, input: Input)
    requires Inv(s) && Abandoned(s)
    ensures Abandoned(Apply(s, Action.Engine(input)))
  {
    var sid :| HasStatus(s.c, sid, Running) && !AtStep(s.pc, sid);
    RunningStays(s, input, sid);
  }

  // ---------------------------------------------------------------- engine sections

  lemma BeginErrors(c: Case, input: Input)
    requires ErrorInv(Sys(c, AtStart))
    ensures var (c', pc') := Begin(c, input); ErrorInv(Sys(c', pc'))
  {
    var (c', pc') := Begin(c, input);
    BeginKeeps(c, input);
    if Unplanned(c.ex.status) {
      FirstPlan(c, input);
    } else if sid :| HasStatus(c, sid, Running) && !AtStep(AtStart, sid) {
      assert HasStatus(c', sid, Running) && !AtStep(pc', sid);
    }
    forall reason | Stored(c', reason) ensures Justified(c', reason) && Terminal(c'.ex.status) && Eased(pc') {
      assert Stored(c, reason);
    }
  }

  lemma FirstPlan(c: Case, input: Input)
    requires Inv(Sys(c, AtStart)) && Unplanned(c.ex.status) && StartedSteps(c.ex.timeline) == []
    ensures var (c', pc') := Begin(c, input);
      && StartedSteps(c'.ex.timeline) == [] && !pc'.AtRaised? && c'.ex.result == c.ex.result
      && (UnderExecution(c') ==> OnCourse(c', pc'))
  {
    var c0 := if c.ex.status.Created? then c.(ex := Enter(c.ex, Planning, input.now)) else c;
    AppendKeeps(c.ex, StatusRow(Planning), input.now);
    FirstSteps(c0, input);
  }

  lemma FirstSteps(c: Case, input: Input)
    requires c.ex.status.Planning? && c.steps == map[] && StartedSteps(c.ex.timeline) == []
    ensures var (c', pc') := Instantiate(c, input);
      && StartedSteps(c'.ex.timeline) == [] && !pc'.AtRaised? && c'.ex.result == c.ex.result
      && (UnderExecution(c') ==> OnCourse(c', pc'))
  {
    AppendKeeps(c.ex.(planId := Some(input.newId)), StatusRow(Executing), input.now);
    if EdgesResolve(input.draft) {
      NoSteps(c.steps, NewSteps(input.draft, c.ex.executionId, input.newId, input.now));
      FirstCourse(c, Instantiate(c, input).0, input);
    }
  }

  lemma FirstCourse(c: Case, c': Case, input: Input)
    requires EdgesResolve(input.draft)
    requires c'.steps == NewSteps(input.draft, c.ex.executionId, input.newId, input.now)
    requires c'.ex.planId == Some(input.newId) && input.newId in c'.plans
    requires c'.plans[input.newId].draft == input.draft
    requires c'.ex.status.Executing? && StartedSteps(c'.ex.timeline) == []
    ensures OnCourse(c', AtLoop)
  {
    var draft := input.draft;
    NewStepsMatch(draft, c.ex.executionId, input.newId, input.now);
    NothingDone(c'.steps, draft, c.ex.executionId, input.newId, input.now);
    FirstRunning(c', draft);
  }

  lemma FirstRunning(c: Case, draft: Draft)
    requires PlanResolves(c) && CurrentDraft(c) == draft && StepsMatch(c.steps, draft) && DoneAre(c.steps, [])
    requires c.ex.status.Executing? && StartedSteps(c.ex.timeline) == []
    ensures OnCourse(c, AtLoop)
  {
    RunningAtFirst(Bare(c), draft);
  }

  lemma NoSteps(steps: map<Id, Step>, added: map<Id, Step>)
    requires steps == map[]
    ensures steps + added == added
  {
  }

  lemma LoopHeadErrors(c: Case, now: Time)
    requires ErrorInv(Sys(c, AtLoop))
    ensures var (c', pc') := LoopHead(c, now); CourseKept(Sys(c', pc')) && !pc'.AtRaised?
  {
    var (c', pc') := LoopHead(c, now);
    if Abandoned(Sys(c, AtLoop)) {
      AbandonedStays(Sys(c, AtLoop), Input(now, 0, Draft([], []), Raises));
    } else if UnderExecution(c) && pc'.AtDecide? {
      var draft, done :| SerialRun.Running(Bare(c), AtLoop, draft, done);
      LoopHeadRuns(Bare(c), draft, done, now);
      BareHead(c, now);
    }
  }

  lemma BareHead(c: Case, now: Time)
    requires LoopHead(c, now).1.AtDecide?
    ensures LoopHead(Bare(c), now) == (Bare(LoopHead(c, now).0), AtDecide)
  {
  }

  lemma DecideErrors(c: Case, input: Input)
    requires ErrorInv(Sys(c, AtDecide))
    ensures var (c', pc') := Decide(c, input); CourseKept(Sys(c', pc')) && RaisedKept(Sys(c', pc'))
  {
    if Abandoned(Sys(c, AtDecide)) {
      AbandonedStays(Sys(c, AtDecide), input);
      AbandonedReason(c, input);
    } else if UnderExecution(c) {
      CourseOf(Sys(c, AtDecide));
      CourseDecide(c, input);
    }
  }

  lemma CourseDecide(c: Case, input: Input)
    requires Inv(Sys(c, AtDecide)) && UnderExecution(c) && OnCourse(c, AtDecide)
    ensures var (c', pc') := Decide(c, input); CourseKept(Sys(c', pc')) && RaisedKept(Sys(c', pc'))
  {
    var (c', pc') := Decide(c, input);
    var draft, done :| SerialRun.Running(Bare(c), AtDecide, draft, done);
    DecideRuns(Bare(c), draft, done, input);
    BareDecide(c, input);
    if !pc'.AtRest? {
      assert SerialRun.Running(Bare(c'), pc', draft, done);
      if pc'.AtRaised? {
        RunningReason(c', draft, done, pc'.reason);
      }
    }
  }

  /** With a step left running, not all have succeeded, and the two other errors remain. */
  lemma AbandonedReason(c: Case, input: Input)
    requires Inv(Sys(c, AtDecide)) && Abandoned(Sys(c, AtDecide))
    ensures var (c', pc') := Decide(c, input); RaisedKept(Sys(c', pc'))
  {
    var sid :| HasStatus(c, sid, Running) && !AtStep(AtDecide, sid);
    assert !AllSucceeded(c.steps) && HasRunning(c.steps);
  }

  lemma RunningReason(c: Case, draft: Draft, done: seq<string>, reason: Reason)
    requires SerialRun.Running(Bare(c), AtRaised(reason), draft, done)
    ensures Justified(c, reason)
  {
    assert DoneAre(Bare(c).steps, done);
    assert !HasRunning(c.steps);
  }

  lemma BareDecide(c: Case, input: Input)
    requires Inv(Sys(c, AtDecide)) && UnderExecution(c)
    ensures var (c', pc') := Decide(c, input);
      && Decide(Bare(c), input).1 == pc'
      && (pc'.AtRest? ==> !UnderExecution(c'))
      && (!pc'.AtRest? ==> c' == c && Decide(Bare(c), input).0 == Bare(c))
  {
    DecideEffect(c, input);
  }

  predicate StepPc(pc: Pc) {
    pc.AtStepBegin? || pc.AtStepStarted? || pc.AtStepWork? || pc.AtStepDone?
  }

  lemma CourseOf(s: Sys)
    requires ErrorInv(s) && !Abandoned(s) && UnderExecution(s.c) && !s.pc.AtCancel?
    ensures OnCourse(s.c, s.pc)
  {
  }

  lemma RaiseAbandons(s: Sys, input: Input)
    requires Inv(s) && s.pc.AtStepWork? && input.report.Raises?
    ensures Abandoned(Apply(s, Action.Engine(input)))
  {
    StepRuns(s, s.pc.stepId);
    assert HasStatus(s.c, s.pc.stepId, Running) && !AtStep(AtRest(true), s.pc.stepId);
  }

  lemma StepErrors(s: Sys, input: Input)
    requires ErrorInv(s) && StepPc(s.pc)
    ensures CourseKept(Apply(s, Action.Engine(input)))
  {
    StepShape(s, input);
    if Abandoned(s) {
      AbandonedStays(s, input);
    } else if s.pc.AtStepWork? && input.report.Raises? {
      RaiseAbandons(s, input);
    } else if UnderExecution(s.c) {
      CourseOf(s);
      CourseSection(s, input);
    }
  }

  lemma CourseSection(s: Sys, input: Input)
    requires Inv(s) && OnCourse(s.c, s.pc) && StepPc(s.pc) && !(s.pc.AtStepWork? && input.report.Raises?)
    ensures CourseKept(Apply(s, Action.Engine(input)))
  {
    var calm := if s.pc.AtStepWork? then input else input.(report := Returns(StepResult(JNull)));
    assert EngineNext(s.c, s.pc, input) == EngineNext(s.c, s.pc, calm);
    CourseStep(s.c, s.pc, calm);
  }

  lemma CourseStep(c: Case, pc: Pc, input: Input)
    requires Inv(Sys(c, pc)) && OnCourse(c, pc) && StepPc(pc) && !input.report.Raises?
    ensures var (c', pc') := EngineNext(c, pc, input); OnCourse(c', pc')
  {
    var draft, done :| SerialRun.Running(Bare(c), pc, draft, done);
    MetaKeeps(c, pc, map[]);
    StepSectionRuns(Sys(Bare(c), pc), draft, done, input);
    BareStep(c, pc, input);
    StepShape(Sys(c, pc), input);
    CourseFrom(EngineNext(c, pc, input).0, EngineNext(c, pc, input).1, draft);
  }

  lemma CourseFrom(c: Case, pc: Pc, draft: Draft)
    requires RunningOrEnded(Sys(Bare(c), pc), draft) && !pc.AtRest?
    ensures OnCourse(c, pc)
  {
  }

  lemma StepShape(s: Sys, input: Input)
    requires Inv(s) && StepPc(s.pc)
    ensures var (c', pc') := EngineNext(s.c, s.pc, input);
      && c'.ex.status == s.c.ex.status && c'.ex.result == s.c.ex.result && !pc'.AtRaised?
      && (pc'.AtRest? <==> s.pc.AtStepWork? && input.report.Raises?)
  {
    match s.pc
    case AtStepBegin(sid) => assert Ready(s.c.steps, sid); BeginShape(s.c, sid, input);
    case AtStepWork(sid) => StepRuns(s, sid); WorkShape(s.c, sid, input);
    case AtStepStarted(_) =>
    case AtStepDone(sid) => EndShape(s.c, sid, input);
  }

  lemma BeginShape(c: Case, sid: Id, input: Input)
    requires sid in c.steps && c.steps[sid].status.Pending?
    ensures var (c', pc') := BeginStep(c, sid, input.now); c'.ex == c.ex && pc'.AtStepStarted?
  {
  }

  lemma WorkShape(c: Case, sid: Id, input: Input)
    requires sid in c.steps
    ensures var (c', pc') := WorkOnStep(c, sid, input);
      && c'.ex.status == c.ex.status && c'.ex.result == c.ex.result && !pc'.AtRaised?
      && (pc'.AtRest? <==> input.report.Raises?)
  {
  }

  lemma EndShape(c: Case, sid: Id, input: Input)
    ensures var c' := CompleteStep(c, sid, input.now); c'.ex.status == c.ex.status && c'.ex.result == c.ex.result
  {
    CompleteStepShape(c, sid, input.now);
  }

  lemma BareStep(c: Case, pc: Pc, input: Input)
    requires StepPc(pc)
    ensures EngineNext(Bare(c), pc, input) == (Bare(EngineNext(c, pc, input).0), EngineNext(c, pc, input).1)
  {
    match pc
    case AtStepBegin(sid) => BareBegin(c, sid, input.now);
    case AtStepStarted(sid) => BareAppend(c, StepStarted(sid), input.now);
    case AtStepWork(sid) => BareWork(c, sid, input);
    case AtStepDone(sid) => BareComplete(c, sid, input.now);
  }

  lemma BareAppend(c: Case, event: Event, now: Time)
    ensures Bare(c).(ex := Append(Bare(c).ex, event, now)) == Bare(c.(ex := Append(c.ex, event, now)))
  {
  }

  lemma BareBegin(c: Case, sid: Id, now: Time)
    ensures BeginStep(Bare(c), sid, now) == (Bare(BeginStep(c, sid, now).0), BeginStep(c, sid, now).1)
  {
  }

  lemma BareWork(c: Case, sid: Id, input: Input)
    ensures WorkOnStep(Bare(c), sid, input) == (Bare(WorkOnStep(c, sid, input).0), WorkOnStep(c, sid, input).1)
  {
  }

  lemma BareComplete(c: Case, sid: Id, now: Time)
    ensures CompleteStep(Bare(c), sid, now) == Bare(CompleteStep(c, sid, now))
  {
    var c1 := c.(ex := Append(c.ex, StepCompleted(sid), now));
    BareAppend(c, StepCompleted(sid), now);
    BareAppend(c1, ValidationPerformed(sid), now);
  }

  lemma FailErrors(c: Case, reason: Reason, now: Time)
    requires ErrorInv(Sys(c, AtRaised(reason)))
    ensures ErrorInv(Sys(Fail(c, reason, now), AtRest(false)))
  {
    var t := Sys(Fail(c, reason, now), AtRest(false));
    FailKeeps(c, reason, now);
    if Terminal(c.ex.status) {
      RestErrors(Sys(c, AtRaised(reason)), t);
    } else {
      FailShape(c, t.c, reason, now);
      JustifiedKept(c, t.c, reason);
    }
  }

  lemma FailShape(c: Case, c': Case, reason: Reason, now: Time)
    requires c' == Fail(c, reason, now) && !Terminal(c.ex.status)
    ensures SamePlan(c, c') && c'.ex.status.Failed?
    ensures forall r :: Stored(c', r) ==> r == reason
  {
  }

  // ---------------------------------------------------------------- every section keeps it

  /** Past the loop head no error is stored. */
  lemma NothingStored(s: Sys, t: Sys)
    requires ErrorInv(s) && !Eased(s.pc) && t.c.ex.result == s.c.ex.result
    ensures StoredKept(t)
  {
    forall reason ensures !Stored(t.c, reason) {
      assert Stored(t.c, reason) ==> Stored(s.c, reason);
    }
  }

  lemma LoopErrors(c: Case, input: Input)
    requires ErrorInv(Sys(c, AtLoop))
    ensures ErrorInv(Apply(Sys(c, AtLoop), Action.Engine(input)))
  {
    var s := Sys(c, AtLoop);
    var t := Apply(s, Action.Engine(input));
    StepKeeps(s, Action.Engine(input));
    LoopHeadErrors(c, input.now);
    HeadShape(c, input.now);
    if Terminal(c.ex.status) {
      forall reason | Stored(t.c, reason) ensures Justified(t.c, reason) && Eased(t.pc) {
        assert Stored(c, reason);
      }
    } else {
      forall reason ensures !Stored(t.c, reason) {
        assert Stored(t.c, reason) ==> Stored(c, reason);
      }
    }
  }

  lemma HeadShape(c: Case, now: Time)
    requires Inv(Sys(c, AtLoop))
    ensures var (c', pc') := LoopHead(c, now);
      && c'.ex.result == c.ex.result && !Unplanned(c'.ex.status)
      && (Terminal(c.ex.status) ==> c' == c && (pc'.AtRest? || pc'.AtCancel?))
  {
  }

  lemma DecisionErrors(c: Case, input: Input)
    requires ErrorInv(Sys(c, AtDecide))
    ensures ErrorInv(Apply(Sys(c, AtDecide), Action.Engine(input)))
  {
    var s := Sys(c, AtDecide);
    var t := Apply(s, Action.Engine(input));
    StepKeeps(s, Action.Engine(input));
    DecideErrors(c, input);
    DecideShape(c, input);
    forall reason ensures !Stored(t.c, reason) {
      assert Stored(t.c, reason) ==> Stored(c, reason);
    }
  }

  lemma DecideShape(c: Case, input: Input)
    requires Inv(Sys(c, AtDecide))
    ensures var (c', pc') := Decide(c, input);
      && !Unplanned(c'.ex.status) && forall reason :: Stored(c', reason) ==> Stored(c, reason)
  {
  }

  lemma EngineErrors(s: Sys, input: Input)
    requires ErrorInv(s)
    ensures ErrorInv(Apply(s, Action.Engine(input)))
  {
    match s.pc
    case AtStart => BeginErrors(s.c, input);
    case AtLoop => LoopErrors(s.c, input);
    case AtDecide => DecisionErrors(s.c, input);
    case AtCancel =>
      StepKeeps(s, Action.Engine(input));
      CancelNowErrors(s, AtRest(false), FlagSeen, input.now);
    case AtRaised(reason) => FailErrors(s.c, reason, input.now);
    case AtRest(_) =>
    case _ => StepSectionErrors(s, input);
  }

  lemma StepSectionErrors(s: Sys, input: Input)
    requires ErrorInv(s) && StepPc(s.pc)
    ensures ErrorInv(Apply(s, Action.Engine(input)))
  {
    StepKeeps(s, Action.Engine(input));
    StepErrors(s, input);
    StepShape(s, input);
    NothingStored(s, Apply(s, Action.Engine(input)));
    NotUnplanned(s);
  }

  lemma NotUnplanned(s: Sys)
    requires Inv(s) && StepPc(s.pc)
    ensures !Unplanned(s.c.ex.status)
  {
  }

  lemma StartErrors(s: Sys)
    requires ErrorInv(s) && s.pc.AtRest?
    ensures ErrorInv(s.(pc := AtStart))
  {
    StepKeeps(s, StartRun);
    StartCourse(s);
    assert StoredKept(s.(pc := AtStart)) by {
      assert s.(pc := AtStart).c == s.c;
    }
  }

  lemma StartCourse(s: Sys)
    requires CourseKept(s) && s.pc.AtRest?
    ensures CourseKept(s.(pc := AtStart))
  {
    RestOffCourse(s.c, s.pc);
    if Abandoned(s) {
      StillAbandoned(s, s.(pc := AtStart));
    }
  }

  lemma StillAbandoned(s: Sys, t: Sys)
    requires Abandoned(s) && t.c == s.c && t.pc.AtStart?
    ensures Abandoned(t)
  {
    var sid :| HasStatus(s.c, sid, Running) && !AtStep(s.pc, sid);
    assert HasStatus(t.c, sid, Running) && !AtStep(t.pc, sid);
  }

  /** A runner that is not at work is on no course. */
  lemma RestOffCourse(c: Case, pc: Pc)
    requires pc.AtRest?
    ensures !OnCourse(c, pc)
  {
    forall draft, done ensures !SerialRun.Running(Bare(c), pc, draft, done) {
    }
  }

  lemma CancelErrors(s: Sys, why: Why, now: Time)
    requires ErrorInv(s)
    ensures ErrorInv(Sys(Cancel(s.c, why, now), s.pc))
  {
    CancelKeeps(s.c, s.pc, s.pc, why, now);
    CancelNowErrors(s, s.pc, why, now);
  }

  lemma SectionErrors(s: Sys, a: Action)
    requires ErrorInv(s)
    ensures ErrorInv(Apply(s, a))
  {
    match a
    case Engine(input) => EngineErrors(s, input);
    case StartRun =>
      if s.pc.AtRest? {
        StartErrors(s);
      }
    case Enqueue(at) => MetaErrors(s, MarkQueued(s.c.ex.input, at));
    case WorkerMark(worker, at) => MetaErrors(s, MarkWorkerStarted(s.c.ex.input, worker, at));
    case RequestCancel(why, at) => MetaErrors(s, MarkCancelled(s.c.ex.input, why, at));
    case CancelNow(why, at) => CancelErrors(s, why, at);
    case SubmitApproval(d, approver, id, at) => ApprovalErrors(s, d, approver, id, at);
  }

  lemma {:induction false} RunErrors(s: Sys, acts: seq<Action>)
    requires ErrorInv(s)
    ensures ErrorInv(Run(s, acts))
    decreases |acts|
  {
    if acts != [] {
      SectionErrors(s, acts[0]);
      RunErrors(Apply(s, acts[0]), acts[1..]);
    }
  }

  // ---------------------------------------------------------------- where the current plan comes from

  /** The plan just made is current, and its edges resolve. */
  predicate PlannedNow(c: Case, input: Input) {
    PlanResolves(c) && CurrentDraft(c) == input.draft && EdgesResolve(input.draft)
  }

  predicate SamePlans(c: Case, c': Case) {
    && c'.plans == c.plans && c'.ex.planId == c.ex.planId
    && (Unplanned(c'.ex.status) ==> Unplanned(c.ex.status))
  }

  /** Planning is the only section that stores a plan or makes one current. */
  lemma PlanStep(s: Sys, a: Action)
    requires Unplanned(s.c.ex.status) ==> s.c.ex.planId.None?
    ensures var t := Apply(s, a);
      && (Unplanned(t.c.ex.status) ==> t.c.ex.planId.None?)
      && (SamePlans(s.c, t.c)
          || (a.Engine? && s.pc.AtStart? && (t.c.ex.planId.None? || PlannedNow(t.c, a.input))))
  {
    match a
    case Engine(input) =>
      if s.pc.AtStart? {
        BeginPlan(s.c, input);
      } else {
        EnginePlan(s, input);
      }
    case CancelNow(why, at) => CancelPlan(s.c, why, at);
    case SubmitApproval(d, approver, id, at) => ApprovalPlan(s.c, d, approver, id, at);
    case _ =>
  }

  lemma EnginePlan(s: Sys, input: Input)
    requires !s.pc.AtStart?
    ensures SamePlans(s.c, EngineNext(s.c, s.pc, input).0)
  {
    match s.pc
    case AtDecide => DecidePlan(s.c, input);
    case AtCancel => CancelPlan(s.c, FlagSeen, input.now);
    case AtLoop =>
    case AtRaised(_) =>
    case AtRest(_) =>
    case _ => StepPlan(s.c, s.pc, input);
  }

  lemma CancelPlan(c: Case, why: Why, now: Time)
    ensures SamePlans(c, Cancel(c, why, now))
  {
    CancelShape(c, WithInput(c, MarkCancelled(c.ex.input, why, now)), Cancel(c, why, now), why, now);
  }

  lemma ApprovalPlan(c: Case, d: ApprovalDecision, approver: string, id: Id, now: Time)
    ensures SamePlans(c, Decided(c, d, approver, id, now).0)
  {
  }

  lemma BeginPlan(c: Case, input: Input)
    requires Unplanned(c.ex.status) ==> c.ex.planId.None?
    ensures var c' := Begin(c, input).0;
      && (Unplanned(c'.ex.status) ==> c'.ex.planId.None?)
      && (SamePlans(c, c') || c'.ex.planId.None? || PlannedNow(c', input))
  {
    if c.ex.status.Created? {
      InstantiatePlan(c.(ex := Enter(c.ex, Planning, input.now)), input);
    } else if c.ex.status.Planning? {
      InstantiatePlan(c, input);
    }
  }

  lemma InstantiatePlan(c: Case, input: Input)
    requires c.ex.planId.None?
    ensures var c' := Instantiate(c, input).0;
      if EdgesResolve(input.draft) then PlannedNow(c', input) && !Unplanned(c'.ex.status) else c'.ex.planId.None?
  {
  }

  lemma DecidePlan(c: Case, input: Input)
    ensures SamePlans(c, Decide(c, input).0)
  {
    FinishPlan(c, input);
  }

  lemma FinishPlan(c: Case, input: Input)
    ensures SamePlans(c, Finish(c, input).0)
  {
    if c.ex.workflow.IncidentTriage? && c.ctx.Some? {
      FinalizePlan(c, c.ctx.value, input);
    }
  }

  lemma FinalizePlan(c: Case, ctx: Context, input: Input)
    ensures SamePlans(c, Finalize(c, ctx, input))
  {
  }

  lemma StepPlan(c: Case, pc: Pc, input: Input)
    requires StepPc(pc)
    ensures SamePlans(c, EngineNext(c, pc, input).0)
  {
    match pc
    case AtStepBegin(sid) => assert BeginStep(c, sid, input.now).0.ex == c.ex;
    case AtStepStarted(_) =>
    case AtStepWork(sid) => WorkPlan(c, sid, input);
    case AtStepDone(sid) => EndPlan(c, sid, input.now);
  }

  lemma WorkPlan(c: Case, sid: Id, input: Input)
    ensures SamePlans(c, WorkOnStep(c, sid, input).0)
  {
  }

  lemma EndPlan(c: Case, sid: Id, now: Time)
    ensures SamePlans(c, CompleteStep(c, sid, now))
  {
    CompleteStepShape(c, sid, now);
  }

  /** The planning section at position `i` made the current plan. */
  ghost predicate PlannedAt(s: Sys, acts: seq<Action>, i: nat, draft: Draft) {
    && i < |acts| && Run(s, acts[..i]).pc.AtStart?
    && acts[i].Engine? && acts[i].input.draft == draft
  }

  lemma {:induction false} UnplannedHasNoPlan(s: Sys, acts: seq<Action>)
    requires Unplanned(s.c.ex.status) ==> s.c.ex.planId.None?
    ensures Unplanned(Run(s, acts).c.ex.status) ==> Run(s, acts).c.ex.planId.None?
    decreases |acts|
  {
    if acts != [] {
      PlanStep(s, acts[0]);
      UnplannedHasNoPlan(Apply(s, acts[0]), acts[1..]);
    }
  }

  /** The current plan is the answer of some planning section, and its edges resolve. */
  lemma {:induction false} CurrentPlan(s: Sys, acts: seq<Action>) returns (i: nat)
    requires Initial(s) && PlanResolves(Run(s, acts).c)
    ensures PlannedAt(s, acts, i, CurrentDraft(Run(s, acts).c))
    ensures EdgesResolve(CurrentDraft(Run(s, acts).c))
    decreases |acts|
  {
    var n := |acts| - 1;
    assert acts[..n + 1] == acts;
    RunSnoc(s, acts, n);
    UnplannedHasNoPlan(s, acts[..n]);
    var before := Run(s, acts[..n]);
    PlanStep(before, acts[n]);
    if PlanResolves(before.c) && CurrentDraft(before.c) == CurrentDraft(Run(s, acts).c) {
      i := CurrentPlan(s, acts[..n]);
      assert acts[..n][..i] == acts[..i];
    } else {
      i := n;
    }
  }

  // ---------------------------------------------------------------- the theorems

  /** No work raises in this run. */
  predicate WorkReturns(acts: seq<Action>) {
    forall a :: a in acts && a.Engine? ==> !a.input.report.Raises?
  }

  /** The engine raises, or has raised and stored, this error. */
  predicate Errs(s: Sys, reason: Reason) {
    s.pc == AtRaised(reason) || Stored(s.c, reason)
  }

  lemma ErrorsJustified(s: Sys, acts: seq<Action>, reason: Reason)
    requires Initial(s) && Errs(Run(s, acts), reason)
    ensures Justified(Run(s, acts).c, reason)
  {
    ErrorInitial(s);
    RunErrors(s, acts);
  }

  lemma NotAtStep(s: Sys, reason: Reason)
    requires ErrorInv(s) && Errs(s, reason)
    ensures forall sid :: !AtStep(s.pc, sid)
  {
  }

  lemma {:induction false} RunningAtError(s: Sys, acts: seq<Action>, reason: Reason) returns (i: nat, sid: Id)
    requires Initial(s) && Errs(Run(s, acts), reason) && HasRunning(Run(s, acts).c.steps)
    ensures RaisedAt(s, acts, i, sid)
  {
    ErrorInitial(s);
    RunErrors(s, acts);
    NotAtStep(Run(s, acts), reason);
    sid :| sid in Run(s, acts).c.steps && Run(s, acts).c.steps[sid].status.Running?;
    i := RunningOnlyIfRaised(s, acts, sid);
  }

  lemma NeverRaised(s: Sys, acts: seq<Action>, i: nat, sid: Id)
    requires WorkReturns(acts)
    ensures !RaisedAt(s, acts, i, sid)
  {
    assert i < |acts| ==> acts[i] in acts;
  }

  /** Over all runs of all plans, the engine has three errors: it never lacks a plan, a
      step or a context.  One of the three needs work that raised. */
  lemma ThreeErrors(s: Sys, acts: seq<Action>, reason: Reason)
    requires Initial(s) && Errs(Run(s, acts), reason)
    ensures reason.Deadlock? || reason.NotInValidating? || reason.UnexpectedSteps?
    ensures reason.UnexpectedSteps? ==> exists i: nat, sid :: RaisedAt(s, acts, i, sid)
  {
    ErrorsJustified(s, acts, reason);
    if HasRunning(Run(s, acts).c.steps) {
      var i, sid := RunningAtError(s, acts, reason);
    }
  }

  /** The error theorem.  In every run in which no work raises, interleaved with whatever
      the other actors do, the graph of the current plan decides which error there can be:
      the gate error if the plan runs to its end without opening the gate, the deadlock if
      it cannot run to its end, and none otherwise. */
  lemma GraphDecidesError(s: Sys, acts: seq<Action>, reason: Reason)
    requires Initial(s) && WorkReturns(acts) && Errs(Run(s, acts), reason)
    ensures var c := Run(s, acts).c; PlanResolves(c) && GraphReason(CurrentDraft(c), reason)
  {
    ErrorsJustified(s, acts, reason);
    if HasRunning(Run(s, acts).c.steps) {
      var i, sid := RunningAtError(s, acts, reason);
      NeverRaised(s, acts, i, sid);
    }
  }

  /** Over all such runs: the deadlock error exactly for cyclic plans, the gate error
      exactly for acyclic ones. */
  lemma CycleDecidesError(s: Sys, acts: seq<Action>, reason: Reason)
    requires Initial(s) && WorkReturns(acts) && Errs(Run(s, acts), reason)
    ensures PlanResolves(Run(s, acts).c)
    ensures reason == Deadlock <==> !Acyclic(CurrentDraft(Run(s, acts).c))
    ensures reason == NotInValidating <==> Acyclic(CurrentDraft(Run(s, acts).c))
  {
    GraphDecidesError(s, acts, reason);
    var i := CurrentPlan(s, acts);
    RunsEverythingIffAcyclic(CurrentDraft(Run(s, acts).c));
  }

  /** Over all runs, also those in which work raises, the gate error cannot fire for an
      acyclic plan with work in which some validation step depends, directly or not, on
      every work step; and where no work raises no error can. */
  lemma DependentValidationNeverErrs(s: Sys, acts: seq<Action>, v: string, reason: Reason)
    requires Initial(s) && PlanResolves(Run(s, acts).c)
    requires var draft := CurrentDraft(Run(s, acts).c);
      && Acyclic(draft) && PlansWork(draft) && IsCheck(draft, v)
      && forall k :: IsWork(draft, k) ==> DependsTransitively(draft, v, k)
    ensures !Errs(Run(s, acts), NotInValidating)
    ensures WorkReturns(acts) ==> !Errs(Run(s, acts), reason)
  {
    var draft := CurrentDraft(Run(s, acts).c);
    var i := CurrentPlan(s, acts);
    DependentValidationPasses(draft, v);
    RunsEverythingIffAcyclic(draft);
    if Errs(Run(s, acts), NotInValidating) {
      ErrorsJustified(s, acts, NotInValidating);
    }
    if WorkReturns(acts) && Errs(Run(s, acts), reason) {
      GraphDecidesError(s, acts, reason);
    }
  }

  predicate BuiltIn(workflow: Workflow, draft: Draft, keys: seq<string>) {
    && |keys| == |Planner.Kinds(workflow)| && NoDuplicates(keys)
    && draft == Planner.CreatePlan(workflow, keys)
  }

  /** Every planning section of the run gives a built-in plan of the workflow. */
  ghost predicate PlansBuiltIn(s: Sys, acts: seq<Action>) {
    forall i, draft :: PlannedAt(s, acts, i, draft) ==> exists keys :: BuiltIn(s.c.ex.workflow, draft, keys)
  }

  /** With the built-in planner no engine error ever fires, whatever its fresh keys and
      whatever the other actors do, unless the work of a step raises. */
  lemma BuiltInNeverErrs(s: Sys, acts: seq<Action>, reason: Reason)
    requires Initial(s) && WorkReturns(acts) && PlansBuiltIn(s, acts)
    ensures !Errs(Run(s, acts), reason)
  {
    if Errs(Run(s, acts), reason) {
      GraphDecidesError(s, acts, reason);
      var draft := CurrentDraft(Run(s, acts).c);
      var i := CurrentPlan(s, acts);
      assert PlannedAt(s, acts, i, draft);
      var keys :| BuiltIn(s.c.ex.workflow, draft, keys);
      Planner.BuiltInPlansPass(s.c.ex.workflow, keys);
    }
  }
}
