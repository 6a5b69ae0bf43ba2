/** An uninterrupted run of the engine over an arbitrary plan: which steps it runs, in
    which order, and where it ends. */
module SerialRun {
  import opened StateMachine
  import opened Records
  import opened RuntimeMeta
  import opened Timeline
  import opened Lifecycle
  import opened Safety
  import opened Effects
  import opened Theorems
  import opened Scheduling
  import Policy

  // ---------------------------------------------------------------- stored steps against the plan

  ghost predicate HasKey(steps: map<Id, Step>, sid: Id, key: string) {
    sid in steps && steps[sid].key == key
  }

  /** The stored dependencies of a step are the steps of the keys its own key depends on. */
  ghost predicate DepsMatch(steps: map<Id, Step>, draft: Draft, sid: Id)
    requires sid in steps
  {
    && (forall d :: d in steps[sid].dependencies ==>
          d in steps && steps[d].key in DependsOn(draft, steps[sid].key))
    && (forall k :: k in DependsOn(draft, steps[sid].key) ==>
          exists d :: d in steps[sid].dependencies && HasKey(steps, d, k))
  }

  ghost predicate StepMatches(steps: map<Id, Step>, draft: Draft, sid: Id)
    requires sid in steps
  {
    && steps[sid].key in Keys(draft.specs)
    && steps[sid].stepType == TypeOfKey(draft, steps[sid].key)
    && DepsMatch(steps, draft, sid)
  }

  ghost predicate StepsMatch(steps: map<Id, Step>, draft: Draft) {
    && UniqueKeys(steps)
    && (forall sid :: sid in steps ==> StepMatches(steps, draft, sid))
    && (forall k :: k in Keys(draft.specs) ==> exists sid :: HasKey(steps, sid, k))
  }

  lemma LastIndexUnique(specs: seq<Spec>, i: nat)
    requires Survives(specs, i)
    ensures specs[i].key in Keys(specs) && LastIndex(specs, specs[i].key) == i
  {
  }

  lemma NewStepDepends(draft: Draft, execId: Id, planId: Id, now: Time, key: string, ds: seq<Id>)
    requires EdgesResolve(draft) && key in Keys(draft.specs)
    requires ds == Dependencies(draft, planId, draft.edges, key)
    ensures var steps := NewSteps(draft, execId, planId, now);
      forall d :: d in ds ==> d in steps && steps[d].key in DependsOn(draft, key)
  {
    var steps := NewSteps(draft, execId, planId, now);
    forall d | d in ds ensures d in steps && steps[d].key in DependsOn(draft, key) {
      var e :| e in draft.edges && e.to == key && d == StepId(draft, planId, e.from);
      KeyStored(draft, execId, planId, now, e.from);
    }
  }

  lemma NewStepFinds(draft: Draft, execId: Id, planId: Id, now: Time, key: string, ds: seq<Id>)
    requires EdgesResolve(draft) && key in Keys(draft.specs)
    requires ds == Dependencies(draft, planId, draft.edges, key)
    ensures forall k :: k in DependsOn(draft, key) ==>
      exists d :: d in ds && HasKey(NewSteps(draft, execId, planId, now), d, k)
  {
    var steps := NewSteps(draft, execId, planId, now);
    forall k | k in DependsOn(draft, key) ensures exists d :: d in ds && HasKey(steps, d, k) {
      var e :| e in draft.edges && e.to == key && e.from == k;
      KeyStored(draft, execId, planId, now, k);
      assert StepId(draft, planId, e.from) in ds;
      assert HasKey(steps, StepId(draft, planId, k), k);
    }
  }

  lemma NewStepMatches(draft: Draft, execId: Id, planId: Id, now: Time, sid: Id)
    requires EdgesResolve(draft) && sid in NewSteps(draft, execId, planId, now)
    ensures StepMatches(NewSteps(draft, execId, planId, now), draft, sid)
  {
    var step := NewSteps(draft, execId, planId, now)[sid];
    LastIndexUnique(draft.specs, sid - planId - 1);
    NewStepDepends(draft, execId, planId, now, step.key, step.dependencies);
    NewStepFinds(draft, execId, planId, now, step.key, step.dependencies);
  }

  /** Every key of the plan gets a step, under the id of its last spec. */
  lemma KeyStored(draft: Draft, execId: Id, planId: Id, now: Time, key: string)
    requires EdgesResolve(draft) && key in Keys(draft.specs)
    ensures HasKey(NewSteps(draft, execId, planId, now), StepId(draft, planId, key), key)
  {
    var i := LastIndex(draft.specs, key);
    assert Survives(draft.specs, i);
    assert SurvivingId(draft, planId, planId + 1 + i);
  }

  lemma NewStepsMatch(draft: Draft, execId: Id, planId: Id, now: Time)
    requires EdgesResolve(draft)
    ensures StepsMatch(NewSteps(draft, execId, planId, now), draft)
  {
    var steps := NewSteps(draft, execId, planId, now);
    StepIds(draft, execId, planId, now);
    forall sid | sid in steps ensures StepMatches(steps, draft, sid) {
      NewStepMatches(draft, execId, planId, now, sid);
    }
    forall k | k in Keys(draft.specs) ensures exists sid :: HasKey(steps, sid, k) {
      KeyStored(draft, execId, planId, now, k);
    }
  }

  predicate SameStatics(a: map<Id, Step>, b: map<Id, Step>) {
    a.Keys == b.Keys
    && forall sid :: sid in a ==>
         b[sid].key == a[sid].key && b[sid].stepType == a[sid].stepType
         && b[sid].dependencies == a[sid].dependencies
  }

  lemma MatchKeptAt(a: map<Id, Step>, b: map<Id, Step>, draft: Draft, sid: Id)
    requires sid in a && StepMatches(a, draft, sid) && SameStatics(a, b)
    ensures StepMatches(b, draft, sid)
  {
    forall k | k in DependsOn(draft, b[sid].key)
      ensures exists d :: d in b[sid].dependencies && HasKey(b, d, k)
    {
      var d :| d in a[sid].dependencies && HasKey(a, d, k);
      assert HasKey(b, d, k);
    }
  }

  lemma MatchKept(a: map<Id, Step>, b: map<Id, Step>, draft: Draft)
    requires StepsMatch(a, draft) && SameStatics(a, b)
    ensures StepsMatch(b, draft)
  {
    forall sid | sid in b ensures StepMatches(b, draft, sid) {
      MatchKeptAt(a, b, draft, sid);
    }
    forall k | k in Keys(draft.specs) ensures exists sid :: HasKey(b, sid, k) {
      var sid :| HasKey(a, sid, k);
      assert HasKey(b, sid, k);
    }
  }

  // ---------------------------------------------------------------- the stored choice is the greedy one

  /** Between steps, with exactly the keys in `done` behind. */
  predicate DoneAre(steps: map<Id, Step>, done: seq<string>) {
    forall sid :: sid in steps ==>
      && (steps[sid].status.Pending? <==> steps[sid].key !in done)
      && (steps[sid].status.Succeeded? <==> steps[sid].key in done)
  }

  lemma ReadyIsKeyReady(steps: map<Id, Step>, draft: Draft, done: seq<string>, sid: Id)
    requires StepsMatch(steps, draft) && DoneAre(steps, done) && sid in steps
    ensures Ready(steps, sid) <==> KeyReady(draft, Elements(done), steps[sid].key)
  {
    assert StepMatches(steps, draft, sid);
    if Ready(steps, sid) {
      forall k | k in DependsOn(draft, steps[sid].key) ensures k in Elements(done) {
        var d :| d in steps[sid].dependencies && HasKey(steps, d, k);
      }
    }
  }

  /** Whatever order the store lists steps in, the next step is the one of the next key. */
  lemma {:induction false} NextReadyIsNextKey(specs: seq<Spec>, steps: map<Id, Step>, draft: Draft, done: seq<string>)
    requires StepsMatch(steps, draft) && DoneAre(steps, done) && Keys(specs) <= Keys(draft.specs)
    ensures var r := NextReady(specs, steps); var k := NextKey(draft, specs, Elements(done));
      && (r.Some? <==> k.Some?)
      && (r.Some? ==> HasKey(steps, r.value, k.value))
  {
    if specs != [] {
      var key := specs[0].key;
      assert key in Keys(specs);
      assert Keys(specs[1..]) <= Keys(specs);
      var sid :| HasKey(steps, sid, key);
      ReadyIsKeyReady(steps, draft, done, sid);
      if KeyReady(draft, Elements(done), key) {
        assert ReadyWithKey(steps, key, sid);
      } else {
        forall t ensures !ReadyWithKey(steps, key, t) {
          assert HasKey(steps, t, key) ==> t == sid;
        }
        NextReadyIsNextKey(specs[1..], steps, draft, done);
      }
    }
  }

  lemma WorkIsPlanned(steps: map<Id, Step>, draft: Draft)
    requires StepsMatch(steps, draft)
    ensures HasWork(steps) <==> PlansWork(draft)
  {
    if sid :| sid in steps && steps[sid].stepType.WorkStep? {
      assert StepMatches(steps, draft, sid);
      assert IsWork(draft, steps[sid].key);
    }
    if k :| k in Keys(draft.specs) && IsWork(draft, k) {
      var sid :| HasKey(steps, sid, k);
      assert StepMatches(steps, draft, sid);
    }
  }

  lemma WorkDone(steps: map<Id, Step>, draft: Draft, done: seq<string>)
    requires StepsMatch(steps, draft) && DoneAre(steps, done)
    ensures WorkSucceeded(steps) <==> (forall k :: k in Keys(draft.specs) && IsWork(draft, k) ==> k in done)
  {
    forall k | k in Keys(draft.specs) && IsWork(draft, k) && WorkSucceeded(steps) ensures k in done {
      var sid :| HasKey(steps, sid, k);
      assert StepMatches(steps, draft, sid);
    }
    forall sid | sid in steps && steps[sid].stepType.WorkStep?
      ensures IsWork(draft, steps[sid].key)
    {
      assert StepMatches(steps, draft, sid);
    }
  }

  lemma CheckPending(steps: map<Id, Step>, draft: Draft, done: seq<string>)
    requires StepsMatch(steps, draft) && DoneAre(steps, done)
    ensures HasPendingValidation(steps) <==>
      exists k :: k in Keys(draft.specs) && IsCheck(draft, k) && k !in done
  {
    if k :| k in Keys(draft.specs) && IsCheck(draft, k) && k !in done {
      var sid :| HasKey(steps, sid, k);
      assert StepMatches(steps, draft, sid);
    }
    if sid :| sid in steps && steps[sid].stepType.ValidationStep? && steps[sid].status.Pending? {
      assert StepMatches(steps, draft, sid);
      assert IsCheck(draft, steps[sid].key);
    }
  }

  lemma GateIsOpensAt(steps: map<Id, Step>, draft: Draft, done: seq<string>)
    requires StepsMatch(steps, draft) && DoneAre(steps, done)
    ensures GateOpens(steps) <==> OpensAt(draft, done)
  {
    WorkIsPlanned(steps, draft);
    WorkDone(steps, draft, done);
    CheckPending(steps, draft, done);
  }

  // ---------------------------------------------------------------- the invariant of a serial run

  /** The first `n` started steps carry the first `n` keys done. */
  ghost predicate StartedAre(c: Case, done: seq<string>, n: nat) {
    var started := StartedSteps(c.ex.timeline);
    && |started| == n <= |done|
    && forall i :: 0 <= i < n ==> HasKey(c.steps, started[i], done[i])
  }

  /** The gate has been opened exactly if one of the loop heads so far opened it. */
  predicate GateSeen(c: Case, draft: Draft, done: seq<string>, n: int) {
    && (c.ex.status.Executing? || c.ex.status.Validating?)
    && (c.ex.status.Validating? <==> OpensWithin(draft, done, n))
  }

  predicate OnSchedule(draft: Draft, done: seq<string>) {
    ScheduleFrom(draft, done) == Schedule(draft) && Elements(done) <= Keys(draft.specs)
  }

  ghost predicate PlanIs(c: Case, draft: Draft) {
    PlanResolves(c) && c.plans[c.ex.planId.value].draft == draft && StepsMatch(c.steps, draft)
  }

  /** Step `sid` is under way: it carries the last key, everything before it succeeded. */
  predicate UnderWay(c: Case, done: seq<string>, sid: Id) {
    && done != [] && sid in c.steps && c.steps[sid].key == done[|done| - 1]
    && c.steps[sid].key !in done[..|done| - 1]
    && !c.steps[sid].status.Pending?
    && forall t :: t in c.steps && t != sid ==>
         && (c.steps[t].status.Pending? <==> c.steps[t].key !in done)
         && (c.steps[t].status.Succeeded? <==> c.steps[t].key in done)
  }

  ghost predicate Running(c: Case, pc: Pc, draft: Draft, done: seq<string>) {
    var n := |done|;
    && !CancellationRequested(c.ex.input)
    && PlanIs(c, draft) && OnSchedule(draft, done)
    && match pc
       case AtLoop => DoneAre(c.steps, done) && GateSeen(c, draft, done, n - 1) && StartedAre(c, done, n)
       case AtDecide => DoneAre(c.steps, done) && GateSeen(c, draft, done, n) && StartedAre(c, done, n)
       case AtStepBegin(sid) =>
         && DoneAre(c.steps, done) && GateSeen(c, draft, done, n) && StartedAre(c, done, n)
         && NextKey(draft, draft.specs, Elements(done)).Some?
         && HasKey(c.steps, sid, NextKey(draft, draft.specs, Elements(done)).value)
       case AtStepStarted(sid) =>
         UnderWay(c, done, sid) && GateSeen(c, draft, done, n - 1) && StartedAre(c, done, n - 1)
       case AtStepWork(sid) =>
         UnderWay(c, done, sid) && GateSeen(c, draft, done, n - 1) && StartedAre(c, done, n)
       case AtStepDone(sid) =>
         UnderWay(c, done, sid) && GateSeen(c, draft, done, n - 1) && StartedAre(c, done, n)
       case AtRaised(reason) =>
         && DoneAre(c.steps, done) && GateSeen(c, draft, done, n) && StartedAre(c, done, n)
         && done == Schedule(draft) && GraphReason(draft, reason)
       case _ => false
  }

  predicate FailedWith(ex: Execution, reason: Reason) {
    ex.status.Failed? && ex.result.Some? && ex.result.value.reason == Some(reason)
  }

  /** Where an uninterrupted run ends, read off the plan, the workflow and the context. */
  predicate EndsAsPlanned(c: Case, draft: Draft) {
    if !RunsEverything(draft) then FailedWith(c.ex, Deadlock)
    else if !PassesGate(draft) then FailedWith(c.ex, NotInValidating)
    else if !c.ex.workflow.IncidentTriage? then c.ex.status.Completed?
    else
      c.ctx.Some? &&
      match Policy.Decision(c.ctx.value, EscalateIncident)
      case Deny => c.ex.status.Failed? && c.ex.result.Some? && c.ex.result.value.reason.None?
      case Allow => c.ex.status.Completed?
      case Conditional => c.ex.status.AwaitingApproval?
  }

  ghost predicate Ended(c: Case, draft: Draft) {
    var order := Schedule(draft);
    && EndsAsPlanned(c, draft)
    && StepsMatch(c.steps, draft)
    && StartedAre(c, order, |order|)
    && DoneAre(c.steps, order)
  }

  // ---------------------------------------------------------------- it is kept

  lemma BeginRuns(c: Case, input: Input)
    requires Fresh(c) && !CancellationRequested(c.ex.input) && EdgesResolve(input.draft)
    ensures var (c', pc') := Begin(c, input); Running(c', pc', input.draft, []) && pc' == AtLoop
  {
    var c' := Begin(c, input).0;
    var draft := input.draft;
    BeginPlans(c, input);
    NewStepsMatch(draft, c.ex.executionId, input.newId, input.now);
    NothingDone(c'.steps, draft, c.ex.executionId, input.newId, input.now);
    NothingStarted(c, input);
    RunningAtFirst(c', draft);
  }

  lemma BeginPlans(c: Case, input: Input)
    requires Fresh(c) && EdgesResolve(input.draft)
    ensures var (c', pc') := Begin(c, input);
      && pc' == AtLoop && c'.ex.status.Executing? && c'.ex.input == c.ex.input
      && PlanResolves(c') && c'.plans[c'.ex.planId.value].draft == input.draft
      && c'.steps == NewSteps(input.draft, c.ex.executionId, input.newId, input.now)
  {
    BeginEffect(c, input);
    assert c.steps + NewSteps(input.draft, c.ex.executionId, input.newId, input.now)
        == NewSteps(input.draft, c.ex.executionId, input.newId, input.now);
  }

  lemma RunningAtFirst(c: Case, draft: Draft)
    requires !CancellationRequested(c.ex.input) && c.ex.status.Executing?
    requires PlanIs(c, draft) && DoneAre(c.steps, []) && StartedSteps(c.ex.timeline) == []
    ensures Running(c, AtLoop, draft, [])
  {
  }

  lemma NothingStarted(c: Case, input: Input)
    requires Fresh(c) && EdgesResolve(input.draft)
    ensures StartedSteps(Begin(c, input).0.ex.timeline) == []
  {
    var e1 := Enter(c.ex, Planning, input.now);
    QuietRows(c.ex.timeline);
    AppendKeeps(c.ex, StatusRow(Planning), input.now);
    AppendKeeps(e1.(planId := Some(input.newId)), StatusRow(Executing), input.now);
  }

  lemma NothingDone(steps: map<Id, Step>, draft: Draft, execId: Id, planId: Id, now: Time)
    requires EdgesResolve(draft) && steps == NewSteps(draft, execId, planId, now)
    ensures DoneAre(steps, [])
  {
    StepIds(draft, execId, planId, now);
  }

  lemma HeadStatus(c: Case, draft: Draft, done: seq<string>, now: Time)
    requires StepsMatch(c.steps, draft) && DoneAre(c.steps, done) && GateSeen(c, draft, done, |done| - 1)
    requires PlanResolves(c) && !CancellationRequested(c.ex.input)
    ensures var (c', pc') := LoopHead(c, now);
      && pc' == AtDecide && GateSeen(c', draft, done, |done|)
      && c'.steps == c.steps && c'.plans == c.plans && c'.ex.planId == c.ex.planId
      && c'.ex.input == c.ex.input && StartedSteps(c'.ex.timeline) == StartedSteps(c.ex.timeline)
  {
    GateIsOpensAt(c.steps, draft, done);
    OpensOneMore(draft, done);
    HeadMoves(c, now);
  }

  /** The loop head enters `Validating` when the gate opens and changes nothing else. */
  lemma HeadMoves(c: Case, now: Time)
    requires c.ex.status.Executing? || c.ex.status.Validating?
    requires PlanResolves(c) && !CancellationRequested(c.ex.input)
    ensures var (c', pc') := LoopHead(c, now);
      && pc' == AtDecide && c'.ex.status == (if GateOpens(c.steps) then Validating else c.ex.status)
      && c'.steps == c.steps && c'.plans == c.plans && c'.ex.planId == c.ex.planId
      && c'.ex.input == c.ex.input && StartedSteps(c'.ex.timeline) == StartedSteps(c.ex.timeline)
  {
    AppendKeeps(c.ex, StatusRow(Validating), now);
  }

  lemma LoopHeadRuns(c: Case, draft: Draft, done: seq<string>, now: Time)
    requires Running(c, AtLoop, draft, done)
    ensures var (c', pc') := LoopHead(c, now); Running(c', pc', draft, done)
  {
    HeadStatus(c, draft, done, now);
    DecideAfterHead(c, LoopHead(c, now).0, draft, done);
  }

  lemma DecideAfterHead(c: Case, c': Case, draft: Draft, done: seq<string>)
    requires Running(c, AtLoop, draft, done)
    requires c'.steps == c.steps && c'.plans == c.plans && c'.ex.planId == c.ex.planId
    requires c'.ex.input == c.ex.input && StartedSteps(c'.ex.timeline) == StartedSteps(c.ex.timeline)
    requires GateSeen(c', draft, done, |done|)
    ensures Running(c', AtDecide, draft, done)
  {
    StartedKept(c, c', done, |done|);
  }

  lemma OpensOneMore(draft: Draft, done: seq<string>)
    ensures OpensWithin(draft, done, |done|) <==> OpensWithin(draft, done, |done| - 1) || OpensAt(draft, done)
  {
    assert done[..|done|] == done;
  }

  lemma EverythingDone(steps: map<Id, Step>, draft: Draft, done: seq<string>)
    requires StepsMatch(steps, draft) && DoneAre(steps, done) && Elements(done) <= Keys(draft.specs)
    ensures AllSucceeded(steps) <==> Elements(done) == Keys(draft.specs)
    ensures HasPending(steps) <==> Elements(done) != Keys(draft.specs)
  {
    if Elements(done) == Keys(draft.specs) {
      forall sid | sid in steps ensures steps[sid].key in done {
        assert StepMatches(steps, draft, sid);
        assert steps[sid].key in Elements(done);
      }
    } else {
      var k :| k in Keys(draft.specs) && k !in Elements(done);
      var sid :| HasKey(steps, sid, k);
    }
  }

  lemma NextIsChosen(c: Case, draft: Draft, done: seq<string>)
    requires Running(c, AtDecide, draft, done) && NextReady(draft.specs, c.steps).Some?
    ensures Running(c, AtStepBegin(NextReady(draft.specs, c.steps).value), draft, done)
  {
    NextReadyIsNextKey(draft.specs, c.steps, draft, done);
  }

  lemma ErrorIsRaised(c: Case, draft: Draft, done: seq<string>, reason: Reason)
    requires Running(c, AtDecide, draft, done) && done == Schedule(draft) && GraphReason(draft, reason)
    ensures Running(c, AtRaised(reason), draft, done)
  {
  }

  lemma DecidesOn(c: Case, draft: Draft, done: seq<string>)
    requires Running(c, AtDecide, draft, done)
    ensures PlanResolves(c) && c.plans[c.ex.planId.value].draft == draft
    ensures c.ex.status.Executing? || c.ex.status.Validating?
    ensures StepsMatch(c.steps, draft) && DoneAre(c.steps, done) && StartedAre(c, done, |done|)
  {
  }

  lemma DecideRuns(c: Case, draft: Draft, done: seq<string>, input: Input)
    requires Running(c, AtDecide, draft, done) && c.ctx.Some? && TimelineInv(c.ex)
    ensures var (c', pc') := Decide(c, input);
      if pc'.AtRest? then pc' == AtRest(false) && Ended(c', draft) else Running(c', pc', draft, done)
  {
    DecidesOn(c, draft, done);
    var next := NextReady(draft.specs, c.steps);
    if next.Some? {
      NextIsChosen(c, draft, done);
      assert Decide(c, input) == (c, AtStepBegin(next.value));
    } else {
      NothingLeftRuns(c, draft, done, input);
    }
  }

  lemma NothingLeftRuns(c: Case, draft: Draft, done: seq<string>, input: Input)
    requires Running(c, AtDecide, draft, done) && c.ctx.Some? && TimelineInv(c.ex)
    requires NextReady(draft.specs, c.steps).None?
    ensures var (c', pc') := Decide(c, input);
      if pc'.AtRest? then pc' == AtRest(false) && Ended(c', draft) else Running(c', pc', draft, done)
  {
    DecidesOn(c, draft, done);
    NothingLeft(c, draft, done);
    if RunsEverything(draft) && PassesGate(draft) {
      FinishEnds(c, draft, input);
      assert Decide(c, input) == Finish(c, input);
    } else {
      var reason := if RunsEverything(draft) then NotInValidating else Deadlock;
      ErrorIsRaised(c, draft, done, reason);
      assert Decide(c, input) == (c, AtRaised(reason));
    }
  }

  lemma NothingLeft(c: Case, draft: Draft, done: seq<string>)
    requires Running(c, AtDecide, draft, done) && NextReady(draft.specs, c.steps).None?
    ensures done == Schedule(draft)
    ensures (RunsEverything(draft) <==> AllSucceeded(c.steps)) && (RunsEverything(draft) <==> !HasPending(c.steps))
    ensures PassesGate(draft) <==> c.ex.status.Validating?
  {
    NextReadyIsNextKey(draft.specs, c.steps, draft, done);
    EverythingDone(c.steps, draft, done);
  }

  lemma FinishEnds(c: Case, draft: Draft, input: Input)
    requires RunsEverything(draft) && PassesGate(draft) && StepsMatch(c.steps, draft)
    requires StartedAre(c, Schedule(draft), |Schedule(draft)|) && DoneAre(c.steps, Schedule(draft))
    requires c.ctx.Some? && TimelineInv(c.ex) && c.ex.status.Validating?
    ensures var (c', pc') := Finish(c, input); pc' == AtRest(false) && Ended(c', draft)
  {
    FinishStarted(c, input);
    FinishOutcome(c, draft, input);
    EndedFrom(c, Finish(c, input).0, draft);
  }

  lemma EndedFrom(c: Case, c': Case, draft: Draft)
    requires StepsMatch(c.steps, draft) && DoneAre(c.steps, Schedule(draft))
    requires StartedAre(c, Schedule(draft), |Schedule(draft)|)
    requires c'.steps == c.steps && StartedSteps(c'.ex.timeline) == StartedSteps(c.ex.timeline)
    requires EndsAsPlanned(c', draft)
    ensures Ended(c', draft)
  {
    StartedKept(c, c', Schedule(draft), |Schedule(draft)|);
  }

  lemma FinishStarted(c: Case, input: Input)
    requires c.ctx.Some? && TimelineInv(c.ex) && c.ex.status.Validating?
    ensures StartedSteps(Finish(c, input).0.ex.timeline) == StartedSteps(c.ex.timeline)
  {
    if c.ex.workflow.IncidentTriage? {
      FinalizeTimeline(c, input);
    } else {
      AppendKeeps(c.ex, StatusRow(Completed), input.now);
    }
  }

  lemma FinishOutcome(c: Case, draft: Draft, input: Input)
    requires RunsEverything(draft) && PassesGate(draft) && c.ctx.Some?
    ensures var (c', pc') := Finish(c, input);
      pc' == AtRest(false) && c'.steps == c.steps && EndsAsPlanned(c', draft)
  {
    var c' := Finish(c, input).0;
    if c.ex.workflow.IncidentTriage? {
      assert c'.ctx == c.ctx && c'.ex.workflow.IncidentTriage?;
      match Policy.Decision(c.ctx.value, EscalateIncident) {
        case Deny => assert c'.ex.status.Failed?;
        case Allow => assert c'.ex.status.Completed?;
        case Conditional => assert c'.ex.status.AwaitingApproval?;
      }
    } else {
      assert c'.ex.status.Completed? && !c'.ex.workflow.IncidentTriage?;
    }
  }

  lemma StartedKept(c: Case, c': Case, done: seq<string>, n: nat)
    requires StartedAre(c, done, n)
    requires SameStatics(c.steps, c'.steps)
    requires StartedSteps(c'.ex.timeline) == StartedSteps(c.ex.timeline)
    ensures StartedAre(c', done, n)
  {
    var started := StartedSteps(c.ex.timeline);
    forall i | 0 <= i < n ensures HasKey(c'.steps, started[i], done[i]) {
      assert HasKey(c.steps, started[i], done[i]);
    }
  }

  lemma BeginStepRuns(c: Case, c': Case, draft: Draft, done: seq<string>, sid: Id)
    requires Running(c, AtStepBegin(sid), draft, done)
    requires sid in c.steps && c.steps[sid].status.Pending?
    requires c'.ex == c.ex && c'.plans == c.plans && SameStatics(c.steps, c'.steps)
    requires !c'.steps[sid].status.Pending?
    requires forall t :: t in c.steps && t != sid ==> c'.steps[t] == c.steps[t]
    ensures Running(c', AtStepStarted(sid), draft, done + [c.steps[sid].key])
  {
    var key := c.steps[sid].key;
    var more := done + [key];
    MatchKept(c.steps, c'.steps, draft);
    NextOnSchedule(draft, done, key);
    StepsUnderWay(c, c', done, sid);
    StartedKept(c, c', done, |done|);
    assert StartedAre(c', more, |done|);
    OpensWithinPrefix(draft, done, more);
    assert GateSeen(c', draft, more, |more| - 1);
  }

  lemma NextOnSchedule(draft: Draft, done: seq<string>, key: string)
    requires OnSchedule(draft, done) && NextKey(draft, draft.specs, Elements(done)) == Some(key)
    ensures OnSchedule(draft, done + [key])
  {
    assert Elements(done + [key]) == Elements(done) + {key};
  }

  lemma StepsUnderWay(c: Case, c': Case, done: seq<string>, sid: Id)
    requires DoneAre(c.steps, done) && sid in c.steps && UniqueKeys(c.steps)
    requires c.steps[sid].status.Pending?
    requires SameStatics(c.steps, c'.steps) && !c'.steps[sid].status.Pending?
    requires forall t :: t in c.steps && t != sid ==> c'.steps[t] == c.steps[t]
    ensures UnderWay(c', done + [c.steps[sid].key], sid)
  {
    var more := done + [c.steps[sid].key];
    assert more[..|done|] == done;
  }

  lemma OpensWithinPrefix(draft: Draft, done: seq<string>, more: seq<string>)
    requires done <= more
    ensures OpensWithin(draft, done, |done|) <==> OpensWithin(draft, more, |done|)
  {
    forall i | 0 <= i <= |done| ensures done[..i] == more[..i] {}
    if i :| 0 <= i <= |done| && OpensAt(draft, done[..i]) {
      assert OpensAt(draft, more[..i]);
    }
    if i :| 0 <= i <= |done| && OpensAt(draft, more[..i]) {
      assert OpensAt(draft, done[..i]);
    }
  }

  lemma StartedRuns(c: Case, draft: Draft, done: seq<string>, sid: Id, now: Time)
    requires Running(c, AtStepStarted(sid), draft, done)
    ensures Running(c.(ex := Append(c.ex, StepStarted(sid), now)), AtStepWork(sid), draft, done)
  {
    var c' := c.(ex := Append(c.ex, StepStarted(sid), now));
    Snoc(c.ex.timeline, Row(now, StepStarted(sid)));
    assert StartedSteps(c'.ex.timeline) == StartedSteps(c.ex.timeline) + [sid];
    StartedOneMore(c, c', done, sid);
  }

  lemma StartedOneMore(c: Case, c': Case, done: seq<string>, sid: Id)
    requires UnderWay(c, done, sid) && StartedAre(c, done, |done| - 1) && c'.steps == c.steps
    requires StartedSteps(c'.ex.timeline) == StartedSteps(c.ex.timeline) + [sid]
    ensures StartedAre(c', done, |done|)
  {
    var started := StartedSteps(c.ex.timeline);
    forall i | 0 <= i < |done| ensures HasKey(c'.steps, (started + [sid])[i], done[i]) {
      if i < |done| - 1 {
        assert HasKey(c.steps, started[i], done[i]);
      }
    }
  }

  lemma TraceRuns(c: Case, draft: Draft, done: seq<string>, sid: Id, kind: WorkKind, now: Time)
    requires Running(c, AtStepWork(sid), draft, done)
    ensures Running(c.(ex := Append(c.ex, StepTrace(sid, kind), now)), AtStepWork(sid), draft, done)
  {
    AppendKeeps(c.ex, StepTrace(sid, kind), now);
  }

  /** Only the state of step `sid` moved on, and maybe a result was stored. */
  ghost predicate OneStepMoved(c: Case, c': Case, sid: Id) {
    && c'.ex == c.ex && c'.plans == c.plans && SameStatics(c.steps, c'.steps)
    && sid in c'.steps && !c'.steps[sid].status.Pending?
    && (forall t :: t in c.steps && t != sid ==> c'.steps[t] == c.steps[t])
  }

  lemma SucceedRuns(c: Case, c': Case, draft: Draft, done: seq<string>, sid: Id)
    requires Running(c, AtStepWork(sid), draft, done) && OneStepMoved(c, c', sid)
    ensures Running(c', AtStepDone(sid), draft, done)
  {
    MatchKept(c.steps, c'.steps, draft);
    StartedKept(c, c', done, |done|);
    assert UnderWay(c', done, sid);
  }

  lemma CompleteStepRuns(c: Case, c': Case, draft: Draft, done: seq<string>, sid: Id)
    requires Running(c, AtStepDone(sid), draft, done) && DoneAre(c.steps, done)
    requires c'.steps == c.steps && c'.plans == c.plans && c'.ex.planId == c.ex.planId
    requires c'.ex.status == c.ex.status && c'.ex.input == c.ex.input
    requires StartedSteps(c'.ex.timeline) == StartedSteps(c.ex.timeline)
    ensures Running(c', AtLoop, draft, done)
  {
    StartedKept(c, c', done, |done|);
  }

  lemma CompleteStepRows(c: Case, sid: Id, now: Time)
    ensures StartedSteps(CompleteStep(c, sid, now).ex.timeline) == StartedSteps(c.ex.timeline)
  {
    Snoc(c.ex.timeline, Row(now, StepCompleted(sid)));
    AppendKeeps(Append(c.ex, StepCompleted(sid), now), ValidationPerformed(sid), now);
  }

  lemma AllDone(c: Case, done: seq<string>, sid: Id)
    requires UnderWay(c, done, sid) && sid in c.steps && c.steps[sid].status.Succeeded?
    ensures DoneAre(c.steps, done)
  {
  }

  /** The reason the graph of a plan gives for an error. */
  predicate GraphReason(draft: Draft, reason: Reason) {
    if RunsEverything(draft) then reason == NotInValidating && !PassesGate(draft) else reason == Deadlock
  }

  lemma RaisedIn(c: Case, draft: Draft, done: seq<string>, reason: Reason)
    requires Running(c, AtRaised(reason), draft, done)
    ensures StepsMatch(c.steps, draft) && DoneAre(c.steps, Schedule(draft))
    ensures StartedAre(c, Schedule(draft), |Schedule(draft)|) && GraphReason(draft, reason)
    ensures c.ex.status.Executing? || c.ex.status.Validating?
  {
  }

  lemma FailOutcome(c: Case, draft: Draft, reason: Reason, now: Time)
    requires GraphReason(draft, reason) && (c.ex.status.Executing? || c.ex.status.Validating?)
    ensures EndsAsPlanned(Fail(c, reason, now), draft) && Fail(c, reason, now).steps == c.steps
    ensures StartedSteps(Fail(c, reason, now).ex.timeline) == StartedSteps(c.ex.timeline)
  {
    AppendKeeps(c.ex, StatusRow(Failed), now);
  }

  lemma FailEnds(c: Case, draft: Draft, done: seq<string>, reason: Reason, now: Time)
    requires Running(c, AtRaised(reason), draft, done)
    ensures Ended(Fail(c, reason, now), draft)
  {
    RaisedIn(c, draft, done, reason);
    FailOutcome(c, draft, reason, now);
    EndedFrom(c, Fail(c, reason, now), draft);
  }

  ghost predicate RunningOrEnded(s: Sys, draft: Draft) {
    || (exists done :: Running(s.c, s.pc, draft, done))
    || (s.pc == AtRest(false) && Ended(s.c, draft))
  }

  lemma StepDoneRuns(s: Sys, draft: Draft, done: seq<string>, sid: Id, now: Time)
    requires Running(s.c, s.pc, draft, done) && Inv(s) && s.pc == AtStepDone(sid)
    ensures Running(CompleteStep(s.c, sid, now), AtLoop, draft, done)
  {
    assert DoneAre(s.c.steps, done) by {
      UnderWayIn(s.c, draft, done, sid);
      StepIsDone(s, sid);
      AllDone(s.c, done, sid);
    }
    CompleteStepRows(s.c, sid, now);
    CompleteStepRest(s.c, sid, now);
    CompleteStepRuns(s.c, CompleteStep(s.c, sid, now), draft, done, sid);
  }

  lemma UnderWayIn(c: Case, draft: Draft, done: seq<string>, sid: Id)
    requires Running(c, AtStepDone(sid), draft, done)
    ensures UnderWay(c, done, sid)
  {
  }

  lemma StepIsDone(s: Sys, sid: Id)
    requires Inv(s) && s.pc == AtStepDone(sid)
    ensures sid in s.c.steps && s.c.steps[sid].status.Succeeded?
  {
    assert StepInv(s.c, s.pc, sid);
  }

  lemma CompleteStepRest(c: Case, sid: Id, now: Time)
    ensures var c' := CompleteStep(c, sid, now);
      && c'.steps == c.steps && c'.plans == c.plans && c'.ex.planId == c.ex.planId
      && c'.ex.status == c.ex.status && c'.ex.input == c.ex.input
  {
    CompleteStepShape(c, sid, now);
  }

  lemma WorkRuns(c: Case, draft: Draft, done: seq<string>, sid: Id, input: Input)
    requires Running(c, AtStepWork(sid), draft, done) && !input.report.Raises?
    ensures var (c', pc') := WorkOnStep(c, sid, input); Running(c', pc', draft, done)
  {
    if input.report.Traces? {
      TraceRuns(c, draft, done, sid, input.report.kind, input.now);
    } else {
      ResultMoves(c, sid, input);
      SucceedRuns(c, WorkOnStep(c, sid, input).0, draft, done, sid);
    }
  }

  lemma ResultMoves(c: Case, sid: Id, input: Input)
    requires sid in c.steps && input.report.Returns?
    ensures OneStepMoved(c, WorkOnStep(c, sid, input).0, sid)
  {
  }

  lemma Carries(c: Case, pc: Pc, draft: Draft, done: seq<string>)
    requires Running(c, pc, draft, done)
    ensures RunningOrEnded(Sys(c, pc), draft)
  {
  }

  lemma BeginIn(c: Case, sid: Id, draft: Draft, done: seq<string>)
    requires Running(c, AtStepBegin(sid), draft, done)
    ensures sid in c.steps && c.steps[sid].status.Pending?
  {
    assert DoneAre(c.steps, done);
    assert c.steps[sid].key !in Elements(done);
  }

  lemma PendingBegins(c: Case, sid: Id, now: Time)
    requires sid in c.steps && c.steps[sid].status.Pending?
    ensures var (c', pc') := BeginStep(c, sid, now); pc' == AtStepStarted(sid) && OneStepMoved(c, c', sid)
  {
  }

  lemma BeginSectionRuns(c: Case, sid: Id, draft: Draft, done: seq<string>, input: Input)
    requires Running(c, AtStepBegin(sid), draft, done)
    ensures var (c', pc') := EngineNext(c, AtStepBegin(sid), input); RunningOrEnded(Sys(c', pc'), draft)
  {
    BeginIn(c, sid, draft, done);
    PendingBegins(c, sid, input.now);
    var c' := EngineNext(c, AtStepBegin(sid), input).0;
    BeginStepRuns(c, c', draft, done, sid);
    Carries(c', AtStepStarted(sid), draft, done + [c.steps[sid].key]);
  }

  lemma UnderWaySectionRuns(s: Sys, draft: Draft, done: seq<string>, input: Input)
    requires Running(s.c, s.pc, draft, done) && Inv(s) && !input.report.Raises?
    requires s.pc.AtStepStarted? || s.pc.AtStepWork? || s.pc.AtStepDone?
    ensures var (c', pc') := EngineNext(s.c, s.pc, input); RunningOrEnded(Sys(c', pc'), draft)
  {
    UnderWayRuns(s, draft, done, input);
    var (c', pc') := EngineNext(s.c, s.pc, input);
    Carries(c', pc', draft, done);
  }

  lemma StepSectionRuns(s: Sys, draft: Draft, done: seq<string>, input: Input)
    requires Running(s.c, s.pc, draft, done) && Inv(s) && !input.report.Raises?
    requires s.pc.AtStepBegin? || s.pc.AtStepStarted? || s.pc.AtStepWork? || s.pc.AtStepDone?
    ensures RunningOrEnded(Apply(s, Engine(input)), draft)
  {
    if s.pc.AtStepBegin? {
      BeginSectionRuns(s.c, s.pc.stepId, draft, done, input);
    } else {
      UnderWaySectionRuns(s, draft, done, input);
    }
  }

  lemma UnderWayRuns(s: Sys, draft: Draft, done: seq<string>, input: Input)
    requires Running(s.c, s.pc, draft, done) && Inv(s) && !input.report.Raises?
    requires s.pc.AtStepStarted? || s.pc.AtStepWork? || s.pc.AtStepDone?
    ensures var (c', pc') := EngineNext(s.c, s.pc, input); Running(c', pc', draft, done)
  {
    match s.pc
    case AtStepStarted(sid) => StartedRuns(s.c, draft, done, sid, input.now);
    case AtStepWork(sid) => WorkRuns(s.c, draft, done, sid, input);
    case AtStepDone(sid) => StepDoneRuns(s, draft, done, sid, input.now);
  }

  lemma EngineRuns(s: Sys, draft: Draft, done: seq<string>, input: Input)
    requires Running(s.c, s.pc, draft, done) && Inv(s) && !input.report.Raises?
    ensures RunningOrEnded(Apply(s, Engine(input)), draft)
  {
    if s.pc.AtLoop? {
      LoopHeadRuns(s.c, draft, done, input.now);
      var (c', pc') := LoopHead(s.c, input.now);
      Carries(c', pc', draft, done);
    } else if s.pc.AtDecide? {
      DecideRuns(s.c, draft, done, input);
      var (c', pc') := Decide(s.c, input);
      if !pc'.AtRest? {
        Carries(c', pc', draft, done);
      }
    } else if s.pc.AtRaised? {
      FailEnds(s.c, draft, done, s.pc.reason, input.now);
    } else {
      StepSectionRuns(s, draft, done, input);
    }
  }

  /** Engine sections only, none of which sees the work of a step raise. */
  predicate Undisturbed(acts: seq<Action>) {
    forall a :: a in acts ==> a.Engine? && !a.input.report.Raises?
  }

  lemma {:induction false} SerialRunsOn(s: Sys, draft: Draft, acts: seq<Action>)
    requires Inv(s) && RunningOrEnded(s, draft) && Undisturbed(acts)
    ensures RunningOrEnded(Run(s, acts), draft)
    decreases |acts|
  {
    if acts != [] {
      StepKeeps(s, acts[0]);
      if done :| Running(s.c, s.pc, draft, done) {
        EngineRuns(s, draft, done, acts[0].input);
      }
      SerialRunsOn(Apply(s, acts[0]), draft, acts[1..]);
    }
  }

  /** The scheduler theorem.  For every plan whose edges resolve, cyclic or not, with or
      without repeated keys, an uninterrupted run that has come to rest has started
      exactly the keys of the greedy schedule, in that order, once each; those steps
      succeeded and all others are still pending; and it ended as the plan, the workflow
      and the context determine. */
  lemma SerialRunEnds(c: Case, acts: seq<Action>)
    requires Fresh(c) && !CancellationRequested(c.ex.input)
    requires acts != [] && Undisturbed(acts)
    requires EdgesResolve(acts[0].input.draft)
    requires Run(Sys(c, AtStart), acts).pc.AtRest?
    ensures Ended(Run(Sys(c, AtStart), acts).c, acts[0].input.draft)
  {
    var s := Sys(c, AtStart);
    InvInitial(Sys(c, AtRest(false)));
    StepKeeps(Sys(c, AtRest(false)), StartRun);
    StepKeeps(s, acts[0]);
    BeginRuns(c, acts[0].input);
    var (c', pc') := Begin(c, acts[0].input);
    Carries(c', pc', acts[0].input.draft, []);
    SerialRunsOn(Sys(c', pc'), acts[0].input.draft, acts[1..]);
    assert Run(s, acts) == Run(Sys(c', pc'), acts[1..]);
    EndedAtRest(Run(s, acts), acts[0].input.draft);
  }

  lemma NotRunningAtRest(c: Case, pc: Pc, draft: Draft, done: seq<string>)
    requires pc.AtRest?
    ensures !Running(c, pc, draft, done)
  {
  }

  lemma EndedAtRest(s: Sys, draft: Draft)
    requires RunningOrEnded(s, draft) && s.pc.AtRest?
    ensures Ended(s.c, draft)
  {
    forall done ensures !Running(s.c, s.pc, draft, done) {
      NotRunningAtRest(s.c, s.pc, draft, done);
    }
  }

  /** A cyclic plan always fails through the deadlock error, and an acyclic one never
      does: every one of its steps runs. */
  lemma DeadlockIffCyclic(c: Case, acts: seq<Action>)
    requires Fresh(c) && !CancellationRequested(c.ex.input)
    requires acts != [] && Undisturbed(acts)
    requires EdgesResolve(acts[0].input.draft)
    requires Run(Sys(c, AtStart), acts).pc.AtRest?
    ensures var t := Run(Sys(c, AtStart), acts);
      && (FailedWith(t.c.ex, Deadlock) <==> !Acyclic(acts[0].input.draft))
      && (AllSucceeded(t.c.steps) <==> Acyclic(acts[0].input.draft))
  {
    SerialRunEnds(c, acts);
    RunsEverythingIffAcyclic(acts[0].input.draft);
    EndedByGraph(Run(Sys(c, AtStart), acts).c, acts[0].input.draft);
  }

  lemma EndedByGraph(c: Case, draft: Draft)
    requires Ended(c, draft)
    ensures FailedWith(c.ex, Deadlock) <==> !RunsEverything(draft)
    ensures AllSucceeded(c.steps) <==> RunsEverything(draft)
  {
    ScheduleOk(draft);
    EverythingDone(c.steps, draft, Schedule(draft));
  }

  /** The "not in VALIDATING" error ends a run of an acyclic plan exactly when the plan
      has no work, or the last scheduled step is not a validation step. */
  lemma GateErrorIff(c: Case, acts: seq<Action>)
    requires Fresh(c) && !CancellationRequested(c.ex.input)
    requires acts != [] && Undisturbed(acts)
    requires EdgesResolve(acts[0].input.draft) && Acyclic(acts[0].input.draft)
    requires Run(Sys(c, AtStart), acts).pc.AtRest?
    ensures var s := Schedule(acts[0].input.draft);
      FailedWith(Run(Sys(c, AtStart), acts).c.ex, NotInValidating) <==>
        !PlansWork(acts[0].input.draft) || s == [] || !IsCheck(acts[0].input.draft, s[|s| - 1])
  {
    var draft := acts[0].input.draft;
    var t := Run(Sys(c, AtStart), acts);
    SerialRunEnds(c, acts);
    RunsEverythingIffAcyclic(draft);
    GateErrorAtEnd(t.c, draft);
    GateOpensIffValidationLast(draft);
  }

  lemma GateErrorAtEnd(c: Case, draft: Draft)
    requires Ended(c, draft) && RunsEverything(draft)
    ensures FailedWith(c.ex, NotInValidating) <==> !PassesGate(draft)
  {
  }

  // ---------------------------------------------------------------- termination

  function PendingIds(steps: map<Id, Step>): set<Id> {
    set sid | sid in steps && steps[sid].status.Pending?
  }

  function Rank(pc: Pc): nat {
    match pc
    case AtStepStarted(_) => 7
    case AtStepWork(_) => 6
    case AtStepDone(_) => 5
    case AtLoop => 4
    case AtDecide => 3
    case AtStepBegin(_) => 2
    case AtCancel => 1
    case AtRaised(_) => 1
    case _ => 0
  }

  function Remaining(s: Sys): nat {
    8 * |PendingIds(s.c.steps)| + Rank(s.pc)
  }

  lemma BeginStepProgress(c: Case, sid: Id, now: Time)
    requires Ready(c.steps, sid)
    ensures var (c', pc') := BeginStep(c, sid, now); Remaining(Sys(c', pc')) < Remaining(Sys(c, AtStepBegin(sid)))
  {
    var c' := BeginStep(c, sid, now).0;
    assert PendingIds(c'.steps) == PendingIds(c.steps) - {sid};
  }

  lemma StepRuns(s: Sys, sid: Id)
    requires Inv(s) && s.pc == AtStepWork(sid)
    ensures sid in s.c.steps && s.c.steps[sid].status.Running?
  {
    assert StepInv(s.c, s.pc, sid);
  }

  lemma WorkProgress(s: Sys, sid: Id, input: Input)
    requires Inv(s) && s.pc == AtStepWork(sid)
    ensures var t := Apply(s, Engine(input));
      !t.pc.AtStart? && if input.report.Traces? then Remaining(t) == Remaining(s) else Remaining(t) < Remaining(s)
  {
    StepRuns(s, sid);
    WorkPending(s.c, sid, input);
  }

  lemma WorkPending(c: Case, sid: Id, input: Input)
    requires sid in c.steps && c.steps[sid].status.Running?
    ensures PendingIds(WorkOnStep(c, sid, input).0.steps) == PendingIds(c.steps)
  {
  }

  lemma DecideProgress(c: Case, input: Input)
    ensures var (c', pc') := Decide(c, input);
      !pc'.AtStart? && Remaining(Sys(c', pc')) < Remaining(Sys(c, AtDecide))
  {
    DecideEffect(c, input);
  }

  lemma CancelProgress(c: Case, now: Time)
    ensures Remaining(Sys(Cancel(c, FlagSeen, now), AtRest(false))) < Remaining(Sys(c, AtCancel))
  {
    assert Cancel(c, FlagSeen, now).steps == c.steps;
  }

  /** Every engine section after planning makes progress, except that the work of one step
      may report as many trace rows as it likes. */
  lemma EngineProgress(s: Sys, input: Input)
    requires Inv(s) && !s.pc.AtStart? && !s.pc.AtRest?
    ensures var t := Apply(s, Engine(input));
      && !t.pc.AtStart?
      && (if s.pc.AtStepWork? && input.report.Traces? then Remaining(t) == Remaining(s)
          else Remaining(t) < Remaining(s))
  {
    match s.pc
    case AtDecide => DecideProgress(s.c, input);
    case AtStepBegin(sid) => BeginStepProgress(s.c, sid, input.now);
    case AtStepWork(sid) => WorkProgress(s, sid, input);
    case AtCancel => CancelProgress(s.c, input.now);
    case _ =>
  }

  /** How many of the inputs do more than report a trace row. */
  function Effective(acts: seq<Action>): nat {
    if acts == [] then 0
    else (if acts[0].Engine? && !acts[0].input.report.Traces? then 1 else 0) + Effective(acts[1..])
  }

  /** An uninterrupted run terminates: it is at rest once it has had more effective turns
      than its measure. */
  lemma {:induction false} SerialRunTerminates(s: Sys, acts: seq<Action>)
    requires Inv(s) && !s.pc.AtStart? && (forall a :: a in acts ==> a.Engine?)
    requires Effective(acts) >= Remaining(s)
    ensures Run(s, acts).pc.AtRest?
    decreases |acts|
  {
    if acts == [] {
    } else {
      StepKeeps(s, acts[0]);
      if s.pc.AtRest? {
        RestStays(s, acts);
      } else {
        EngineProgress(s, acts[0].input);
        SerialRunTerminates(Apply(s, acts[0]), acts[1..]);
      }
    }
  }

  lemma {:induction false} RestStays(s: Sys, acts: seq<Action>)
    requires s.pc.AtRest? && forall a :: a in acts ==> a.Engine?
    ensures Run(s, acts) == s
    decreases |acts|
  {
    if acts != [] {
      RestStays(s, acts[1..]);
    }
  }
}
