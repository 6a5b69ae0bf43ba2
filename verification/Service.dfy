/** The actors around the engine: the execution service, its queue and the worker that
    drains it.  Between two calls every stored execution is at rest. */
module Service {
  import opened StateMachine
  import opened Records
  import opened RuntimeMeta
  import opened Lifecycle
  import opened Safety
  import opened Theorems
  import opened SerialRun
  import opened Repository
  import opened Engine
  import Effects

  /** What holds of every stored execution while nothing runs. */
  ghost predicate Resting(c: Case) {
    Inv(Sys(c, AtRest(false))) && FlagInv(Sys(c, AtRest(false)))
  }

  ghost predicate RestsIn(cases: map<Id, Case>, e: Id) {
    e in cases ==> Resting(cases[e])
  }

  ghost predicate AllResting(cases: map<Id, Case>) {
    forall e {:trigger RestsIn(cases, e)} :: RestsIn(cases, e)
  }

  lemma RestingSaved(cases: map<Id, Case>, e: Id, c: Case, after: map<Id, Case>)
    requires AllResting(cases) && Resting(c) && after == cases[e := c]
    ensures AllResting(after)
  {
    forall x ensures RestsIn(after, x) {
      assert RestsIn(cases, x);
    }
  }

  /** The sections of the actors other than the engine keep a resting execution resting. */
  lemma SectionRests(c: Case, a: Action)
    requires Resting(c) && !a.Engine? && !a.StartRun? && !a.RequestCancel?
    ensures Resting(Apply(Sys(c, AtRest(false)), a).c)
  {
    StepKeeps(Sys(c, AtRest(false)), a);
    FlagStep(Sys(c, AtRest(false)), a);
  }

  /** A request for cancellation: raise the flag, then cancel unless already terminal. */
  function CancelRequested(c: Case, reason: string, now: Time): Case {
    var flagged := WithInput(c, MarkCancelled(c.ex.input, AskedBy(reason), now));
    if Terminal(c.ex.status) then flagged else Cancel(flagged, AskedBy(reason), now)
  }

  lemma CancelRequestRests(c: Case, reason: string, now: Time)
    requires Resting(c)
    ensures Resting(CancelRequested(c, reason, now)) && Terminal(CancelRequested(c, reason, now).ex.status)
  {
    var flagged := WithInput(c, MarkCancelled(c.ex.input, AskedBy(reason), now));
    FlagRests(c, AskedBy(reason), now);
    if Terminal(c.ex.status) {
      assert FlagInv(Sys(flagged, AtRest(false)));
    } else {
      CancelRests(flagged, AskedBy(reason), now);
    }
  }

  /** The request is on record; an execution that had not ended is cancelled for that reason
      at that time, and one that had keeps its outcome. */
  predicate CancelTold(c: Case, c': Case, reason: string, now: Time) {
    && CancellationRequested(c'.ex.input) && Terminal(c'.ex.status)
    && ReadMeta(c'.ex.input)[CancellationRequestedKey] == JBool(true)
    && CancellationReasonKey in ReadMeta(c'.ex.input) && ReadMeta(c'.ex.input)[CancellationReasonKey] == JStr(reason)
    && if Terminal(c.ex.status) then Effects.SameOutcome(c.ex, c'.ex) && c'.ex.timeline == c.ex.timeline
       else
         && c'.ex.status.Cancelled? && c'.ex.cancelledAt == Some(now)
         && c'.ex.result.Some? && c'.ex.result.value.reason == Some(Cancellation(AskedBy(reason)))
         && c'.ex.timeline == c.ex.timeline + [Row(now, StatusRow(Cancelled))]
  }

  lemma CancelRequestTold(c: Case, reason: string, now: Time)
    ensures CancelTold(c, CancelRequested(c, reason, now), reason, now)
  {
  }

  lemma CancelRequestStored(cases: map<Id, Case>, e: Id, reason: string, now: Time)
    requires AllResting(cases) && e in cases
    ensures AllResting(cases[e := CancelRequested(cases[e], reason, now)])
    ensures Terminal(CancelRequested(cases[e], reason, now).ex.status)
  {
    assert RestsIn(cases, e);
    CancelRequestRests(cases[e], reason, now);
    RestingSaved(cases, e, CancelRequested(cases[e], reason, now), cases[e := CancelRequested(cases[e], reason, now)]);
  }

  lemma FlagRests(c: Case, why: Why, now: Time)
    requires Resting(c)
    ensures Inv(Sys(WithInput(c, MarkCancelled(c.ex.input, why, now)), AtRest(false)))
  {
    MetaKeeps(c, AtRest(false), MarkCancelled(c.ex.input, why, now));
  }

  lemma CancelRests(c: Case, why: Why, now: Time)
    requires Inv(Sys(c, AtRest(false)))
    ensures Resting(Cancel(c, why, now)) && Terminal(Cancel(c, why, now).ex.status)
  {
    StepKeeps(Sys(c, AtRest(false)), CancelNow(why, now));
    Effects.CancelEffect(c, why, now);
  }

  function NewCase(e: Id, workflow: Workflow, ctx: Context, input: Dict, parent: Option<Id>, rows: seq<Row>, now: Time): Case {
    Case(Execution(e, workflow, Created, e + 1, parent, None, input, None, rows, now, now, None, None),
         Some(ctx), map[], map[], map[], map[], map[], map[])
  }

  /** What starting execution `c` with engine sections `acts` leaves stored. */
  ghost predicate StartedTo(c: Case, acts: seq<Action>, c': Case, crashed: bool) {
    EngineOnly(acts) && acts != [] && Run(Sys(c, AtStart), acts) == Sys(c', AtRest(crashed))
  }

  /** One delivery: mark the worker, start, and run the engine until it rests. */
  ghost predicate DeliveredBy(c: Case, acts: seq<Action>, c': Case, crashed: bool) {
    (forall a :: a in acts ==> Redelivery(a)) && Run(Sys(c, AtRest(false)), acts) == Sys(c', AtRest(crashed))
  }

  ghost predicate Delivered(c: Case, c': Case, crashed: bool) {
    exists acts :: DeliveredBy(c, acts, c', crashed)
  }

  // ---------------------------------------------------------------- one run, seen from the service

  lemma StartRuns(c: Case, acts: seq<Action>)
    ensures Run(Sys(c, AtRest(false)), [StartRun] + acts) == Run(Sys(c, AtStart), acts)
  {
    assert ([StartRun] + acts)[1..] == acts;
  }

  lemma StartReady(c: Case)
    requires Resting(c)
    ensures Inv(Sys(c, AtStart))
  {
    StepKeeps(Sys(c, AtRest(false)), StartRun);
  }

  /** An orchestration error becomes a failed execution in one more section. */
  lemma ErrorFails(c: Case, acts: seq<Action>, raised: Case, reason: Reason, now: Time)
    requires EngineOnly(acts) && acts != [] && Undisturbed(acts)
    requires Run(Sys(c, AtStart), acts) == Sys(raised, AtRaised(reason))
    ensures var more := acts + [Action.Engine(Tick(now))];
      StartedTo(c, more, Fail(raised, reason, now), false) && Undisturbed(more) && more[0] == acts[0]
  {
    RunExtends(Sys(c, AtStart), acts, Action.Engine(Tick(now)));
  }

  lemma CrashRests(c: Case, crashed: bool)
    requires Inv(Sys(c, AtRest(crashed))) && FlagInv(Sys(c, AtRest(crashed)))
    ensures Resting(c)
  {
    forall sid | sid in c.steps ensures StepInv(c, AtRest(false), sid) {
      assert StepInv(c, AtRest(crashed), sid);
    }
    forall sid ensures ExpectedMarks(c, AtRest(false), sid) == ExpectedMarks(c, AtRest(crashed), sid) {
    }
  }

  lemma RestKept(c: Case, acts: seq<Action>, c': Case, crashed: bool)
    requires Resting(c) && (forall a :: a in acts ==> !a.RequestCancel?)
    requires Run(Sys(c, AtRest(false)), acts) == Sys(c', AtRest(crashed))
    ensures Resting(c')
  {
    RunKeeps(Sys(c, AtRest(false)), acts);
    FlagRun(Sys(c, AtRest(false)), acts);
    CrashRests(c', crashed);
  }

  /** A run that returned leaves the execution settled. */
  lemma {:induction false} ReturnedSettles(s: Sys, acts: seq<Action>)
    requires Inv(s) && FlagInv(s) && EngineOnly(acts) && !s.pc.AtRest?
    requires Run(s, acts).pc == AtRest(false)
    ensures Settled(Run(s, acts).c)
    decreases |acts|
  {
    if acts != [] {
      FlagEngine(s, acts[0].input);
      StepKeeps(s, acts[0]);
      var t := Apply(s, acts[0]);
      if t.pc.AtRest? {
        RestingStays(t, acts[1..]);
      } else {
        ReturnedSettles(t, acts[1..]);
      }
    }
  }

  lemma {:induction false} RestingStays(s: Sys, acts: seq<Action>)
    requires s.pc.AtRest? && EngineOnly(acts)
    ensures Run(s, acts) == s && !WorkRaises(s, acts)
    decreases |acts|
  {
    if acts != [] {
      RestingStays(Apply(s, acts[0]), acts[1..]);
    }
  }

  /** What starting one resting execution comes to. */
  lemma StartOutcome(c: Case, acts: seq<Action>, c': Case, crashed: bool)
    requires Resting(c) && StartedTo(c, acts, c', crashed)
    ensures Resting(c') && (!crashed ==> Settled(c')) && Delivered(c, c', crashed)
    ensures Settled(c) ==> SameButInput(c, c')
    ensures Fresh(c) && !CancellationRequested(c.ex.input) && !crashed && Undisturbed(acts) ==>
      Ended(c', acts[0].input.draft)
  {
    var all := [StartRun] + acts;
    StartRuns(c, acts);
    RestKept(c, all, c', crashed);
    assert DeliveredBy(c, all, c', crashed);
    StepKeeps(Sys(c, AtRest(false)), StartRun);
    if !crashed {
      ReturnedSettles(Sys(c, AtStart), acts);
    }
    if Settled(c) {
      RedeliveryHarmless(Sys(c, AtRest(false)), all);
    }
    if Fresh(c) && !CancellationRequested(c.ex.input) && !crashed && Undisturbed(acts) {
      CrashIff(c, acts, c', crashed);
      SerialRunEnds(c, acts);
    }
  }

  /** A delivery of a settled execution changes nothing but its runtime metadata. */
  lemma DeliveryHarmless(c: Case, c': Case, crashed: bool)
    requires Settled(c) && Delivered(c, c', crashed)
    ensures SameButInput(c, c')
  {
    var acts :| DeliveredBy(c, acts, c', crashed);
    RedeliveryHarmless(Sys(c, AtRest(false)), acts);
  }

  /** Some section of the run sees the work of the step under way raise. */
  ghost predicate WorkRaises(s: Sys, acts: seq<Action>)
    decreases |acts|
  {
    acts != [] &&
    ((s.pc.AtStepWork? && acts[0].Engine? && acts[0].input.report.Raises?)
     || WorkRaises(Apply(s, acts[0]), acts[1..]))
  }

  /** An uninterrupted run crashes exactly when it plans with an edge from an unknown key,
      or the work of a step raises. */
  lemma CrashIff(c: Case, acts: seq<Action>, c': Case, crashed: bool)
    requires Resting(c) && StartedTo(c, acts, c', crashed)
    ensures crashed <==>
      (Unplanned(c.ex.status) && !EdgesResolve(acts[0].input.draft)) || WorkRaises(Sys(c, AtStart), acts)
  {
    var s := Sys(c, AtStart);
    StepKeeps(Sys(c, AtRest(false)), StartRun);
    StepKeeps(s, acts[0]);
    var t := Apply(s, acts[0]);
    if t.pc.AtRest? {
      RestingStays(t, acts[1..]);
    } else {
      LaterCrashIff(t, acts[1..]);
    }
  }

  lemma {:induction false} LaterCrashIff(s: Sys, acts: seq<Action>)
    requires Inv(s) && EngineOnly(acts) && !s.pc.AtStart? && s.pc != AtRest(true)
    ensures Run(s, acts).pc == AtRest(true) <==> WorkRaises(s, acts)
    decreases |acts|
  {
    if acts != [] {
      StepKeeps(s, acts[0]);
      CrashStepIff(s, acts[0].input);
      var t := Apply(s, acts[0]);
      if t.pc == AtRest(true) {
        RestingStays(t, acts[1..]);
      } else {
        LaterCrashIff(t, acts[1..]);
      }
    }
  }

  lemma CrashStepIff(s: Sys, input: Input)
    requires Inv(s) && !s.pc.AtStart? && s.pc != AtRest(true)
    ensures var t := Apply(s, Action.Engine(input));
      !t.pc.AtStart? && (t.pc == AtRest(true) <==> s.pc.AtStepWork? && input.report.Raises?)
  {
    if s.pc.AtStepWork? {
      StepRuns(s, s.pc.stepId);
    }
  }

  lemma MarkedDelivery(c: Case, worker: string, at: Time, acts: seq<Action>, c': Case, crashed: bool)
    requires Resting(c) && StartedTo(WithInput(c, MarkWorkerStarted(c.ex.input, worker, at)), acts, c', crashed)
    ensures Delivered(c, c', crashed)
  {
    var m := WithInput(c, MarkWorkerStarted(c.ex.input, worker, at));
    var mark := WorkerMark(worker, at);
    var all := [mark] + ([StartRun] + acts);
    assert all[1..] == [StartRun] + acts;
    StartRuns(m, acts);
    assert DeliveredBy(c, all, c', crashed);
  }

  // ---------------------------------------------------------------- the queue

  datatype WorkItem = WorkItem(executionId: Id, enqueuedAt: Time)

  class ExecutionQueue {
    var items: seq<WorkItem>

    constructor ()
      ensures items == []
    {
      items := [];
    }

    method Enqueue(e: Id, now: Time) returns (depth: nat)
      modifies this
      ensures items == old(items) + [WorkItem(e, now)] && depth == |items|
    {
      items := items + [WorkItem(e, now)];
      depth := |items|;
    }

    method Dequeue() returns (item: Option<WorkItem>)
      modifies this
      ensures if old(items) == [] then item.None? && items == []
              else item == Some(old(items)[0]) && items == old(items)[1..]
    {
      if items == [] {
        return None;
      }
      item := Some(items[0]);
      items := items[1..];
    }

    method Depth() returns (depth: nat)
      ensures depth == |items|
    {
      depth := |items|;
    }
  }

  /** With some fresh id and at some time. */
  ghost predicate DecidedSomehow(
    c: Case, decision: ApprovalDecision, approver: string, c': Case, error: Option<ApprovalError>)
  {
    exists id, now :: Decided(c, decision, approver, id, now) == (c', error)
  }

  lemma DecidedRests(
    c: Case, decision: ApprovalDecision, approver: string, id: Id, now: Time,
    c': Case, error: Option<ApprovalError>)
    requires Resting(c) && Decided(c, decision, approver, id, now) == (c', error)
    ensures Resting(c') && DecidedSomehow(c, decision, approver, c', error)
  {
    SectionRests(c, Action.SubmitApproval(decision, approver, id, now));
    SubmissionIs(c, decision, approver, id, now);
  }

  lemma SubmissionIs(c: Case, decision: ApprovalDecision, approver: string, id: Id, now: Time)
    ensures Apply(Sys(c, AtRest(false)), Action.SubmitApproval(decision, approver, id, now)).c
         == Decided(c, decision, approver, id, now).0
  {
  }

  // ---------------------------------------------------------------- the service

  class ExecutionService {
    const repo: InMemoryRepository
    const engine: ExecutionEngine
    const queue: ExecutionQueue

    constructor (engine: ExecutionEngine, queue: ExecutionQueue)
      ensures this.engine == engine && this.queue == queue && repo == engine.repo
    {
      this.engine, this.queue, this.repo := engine, queue, engine.repo;
    }

    ghost predicate Valid()
      reads this, repo
    {
      engine.repo == repo && repo.Valid() && AllResting(repo.cases)
    }

    method CreateExecution(
      workflow: Workflow, ctx: Context, input: Dict, parent: Option<Id>, rows: seq<Row>, now: Time)
      returns (e: Id)
      requires Valid() && forall r :: r in rows ==> r.event.ReplayCreated?
      modifies repo
      ensures Valid() && e !in old(repo.cases)
      ensures repo.cases == old(repo.cases)[e := NewCase(e, workflow, ctx, input, parent, rows, now)]
      ensures Fresh(repo.cases[e])
      ensures var c := repo.cases[e];
        && c.ex.executionId == e && c.ex.workflow == workflow && c.ctx == Some(ctx) && c.ex.input == input
        && c.ex.parentId == parent && c.ex.timeline == rows && c.ex.createdAt == c.ex.updatedAt == now
    {
      e := repo.CreateExecution(
        Execution(0, workflow, Created, 0, parent, None, input, None, rows, now, now, None, None), ctx);
      InvInitial(Sys(repo.cases[e], AtRest(false)));
      RestingSaved(old(repo.cases), e, repo.cases[e], repo.cases);
    }

    method EnqueueExecution(e: Id, now: Time) returns (known: bool)
      requires Valid()
      modifies repo, queue
      ensures Valid() && (known <==> e in old(repo.cases))
      ensures !known ==> repo.cases == old(repo.cases) && queue.items == old(queue.items)
      ensures known ==>
        var c := old(repo.cases[e]);
        && repo.cases == old(repo.cases)[e := WithInput(c, MarkQueued(c.ex.input, now))]
        && queue.items == old(queue.items) + [WorkItem(e, now)]
    {
      known := repo.Knows(e);
      if known {
        assert RestsIn(repo.cases, e);
        SectionRests(repo.cases[e], Enqueue(now));
        var ex := repo.GetExecution(e);
        repo.UpdateExecution(ex.(input := MarkQueued(ex.input, now)));
        RestingSaved(old(repo.cases), e, repo.cases[e], repo.cases);
        var depth := queue.Enqueue(e, now);
      }
    }

    /** Run an execution in the caller; an orchestration error becomes a failed execution. */
    method StartExecution(e: Id) returns (end: RunEnd, ghost acts: seq<Action>)
      requires Valid()
      modifies repo
      ensures Valid() && (end.NotFound? <==> e !in old(repo.cases))
      ensures end.NotFound? ==> repo.cases == old(repo.cases)
      ensures !end.NotFound? ==>
        && e in repo.cases && repo.cases == old(repo.cases)[e := repo.cases[e]]
        && StartedTo(old(repo.cases[e]), acts, repo.cases[e], end.Crashed?)
        && acts[0].input.draft == engine.planner(old(repo.cases[e]).ex.workflow)
      ensures !end.NotFound? && !end.Crashed? ==> Settled(repo.cases[e]) && Undisturbed(acts)
      ensures !end.NotFound? ==> NewResultsWorked(engine.work, old(repo.cases[e]), repo.cases[e])
    {
      var known := repo.Knows(e);
      if !known {
        return NotFound, [];
      }
      ghost var c := repo.cases[e];
      assert Resting(c) by { assert RestsIn(repo.cases, e); }
      StartReady(c);
      end, acts := engine.RunExecution(e);
      if end.RaisedError? {
        var now: Time := *;
        ghost var raised := repo.cases[e];
        engine.FailExecution(e, end.reason, now);
        ErrorFails(c, acts, raised, end.reason, now);
        acts := acts + [Action.Engine(Tick(now))];
      }
      StartOutcome(c, acts, repo.cases[e], end.Crashed?);
      RestingSaved(old(repo.cases), e, repo.cases[e], repo.cases);
    }

    method RecordWorkerStarted(e: Id, worker: string, now: Time)
      requires Valid() && e in repo.cases
      modifies repo
      ensures Valid()
      ensures var c := old(repo.cases[e]);
        repo.cases == old(repo.cases)[e := WithInput(c, MarkWorkerStarted(c.ex.input, worker, now))]
    {
      assert RestsIn(repo.cases, e);
      SectionRests(repo.cases[e], WorkerMark(worker, now));
      var ex := repo.GetExecution(e);
      repo.UpdateExecution(ex.(input := MarkWorkerStarted(ex.input, worker, now)));
      RestingSaved(old(repo.cases), e, repo.cases[e], repo.cases);
    }

    /** Afterwards the execution is terminal, whatever it was before. */
    method RequestCancellation(e: Id, reason: string, now: Time) returns (known: bool)
      requires Valid()
      modifies repo
      ensures Valid() && (known <==> e in old(repo.cases))
      ensures !known ==> repo.cases == old(repo.cases)
      ensures known ==>
        && repo.cases == old(repo.cases)[e := CancelRequested(old(repo.cases[e]), reason, now)]
        && CancelTold(old(repo.cases[e]), repo.cases[e], reason, now)
    {
      known := repo.Knows(e);
      if known {
        CancelRequestStored(repo.cases, e, reason, now);
        CancelRequestTold(repo.cases[e], reason, now);
        var ex := repo.GetExecution(e);
        repo.UpdateExecution(ex.(input := MarkCancelled(ex.input, AskedBy(reason), now)));
        if !Terminal(ex.status) {
          engine.CancelExecution(e, AskedBy(reason), now);
        }
        assert repo.cases == old(repo.cases)[e := CancelRequested(old(repo.cases)[e], reason, now)];
      }
    }

    /** Record a human decision; an execution that does not wait for one is left alone. */
    method SubmitApproval(e: Id, decision: ApprovalDecision, approver: string)
      returns (known: bool, error: Option<ApprovalError>)
      requires Valid()
      modifies repo
      ensures Valid() && (known <==> e in old(repo.cases))
      ensures !known ==> repo.cases == old(repo.cases)
      ensures known ==>
        && e in repo.cases && repo.cases == old(repo.cases)[e := repo.cases[e]]
        && DecidedSomehow(old(repo.cases[e]), decision, approver, repo.cases[e], error)
    {
      error := None;
      known := repo.Knows(e);
      if known {
        var now: Time := *;
        assert RestsIn(repo.cases, e);
        ghost var c, id := repo.cases[e], 0;
        error, id := engine.SubmitApproval(e, decision, approver, now);
        DecidedRests(c, decision, approver, id, now, repo.cases[e], error);
        RestingSaved(old(repo.cases), e, repo.cases[e], repo.cases);
      }
    }
  }

  // ---------------------------------------------------------------- the worker

  /** What processing one queued item does to the stored cases; `raised` when an exception
      came out of it. */
  ghost predicate Processed(before: map<Id, Case>, e: Id, after: map<Id, Case>, raised: bool) {
    if e !in before then !raised && after == before
    else
      && e in after && after == before[e := after[e]]
      && Delivered(before[e], after[e], raised) && (raised || Settled(after[e]))
  }

  /** `states` lists the store before and after each of the served items, in order; only
      the last one may have raised. */
  ghost predicate ServedInOrder(items: seq<WorkItem>, states: seq<map<Id, Case>>, raised: bool) {
    && |states| == |items| + 1 && (raised ==> items != [])
    && forall i :: 0 <= i < |items| ==>
         Processed(states[i], items[i].executionId, states[i + 1], raised && i == |items| - 1)
  }

  lemma ServedMore(items: seq<WorkItem>, n: nat, states: seq<map<Id, Case>>, after: map<Id, Case>, raised: bool)
    requires n < |items| && ServedInOrder(items[..n], states, false)
    requires Processed(states[n], items[n].executionId, after, raised)
    ensures ServedInOrder(items[..n + 1], states + [after], raised)
  {
    var more := states + [after];
    forall i | 0 <= i < n + 1
      ensures Processed(more[i], items[..n + 1][i].executionId, more[i + 1], raised && i == n)
    {
      if i < n {
        assert Processed(states[i], items[..n][i].executionId, states[i + 1], false);
      }
    }
  }

  class ExecutionWorker {
    const svc: ExecutionService
    const queue: ExecutionQueue
    const workerId: string

    constructor (svc: ExecutionService, workerId: string)
      ensures this.svc == svc && queue == svc.queue && this.workerId == workerId
    {
      this.svc, this.queue, this.workerId := svc, svc.queue, workerId;
    }

    /** Serve the first item, if there is one; an exception in it comes out. */
    method RunOnce() returns (worked: bool, raised: bool)
      requires svc.Valid()
      modifies svc.repo, queue
      ensures svc.Valid() && (worked <==> old(queue.items) != [])
      ensures !worked ==> !raised && svc.repo.cases == old(svc.repo.cases) && queue.items == []
      ensures worked ==>
        && queue.items == old(queue.items)[1..]
        && Processed(old(svc.repo.cases), old(queue.items)[0].executionId, svc.repo.cases, raised)
    {
      var item := queue.Dequeue();
      if item.None? {
        return false, false;
      }
      var depth;
      raised, depth := Process(item.value);
      worked := true;
    }

    /** `depth` is the queue's depth as the start of the work is reported. */
    method Process(item: WorkItem) returns (raised: bool, depth: nat)
      requires svc.Valid()
      modifies svc.repo
      ensures depth == |queue.items|
      ensures svc.Valid() && Processed(old(svc.repo.cases), item.executionId, svc.repo.cases, raised)
    {
      var e := item.executionId;
      depth := queue.Depth();
      var known := svc.repo.Knows(e);
      if !known {
        return false, depth;
      }
      var now: Time := *;
      ghost var c := svc.repo.cases[e];
      assert Resting(c) by { assert RestsIn(svc.repo.cases, e); }
      svc.RecordWorkerStarted(e, workerId, now);
      var end;
      ghost var acts;
      end, acts := svc.StartExecution(e);
      raised := end.Crashed?;
      MarkedDelivery(c, workerId, now, acts, svc.repo.cases[e], raised);
    }

    /** Serve items in arrival order until the queue is empty, `maxItems` are served, or one
        of them raises; `count` are the items served before that. */
    method RunUntilIdle(maxItems: Option<nat>)
      returns (count: nat, raised: bool, ghost states: seq<map<Id, Case>>)
      requires svc.Valid()
      modifies svc.repo, queue
      ensures svc.Valid()
      ensures var most := Bounded(maxItems, |old(queue.items)|); if raised then count < most else count == most
      ensures var served := if raised then count + 1 else count;
        && queue.items == old(queue.items)[served..]
        && ServedInOrder(old(queue.items)[..served], states, raised)
        && states[0] == old(svc.repo.cases) && states[served] == svc.repo.cases
    {
      count, raised := 0, false;
      states := [svc.repo.cases];
      while maxItems.None? || count < maxItems.value
        invariant svc.Valid() && count <= |old(queue.items)| && queue.items == old(queue.items)[count..]
        invariant !raised && (maxItems.Some? ==> count <= maxItems.value)
        invariant ServedInOrder(old(queue.items)[..count], states, false)
        invariant states[0] == old(svc.repo.cases) && states[count] == svc.repo.cases
        decreases |old(queue.items)| - count
      {
        var worked;
        worked, raised := RunOnce();
        if !worked {
          break;
        }
        ServedMore(old(queue.items), count, states, svc.repo.cases, raised);
        states := states + [svc.repo.cases];
        if raised {
          return;
        }
        count := count + 1;
      }
    }
  }

  function Bounded(most: Option<nat>, n: nat): nat {
    if most.Some? && most.value < n then most.value else n
  }

  /** An item whose execution has settled before it is served leaves it alone, so however
      often an execution was queued, every delivery after the settling one is harmless. */
  lemma {:induction false} SettledStays(
    items: seq<WorkItem>, states: seq<map<Id, Case>>, raised: bool, e: Id, i: nat, j: nat)
    requires ServedInOrder(items, states, raised) && i <= j <= |items|
    requires e in states[i] && Settled(states[i][e])
    ensures e in states[j] && SameButInput(states[i][e], states[j][e]) && Settled(states[j][e])
    decreases j - i
  {
    if i < j {
      var x := items[i].executionId;
      var raisedHere := raised && i == |items| - 1;
      assert Processed(states[i], x, states[i + 1], raisedHere);
      if x == e {
        DeliverySettled(states[i][e], states[i + 1][e], raisedHere);
      }
      SettledStays(items, states, raised, e, i + 1, j);
    }
  }

  lemma DeliverySettled(c: Case, c': Case, crashed: bool)
    requires Settled(c) && Delivered(c, c', crashed)
    ensures SameButInput(c, c') && Settled(c')
  {
    var acts :| DeliveredBy(c, acts, c', crashed);
    SettledRun(Sys(c, AtRest(false)), acts);
  }

  lemma {:induction false} SettledRun(s: Sys, acts: seq<Action>)
    requires Settled(s.c) && Idle(s) && forall a :: a in acts ==> Redelivery(a)
    ensures SameButInput(s.c, Run(s, acts).c) && Settled(Run(s, acts).c)
    decreases |acts|
  {
    if acts != [] {
      RedeliveryStep(s, acts[0]);
      SettledRun(Apply(s, acts[0]), acts[1..]);
    }
  }
}
