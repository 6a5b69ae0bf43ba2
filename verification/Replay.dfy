/** Replays: child executions whose input is derived from a source.  Creating one, and
    running it, touches no row of any other execution. */
module Replay {
  import opened StateMachine
  import opened Records
  import opened RuntimeMeta
  import opened Timeline
  import opened Lifecycle
  import opened Safety
  import opened Theorems
  import opened Repository
  import opened Engine
  import opened Service
  import Effects
  import Policy

  datatype Request = Request(
    sourceId: Id,
    mode: ReplayMode,
    environment: Environment,
    anchorPlanId: Option<Id>,
    overridePlan: Option<Json>,
    overrides: Option<Dict>,
    reason: Option<string>,
    tag: Option<string>,
    requestedBy: Option<string>,
    start: bool)

  datatype ReplayError =
    | SourceNotFound | OverridesInExact | PlanInExact | NoJustification | BlankEnvironment
    | ReservedKey | SourceMutated | ChildCrashed

  datatype Outcome<+T> = Ok(value: T) | Err(error: ReplayError)

  // ---------------------------------------------------------------- validation

  /** The characters that stripping removes. */
  predicate IsSpace(c: char) {
    var n := c as int;
    || 0x09 <= n <= 0x0D || 0x1C <= n <= 0x20 || n == 0x85 || n == 0xA0 || n == 0x1680
    || 0x2000 <= n <= 0x200A || n == 0x2028 || n == 0x2029 || n == 0x202F || n == 0x205F || n == 0x3000
  }

  predicate Blank(text: string) {
    forall c :: c in text ==> IsSpace(c)
  }

  predicate BlankOrMissing(text: Option<string>) {
    text.None? || Blank(text.value)
  }

  function Overrides(req: Request): Dict {
    if req.overrides.Some? then req.overrides.value else map[]
  }

  predicate NamesNothing(env: Environment) {
    env.OtherEnvironment? && Blank(env.name)
  }

  /** Why a request is turned down before anything is stored, if it is. */
  function Rejection(req: Request): Option<ReplayError> {
    if req.mode.Exact? && Overrides(req) != map[] then Some(OverridesInExact)
    else if req.mode.Exact? && req.overridePlan.Some? then Some(PlanInExact)
    else if req.mode.Investigative? && BlankOrMissing(req.reason) && BlankOrMissing(req.tag)
    then Some(NoJustification)
    else if NamesNothing(req.environment) then Some(BlankEnvironment)
    else if req.mode.Investigative? && ProvenanceKey in Overrides(req) then Some(ReservedKey)
    else None
  }

  // ---------------------------------------------------------------- what a replay is

  function OptNum(id: Option<Id>): Json {
    if id.Some? then JNum(id.value) else JNull
  }

  function OptStr(text: Option<string>): Json {
    if text.Some? then JStr(text.value) else JNull
  }

  function EnvironmentText(env: Environment): Json {
    match env
    case Prod => JStr("prod")
    case OtherEnvironment(name) => JStr(name)
  }

  function AppliedOverrides(req: Request): Dict {
    if req.mode.Exact? then map[] else Overrides(req)
  }

  function Provenance(req: Request, src: Execution, child: Id, now: Time): Json {
    JObj(map[
      Field("source_execution_id") := JNum(req.sourceId),
      Field("replay_mode") := JStr(if req.mode.Exact? then "exact" else "investigative"),
      Field("requested_by") := OptStr(req.requestedBy),
      Field("reason") := OptStr(req.reason),
      Field("label") := OptStr(req.tag),
      Field("input_overrides") := JObj(AppliedOverrides(req)),
      Field("anchor_plan_id") := if req.anchorPlanId.Some? then JNum(req.anchorPlanId.value) else OptNum(src.planId),
      Field("environment_target") := EnvironmentText(req.environment),
      Field("created_execution_id") := JNum(child),
      Field("created_at") := JNum(now)])
  }

  function StripProvenance(input: Dict): Dict {
    input - {ProvenanceKey}
  }

  function ReplayInput(src: Execution, req: Request, child: Id, now: Time): Dict {
    (StripProvenance(src.input) + AppliedOverrides(req))[ProvenanceKey := Provenance(req, src, child, now)]
  }

  function ReplayContext(ctx: Option<Context>, env: Environment): Option<Context> {
    if ctx.Some? then Some(ctx.value.(environment := env)) else None
  }

  /** The rows of a replay of `c` at creation. */
  function ReplayCase(c: Case, req: Request, child: Id, now: Time): Case {
    Case(
      Execution(child, c.ex.workflow, Created, child + 1, Some(req.sourceId), None,
                ReplayInput(c.ex, req, child, now), None,
                [Row(now, ReplayCreated(req.sourceId, req.mode))], now, now, None, None),
      ReplayContext(c.ctx, req.environment), map[], map[], map[], map[], map[], map[])
  }

  lemma ReplayRests(c: Case, req: Request, child: Id, now: Time)
    requires c.ctx.Some?
    ensures Fresh(ReplayCase(c, req, child, now)) && Resting(ReplayCase(c, req, child, now))
  {
    InvInitial(Sys(ReplayCase(c, req, child, now), AtRest(false)));
  }

  // ---------------------------------------------------------------- creating one

  class ReplayService {
    const svc: ExecutionService
    const repo: InMemoryRepository

    constructor (svc: ExecutionService)
      ensures this.svc == svc && repo == svc.repo
    {
      this.svc, this.repo := svc, svc.repo;
    }

    /** The checks in their order, all but the one for the reserved key, which comes when
        the overrides are applied. */
    method Validate(req: Request) returns (error: Option<ReplayError>)
      ensures error == if Rejection(req) == Some(ReservedKey) then None else Rejection(req)
    {
      if req.mode.Exact? {
        if req.overrides.Some? && req.overrides.value != map[] {
          return Some(OverridesInExact);
        }
        if req.overridePlan.Some? {
          return Some(PlanInExact);
        }
      }
      if req.mode.Investigative? {
        var unreasoned, unlabelled := BlankOrMissing(req.reason), BlankOrMissing(req.tag);
        if unreasoned && unlabelled {
          return Some(NoJustification);
        }
      }
      if NamesNothing(req.environment) {
        return Some(BlankEnvironment);
      }
      error := None;
    }

    /** The input of a replay before its provenance is written, or the reason against it. */
    method Derive(req: Request, source: Dict) returns (r: Outcome<Dict>)
      ensures r == if Rejection(req).Some? then Err(Rejection(req).value)
                   else Ok(StripProvenance(source) + AppliedOverrides(req))
    {
      var error := Validate(req);
      if error.Some? {
        return Err(error.value);
      }
      var input := StripProvenance(source);
      if req.mode.Investigative? {
        var overrides := if req.overrides.Some? then req.overrides.value else map[];
        if ProvenanceKey in overrides {
          return Err(ReservedKey);
        }
        input := input + overrides;
      } else {
        assert input + map[] == input;
      }
      r := Ok(input);
    }

    /** Create a replay and, if asked to, run it: whatever happens, the rows of every
        execution stored before are untouched, and so the last check never fails. */
    method CreateReplay(req: Request, now: Time)
      returns (r: Outcome<Id>, ghost child: Id, ghost acts: seq<Action>)
      requires svc.Valid() && svc.repo == repo
      modifies repo
      ensures svc.Valid()
      ensures r != Err(SourceMutated)
      ensures req.sourceId !in old(repo.cases) ==> r == Err(SourceNotFound) && repo.cases == old(repo.cases)
      ensures req.sourceId in old(repo.cases) && Rejection(req).Some? ==>
        r == Err(Rejection(req).value) && repo.cases == old(repo.cases)
      ensures req.sourceId in old(repo.cases) && Rejection(req).None? ==>
        var made := ReplayCase(old(repo.cases[req.sourceId]), req, child, now);
        && (r == Ok(child) || r == Err(ChildCrashed))
        && child !in old(repo.cases) && child in repo.cases && Fresh(made)
        && repo.cases == old(repo.cases)[child := repo.cases[child]]
        && (if req.start then StartedTo(made, acts, repo.cases[child], r.Err?)
            else repo.cases[child] == made && r.Ok?)
    {
      child, acts := 0, [];
      var known := repo.Knows(req.sourceId);
      if !known {
        return Err(SourceNotFound), child, acts;
      }
      var src := repo.GetExecution(req.sourceId);
      var ctx := repo.GetContext(req.sourceId);
      var derived := Derive(req, src.input);
      if derived.Err? {
        return Err(derived.error), child, acts;
      }
      var id, crashed;
      id, crashed, acts := CreateAndStart(req, src, ctx, derived.value, now);
      child := id;
      if crashed {
        return Err(ChildCrashed), child, acts;
      }
      var after := repo.GetExecution(req.sourceId);
      if after != src {
        return Err(SourceMutated), child, acts;
      }
      r := Ok(id);
    }

    method CreateAndStart(req: Request, src: Execution, ctx: Context, input: Dict, now: Time)
      returns (child: Id, crashed: bool, ghost acts: seq<Action>)
      requires svc.Valid() && svc.repo == repo && req.sourceId in repo.cases
      requires src == repo.cases[req.sourceId].ex && repo.cases[req.sourceId].ctx == Some(ctx)
      requires input == StripProvenance(src.input) + AppliedOverrides(req)
      modifies repo
      ensures svc.Valid() && child !in old(repo.cases) && child in repo.cases
      ensures repo.cases == old(repo.cases)[child := repo.cases[child]]
      ensures var made := ReplayCase(old(repo.cases[req.sourceId]), req, child, now);
        && Fresh(made)
        && if req.start then StartedTo(made, acts, repo.cases[child], crashed)
           else repo.cases[child] == made && !crashed
    {
      child := Create(req, src, ctx, input, now);
      crashed, acts := false, [];
      if req.start {
        var end;
        end, acts := svc.StartExecution(child);
        crashed := end.Crashed?;
      }
    }

    /** Two sections: store an empty child, then give it its input and its first row. */
    method Create(req: Request, src: Execution, ctx: Context, input: Dict, now: Time) returns (child: Id)
      requires svc.Valid() && svc.repo == repo && req.sourceId in repo.cases
      requires src == repo.cases[req.sourceId].ex && repo.cases[req.sourceId].ctx == Some(ctx)
      requires input == StripProvenance(src.input) + AppliedOverrides(req)
      modifies repo
      ensures svc.Valid() && child !in old(repo.cases)
      ensures repo.cases == old(repo.cases)[child := ReplayCase(old(repo.cases[req.sourceId]), req, child, now)]
      ensures Fresh(repo.cases[child])
    {
      ghost var c := repo.cases[req.sourceId];
      child := svc.CreateExecution(
        src.workflow, ctx.(environment := req.environment), map[], Some(req.sourceId), [], now);
      var ex := repo.GetExecution(child);
      ex := ex.(input := input[ProvenanceKey := Provenance(req, src, child, now)]);
      ex := Append(ex, ReplayCreated(req.sourceId, req.mode), now);
      repo.UpdateExecution(ex);
      assert ex.timeline == [Row(now, ReplayCreated(req.sourceId, req.mode))];
      assert repo.cases[child] == ReplayCase(c, req, child, now);
      ReplayRests(c, req, child, now);
      RestingSaved(old(repo.cases), child, ReplayCase(c, req, child, now), repo.cases);
    }
  }

  // ---------------------------------------------------------------- chains of replays

  /** The business part of an input: without the two keys the platform itself writes. */
  function Payload(input: Dict): Dict {
    input - {ProvenanceKey, RuntimeMetaKey}
  }

  /** Metadata patches, the only other change to an input, leave the payload alone. */
  lemma MetaKeepsPayload(input: Dict, ps: seq<Patch>)
    ensures Payload(ApplyMeta(input, ps)) == Payload(input)
  {
    var r := ApplyMeta(input, ps);
    forall k ensures k in Payload(r) <==> k in Payload(input) {
      assert k in r - {RuntimeMetaKey} <==> k in input - {RuntimeMetaKey};
    }
    forall k | k in Payload(r) ensures Payload(r)[k] == Payload(input)[k] {
      assert (r - {RuntimeMetaKey})[k] == (input - {RuntimeMetaKey})[k];
    }
  }

  lemma SectionKeepsPayload(s: Sys, a: Action)
    ensures Payload(Apply(s, a).c.ex.input) == Payload(s.c.ex.input)
  {
    var input := s.c.ex.input;
    match a
    case Engine(i) => EngineKeepsPayload(s, i);
    case Enqueue(at) => MetaKeepsPayload(input, QueuedPatch(at));
    case WorkerMark(worker, at) => MetaKeepsPayload(input, WorkerPatch(worker, at));
    case RequestCancel(why, at) => MetaKeepsPayload(input, CancelPatch(why, at));
    case CancelNow(why, at) => MetaKeepsPayload(input, CancelPatch(why, at));
    case SubmitApproval(d, approver, id, at) => Effects.ApprovalEffect(s.c, d, approver, id, at);
    case _ =>
  }

  lemma EngineKeepsPayload(s: Sys, input: Input)
    ensures Payload(Apply(s, Action.Engine(input)).c.ex.input) == Payload(s.c.ex.input)
  {
    match s.pc
    case AtStart => Effects.BeginEffect(s.c, input);
    case AtLoop => Effects.LoopHeadEffect(s.c, input.now);
    case AtDecide => Effects.DecideEffect(s.c, input);
    case AtCancel => MetaKeepsPayload(s.c.ex.input, CancelPatch(FlagSeen, input.now));
    case AtRaised(reason) => Effects.FailEffect(s.c, reason, input.now);
    case AtRest(_) =>
    case _ => Effects.StepEffect(s.c, s.pc, input);
  }

  /** Whatever happens to an execution, its payload is the one it was created with. */
  lemma {:induction false} RunKeepsPayload(s: Sys, acts: seq<Action>)
    ensures Payload(Run(s, acts).c.ex.input) == Payload(s.c.ex.input)
    decreases |acts|
  {
    if acts != [] {
      SectionKeepsPayload(s, acts[0]);
      RunKeepsPayload(Apply(s, acts[0]), acts[1..]);
    }
  }

  /** What happens to one generation, and the accepted request that makes the next. */
  datatype Link = Link(acts: seq<Action>, req: Request, child: Id, now: Time)

  ghost function NextGeneration(s: Sys, link: Link): Sys {
    Sys(ReplayCase(Run(s, link.acts).c, link.req, link.child, link.now), AtRest(false))
  }

  ghost function Descendant(s: Sys, links: seq<Link>): Sys
    decreases |links|
  {
    if links == [] then s else Descendant(NextGeneration(s, links[0]), links[1..])
  }

  /** The overrides of the investigative requests of a chain, applied in order. */
  function OverridesInOrder(payload: Dict, links: seq<Link>): Dict
    decreases |links|
  {
    if links == [] then payload
    else
      var req := links[0].req;
      OverridesInOrder(
        if req.mode.Investigative? && req.overrides.Some? then payload + Payload(req.overrides.value) else payload,
        links[1..])
  }

  lemma ReplayPayload(src: Execution, req: Request, child: Id, now: Time)
    ensures Payload(ReplayInput(src, req, child, now)) ==
      if req.mode.Investigative? && req.overrides.Some? then Payload(src.input) + Payload(req.overrides.value)
      else Payload(src.input)
  {
  }

  /** The input of the child of an accepted request, key by key: an exact child has the
      source's, an investigative one the requested value where one is requested. */
  lemma ChildInput(c: Case, req: Request, child: Id, now: Time, key: Key)
    requires Rejection(req).None? && key != ProvenanceKey
    ensures var source, input := c.ex.input, ReplayCase(c, req, child, now).ex.input;
      if req.mode.Investigative? && req.overrides.Some? && key in req.overrides.value
      then key in input && input[key] == req.overrides.value[key]
      else (key in input <==> key in source) && (key in source ==> input[key] == source[key])
  {
  }

  /** What the child's provenance says: its source and how it was asked for, and the
      overrides exactly as requested. */
  lemma ChildProvenance(c: Case, req: Request, child: Id, now: Time)
    requires Rejection(req).None?
    ensures var src, input := c.ex, ReplayCase(c, req, child, now).ex.input;
      && ProvenanceKey in input && input[ProvenanceKey].JObj?
      && TellsOfSource(input[ProvenanceKey].fields, req, src.planId, child, now)
      && TellsOfRequest(input[ProvenanceKey].fields, req)
  {
    ProvenanceOfSource(req, c.ex, child, now);
    ProvenanceOfRequest(req, c.ex, child, now);
  }

  lemma ProvenanceOfSource(req: Request, src: Execution, child: Id, now: Time)
    ensures TellsOfSource(Provenance(req, src, child, now).fields, req, src.planId, child, now)
  {
  }

  lemma ProvenanceOfRequest(req: Request, src: Execution, child: Id, now: Time)
    requires Rejection(req).None?
    ensures TellsOfRequest(Provenance(req, src, child, now).fields, req)
  {
    assert AppliedOverrides(req) == if req.overrides.Some? then req.overrides.value else map[];
  }

  /** The source, the child, the plan the replay is anchored to and the time. */
  predicate TellsOfSource(told: Dict, req: Request, planId: Option<Id>, child: Id, now: Time) {
    && Tells(told, "source_execution_id", JNum(req.sourceId))
    && Tells(told, "created_execution_id", JNum(child))
    && (req.anchorPlanId.Some? ==> Tells(told, "anchor_plan_id", JNum(req.anchorPlanId.value)))
    && (req.anchorPlanId.None? && planId.Some? ==> Tells(told, "anchor_plan_id", JNum(planId.value)))
    && Tells(told, "created_at", JNum(now))
  }

  /** What was asked for, by whom and why. */
  predicate TellsOfRequest(told: Dict, req: Request) {
    && Tells(told, "replay_mode", JStr(if req.mode.Exact? then "exact" else "investigative"))
    && Tells(told, "input_overrides", JObj(if req.overrides.Some? then req.overrides.value else map[]))
    && Tells(told, "environment_target", if req.environment.Prod? then JStr("prod") else JStr(req.environment.name))
    && Tells(told, "reason", if req.reason.Some? then JStr(req.reason.value) else JNull)
    && Tells(told, "label", if req.tag.Some? then JStr(req.tag.value) else JNull)
    && Tells(told, "requested_by", if req.requestedBy.Some? then JStr(req.requestedBy.value) else JNull)
  }

  /** The rest of the child's rows: a new execution of the source's workflow, in its policy
      scope and the requested environment, whose one row names the source and the mode. */
  lemma ChildRecord(c: Case, req: Request, child: Id, now: Time)
    requires c.ctx.Some?
    ensures var made := ReplayCase(c, req, child, now);
      && made.ex.executionId == child && made.ex.parentId == Some(req.sourceId)
      && made.ex.workflow == c.ex.workflow && made.ex.status.Created? && made.ex.planId.None?
      && made.ex.timeline == [Row(now, ReplayCreated(req.sourceId, req.mode))]
      && made.ex.createdAt == made.ex.updatedAt == now
      && made.ctx == Some(Context(req.environment, c.ctx.value.policyScope))
      && made.steps == map[] && made.results == map[] && made.approvals == map[]
  {
  }

  /** Which requests are accepted. */
  lemma AcceptedIff(req: Request)
    ensures Rejection(req).None? <==>
      && (req.environment.Prod? || exists i :: 0 <= i < |req.environment.name| && !IsSpace(req.environment.name[i]))
      && match req.mode
         case Exact => (req.overrides.None? || req.overrides.value == map[]) && req.overridePlan.None?
         case Investigative =>
           && (HasText(req.reason) || HasText(req.tag))
           && (req.overrides.None? || ProvenanceKey !in req.overrides.value)
  {
    if !req.environment.Prod? {
      SomeText(req.environment.name);
    }
    if req.reason.Some? {
      SomeText(req.reason.value);
    }
    if req.tag.Some? {
      SomeText(req.tag.value);
    }
  }

  predicate HasText(text: Option<string>) {
    text.Some? && exists i :: 0 <= i < |text.value| && !IsSpace(text.value[i])
  }

  lemma SomeText(text: string)
    ensures !Blank(text) <==> exists i :: 0 <= i < |text| && !IsSpace(text[i])
  {
    if !Blank(text) {
      var c :| c in text && !IsSpace(c);
      var i :| 0 <= i < |text| && text[i] == c;
    }
  }

  predicate Tells(told: Dict, name: string, value: Json) {
    Field(name) in told && told[Field(name)] == value
  }

  /** Along any chain of replays, whatever is done to each generation before the next is
      made from it, the payload is the root's with the overrides applied in order. */
  lemma {:induction false} ChainPayload(s: Sys, links: seq<Link>)
    ensures Payload(Descendant(s, links).c.ex.input) == OverridesInOrder(Payload(s.c.ex.input), links)
    decreases |links|
  {
    if links != [] {
      RunKeepsPayload(s, links[0].acts);
      ReplayPayload(Run(s, links[0].acts).c.ex, links[0].req, links[0].child, links[0].now);
      ChainPayload(NextGeneration(s, links[0]), links[1..]);
    }
  }

  /** Exact replays add nothing. */
  lemma {:induction false} ExactChainPayload(s: Sys, links: seq<Link>)
    requires forall l :: l in links ==> l.req.mode.Exact?
    ensures Payload(Descendant(s, links).c.ex.input) == Payload(s.c.ex.input)
  {
    ChainPayload(s, links);
    ExactAddsNothing(Payload(s.c.ex.input), links);
  }

  lemma {:induction false} ExactAddsNothing(payload: Dict, links: seq<Link>)
    requires forall l :: l in links ==> l.req.mode.Exact?
    ensures OverridesInOrder(payload, links) == payload
    decreases |links|
  {
    if links != [] {
      assert payload + Payload(map[]) == payload;
      ExactAddsNothing(payload, links[1..]);
    }
  }

  /** Every generation keeps the workflow and the policy scope of the root, and is
      itself a fresh execution. */
  lemma {:induction false} ChainScope(s: Sys, links: seq<Link>)
    requires Initial(s)
    ensures var t := Descendant(s, links);
      && Initial(t) && t.c.ex.workflow == s.c.ex.workflow
      && t.c.ctx.value.policyScope == s.c.ctx.value.policyScope
    decreases |links|
  {
    if links != [] {
      IdentityKept(s, links[0].acts);
      var t := NextGeneration(s, links[0]);
      ReplayRests(Run(s, links[0].acts).c, links[0].req, links[0].child, links[0].now);
      ChainScope(t, links[1..]);
    }
  }

  /** Replaying does not get around policy: no descendant of an incident execution in a
      denying scope ever completes, whatever environment its replays ask for. */
  lemma DeniedReplaysNeverComplete(s: Sys, links: seq<Link>, acts: seq<Action>)
    requires Initial(s) && s.c.ex.workflow.IncidentTriage? && Policy.DeniesEscalation(s.c.ctx.value)
    ensures !Run(Descendant(s, links), acts).c.ex.status.Completed?
  {
    ChainScope(s, links);
    DeniedNeverCompletes(Descendant(s, links), acts);
  }

  /** The environment a generation runs in: the one its own request asked for. */
  function LastEnvironment(env: Environment, links: seq<Link>): Environment {
    if links == [] then env else links[|links| - 1].req.environment
  }

  lemma {:induction false} ChainEnvironment(s: Sys, links: seq<Link>)
    requires Initial(s)
    ensures Descendant(s, links).c.ctx.Some?
    ensures Descendant(s, links).c.ctx.value.environment == LastEnvironment(s.c.ctx.value.environment, links)
    decreases |links|
  {
    if links != [] {
      IdentityKept(s, links[0].acts);
      ReplayRests(Run(s, links[0].acts).c, links[0].req, links[0].child, links[0].now);
      ChainEnvironment(NextGeneration(s, links[0]), links[1..]);
    }
  }

  /** What policy asks of a descendant: the scope's denial and approval duty are the root's,
      but the duty of `prod` goes with the environment of the last request alone.  So a
      replay outside `prod` of a `prod` execution in an unconditional scope needs no
      approval, and a replay into `prod` always does. */
  lemma ApprovalDuty(s: Sys, links: seq<Link>)
    requires Initial(s)
    ensures Descendant(s, links).c.ctx.Some?
    ensures var root, ctx := s.c.ctx.value, Descendant(s, links).c.ctx.value;
      var env := LastEnvironment(root.environment, links);
      && (Policy.NeedsApproval(ctx) <==> env.Prod? || root.policyScope.Phase3Conditional?)
      && (Policy.NeedsApproval(root) && !Policy.NeedsApproval(ctx) <==>
            root.environment.Prod? && !env.Prod? && !root.policyScope.Phase3Conditional?)
      && Policy.Decision(ctx, EscalateIncident) ==
           if root.policyScope.Phase3Deny? then Deny
           else if env.Prod? || root.policyScope.Phase3Conditional? then Conditional
           else Allow
  {
    ChainScope(s, links);
    ChainEnvironment(s, links);
  }

  /** Along any chain, a descendant that replays into `prod`, or whose root has a
      conditional scope, completes only after an approval of its own. */
  lemma ReplayNeedsApproval(s: Sys, links: seq<Link>, acts: seq<Action>) returns (i: nat)
    requires Initial(s) && s.c.ex.workflow.IncidentTriage?
    requires LastEnvironment(s.c.ctx.value.environment, links).Prod? || s.c.ctx.value.policyScope.Phase3Conditional?
    requires Run(Descendant(s, links), acts).c.ex.status.Completed?
    ensures ApprovedAt(Descendant(s, links), acts, i)
  {
    ChainScope(s, links);
    ApprovalDuty(s, links);
    i := ConditionalNeedsApproval(Descendant(s, links), acts);
  }

  // ---------------------------------------------------------------- the copied flag

  /** Runtime metadata is not stripped: an exact replay inherits the cancellation flag. */
  lemma ExactCopiesFlag(src: Execution, req: Request, child: Id, now: Time)
    requires req.mode.Exact?
    ensures CancellationRequested(ReplayInput(src, req, child, now)) <==> CancellationRequested(src.input)
  {
    assert ReadMeta(ReplayInput(src, req, child, now)) == ReadMeta(src.input);
  }

  predicate NothingRan(c: Case) {
    && StartedSteps(c.ex.timeline) == [] && c.results == map[]
    && (forall sid :: sid in c.steps ==> c.steps[sid].status.Pending?)
  }

  /** So an exact replay of a flagged source that is started at once plans, is cancelled,
      and never runs a step. */
  lemma FlaggedReplayNeverRuns(
    c: Case, req: Request, child: Id, now: Time, acts: seq<Action>, c': Case, crashed: bool)
    requires c.ctx.Some? && req.mode.Exact? && CancellationRequested(c.ex.input)
    requires StartedTo(ReplayCase(c, req, child, now), acts, c', crashed)
    ensures NothingRan(c') && (!crashed ==> c'.ex.status.Cancelled?)
  {
    ExactCopiesFlag(c.ex, req, child, now);
    ReplayRests(c, req, child, now);
    FlaggedStart(ReplayCase(c, req, child, now), acts, c', crashed);
  }

  lemma OneMore(s: Sys, acts: seq<Action>)
    requires Run(s, acts).pc.AtRest? && !s.pc.AtRest?
    ensures acts != [] && Run(s, acts) == Run(Apply(s, acts[0]), acts[1..])
  {
  }

  lemma FlaggedStart(c: Case, acts: seq<Action>, c': Case, crashed: bool)
    requires Fresh(c) && CancellationRequested(c.ex.input) && StartedTo(c, acts, c', crashed)
    ensures NothingRan(c') && (!crashed ==> c'.ex.status.Cancelled?)
  {
    var s1 := Apply(Sys(c, AtStart), acts[0]);
    FreshBegins(c, acts[0].input);
    if s1.pc.AtRest? {
      RestingStays(s1, acts[1..]);
    } else {
      FlaggedLoop(s1.c, acts[1..]);
    }
  }

  lemma FlaggedLoop(c: Case, acts: seq<Action>)
    requires NothingRan(c) && c.ex.status.Executing? && CancellationRequested(c.ex.input)
    requires EngineOnly(acts) && Run(Sys(c, AtLoop), acts).pc.AtRest?
    ensures var t := Run(Sys(c, AtLoop), acts);
      NothingRan(t.c) && t.c.ex.status.Cancelled? && t.pc == AtRest(false)
  {
    var s := Sys(c, AtLoop);
    OneMore(s, acts);
    assert Apply(s, acts[0]) == Sys(c, AtCancel);
    OneMore(Sys(c, AtCancel), acts[1..]);
    var now := acts[1].input.now;
    assert Apply(Sys(c, AtCancel), acts[1]) == Sys(Cancel(c, FlagSeen, now), AtRest(false));
    CancelRunsNothing(c, now);
    RestingStays(Sys(Cancel(c, FlagSeen, now), AtRest(false)), acts[1..][1..]);
  }

  lemma FreshBegins(c: Case, input: Input)
    requires Fresh(c)
    ensures var (c', pc') := Begin(c, input);
      && NothingRan(c') && c'.ex.input == c.ex.input
      && (pc' == AtRest(true) || (pc' == AtLoop && c'.ex.status.Executing?))
  {
    QuietRows(c.ex.timeline);
    QuietStatuses(c.ex.timeline, Row(input.now, StatusRow(Planning)), Row(input.now, StatusRow(Executing)));
    if EdgesResolve(input.draft) {
      NewStepsAlone(c.steps, NewSteps(input.draft, c.ex.executionId, input.newId, input.now));
    }
  }

  lemma QuietStatuses(tl: seq<Row>, a: Row, b: Row)
    requires a.event.StatusRow? && b.event.StatusRow? && StartedSteps(tl) == []
    ensures StartedSteps(tl + [a]) == [] && StartedSteps(tl + [a] + [b]) == []
  {
    Snoc(tl, a);
    Snoc(tl + [a], b);
  }

  lemma NewStepsAlone(steps: map<Id, Step>, added: map<Id, Step>)
    requires steps == map[] && forall sid :: sid in added ==> added[sid].status.Pending?
    ensures forall sid :: sid in steps + added ==> (steps + added)[sid].status.Pending?
  {
  }

  lemma CancelRunsNothing(c: Case, now: Time)
    requires NothingRan(c) && c.ex.status.Executing?
    ensures NothingRan(Cancel(c, FlagSeen, now)) && Cancel(c, FlagSeen, now).ex.status.Cancelled?
  {
    Snoc(c.ex.timeline, Row(now, StatusRow(Cancelled)));
  }
}
