/** The structural comparison of a source execution with a replay.  Every item names a
    path; the comparison is sound, complete and free of duplicates with respect to what
    the two sides hold at each path. */
module ReplayDiff {
  import opened StateMachine
  import opened Records
  import opened RuntimeMeta
  import opened Lifecycle
  import Replay

  datatype Reasoning = Reasoning(path: Json, task: Json)

  datatype ResultView = ResultView(completeness: Json, confidence: Json, validation: Json, output: Json)

  datatype StepView = StepView(stepType: string, status: StepStatus, agent: string, result: Option<ResultView>)

  datatype ToolView = ToolView(name: string, status: string, sideEffect: string, idempotency: string)

  datatype EvaluationView = EvaluationView(decision: PolicyDecision, reason: string)

  datatype ProvenanceView = ProvenanceView(sourceId: Id, overrides: Dict)

  /** Everything the comparison reads of one execution; steps and tool calls in order of
      creation, absent optional values as null. */
  datatype Artifacts = Artifacts(
    id: Id,
    parentId: Option<Id>,
    provenance: Option<ProvenanceView>,
    status: ExecutionStatus,
    workflow: Workflow,
    planId: Option<Id>,
    input: Dict,
    validationSummary: Json,
    result: Option<Dict>,
    steps: seq<StepView>,
    reasoning: seq<Reasoning>,
    tools: seq<ToolView>,
    evaluations: seq<EvaluationView>,
    proposals: nat,
    approvals: seq<ApprovalDecision>)

  // ---------------------------------------------------------------- paths and projections

  datatype Header = StatusHeader | WorkflowHeader | PlanHeader | ValidationHeader | ResultHeader

  datatype List = Steps | ReasoningEvents | ToolCalls | Evaluations | Proposals | Approvals

  datatype Part =
    | Whole | TypePart | StatusPart | AgentPart | ResultPart | CompletenessPart | ConfidencePart
    | OutcomePart | OutputPart(key: Key) | PathPart | TaskPart | NamePart | SideEffectPart
    | IdempotencyPart | DecisionPart | ReasonPart

  datatype Path =
    | Lineage | LineageParent | OverridesPath
    | HeaderPath(header: Header)
    | InputPath(key: Key)
    | CountPath(list: List)
    | At(list: List, index: nat, part: Part)
    | ResultField(key: Key)

  predicate AboutLineage(p: Path) {
    p.Lineage? || p.LineageParent? || p.OverridesPath?
  }

  datatype Value =
    | Doc(json: Json) | Text(text: string) | Count(n: nat) | Present(there: bool) | Ref(id: Option<Id>)
    | State(state: ExecutionStatus) | StepState(step: StepStatus) | Flow(workflow: Workflow)
    | Decision(decision: PolicyDecision) | Verdict(verdict: ApprovalDecision)

  const RESULT_KEYS: seq<Key> := [
    Field("status"), Field("outcome"), Field("summary"), Field("validation"), Field("governance"),
    Field("error"), Field("message")]

  const OUTPUT_KEYS: seq<Key> := [
    Field("status"), Field("outcome"), Field("summary"), Field("severity"), Field("root_cause"),
    Field("recommendation")]

  /** Absent and null are the same. */
  function Get(d: Dict, key: Key): Json {
    if key in d then d[key] else JNull
  }

  function BusinessInput(input: Dict): Dict {
    input - {ProvenanceKey}
  }

  function StepPartOf(s: StepView, part: Part): Option<Value> {
    match part
    case TypePart => Some(Text(s.stepType))
    case StatusPart => Some(StepState(s.status))
    case AgentPart => Some(Text(s.agent))
    case ResultPart => Some(Present(s.result.Some?))
    case CompletenessPart => if s.result.Some? then Some(Doc(s.result.value.completeness)) else None
    case ConfidencePart => if s.result.Some? then Some(Doc(s.result.value.confidence)) else None
    case OutcomePart => if s.result.Some? then Some(Doc(s.result.value.validation)) else None
    case OutputPart(key) =>
      if s.result.Some? && s.result.value.output.JObj? && key in OUTPUT_KEYS
      then Some(Doc(Get(s.result.value.output.fields, key)))
      else None
    case _ => None
  }

  function ToolPartOf(t: ToolView, part: Part): Option<Value> {
    match part
    case NamePart => Some(Text(t.name))
    case StatusPart => Some(Text(t.status))
    case SideEffectPart => Some(Text(t.sideEffect))
    case IdempotencyPart => Some(Text(t.idempotency))
    case _ => None
  }

  function SizeOf(a: Artifacts, list: List): nat {
    match list
    case Steps => |a.steps|
    case ReasoningEvents => |a.reasoning|
    case ToolCalls => |a.tools|
    case Evaluations => |a.evaluations|
    case Proposals => a.proposals
    case Approvals => |a.approvals|
  }

  /** The part of the `i`th entry of a list, where there is one. */
  function PartAt(a: Artifacts, list: List, i: nat, part: Part): Option<Value> {
    if list.Steps? && part.Whole? then Some(Present(i < |a.steps|))
    else if i >= SizeOf(a, list) then None
    else
      match list
      case Steps => StepPartOf(a.steps[i], part)
      case ReasoningEvents =>
        if part.PathPart? then Some(Doc(a.reasoning[i].path))
        else if part.TaskPart? then Some(Doc(a.reasoning[i].task))
        else None
      case ToolCalls => ToolPartOf(a.tools[i], part)
      case Evaluations =>
        if part.DecisionPart? then Some(Decision(a.evaluations[i].decision))
        else if part.ReasonPart? then Some(Text(a.evaluations[i].reason))
        else None
      case Proposals => None
      case Approvals => if part.DecisionPart? then Some(Verdict(a.approvals[i])) else None
  }

  /** What an execution holds at a path, if the path means anything there. */
  function Project(a: Artifacts, p: Path): Option<Value> {
    match p
    case HeaderPath(StatusHeader) => Some(State(a.status))
    case HeaderPath(WorkflowHeader) => Some(Flow(a.workflow))
    case HeaderPath(PlanHeader) => Some(Ref(a.planId))
    case HeaderPath(ValidationHeader) => Some(Doc(a.validationSummary))
    case HeaderPath(ResultHeader) => Some(Present(a.result.Some?))
    case InputPath(key) => Some(Doc(Get(BusinessInput(a.input), key)))
    case CountPath(list) => Some(Count(SizeOf(a, list)))
    case At(list, i, part) => PartAt(a, list, i, part)
    case ResultField(key) =>
      if a.result.Some? && key in RESULT_KEYS then Some(Doc(Get(a.result.value, key))) else None
    case _ => None
  }

  /** The compared projections differ at `p`.  Reasons of policy evaluations are compared
      only where the decisions agree. */
  predicate DiffersAt(a: Artifacts, b: Artifacts, p: Path) {
    && Project(a, p).Some? && Project(b, p).Some? && Project(a, p) != Project(b, p)
    && (p.At? && p.list.Evaluations? && p.part.ReasonPart? ==>
          Project(a, p.(part := DecisionPart)) == Project(b, p.(part := DecisionPart)))
  }

  datatype Severity = Info | Warning | Significant

  predicate KnownModelPath(j: Json) {
    j == JStr("model_runtime") || j == JStr("deterministic_fallback")
  }

  function SeverityOf(a: Artifacts, b: Artifacts, p: Path): Severity {
    match p
    case HeaderPath(h) => if h.StatusHeader? || h.WorkflowHeader? then Significant else Warning
    case InputPath(key) =>
      if b.provenance.Some? && key in b.provenance.value.overrides then Info else Warning
    case CountPath(list) =>
      if list.Steps? then Significant else if list.Proposals? then Info else Warning
    case At(list, i, part) =>
      (match part
       case Whole => Significant
       case DecisionPart => Significant
       case PathPart =>
         if i < |a.reasoning| && i < |b.reasoning|
            && KnownModelPath(a.reasoning[i].path) && KnownModelPath(b.reasoning[i].path)
         then Warning else Significant
       case AgentPart => Info
       case ConfidencePart => Info
       case OutputPart(_) => Info
       case TaskPart => Info
       case SideEffectPart => Info
       case IdempotencyPart => Info
       case ReasonPart => Info
       case _ => Warning)
    case _ => Warning
  }

  datatype Item = Item(path: Path, severity: Severity)

  // ---------------------------------------------------------------- the items for given paths

  function ItemIf(a: Artifacts, b: Artifacts, p: Path): seq<Item> {
    if DiffersAt(a, b, p) then [Item(p, SeverityOf(a, b, p))] else []
  }

  function ItemsFor(a: Artifacts, b: Artifacts, ps: seq<Path>): seq<Item> {
    if ps == [] then [] else ItemsFor(a, b, ps[..|ps| - 1]) + ItemIf(a, b, ps[|ps| - 1])
  }

  lemma ItemsSnoc(a: Artifacts, b: Artifacts, ps: seq<Path>, p: Path)
    ensures ItemsFor(a, b, ps + [p]) == ItemsFor(a, b, ps) + ItemIf(a, b, p)
  {
    assert (ps + [p])[..|ps|] == ps;
  }

  lemma {:induction false} ItemsConcat(a: Artifacts, b: Artifacts, ps: seq<Path>, qs: seq<Path>)
    ensures ItemsFor(a, b, ps + qs) == ItemsFor(a, b, ps) + ItemsFor(a, b, qs)
  {
    if qs == [] {
      assert ps + qs == ps;
    } else {
      assert (ps + qs)[..|ps + qs| - 1] == ps + qs[..|qs| - 1];
      ItemsConcat(a, b, ps, qs[..|qs| - 1]);
    }
  }

  predicate Distinct(ps: seq<Path>) {
    forall i, j :: 0 <= i < j < |ps| ==> ps[i] != ps[j]
  }

  predicate HasItem(items: seq<Item>, p: Path) {
    exists i :: 0 <= i < |items| && items[i].path == p
  }

  predicate DistinctItems(items: seq<Item>) {
    forall i, j :: 0 <= i < j < |items| ==> items[i].path != items[j].path
  }

  lemma {:induction false} ItemsExact(a: Artifacts, b: Artifacts, ps: seq<Path>)
    ensures forall p :: HasItem(ItemsFor(a, b, ps), p) <==> p in ps && DiffersAt(a, b, p)
    ensures forall it :: it in ItemsFor(a, b, ps) ==> it.severity == SeverityOf(a, b, it.path)
    ensures Distinct(ps) ==> DistinctItems(ItemsFor(a, b, ps))
  {
    if ps != [] {
      var init, last := ps[..|ps| - 1], ps[|ps| - 1];
      ItemsExact(a, b, init);
      var items := ItemsFor(a, b, init);
      if DiffersAt(a, b, last) {
        assert ItemsFor(a, b, ps)[|items|].path == last;
      }
      forall p ensures HasItem(ItemsFor(a, b, ps), p) <==> p in ps && DiffersAt(a, b, p) {
        MoreItems(items, ItemIf(a, b, last), p);
        assert p in ps <==> p in init || p == last;
      }
      if Distinct(ps) && DiffersAt(a, b, last) {
        assert !HasItem(items, last);
      }
    }
  }

  lemma MoreItems(items: seq<Item>, more: seq<Item>, p: Path)
    requires |more| <= 1
    ensures HasItem(items + more, p) <==> HasItem(items, p) || (more != [] && more[0].path == p)
  {
    if i :| 0 <= i < |items| && items[i].path == p {
      assert (items + more)[i].path == p;
    }
    if more != [] && more[0].path == p {
      assert (items + more)[|items|].path == p;
    }
  }

  // ---------------------------------------------------------------- the paths that are compared

  function PartsOf(list: List): seq<Part> {
    match list
    case Steps =>
      [Whole, TypePart, StatusPart, AgentPart, ResultPart, CompletenessPart, ConfidencePart, OutcomePart]
      + OutputParts(OUTPUT_KEYS)
    case ReasoningEvents => [PathPart, TaskPart]
    case ToolCalls => [NamePart, StatusPart, SideEffectPart, IdempotencyPart]
    case Evaluations => [DecisionPart, ReasonPart]
    case Proposals => []
    case Approvals => [DecisionPart]
  }

  function OutputParts(keys: seq<Key>): seq<Part> {
    seq(|keys|, i requires 0 <= i < |keys| => OutputPart(keys[i]))
  }

  function PathsAt(list: List, i: nat, parts: seq<Part>): seq<Path> {
    seq(|parts|, k requires 0 <= k < |parts| => At(list, i, parts[k]))
  }

  /** The given parts of the first `n` entries of a list. */
  function EntriesOf(list: List, parts: seq<Part>, n: nat): seq<Path> {
    if n == 0 then [] else EntriesOf(list, parts, n - 1) + PathsAt(list, n - 1, parts)
  }

  function EntryPaths(list: List, n: nat): seq<Path> {
    EntriesOf(list, PartsOf(list), n)
  }

  function InputPaths(keys: seq<Key>): seq<Path> {
    seq(|keys|, i requires 0 <= i < |keys| => InputPath(keys[i]))
  }

  function ResultPaths(keys: seq<Key>): seq<Path> {
    seq(|keys|, i requires 0 <= i < |keys| => ResultField(keys[i]))
  }

  function Larger(m: nat, n: nat): nat { if m < n then n else m }

  function Smaller(m: nat, n: nat): nat { if m < n then m else n }

  /** How many entries of a list are looked at: all steps of either side, and of the other
      lists as many as both sides have. */
  function Span(a: Artifacts, b: Artifacts, list: List): nat {
    if list.Steps? then Larger(|a.steps|, |b.steps|) else Smaller(SizeOf(a, list), SizeOf(b, list))
  }

  function ListPaths(a: Artifacts, b: Artifacts, list: List): seq<Path> {
    [CountPath(list)] + EntryPaths(list, Span(a, b, list))
  }

  function EarlyPaths(a: Artifacts, b: Artifacts, keys: seq<Key>): seq<Path> {
    [HeaderPath(StatusHeader), HeaderPath(WorkflowHeader)]
    + InputPaths(keys)
    + ([HeaderPath(PlanHeader)] + [CountPath(Steps)])
    + EntryPaths(Steps, Span(a, b, Steps))
    + ListPaths(a, b, ReasoningEvents)
  }

  function LatePaths(a: Artifacts, b: Artifacts): seq<Path> {
    ListPaths(a, b, ToolCalls)
    + ListPaths(a, b, Evaluations)
    + [CountPath(Proposals)]
    + ListPaths(a, b, Approvals)
    + ([HeaderPath(ValidationHeader), HeaderPath(ResultHeader)] + ResultPaths(RESULT_KEYS))
  }

  /** Every path that is compared, in the order of comparison. */
  function ComparedPaths(a: Artifacts, b: Artifacts, keys: seq<Key>): seq<Path> {
    EarlyPaths(a, b, keys) + LatePaths(a, b)
  }

  ghost predicate ListsOnce(keys: seq<Key>, all: set<Key>) {
    && (forall k :: k in keys <==> k in all)
    && (forall i, j :: 0 <= i < j < |keys| ==> keys[i] != keys[j])
  }

  /** Always true of `true`.  Mentioning it is the request that unfolds `Lists`. */
  predicate Unfold(u: bool) { u }

  /** `items` are the items for `ps`: no more than `items == ItemsFor(a, b, ps)`.  The
      quantifier over `u` keeps the verifier from looking through it unasked: the methods
      below compose such statements by `ListsNothing`, `ListsMore` and `ListsBoth`, and
      would otherwise have the recursion of `ItemsFor` unrolled in each of their proofs. */
  ghost predicate Lists(a: Artifacts, b: Artifacts, ps: seq<Path>, items: seq<Item>) {
    forall u {:trigger Unfold(u)} :: Unfold(u) ==> items == ItemsFor(a, b, ps)
  }

  lemma ListsNothing(a: Artifacts, b: Artifacts)
    ensures Lists(a, b, [], [])
  {
  }

  lemma ListsMore(a: Artifacts, b: Artifacts, ps: seq<Path>, items: seq<Item>, p: Path)
    requires Lists(a, b, ps, items)
    ensures Lists(a, b, ps + [p], items + ItemIf(a, b, p))
  {
    assert Unfold(true);
    ItemsSnoc(a, b, ps, p);
  }

  lemma ListsBoth(a: Artifacts, b: Artifacts, ps: seq<Path>, items: seq<Item>, qs: seq<Path>, more: seq<Item>)
    requires Lists(a, b, ps, items) && Lists(a, b, qs, more)
    ensures Lists(a, b, ps + qs, items + more)
  {
    assert Unfold(true);
    ItemsConcat(a, b, ps, qs);
  }

  // ---------------------------------------------------------------- the comparison, as the source runs it

  /** Append one item when its two values differ. */
  method Note(
    items: seq<Item>, differs: bool, p: Path, severity: Severity,
    ghost a: Artifacts, ghost b: Artifacts, ghost ps: seq<Path>)
    returns (more: seq<Item>)
    requires Lists(a, b, ps, items)
    requires differs == DiffersAt(a, b, p) && (differs ==> severity == SeverityOf(a, b, p))
    ensures Lists(a, b, ps + [p], more)
  {
    ListsMore(a, b, ps, items, p);
    more := items;
    if differs {
      more := more + [Item(p, severity)];
    } else {
      assert items + [] == items;
    }
  }

  method CompareHeader(a: Artifacts, b: Artifacts) returns (out: seq<Item>)
    ensures Lists(a, b, [HeaderPath(StatusHeader), HeaderPath(WorkflowHeader)], out)
  {
    ListsNothing(a, b);
    var status, flow := HeaderPath(StatusHeader), HeaderPath(WorkflowHeader);
    out := Note([], a.status != b.status, status, Significant, a, b, []);
    out := Note(out, a.workflow != b.workflow, flow, Significant, a, b, [] + [status]);
    assert [] + [status] + [flow] == [status, flow];
  }

  method CompareInput(a: Artifacts, b: Artifacts) returns (out: seq<Item>, keys: seq<Key>)
    ensures ListsOnce(keys, BusinessInput(a.input).Keys + BusinessInput(b.input).Keys)
    ensures Lists(a, b, InputPaths(keys), out)
  {
    ListsNothing(a, b);
    var x, y := BusinessInput(a.input), BusinessInput(b.input);
    ghost var all := x.Keys + y.Keys;
    var rest := x.Keys + y.Keys;
    out, keys := [], [];
    assert InputPaths(keys) == [];
    while rest != {}
      invariant rest <= all && ListsOnce(keys, all - rest) && Lists(a, b, InputPaths(keys), out)
      decreases rest
    {
      var key: Key :| key in rest;
      out := CompareKey(a, b, key, out, keys);
      keys := keys + [key];
      rest := rest - {key};
    }
    assert all - rest == all;
  }

  method CompareKey(a: Artifacts, b: Artifacts, key: Key, out: seq<Item>, ghost keys: seq<Key>) returns (more: seq<Item>)
    requires Lists(a, b, InputPaths(keys), out)
    ensures Lists(a, b, InputPaths(keys + [key]), more)
  {
    var x, y := BusinessInput(a.input), BusinessInput(b.input);
    var overridden := b.provenance.Some? && key in b.provenance.value.overrides;
    more := Note(out, Get(x, key) != Get(y, key), InputPath(key), if overridden then Info else Warning,
                 a, b, InputPaths(keys));
    assert InputPaths(keys) + [InputPath(key)] == InputPaths(keys + [key]);
  }

  method CompareCount(a: Artifacts, b: Artifacts, list: List, m: nat, n: nat) returns (out: seq<Item>)
    requires m == SizeOf(a, list) && n == SizeOf(b, list)
    ensures Lists(a, b, [CountPath(list)], out)
  {
    ListsNothing(a, b);
    var severity := if list.Steps? then Significant else if list.Proposals? then Info else Warning;
    out := Note([], m != n, CountPath(list), severity, a, b, []);
    assert [] + [CountPath(list)] == [CountPath(list)];
  }

  method ComparePlan(a: Artifacts, b: Artifacts) returns (out: seq<Item>)
    ensures Lists(a, b, [HeaderPath(PlanHeader)] + [CountPath(Steps)], out)
  {
    ListsNothing(a, b);
    var plan := HeaderPath(PlanHeader);
    out := Note([], a.planId != b.planId, plan, Warning, a, b, []);
    assert [] + [plan] == [plan];
    var count := CompareCount(a, b, Steps, |a.steps|, |b.steps|);
    ListsBoth(a, b, [plan], out, [CountPath(Steps)], count);
    out := out + count;
  }

  // Steps: every index either side has.

  const STEP_PARTS: seq<Part> := [TypePart, StatusPart, AgentPart, ResultPart]
  const RESULT_PARTS: seq<Part> := [CompletenessPart, ConfidencePart, OutcomePart]

  lemma StepPartsSplit()
    ensures PartsOf(Steps) == [Whole] + STEP_PARTS + (RESULT_PARTS + OutputParts(OUTPUT_KEYS))
    ensures PartsOf(Steps) == [Whole] + (STEP_PARTS + RESULT_PARTS + OutputParts(OUTPUT_KEYS))
  {
  }

  lemma PathsSplit(list: List, i: nat, parts: seq<Part>, more: seq<Part>)
    ensures PathsAt(list, i, parts + more) == PathsAt(list, i, parts) + PathsAt(list, i, more)
  {
  }

  method CompareSteps(a: Artifacts, b: Artifacts) returns (out: seq<Item>)
    ensures Lists(a, b, EntryPaths(Steps, Span(a, b, Steps)), out)
  {
    ListsNothing(a, b);
    out := [];
    if a.steps == [] && b.steps == [] {
      return;
    }
    for i := 0 to Larger(|a.steps|, |b.steps|)
      invariant Lists(a, b, EntryPaths(Steps, i), out)
    {
      var items;
      if i >= |a.steps| || i >= |b.steps| {
        OneSided(a, b, i);
        items := [Item(At(Steps, i, Whole), Significant)];
      } else {
        items := CompareStep(a, b, i);
      }
      ListsBoth(a, b, EntryPaths(Steps, i), out, PathsAt(Steps, i, PartsOf(Steps)), items);
      out := out + items;
    }
  }

  /** Paths of an entry that one side does not have lead nowhere. */
  lemma {:induction false} NothingThere(a: Artifacts, b: Artifacts, list: List, i: nat, parts: seq<Part>)
    requires i >= SizeOf(a, list) || i >= SizeOf(b, list)
    requires list.Steps? ==> Whole !in parts
    ensures Lists(a, b, PathsAt(list, i, parts), [])
  {
    ListsNothing(a, b);
    if parts != [] {
      var init, last := parts[..|parts| - 1], parts[|parts| - 1];
      assert last in parts && init + [last] == parts;
      PathsSplit(list, i, init, [last]);
      assert PathsAt(list, i, [last]) == [At(list, i, last)];
      NothingThere(a, b, list, i, init);
      ListsMore(a, b, PathsAt(list, i, init), [], At(list, i, last));
    }
  }

  lemma OneSided(a: Artifacts, b: Artifacts, i: nat)
    requires (i < |a.steps|) != (i < |b.steps|)
    ensures Lists(a, b, PathsAt(Steps, i, PartsOf(Steps)), [Item(At(Steps, i, Whole), Significant)])
  {
    var parts := STEP_PARTS + RESULT_PARTS + OutputParts(OUTPUT_KEYS);
    var whole := At(Steps, i, Whole);
    StepPartsSplit();
    PathsSplit(Steps, i, [Whole], parts);
    assert PathsAt(Steps, i, [Whole]) == [] + [whole];
    ListsNothing(a, b);
    ListsMore(a, b, [], [], whole);
    NothingThere(a, b, Steps, i, parts);
    ListsBoth(a, b, [] + [whole], [Item(whole, Significant)], PathsAt(Steps, i, parts), []);
    assert [Item(whole, Significant)] + [] == [Item(whole, Significant)];
    assert [] + ItemIf(a, b, whole) == [Item(whole, Significant)];
  }

  method CompareStep(a: Artifacts, b: Artifacts, i: nat) returns (out: seq<Item>)
    requires i < |a.steps| && i < |b.steps|
    ensures Lists(a, b, PathsAt(Steps, i, PartsOf(Steps)), out)
  {
    out := CompareStepFields(a, b, i);
    var s, r := a.steps[i].result, b.steps[i].result;
    ghost var later := RESULT_PARTS + OutputParts(OUTPUT_KEYS);
    var items := [];
    if s.Some? && r.Some? {
      items := CompareStepResults(a, b, i, s.value, r.value);
    } else {
      NoResults(a, b, i, later);
    }
    StepPartsSplit();
    PathsSplit(Steps, i, [Whole] + STEP_PARTS, later);
    ListsBoth(a, b, PathsAt(Steps, i, [Whole] + STEP_PARTS), out, PathsAt(Steps, i, later), items);
    out := out + items;
  }

  method CompareStepFields(a: Artifacts, b: Artifacts, i: nat) returns (out: seq<Item>)
    requires i < |a.steps| && i < |b.steps|
    ensures Lists(a, b, PathsAt(Steps, i, [Whole] + STEP_PARTS), out)
  {
    var s, r := a.steps[i], b.steps[i];
    ghost var whole := At(Steps, i, Whole);
    var p, q, t, u := At(Steps, i, TypePart), At(Steps, i, StatusPart), At(Steps, i, AgentPart), At(Steps, i, ResultPart);
    ListsNothing(a, b);
    ListsMore(a, b, [], [], whole);
    assert [] + ItemIf(a, b, whole) == [];
    ghost var ps := [] + [whole];
    out := Note([], s.stepType != r.stepType, p, Warning, a, b, ps);
    out := Note(out, s.status != r.status, q, Warning, a, b, ps + [p]);
    out := Note(out, s.agent != r.agent, t, Info, a, b, ps + [p] + [q]);
    out := Note(out, s.result.Some? != r.result.Some?, u, Warning, a, b, ps + [p] + [q] + [t]);
    assert PathsAt(Steps, i, [Whole] + STEP_PARTS) == ps + [p] + [q] + [t] + [u];
  }

  /** Without two results there is nothing below the presence of a result. */
  lemma PathsSnoc(list: List, i: nat, parts: seq<Part>, last: Part)
    ensures PathsAt(list, i, parts + [last]) == PathsAt(list, i, parts) + [At(list, i, last)]
  {
  }

  lemma NoResult(a: Artifacts, b: Artifacts, i: nat, p: Part)
    requires i < |a.steps| && i < |b.steps| && (a.steps[i].result.None? || b.steps[i].result.None?)
    requires p.CompletenessPart? || p.ConfidencePart? || p.OutcomePart? || p.OutputPart?
    ensures ItemIf(a, b, At(Steps, i, p)) == []
  {
  }

  lemma {:induction false} NoResults(a: Artifacts, b: Artifacts, i: nat, parts: seq<Part>)
    requires i < |a.steps| && i < |b.steps| && (a.steps[i].result.None? || b.steps[i].result.None?)
    requires forall p :: p in parts ==> p.CompletenessPart? || p.ConfidencePart? || p.OutcomePart? || p.OutputPart?
    ensures Lists(a, b, PathsAt(Steps, i, parts), [])
  {
    ListsNothing(a, b);
    if parts != [] {
      var init, last := parts[..|parts| - 1], parts[|parts| - 1];
      assert last in parts && parts == init + [last];
      PathsSnoc(Steps, i, init, last);
      NoResult(a, b, i, last);
      NoResults(a, b, i, init);
      ListsMore(a, b, PathsAt(Steps, i, init), [], At(Steps, i, last));
    }
  }

  method CompareStepResults(a: Artifacts, b: Artifacts, i: nat, s: ResultView, r: ResultView)
    returns (out: seq<Item>)
    requires i < |a.steps| && i < |b.steps|
    requires a.steps[i].result == Some(s) && b.steps[i].result == Some(r)
    ensures Lists(a, b, PathsAt(Steps, i, RESULT_PARTS + OutputParts(OUTPUT_KEYS)), out)
  {
    out := CompareResultParts(a, b, i, s, r);
    var items := [];
    if s.output.JObj? && r.output.JObj? {
      items := CompareOutputs(a, b, i, s.output.fields, r.output.fields, OUTPUT_KEYS);
    } else {
      NoOutputs(a, b, i, OUTPUT_KEYS);
    }
    ghost var outputs := OutputParts(OUTPUT_KEYS);
    PathsSplit(Steps, i, RESULT_PARTS, outputs);
    ListsBoth(a, b, PathsAt(Steps, i, RESULT_PARTS), out, PathsAt(Steps, i, outputs), items);
    out := out + items;
  }

  method CompareResultParts(a: Artifacts, b: Artifacts, i: nat, s: ResultView, r: ResultView)
    returns (out: seq<Item>)
    requires i < |a.steps| && i < |b.steps|
    requires a.steps[i].result == Some(s) && b.steps[i].result == Some(r)
    ensures Lists(a, b, PathsAt(Steps, i, RESULT_PARTS), out)
  {
    var p, q, t := At(Steps, i, CompletenessPart), At(Steps, i, ConfidencePart), At(Steps, i, OutcomePart);
    ListsNothing(a, b);
    out := Note([], s.completeness != r.completeness, p, Warning, a, b, []);
    out := Note(out, s.confidence != r.confidence, q, Info, a, b, [] + [p]);
    out := Note(out, s.validation != r.validation, t, Warning, a, b, [] + [p] + [q]);
    assert PathsAt(Steps, i, RESULT_PARTS) == [] + [p] + [q] + [t];
  }

  lemma OutputsSnoc(i: nat, keys: seq<Key>, key: Key)
    ensures PathsAt(Steps, i, OutputParts(keys + [key]))
         == PathsAt(Steps, i, OutputParts(keys)) + [At(Steps, i, OutputPart(key))]
  {
  }

  lemma {:induction false} NoOutputs(a: Artifacts, b: Artifacts, i: nat, keys: seq<Key>)
    requires i < |a.steps| && i < |b.steps| && a.steps[i].result.Some? && b.steps[i].result.Some?
    requires !a.steps[i].result.value.output.JObj? || !b.steps[i].result.value.output.JObj?
    ensures Lists(a, b, PathsAt(Steps, i, OutputParts(keys)), [])
  {
    ListsNothing(a, b);
    if keys != [] {
      var init, last := keys[..|keys| - 1], keys[|keys| - 1];
      assert init + [last] == keys;
      OutputsSnoc(i, init, last);
      NoOutputs(a, b, i, init);
      ListsMore(a, b, PathsAt(Steps, i, OutputParts(init)), [], At(Steps, i, OutputPart(last)));
    }
  }

  lemma OutputDiffers(a: Artifacts, b: Artifacts, i: nat, x: Dict, y: Dict, key: Key)
    requires i < |a.steps| && i < |b.steps| && a.steps[i].result.Some? && b.steps[i].result.Some?
    requires a.steps[i].result.value.output == JObj(x) && b.steps[i].result.value.output == JObj(y)
    requires key in OUTPUT_KEYS
    ensures DiffersAt(a, b, At(Steps, i, OutputPart(key))) <==> (key in x || key in y) && Get(x, key) != Get(y, key)
    ensures SeverityOf(a, b, At(Steps, i, OutputPart(key))) == Info
  {
  }

  /** The chosen fields of two output documents. */
  method CompareOutputs(a: Artifacts, b: Artifacts, i: nat, x: Dict, y: Dict, keys: seq<Key>) returns (out: seq<Item>)
    requires i < |a.steps| && i < |b.steps| && a.steps[i].result.Some? && b.steps[i].result.Some?
    requires a.steps[i].result.value.output == JObj(x) && b.steps[i].result.value.output == JObj(y)
    requires forall key :: key in keys ==> key in OUTPUT_KEYS
    ensures Lists(a, b, PathsAt(Steps, i, OutputParts(keys)), out)
  {
    ListsNothing(a, b);
    out := [];
    for k := 0 to |keys|
      invariant Lists(a, b, PathsAt(Steps, i, OutputParts(keys[..k])), out)
    {
      var key := keys[k];
      assert keys[..k + 1] == keys[..k] + [key];
      var differs := (key in x || key in y) && Get(x, key) != Get(y, key);
      OutputsSnoc(i, keys[..k], key);
      OutputDiffers(a, b, i, x, y, key);
      out := Note(out, differs, At(Steps, i, OutputPart(key)), Info, a, b, PathsAt(Steps, i, OutputParts(keys[..k])));
    }
    assert keys[..|keys|] == keys;
  }

  // The other lists: as many entries as both sides have.

  /** The count of a list and then its entries, one after the other. */
  ghost predicate ListsUpTo(a: Artifacts, b: Artifacts, list: List, n: nat, out: seq<Item>) {
    forall u {:trigger Unfold(u)} :: Unfold(u) ==> Lists(a, b, [CountPath(list)] + EntryPaths(list, n), out)
  }

  lemma ListDone(a: Artifacts, b: Artifacts, list: List, out: seq<Item>)
    requires ListsUpTo(a, b, list, Span(a, b, list), out)
    ensures Lists(a, b, ListPaths(a, b, list), out)
  {
    assert Unfold(true);
  }

  method StartList(a: Artifacts, b: Artifacts, list: List, m: nat, n: nat) returns (out: seq<Item>)
    requires m == SizeOf(a, list) && n == SizeOf(b, list)
    ensures ListsUpTo(a, b, list, 0, out)
  {
    out := CompareCount(a, b, list, m, n);
    assert [CountPath(list)] + EntryPaths(list, 0) == [CountPath(list)];
  }

  lemma NextEntry(a: Artifacts, b: Artifacts, list: List, i: nat, out: seq<Item>, entry: seq<Item>)
    requires ListsUpTo(a, b, list, i, out) && Lists(a, b, PathsAt(list, i, PartsOf(list)), entry)
    ensures ListsUpTo(a, b, list, i + 1, out + entry)
  {
    assert Unfold(true);
    var ps := [CountPath(list)] + EntryPaths(list, i);
    ListsBoth(a, b, ps, out, PathsAt(list, i, PartsOf(list)), entry);
    assert ps + PathsAt(list, i, PartsOf(list)) == [CountPath(list)] + EntryPaths(list, i + 1);
  }

  method CompareReasoning(a: Artifacts, b: Artifacts) returns (out: seq<Item>)
    ensures Lists(a, b, ListPaths(a, b, ReasoningEvents), out)
  {
    out := StartList(a, b, ReasoningEvents, |a.reasoning|, |b.reasoning|);
    for i := 0 to Smaller(|a.reasoning|, |b.reasoning|)
      invariant ListsUpTo(a, b, ReasoningEvents, i, out)
    {
      var entry := CompareReasoningEvent(a, b, i);
      NextEntry(a, b, ReasoningEvents, i, out, entry);
      out := out + entry;
    }
    ListDone(a, b, ReasoningEvents, out);
  }

  method CompareReasoningEvent(a: Artifacts, b: Artifacts, i: nat) returns (out: seq<Item>)
    requires i < |a.reasoning| && i < |b.reasoning|
    ensures Lists(a, b, PathsAt(ReasoningEvents, i, PartsOf(ReasoningEvents)), out)
  {
    ListsNothing(a, b);
    var s, r := a.reasoning[i], b.reasoning[i];
    var severity := if KnownModelPath(s.path) && KnownModelPath(r.path) then Warning else Significant;
    var p, q := At(ReasoningEvents, i, PathPart), At(ReasoningEvents, i, TaskPart);
    out := Note([], s.path != r.path, p, severity, a, b, []);
    out := Note(out, s.task != r.task, q, Info, a, b, [] + [p]);
    assert PathsAt(ReasoningEvents, i, PartsOf(ReasoningEvents)) == [] + [p] + [q];
  }

  method CompareToolCalls(a: Artifacts, b: Artifacts) returns (out: seq<Item>)
    ensures Lists(a, b, ListPaths(a, b, ToolCalls), out)
  {
    out := StartList(a, b, ToolCalls, |a.tools|, |b.tools|);
    for i := 0 to Smaller(|a.tools|, |b.tools|)
      invariant ListsUpTo(a, b, ToolCalls, i, out)
    {
      var entry := CompareToolCall(a, b, i);
      NextEntry(a, b, ToolCalls, i, out, entry);
      out := out + entry;
    }
    ListDone(a, b, ToolCalls, out);
  }

  lemma ToolCallDiffers(a: Artifacts, b: Artifacts, i: nat)
    requires i < |a.tools| && i < |b.tools|
    ensures var s, r := a.tools[i], b.tools[i];
      && (DiffersAt(a, b, At(ToolCalls, i, NamePart)) <==> s.name != r.name)
      && (DiffersAt(a, b, At(ToolCalls, i, StatusPart)) <==> s.status != r.status)
      && (DiffersAt(a, b, At(ToolCalls, i, SideEffectPart)) <==> s.sideEffect != r.sideEffect)
      && (DiffersAt(a, b, At(ToolCalls, i, IdempotencyPart)) <==> s.idempotency != r.idempotency)
  {
  }

  method CompareToolCall(a: Artifacts, b: Artifacts, i: nat) returns (out: seq<Item>)
    requires i < |a.tools| && i < |b.tools|
    ensures Lists(a, b, PathsAt(ToolCalls, i, PartsOf(ToolCalls)), out)
  {
    ListsNothing(a, b);
    ToolCallDiffers(a, b, i);
    var s, r := a.tools[i], b.tools[i];
    var p, q := At(ToolCalls, i, NamePart), At(ToolCalls, i, StatusPart);
    var t, u := At(ToolCalls, i, SideEffectPart), At(ToolCalls, i, IdempotencyPart);
    out := Note([], s.name != r.name, p, Warning, a, b, []);
    out := Note(out, s.status != r.status, q, Warning, a, b, [] + [p]);
    out := Note(out, s.sideEffect != r.sideEffect, t, Info, a, b, [] + [p] + [q]);
    out := Note(out, s.idempotency != r.idempotency, u, Info, a, b, [] + [p] + [q] + [t]);
    assert PathsAt(ToolCalls, i, PartsOf(ToolCalls)) == [] + [p] + [q] + [t] + [u];
  }

  method CompareEvaluations(a: Artifacts, b: Artifacts) returns (out: seq<Item>)
    ensures Lists(a, b, ListPaths(a, b, Evaluations), out)
  {
    out := StartList(a, b, Evaluations, |a.evaluations|, |b.evaluations|);
    for i := 0 to Smaller(|a.evaluations|, |b.evaluations|)
      invariant ListsUpTo(a, b, Evaluations, i, out)
    {
      var entry := CompareEvaluation(a, b, i);
      NextEntry(a, b, Evaluations, i, out, entry);
      out := out + entry;
    }
    ListDone(a, b, Evaluations, out);
  }

  method CompareEvaluation(a: Artifacts, b: Artifacts, i: nat) returns (out: seq<Item>)
    requires i < |a.evaluations| && i < |b.evaluations|
    ensures Lists(a, b, PathsAt(Evaluations, i, PartsOf(Evaluations)), out)
  {
    ListsNothing(a, b);
    var s, r := a.evaluations[i], b.evaluations[i];
    var p, q := At(Evaluations, i, DecisionPart), At(Evaluations, i, ReasonPart);
    out := Note([], s.decision != r.decision, p, Significant, a, b, []);
    out := Note(out, s.decision == r.decision && s.reason != r.reason, q, Info, a, b, [] + [p]);
    assert PathsAt(Evaluations, i, PartsOf(Evaluations)) == [] + [p] + [q];
  }

  method CompareApprovals(a: Artifacts, b: Artifacts) returns (out: seq<Item>)
    ensures Lists(a, b, ListPaths(a, b, Approvals), out)
  {
    out := StartList(a, b, Approvals, |a.approvals|, |b.approvals|);
    for i := 0 to Smaller(|a.approvals|, |b.approvals|)
      invariant ListsUpTo(a, b, Approvals, i, out)
    {
      var entry := CompareApproval(a, b, i);
      NextEntry(a, b, Approvals, i, out, entry);
      out := out + entry;
    }
    ListDone(a, b, Approvals, out);
  }

  method CompareApproval(a: Artifacts, b: Artifacts, i: nat) returns (out: seq<Item>)
    requires i < |a.approvals| && i < |b.approvals|
    ensures Lists(a, b, PathsAt(Approvals, i, PartsOf(Approvals)), out)
  {
    ListsNothing(a, b);
    var p := At(Approvals, i, DecisionPart);
    out := Note([], a.approvals[i] != b.approvals[i], p, Significant, a, b, []);
    assert PathsAt(Approvals, i, PartsOf(Approvals)) == [] + [p];
  }

  // The validation summary and the result.

  method CompareResult(a: Artifacts, b: Artifacts) returns (out: seq<Item>)
    ensures Lists(a, b, [HeaderPath(ValidationHeader), HeaderPath(ResultHeader)] + ResultPaths(RESULT_KEYS), out)
  {
    ListsNothing(a, b);
    var valid, present := HeaderPath(ValidationHeader), HeaderPath(ResultHeader);
    out := Note([], a.validationSummary != b.validationSummary, valid, Warning, a, b, []);
    out := Note(out, a.result.Some? != b.result.Some?, present, Warning, a, b, [] + [valid]);
    assert [] + [valid] + [present] == [valid, present];
    var items := [];
    if a.result.Some? && b.result.Some? {
      items := CompareResultFields(a, b, a.result.value, b.result.value);
    } else {
      NoResultFields(a, b, RESULT_KEYS);
    }
    ListsBoth(a, b, [valid, present], out, ResultPaths(RESULT_KEYS), items);
    out := out + items;
  }

  method CompareResultFields(a: Artifacts, b: Artifacts, x: Dict, y: Dict) returns (out: seq<Item>)
    requires a.result == Some(x) && b.result == Some(y)
    ensures Lists(a, b, ResultPaths(RESULT_KEYS), out)
  {
    ListsNothing(a, b);
    out := [];
    var keys := RESULT_KEYS;
    for k := 0 to |keys|
      invariant Lists(a, b, ResultPaths(keys[..k]), out)
    {
      var key := keys[k];
      assert key in RESULT_KEYS;
      var differs := (key in x || key in y) && Get(x, key) != Get(y, key);
      out := Note(out, differs, ResultField(key), Warning, a, b, ResultPaths(keys[..k]));
      assert ResultPaths(keys[..k]) + [ResultField(key)] == ResultPaths(keys[..k + 1]);
    }
    assert keys[..|keys|] == keys;
  }

  lemma {:induction false} NoResultFields(a: Artifacts, b: Artifacts, keys: seq<Key>)
    requires a.result.None? || b.result.None?
    ensures Lists(a, b, ResultPaths(keys), [])
  {
    ListsNothing(a, b);
    if keys != [] {
      var init, last := keys[..|keys| - 1], keys[|keys| - 1];
      assert ResultPaths(keys) == ResultPaths(init) + [ResultField(last)];
      NoResultFields(a, b, init);
      ListsMore(a, b, ResultPaths(init), [], ResultField(last));
    }
  }

  /** There is an item at `p` exactly if `differs`, and it has this severity. */
  predicate Says(items: seq<Item>, p: Path, differs: bool, severity: Severity) {
    && (HasItem(items, p) <==> differs)
    && (forall it :: it in items && it.path == p ==> it.severity == severity)
  }

  /** Linked or gravely not linked, and whether there were overrides. */
  predicate LineageTold(a: Artifacts, b: Artifacts, items: seq<Item>) {
    var linked := b.parentId == Some(a.id) || (b.provenance.Some? && b.provenance.value.sourceId == a.id);
    && Says(items, LineageParent, linked, Info)
    && Says(items, Lineage, !linked, Significant)
    && Says(items, OverridesPath, b.provenance.Some? && b.provenance.value.overrides != map[], Info)
  }

  method CompareLineage(a: Artifacts, b: Artifacts) returns (out: seq<Item>)
    ensures forall it :: it in out ==> AboutLineage(it.path)
    ensures LineageTold(a, b, out) && DistinctItems(out)
  {
    var linked := b.parentId == Some(a.id);
    if b.provenance.Some? && b.provenance.value.sourceId == a.id {
      linked := true;
    }
    out := if linked then [Item(LineageParent, Info)] else [Item(Lineage, Significant)];
    assert out[0].path == if linked then LineageParent else Lineage;
    if b.provenance.Some? && b.provenance.value.overrides != map[] {
      out := out + [Item(OverridesPath, Info)];
      assert out[1].path == OverridesPath && out[0].path == if linked then LineageParent else Lineage;
    }
  }

  // ---------------------------------------------------------------- the whole comparison

  datatype Summary = Summary(linked: bool, total: nat, significant: nat, items: seq<Item>)

  datatype DiffError = NotFound | TooManyItems

  datatype Comparison = Compared(summary: Summary) | Refused(error: DiffError)

  const MAX_ITEMS: nat := 500

  /** The positions of the significant items. */
  function SignificantAt(items: seq<Item>): set<nat> {
    set i: nat | i < |items| && items[i].severity.Significant?
  }

  /** The items say exactly where the two sides differ, each place once, and how much. */
  predicate Exactly(a: Artifacts, b: Artifacts, items: seq<Item>) {
    && DistinctItems(items)
    && (forall it :: it in items && !AboutLineage(it.path) ==>
          DiffersAt(a, b, it.path) && it.severity == SeverityOf(a, b, it.path))
  }

  ghost predicate Everywhere(a: Artifacts, b: Artifacts, items: seq<Item>) {
    forall p :: !AboutLineage(p) && DiffersAt(a, b, p) ==> HasItem(items, p)
  }

  method Compare(source: Option<Artifacts>, replay: Option<Artifacts>) returns (r: Comparison)
    ensures source.None? || replay.None? <==> r == Refused(NotFound)
    ensures r.Compared? ==>
      && Exactly(source.value, replay.value, r.summary.items)
      && Everywhere(source.value, replay.value, r.summary.items)
      && LineageTold(source.value, replay.value, r.summary.items)
      && (r.summary.linked <==> HasItem(r.summary.items, LineageParent))
      && r.summary.total == |r.summary.items| <= 500
      && r.summary.significant == |set i: nat | i < |r.summary.items| && r.summary.items[i].severity.Significant?|
    ensures r == Refused(TooManyItems) ==>
      exists items :: |items| > 500 && Exactly(source.value, replay.value, items)
  {
    if source.None? || replay.None? {
      return Refused(NotFound);
    }
    var a, b := source.value, replay.value;
    var items := AllItems(a, b);
    var significant := CountSignificant(items);
    if |items| > MAX_ITEMS {
      return Refused(TooManyItems);
    }
    var linked := b.parentId == Some(a.id) || (b.provenance.Some? && b.provenance.value.sourceId == a.id);
    r := Compared(Summary(linked, |items|, significant, items));
  }

  method CountSignificant(items: seq<Item>) returns (n: nat)
    ensures n == |SignificantAt(items)|
  {
    n := 0;
    for i := 0 to |items|
      invariant n == |SignificantAt(items[..i])|
    {
      var now: set<nat> := if items[i].severity.Significant? then {i} else {};
      assert SignificantAt(items[..i + 1]) == SignificantAt(items[..i]) + now;
      if items[i].severity.Significant? {
        n := n + 1;
      }
    }
    assert items[..|items|] == items;
  }

  method EarlyItems(a: Artifacts, b: Artifacts) returns (out: seq<Item>, keys: seq<Key>)
    ensures ListsOnce(keys, BusinessInput(a.input).Keys + BusinessInput(b.input).Keys)
    ensures Lists(a, b, EarlyPaths(a, b, keys), out)
  {
    out := CompareHeader(a, b);
    ghost var ps := [HeaderPath(StatusHeader), HeaderPath(WorkflowHeader)];
    var more;
    more, keys := CompareInput(a, b);
    out, ps := Extend(a, b, ps, out, InputPaths(keys), more);
    more := ComparePlan(a, b);
    out, ps := Extend(a, b, ps, out, [HeaderPath(PlanHeader)] + [CountPath(Steps)], more);
    more := CompareSteps(a, b);
    out, ps := Extend(a, b, ps, out, EntryPaths(Steps, Span(a, b, Steps)), more);
    more := CompareReasoning(a, b);
    out, ps := Extend(a, b, ps, out, ListPaths(a, b, ReasoningEvents), more);
  }

  method LateItems(a: Artifacts, b: Artifacts) returns (out: seq<Item>)
    ensures Lists(a, b, LatePaths(a, b), out)
  {
    out := CompareToolCalls(a, b);
    ghost var ps := ListPaths(a, b, ToolCalls);
    var more := CompareEvaluations(a, b);
    out, ps := Extend(a, b, ps, out, ListPaths(a, b, Evaluations), more);
    more := CompareCount(a, b, Proposals, a.proposals, b.proposals);
    out, ps := Extend(a, b, ps, out, [CountPath(Proposals)], more);
    more := CompareApprovals(a, b);
    out, ps := Extend(a, b, ps, out, ListPaths(a, b, Approvals), more);
    more := CompareResult(a, b);
    out, ps := Extend(a, b, ps, out,
      [HeaderPath(ValidationHeader), HeaderPath(ResultHeader)] + ResultPaths(RESULT_KEYS), more);
  }

  method Extend(
    ghost a: Artifacts, ghost b: Artifacts, ghost ps: seq<Path>, out: seq<Item>, ghost qs: seq<Path>, more: seq<Item>)
    returns (all: seq<Item>, ghost paths: seq<Path>)
    requires Lists(a, b, ps, out) && Lists(a, b, qs, more)
    ensures Lists(a, b, ps + qs, all) && paths == ps + qs
  {
    ListsBoth(a, b, ps, out, qs, more);
    all, paths := out + more, ps + qs;
  }

  method AllItems(a: Artifacts, b: Artifacts) returns (items: seq<Item>)
    ensures Exactly(a, b, items) && Everywhere(a, b, items) && LineageTold(a, b, items)
  {
    var lineage := CompareLineage(a, b);
    var early, keys := EarlyItems(a, b);
    var late := LateItems(a, b);
    PathsDistinct(a, b, keys);
    PathsCover(a, b, keys);
    ListsBoth(a, b, EarlyPaths(a, b, keys), early, LatePaths(a, b), late);
    Conclude(a, b, ComparedPaths(a, b, keys), lineage, early + late);
    items := lineage + (early + late);
  }

  lemma HasItemConcat(xs: seq<Item>, ys: seq<Item>, p: Path)
    ensures HasItem(xs + ys, p) <==> HasItem(xs, p) || HasItem(ys, p)
  {
    if i :| 0 <= i < |xs| && xs[i].path == p {
      assert (xs + ys)[i].path == p;
    }
    if i :| 0 <= i < |ys| && ys[i].path == p {
      assert (xs + ys)[|xs| + i].path == p;
    }
    if i :| 0 <= i < |xs + ys| && (xs + ys)[i].path == p {
      if i < |xs| {
        assert xs[i].path == p;
      } else {
        assert ys[i - |xs|].path == p;
      }
    }
  }

  ghost predicate Covers(a: Artifacts, b: Artifacts, ps: seq<Path>) {
    forall p :: DiffersAt(a, b, p) ==> p in ps
  }

  /** From exact items for covering, distinct paths to the contract of the comparison. */
  lemma Conclude(a: Artifacts, b: Artifacts, ps: seq<Path>, lineage: seq<Item>, out: seq<Item>)
    requires Lists(a, b, ps, out) && Distinct(ps) && Covers(a, b, ps)
    requires DistinctItems(lineage) && forall it :: it in lineage ==> AboutLineage(it.path)
    requires LineageTold(a, b, lineage)
    ensures Exactly(a, b, lineage + out) && Everywhere(a, b, lineage + out)
    ensures LineageTold(a, b, lineage + out)
  {
    assert Unfold(true);
    ItemsExact(a, b, ps);
    forall it | it in out ensures DiffersAt(a, b, it.path) {
      var i :| 0 <= i < |out| && out[i] == it;
      assert HasItem(out, it.path);
    }
    forall p | !AboutLineage(p) && DiffersAt(a, b, p) ensures HasItem(lineage + out, p) {
      HasItemConcat(lineage, out, p);
    }
    forall p | AboutLineage(p) ensures HasItem(lineage + out, p) <==> HasItem(lineage, p) {
      HasItemConcat(lineage, out, p);
    }
  }

  // ---------------------------------------------------------------- the paths are distinct

  function GroupOf(p: Path): nat {
    match p
    case HeaderPath(StatusHeader) => 0
    case HeaderPath(WorkflowHeader) => 0
    case InputPath(_) => 1
    case HeaderPath(PlanHeader) => 2
    case CountPath(Steps) => 2
    case At(Steps, _, _) => 3
    case CountPath(list) => ListGroup(list)
    case At(list, _, _) => ListGroup(list)
    case _ => 9
  }

  function ListGroup(list: List): nat {
    match list
    case Steps => 3
    case ReasoningEvents => 4
    case ToolCalls => 5
    case Evaluations => 6
    case Proposals => 7
    case Approvals => 8
  }

  /** Distinct paths of the groups from `lo` up to but not including `hi`. */
  predicate Within(ps: seq<Path>, lo: nat, hi: nat) {
    Distinct(ps) && forall p :: p in ps ==> lo <= GroupOf(p) < hi
  }

  lemma WithinNext(ps: seq<Path>, qs: seq<Path>, lo: nat, mid: nat, hi: nat)
    requires Within(ps, lo, mid) && Within(qs, mid, hi) && lo <= mid <= hi
    ensures Within(ps + qs, lo, hi)
  {
    forall i, j | 0 <= i < j < |ps + qs| ensures (ps + qs)[i] != (ps + qs)[j] {
      if i < |ps| <= j {
        assert ps[i] in ps && qs[j - |ps|] in qs;
      }
    }
  }

  predicate DistinctParts(parts: seq<Part>) {
    forall i, j :: 0 <= i < j < |parts| ==> parts[i] != parts[j]
  }

  lemma DistinctKeys(keys: seq<Key>)
    requires keys == OUTPUT_KEYS || keys == RESULT_KEYS
    ensures forall i, j :: 0 <= i < j < |keys| ==> keys[i] != keys[j]
  {
  }

  lemma OutputsDistinct(keys: seq<Key>, early: seq<Part>)
    requires forall i, j :: 0 <= i < j < |keys| ==> keys[i] != keys[j]
    requires DistinctParts(early) && forall i :: 0 <= i < |early| ==> !early[i].OutputPart?
    ensures DistinctParts(early + OutputParts(keys))
  {
  }

  lemma PartsDistinct(list: List)
    ensures DistinctParts(PartsOf(list))
  {
    if list.Steps? {
      DistinctKeys(OUTPUT_KEYS);
      OutputsDistinct(
        OUTPUT_KEYS,
        [Whole, TypePart, StatusPart, AgentPart, ResultPart, CompletenessPart, ConfidencePart, OutcomePart]);
    }
  }

  lemma DistinctConcat(ps: seq<Path>, qs: seq<Path>)
    requires Distinct(ps) && Distinct(qs) && forall p :: p in qs ==> p !in ps
    ensures Distinct(ps + qs)
  {
    forall i, j | 0 <= i < j < |ps + qs| ensures (ps + qs)[i] != (ps + qs)[j] {
      if i < |ps| <= j {
        assert qs[j - |ps|] in qs;
      }
    }
  }

  lemma {:induction false} EntriesDistinct(list: List, parts: seq<Part>, n: nat)
    requires DistinctParts(parts)
    ensures Distinct(EntriesOf(list, parts, n))
    ensures forall p :: p in EntriesOf(list, parts, n) ==> p.At? && p.list == list && p.index < n
  {
    if n > 0 {
      EntriesDistinct(list, parts, n - 1);
      DistinctConcat(EntriesOf(list, parts, n - 1), PathsAt(list, n - 1, parts));
    }
  }

  lemma EntriesWithin(list: List, n: nat)
    ensures Within(EntryPaths(list, n), ListGroup(list), ListGroup(list) + 1)
    ensures forall p :: p in EntryPaths(list, n) ==> p.At?
  {
    PartsDistinct(list);
    EntriesDistinct(list, PartsOf(list), n);
  }

  lemma ListDistinct(a: Artifacts, b: Artifacts, list: List)
    requires !list.Steps?
    ensures Within(ListPaths(a, b, list), ListGroup(list), ListGroup(list) + 1)
  {
    EntriesWithin(list, Span(a, b, list));
    var entries := EntryPaths(list, Span(a, b, list));
    forall i, j | 0 <= i < j < |ListPaths(a, b, list)| ensures ListPaths(a, b, list)[i] != ListPaths(a, b, list)[j] {
      assert entries[j - 1] in entries;
    }
  }

  lemma EarlyDistinct(a: Artifacts, b: Artifacts, keys: seq<Key>)
    requires ListsOnce(keys, BusinessInput(a.input).Keys + BusinessInput(b.input).Keys)
    ensures Within(EarlyPaths(a, b, keys), 0, 5)
  {
    var ps := [HeaderPath(StatusHeader), HeaderPath(WorkflowHeader)];
    WithinNext(ps, InputPaths(keys), 0, 1, 2);
    ps := ps + InputPaths(keys);
    WithinNext(ps, [HeaderPath(PlanHeader)] + [CountPath(Steps)], 0, 2, 3);
    ps := ps + ([HeaderPath(PlanHeader)] + [CountPath(Steps)]);
    EntriesWithin(Steps, Span(a, b, Steps));
    WithinNext(ps, EntryPaths(Steps, Span(a, b, Steps)), 0, 3, 4);
    ps := ps + EntryPaths(Steps, Span(a, b, Steps));
    ListDistinct(a, b, ReasoningEvents);
    WithinNext(ps, ListPaths(a, b, ReasoningEvents), 0, 4, 5);
  }

  lemma LateDistinct(a: Artifacts, b: Artifacts)
    ensures Within(LatePaths(a, b), 5, 10)
  {
    var ps := ListPaths(a, b, ToolCalls);
    ListDistinct(a, b, ToolCalls);
    ListDistinct(a, b, Evaluations);
    WithinNext(ps, ListPaths(a, b, Evaluations), 5, 6, 7);
    ps := ps + ListPaths(a, b, Evaluations);
    WithinNext(ps, [CountPath(Proposals)], 5, 7, 8);
    ps := ps + [CountPath(Proposals)];
    ListDistinct(a, b, Approvals);
    WithinNext(ps, ListPaths(a, b, Approvals), 5, 8, 9);
    ps := ps + ListPaths(a, b, Approvals);
    LastGroup();
    WithinNext(ps, [HeaderPath(ValidationHeader), HeaderPath(ResultHeader)] + ResultPaths(RESULT_KEYS), 5, 9, 10);
  }

  lemma PathsDistinct(a: Artifacts, b: Artifacts, keys: seq<Key>)
    requires ListsOnce(keys, BusinessInput(a.input).Keys + BusinessInput(b.input).Keys)
    ensures Distinct(ComparedPaths(a, b, keys))
  {
    EarlyDistinct(a, b, keys);
    LateDistinct(a, b);
    WithinNext(EarlyPaths(a, b, keys), LatePaths(a, b), 0, 5, 10);
  }

  lemma LastGroup()
    ensures Within([HeaderPath(ValidationHeader), HeaderPath(ResultHeader)] + ResultPaths(RESULT_KEYS), 9, 10)
  {
    DistinctKeys(RESULT_KEYS);
  }

  // ---------------------------------------------------------------- and cover every difference

  lemma {:induction false} EntryCovered(list: List, n: nat, i: nat, part: Part)
    requires i < n && part in PartsOf(list)
    ensures At(list, i, part) in EntryPaths(list, n)
  {
    if i == n - 1 {
      var k :| 0 <= k < |PartsOf(list)| && PartsOf(list)[k] == part;
      assert PathsAt(list, i, PartsOf(list))[k] == At(list, i, part);
    } else {
      EntryCovered(list, n - 1, i, part);
    }
  }

  lemma PartKnown(a: Artifacts, list: List, i: nat, part: Part)
    requires PartAt(a, list, i, part).Some?
    ensures part in PartsOf(list)
  {
    if list.Steps? && part.OutputPart? {
      var k :| 0 <= k < |OUTPUT_KEYS| && OUTPUT_KEYS[k] == part.key;
      assert OutputParts(OUTPUT_KEYS)[k] == part;
    } else {
      StepPartsSplit();
    }
  }

  lemma EntryDifference(a: Artifacts, b: Artifacts, list: List, i: nat, part: Part)
    requires DiffersAt(a, b, At(list, i, part))
    ensures At(list, i, part) in EntryPaths(list, Span(a, b, list))
  {
    PartKnown(a, list, i, part);
    EntryCovered(list, Span(a, b, list), i, part);
  }

  lemma InputCovered(keys: seq<Key>, key: Key)
    requires key in keys
    ensures InputPath(key) in InputPaths(keys)
  {
    var k :| 0 <= k < |keys| && keys[k] == key;
    assert InputPaths(keys)[k] == InputPath(key);
  }

  lemma ResultCovered(key: Key)
    requires key in RESULT_KEYS
    ensures ResultField(key) in ResultPaths(RESULT_KEYS)
  {
    var k :| 0 <= k < |RESULT_KEYS| && RESULT_KEYS[k] == key;
    assert ResultPaths(RESULT_KEYS)[k] == ResultField(key);
  }

  lemma HeaderCovered(a: Artifacts, b: Artifacts, keys: seq<Key>, p: Path)
    requires p.HeaderPath? || p.CountPath?
    ensures p in ComparedPaths(a, b, keys)
  {
    if p.CountPath? && !p.list.Steps? && !p.list.Proposals? {
      assert ListPaths(a, b, p.list)[0] == p;
      assert p in ListPaths(a, b, p.list);
    } else if p.CountPath? {
      assert p in [HeaderPath(PlanHeader)] + [CountPath(Steps)] || p in [CountPath(Proposals)];
    } else {
      assert [HeaderPath(StatusHeader), HeaderPath(WorkflowHeader)][if p.header.StatusHeader? then 0 else 1] == p
        || p == ([HeaderPath(PlanHeader)] + [CountPath(Steps)])[0]
        || p in [HeaderPath(ValidationHeader), HeaderPath(ResultHeader)];
    }
  }

  lemma EarlyIncludes(a: Artifacts, b: Artifacts, keys: seq<Key>, p: Path)
    requires p in InputPaths(keys)
    ensures p in ComparedPaths(a, b, keys)
  {
  }

  lemma EntriesIncluded(a: Artifacts, b: Artifacts, keys: seq<Key>, list: List, p: Path)
    requires p.At? && p in EntryPaths(list, Span(a, b, list)) && !list.Proposals?
    ensures p in ComparedPaths(a, b, keys)
  {
    if !list.Steps? {
      assert p in ListPaths(a, b, list);
    }
  }

  lemma PathsCover(a: Artifacts, b: Artifacts, keys: seq<Key>)
    requires ListsOnce(keys, BusinessInput(a.input).Keys + BusinessInput(b.input).Keys)
    ensures Covers(a, b, ComparedPaths(a, b, keys))
  {
    forall p | DiffersAt(a, b, p) ensures p in ComparedPaths(a, b, keys) {
      PathCovered(a, b, keys, p);
    }
  }

  lemma PathCovered(a: Artifacts, b: Artifacts, keys: seq<Key>, p: Path)
    requires ListsOnce(keys, BusinessInput(a.input).Keys + BusinessInput(b.input).Keys) && DiffersAt(a, b, p)
    ensures p in ComparedPaths(a, b, keys)
  {
    match p
    case InputPath(key) => InputCovered(keys, key); EarlyIncludes(a, b, keys, p);
    case At(list, i, part) => EntryDifference(a, b, list, i, part); EntriesIncluded(a, b, keys, list, p);
    case ResultField(key) => ResultCovered(key);
    case HeaderPath(_) => HeaderCovered(a, b, keys, p);
    case CountPath(_) => HeaderCovered(a, b, keys, p);
    case _ =>
  }

  // ---------------------------------------------------------------- symmetry and exact replays

  /** Swapping the arguments gives the same set of paths, lineage aside. */
  lemma CompareSymmetric(a: Artifacts, b: Artifacts, forth: seq<Item>, back: seq<Item>, p: Path)
    requires Exactly(a, b, forth) && Everywhere(a, b, forth)
    requires Exactly(b, a, back) && Everywhere(b, a, back)
    requires !AboutLineage(p)
    ensures HasItem(forth, p) <==> HasItem(back, p)
  {
    assert DiffersAt(a, b, p) <==> DiffersAt(b, a, p);
    if i :| 0 <= i < |forth| && forth[i].path == p {
      assert forth[i] in forth;
    }
    if i :| 0 <= i < |back| && back[i].path == p {
      assert back[i] in back;
    }
  }

  /** Any replay is reported as linked to its source. */
  lemma ReplaysAreLinked(
    src: Artifacts, replay: Artifacts, source: Case, req: Replay.Request, child: Id, now: Time, items: seq<Item>)
    requires src.id == req.sourceId && replay.parentId == Replay.ReplayCase(source, req, child, now).ex.parentId
    requires LineageTold(src, replay, items)
    ensures HasItem(items, LineageParent) && !HasItem(items, Lineage)
  {
  }

  /** A freshly created exact replay has the business input of its source, so the
      comparison yields no input item. */
  lemma FreshExactReplayInput(
    src: Artifacts, replay: Artifacts, source: Case, req: Replay.Request, child: Id, now: Time, key: Key)
    requires req.mode.Exact? && src.input == source.ex.input
    requires replay.input == Replay.ReplayCase(source, req, child, now).ex.input
    ensures !DiffersAt(src, replay, InputPath(key))
  {
    assert BusinessInput(replay.input) == BusinessInput(src.input);
  }

  /** Later on, whatever happens to either of them, only the runtime metadata can show up
      among the input items of an exact replay. */
  lemma ExactReplayInputLater(
    src: Artifacts, replay: Artifacts, s: Sys, before: seq<Action>, after: seq<Action>,
    req: Replay.Request, child: Id, now: Time, acts: seq<Action>, key: Key)
    requires req.mode.Exact? && key != RuntimeMetaKey
    requires src.input == Run(Run(s, before), after).c.ex.input
    requires replay.input ==
      Run(Sys(Replay.ReplayCase(Run(s, before).c, req, child, now), AtRest(false)), acts).c.ex.input
    ensures !DiffersAt(src, replay, InputPath(key))
  {
    var t := Run(s, before);
    var made := Replay.ReplayCase(t.c, req, child, now);
    Replay.RunKeepsPayload(t, after);
    Replay.RunKeepsPayload(Sys(made, AtRest(false)), acts);
    Replay.ReplayPayload(t.c.ex, req, child, now);
    assert Replay.Payload(src.input) == Replay.Payload(replay.input);
    GetFromPayload(src.input, key);
    GetFromPayload(replay.input, key);
  }

  lemma GetFromPayload(input: Dict, key: Key)
    requires key != RuntimeMetaKey
    ensures Get(BusinessInput(input), key) == Get(Replay.Payload(input), key)
  {
  }

  // ---------------------------------------------------------------- what the items say of the fields

  ghost predicate Complete(a: Artifacts, b: Artifacts, items: seq<Item>) {
    Exactly(a, b, items) && Everywhere(a, b, items)
  }

  lemma ItemSays(a: Artifacts, b: Artifacts, items: seq<Item>, p: Path)
    requires Complete(a, b, items) && !AboutLineage(p)
    ensures Says(items, p, DiffersAt(a, b, p), SeverityOf(a, b, p))
  {
    if i :| 0 <= i < |items| && items[i].path == p {
      assert items[i] in items;
    }
  }

  /** The header: status, workflow, plan, validation summary and presence of a result. */
  lemma HeaderItems(a: Artifacts, b: Artifacts, items: seq<Item>)
    requires Complete(a, b, items)
    ensures Says(items, HeaderPath(StatusHeader), a.status != b.status, Significant)
    ensures Says(items, HeaderPath(WorkflowHeader), a.workflow != b.workflow, Significant)
    ensures Says(items, HeaderPath(PlanHeader), a.planId != b.planId, Warning)
    ensures Says(items, HeaderPath(ValidationHeader), a.validationSummary != b.validationSummary, Warning)
    ensures Says(items, HeaderPath(ResultHeader), a.result.Some? != b.result.Some?, Warning)
  {
    ItemSays(a, b, items, HeaderPath(StatusHeader));
    ItemSays(a, b, items, HeaderPath(WorkflowHeader));
    ItemSays(a, b, items, HeaderPath(PlanHeader));
    ItemSays(a, b, items, HeaderPath(ValidationHeader));
    ItemSays(a, b, items, HeaderPath(ResultHeader));
  }

  /** The input, key by key, absent and null being the same; the provenance is no business
      input, and a difference that was asked for is no warning. */
  lemma InputItems(a: Artifacts, b: Artifacts, items: seq<Item>, key: Key)
    requires Complete(a, b, items)
    ensures Says(
      items, InputPath(key),
      key != ProvenanceKey
        && (if key in a.input then a.input[key] else JNull) != (if key in b.input then b.input[key] else JNull),
      if b.provenance.Some? && key in b.provenance.value.overrides then Info else Warning)
  {
    ItemSays(a, b, items, InputPath(key));
  }

  /** How many there are of each kind. */
  lemma CountItems(a: Artifacts, b: Artifacts, items: seq<Item>)
    requires Complete(a, b, items)
    ensures Says(items, CountPath(Steps), |a.steps| != |b.steps|, Significant)
    ensures Says(items, CountPath(ReasoningEvents), |a.reasoning| != |b.reasoning|, Warning)
    ensures Says(items, CountPath(ToolCalls), |a.tools| != |b.tools|, Warning)
    ensures Says(items, CountPath(Evaluations), |a.evaluations| != |b.evaluations|, Warning)
    ensures Says(items, CountPath(Proposals), a.proposals != b.proposals, Info)
    ensures Says(items, CountPath(Approvals), |a.approvals| != |b.approvals|, Warning)
  {
    ItemSays(a, b, items, CountPath(Steps));
    ItemSays(a, b, items, CountPath(ReasoningEvents));
    ItemSays(a, b, items, CountPath(ToolCalls));
    ItemSays(a, b, items, CountPath(Evaluations));
    ItemSays(a, b, items, CountPath(Proposals));
    ItemSays(a, b, items, CountPath(Approvals));
  }

  /** A step only one side has, and the fields of a step both have. */
  lemma StepItems(a: Artifacts, b: Artifacts, items: seq<Item>, i: nat)
    requires Complete(a, b, items)
    ensures Says(items, At(Steps, i, Whole), (i < |a.steps|) != (i < |b.steps|), Significant)
    ensures var both := i < |a.steps| && i < |b.steps|;
      && Says(items, At(Steps, i, TypePart), both && a.steps[i].stepType != b.steps[i].stepType, Warning)
      && Says(items, At(Steps, i, StatusPart), both && a.steps[i].status != b.steps[i].status, Warning)
      && Says(items, At(Steps, i, AgentPart), both && a.steps[i].agent != b.steps[i].agent, Info)
      && Says(items, At(Steps, i, ResultPart), both && a.steps[i].result.Some? != b.steps[i].result.Some?, Warning)
  {
    ItemSays(a, b, items, At(Steps, i, Whole));
    ItemSays(a, b, items, At(Steps, i, TypePart));
    ItemSays(a, b, items, At(Steps, i, StatusPart));
    ItemSays(a, b, items, At(Steps, i, AgentPart));
    ItemSays(a, b, items, At(Steps, i, ResultPart));
  }

  predicate BothResults(a: Artifacts, b: Artifacts, i: nat) {
    i < |a.steps| && i < |b.steps| && a.steps[i].result.Some? && b.steps[i].result.Some?
  }

  /** The results of a step, where both sides have one. */
  lemma StepResultItems(a: Artifacts, b: Artifacts, items: seq<Item>, i: nat)
    requires Complete(a, b, items)
    ensures Says(items, At(Steps, i, CompletenessPart),
      BothResults(a, b, i) && a.steps[i].result.value.completeness != b.steps[i].result.value.completeness, Warning)
    ensures Says(items, At(Steps, i, ConfidencePart),
      BothResults(a, b, i) && a.steps[i].result.value.confidence != b.steps[i].result.value.confidence, Info)
    ensures Says(items, At(Steps, i, OutcomePart),
      BothResults(a, b, i) && a.steps[i].result.value.validation != b.steps[i].result.value.validation, Warning)
  {
    ItemSays(a, b, items, At(Steps, i, CompletenessPart));
    ItemSays(a, b, items, At(Steps, i, ConfidencePart));
    ItemSays(a, b, items, At(Steps, i, OutcomePart));
  }

  predicate BothObjects(a: Artifacts, b: Artifacts, i: nat) {
    BothResults(a, b, i) && a.steps[i].result.value.output.JObj? && b.steps[i].result.value.output.JObj?
  }

  /** The six fields of a step's output, where both outputs are objects. */
  lemma OutputItems(a: Artifacts, b: Artifacts, items: seq<Item>, i: nat, key: Key)
    requires Complete(a, b, items)
    ensures Says(items, At(Steps, i, OutputPart(key)),
      && BothObjects(a, b, i)
      && (var x, y := a.steps[i].result.value.output.fields, b.steps[i].result.value.output.fields;
          (if key in x then x[key] else JNull) != (if key in y then y[key] else JNull))
      && key in {Field("status"), Field("outcome"), Field("summary"),
                 Field("severity"), Field("root_cause"), Field("recommendation")},
      Info)
  {
    ItemSays(a, b, items, At(Steps, i, OutputPart(key)));
  }

  /** Reasoning events: the path, gravely unless both are paths of the model runtime, and
      what was asked for. */
  lemma ReasoningItems(a: Artifacts, b: Artifacts, items: seq<Item>, i: nat)
    requires Complete(a, b, items)
    ensures var both := i < |a.reasoning| && i < |b.reasoning|;
      && Says(items, At(ReasoningEvents, i, PathPart), both && a.reasoning[i].path != b.reasoning[i].path,
           if both && a.reasoning[i].path in {JStr("model_runtime"), JStr("deterministic_fallback")}
              && b.reasoning[i].path in {JStr("model_runtime"), JStr("deterministic_fallback")}
           then Warning else Significant)
      && Says(items, At(ReasoningEvents, i, TaskPart), both && a.reasoning[i].task != b.reasoning[i].task, Info)
  {
    ItemSays(a, b, items, At(ReasoningEvents, i, PathPart));
    ItemSays(a, b, items, At(ReasoningEvents, i, TaskPart));
  }

  lemma ToolItems(a: Artifacts, b: Artifacts, items: seq<Item>, i: nat)
    requires Complete(a, b, items)
    ensures var both := i < |a.tools| && i < |b.tools|;
      && Says(items, At(ToolCalls, i, NamePart), both && a.tools[i].name != b.tools[i].name, Warning)
      && Says(items, At(ToolCalls, i, StatusPart), both && a.tools[i].status != b.tools[i].status, Warning)
      && Says(items, At(ToolCalls, i, SideEffectPart), both && a.tools[i].sideEffect != b.tools[i].sideEffect, Info)
      && Says(items, At(ToolCalls, i, IdempotencyPart), both && a.tools[i].idempotency != b.tools[i].idempotency, Info)
  {
    ItemSays(a, b, items, At(ToolCalls, i, NamePart));
    ItemSays(a, b, items, At(ToolCalls, i, StatusPart));
    ItemSays(a, b, items, At(ToolCalls, i, SideEffectPart));
    ItemSays(a, b, items, At(ToolCalls, i, IdempotencyPart));
  }

  /** Evaluations: the decision, or else the reason; and the decisions of the approvals. */
  lemma DecisionItems(a: Artifacts, b: Artifacts, items: seq<Item>, i: nat)
    requires Complete(a, b, items)
    ensures var both := i < |a.evaluations| && i < |b.evaluations|;
      && Says(items, At(Evaluations, i, DecisionPart),
           both && a.evaluations[i].decision != b.evaluations[i].decision, Significant)
      && Says(items, At(Evaluations, i, ReasonPart),
           both && a.evaluations[i].decision == b.evaluations[i].decision
                && a.evaluations[i].reason != b.evaluations[i].reason, Info)
    ensures Says(items, At(Approvals, i, DecisionPart),
      i < |a.approvals| && i < |b.approvals| && a.approvals[i] != b.approvals[i], Significant)
  {
    ItemSays(a, b, items, At(Evaluations, i, DecisionPart));
    ItemSays(a, b, items, At(Evaluations, i, ReasonPart));
    ItemSays(a, b, items, At(Approvals, i, DecisionPart));
  }

  /** The seven fields of the results, where both sides have one. */
  lemma ResultItems(a: Artifacts, b: Artifacts, items: seq<Item>, key: Key)
    requires Complete(a, b, items)
    ensures Says(items, ResultField(key),
      && a.result.Some? && b.result.Some?
      && (var x, y := a.result.value, b.result.value;
          (if key in x then x[key] else JNull) != (if key in y then y[key] else JNull))
      && key in {Field("status"), Field("outcome"), Field("summary"), Field("validation"),
                 Field("governance"), Field("error"), Field("message")},
      Warning)
  {
    ItemSays(a, b, items, ResultField(key));
  }

  /** The parts that an item may be about, list by list. */
  predicate ComparedPart(list: List, part: Part) {
    match list
    case Steps =>
      || part in {Whole, TypePart, StatusPart, AgentPart, ResultPart, CompletenessPart, ConfidencePart, OutcomePart}
      || part.OutputPart?
    case ReasoningEvents => part in {PathPart, TaskPart}
    case ToolCalls => part in {NamePart, StatusPart, SideEffectPart, IdempotencyPart}
    case Evaluations => part in {DecisionPart, ReasonPart}
    case Proposals => false
    case Approvals => part.DecisionPart?
  }

  /** And there are no other items. */
  lemma NoOtherItems(a: Artifacts, b: Artifacts, items: seq<Item>, it: Item)
    requires Complete(a, b, items) && it in items && it.path.At?
    ensures ComparedPart(it.path.list, it.path.part)
  {
    assert DiffersAt(a, b, it.path);
  }
}
