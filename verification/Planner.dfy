/** The three built-in plans: chains of work steps closed by a validation step. */
module Planner {
  import opened Records
  import opened Lifecycle
  import opened Scheduling
  import opened RuntimeMeta
  import opened SerialRun
  import opened StateMachine
  import Policy
  import Theorems

  lemma LowerType(kind: string)
    requires NoCapitals(kind)
    ensures TypeOf(kind).ValidationStep? <==> kind == VALIDATION
  {
    LowerKeepsLower(kind);
  }

  lemma ValidationType()
    ensures TypeOf(VALIDATION).ValidationStep?
  {
    assert NoCapitals("validation");
    LowerType(VALIDATION);
  }

  /** Any kind of another length is work. */
  lemma WorkType(kind: string)
    requires |kind| != 10
    ensures TypeOf(kind).WorkStep?
  {
  }

  /** The kinds of the steps before the closing validation step. */
  function WorkKinds(workflow: Workflow): (ks: seq<string>)
    ensures ks != [] && forall i :: 0 <= i < |ks| ==> |ks[i]| < 10
  {
    match workflow
    case IncidentTriage => ["reasoning", "retrieval"]
    case CostAttribution => ["reasoning", "retrieval", "tool"]
    case OtherWorkflow(_) => ["reasoning"]
  }

  /** The kinds of the built-in plan of a workflow, in step order. */
  function Kinds(workflow: Workflow): seq<string> {
    WorkKinds(workflow) + [VALIDATION]
  }

  lemma OnlyLastValidates(workflow: Workflow, i: nat)
    requires i < |Kinds(workflow)|
    ensures TypeOf(Kinds(workflow)[i]).ValidationStep? <==> i == |Kinds(workflow)| - 1
  {
    var n := |WorkKinds(workflow)|;
    if i == n {
      ValidationType();
    } else {
      assert Kinds(workflow)[i] == WorkKinds(workflow)[i];
      WorkType(Kinds(workflow)[i]);
    }
  }

  /** The plan built from fresh step keys, one per step. */
  function CreatePlan(workflow: Workflow, keys: seq<string>): Draft
    requires |keys| == |Kinds(workflow)|
  {
    var ks := Kinds(workflow);
    Draft(seq(|keys|, i requires 0 <= i < |keys| => Spec(keys[i], ks[i])),
          seq(|keys| - 1, i requires 0 <= i < |keys| - 1 => Edge(keys[i], keys[i + 1])))
  }

  /** Step `i + 1` depends on step `i` and on nothing else; only the last one validates. */
  ghost predicate IsChain(draft: Draft) {
    var n := |draft.specs|;
    && n >= 2 && |draft.edges| == n - 1
    && (forall i :: 0 <= i < n - 1 ==>
          draft.edges[i].from == draft.specs[i].key && draft.edges[i].to == draft.specs[i + 1].key)
    && (forall i :: 0 <= i < n ==> (TypeOf(draft.specs[i].kind).ValidationStep? <==> i == n - 1))
    && (forall i, j :: 0 <= i < j < n ==> draft.specs[i].key != draft.specs[j].key)
  }

  lemma ChainKeyIndex(draft: Draft, i: nat)
    requires IsChain(draft) && i < |draft.specs|
    ensures draft.specs[i].key in Keys(draft.specs) && LastIndex(draft.specs, draft.specs[i].key) == i
  {
    assert draft.specs[i] in draft.specs;
  }

  lemma ChainAcyclic(draft: Draft)
    requires IsChain(draft)
    ensures EdgesResolve(draft) && Acyclic(draft)
  {
    forall e | e in draft.edges ensures e.from in Keys(draft.specs) && e.to in Keys(draft.specs) {
      var i :| 0 <= i < |draft.edges| && draft.edges[i] == e;
      ChainKeyIndex(draft, i);
      ChainKeyIndex(draft, i + 1);
    }
    var rank := map k | k in Keys(draft.specs) :: LastIndex(draft.specs, k);
    forall a, b | HasEdge(draft, a, b) ensures a in rank && b in rank && rank[a] < rank[b] {
      var i :| 0 <= i < |draft.edges| && draft.edges[i] == Edge(a, b);
      ChainKeyIndex(draft, i);
      ChainKeyIndex(draft, i + 1);
    }
    RankedIsAcyclic(draft, rank);
  }

  lemma ChainEdge(draft: Draft, i: nat)
    requires IsChain(draft) && i + 1 < |draft.specs|
    ensures HasEdge(draft, draft.specs[i].key, draft.specs[i + 1].key)
  {
    ChainKeyIndex(draft, i + 1);
    assert draft.edges[i] == Edge(draft.specs[i].key, draft.specs[i + 1].key);
  }

  function KeysFrom(draft: Draft, j: nat): seq<string>
    requires j <= |draft.specs|
    decreases |draft.specs| - j
  {
    if j == |draft.specs| then [] else [draft.specs[j].key] + KeysFrom(draft, j + 1)
  }

  lemma {:induction false} ChainWalk(draft: Draft, j: nat)
    requires IsChain(draft) && j < |draft.specs|
    ensures var p := KeysFrom(draft, j);
      && Walk(draft, p) && |p| == |draft.specs| - j
      && p[0] == draft.specs[j].key && p[|p| - 1] == draft.specs[|draft.specs| - 1].key
    decreases |draft.specs| - j
  {
    if j < |draft.specs| - 1 {
      ChainEdge(draft, j);
      ChainWalk(draft, j + 1);
      WalkFirst(draft, draft.specs[j].key, KeysFrom(draft, j + 1));
    }
  }

  lemma WalkFirst(draft: Draft, first: string, p: seq<string>)
    requires p != [] && Walk(draft, p) && HasEdge(draft, first, p[0])
    ensures Walk(draft, [first] + p)
  {
    var q := [first] + p;
    forall i | 0 < i < |q| ensures HasEdge(draft, q[i - 1], q[i]) {
      if i > 1 {
        assert HasEdge(draft, p[i - 2], p[i - 1]);
      }
    }
  }

  lemma ChainDepends(draft: Draft, j: nat)
    requires IsChain(draft) && j < |draft.specs| - 1
    ensures DependsTransitively(draft, draft.specs[|draft.specs| - 1].key, draft.specs[j].key)
  {
    ChainWalk(draft, j);
    WalkDepends(draft, KeysFrom(draft, j));
  }

  lemma WalkDepends(draft: Draft, p: seq<string>)
    requires |p| > 1 && Walk(draft, p)
    ensures DependsTransitively(draft, p[|p| - 1], p[0])
  {
  }

  /** The last step depends on every other one, so the gate opens. */
  lemma ChainPasses(draft: Draft)
    requires IsChain(draft)
    ensures EdgesResolve(draft) && Acyclic(draft) && PassesGate(draft)
  {
    ChainAcyclic(draft);
    var n := |draft.specs|;
    var last := draft.specs[n - 1].key;
    ChainKeyIndex(draft, n - 1);
    ChainKeyIndex(draft, 0);
    assert IsWork(draft, draft.specs[0].key);
    forall k | IsWork(draft, k) ensures DependsTransitively(draft, last, k) {
      var j := LastIndex(draft.specs, k);
      ChainKeyIndex(draft, j);
      ChainDepends(draft, j);
    }
    DependentValidationPasses(draft, last);
  }

  /** Specs with distinct keys, edges from each to the next, and validation last. */
  lemma MakesChain(draft: Draft, kinds: seq<string>, keys: seq<string>)
    requires |keys| == |kinds| >= 2 && NoDuplicates(keys)
    requires |draft.specs| == |keys| && |draft.edges| == |keys| - 1
    requires forall i :: 0 <= i < |keys| ==> draft.specs[i] == Spec(keys[i], kinds[i])
    requires forall i :: 0 <= i < |keys| - 1 ==> draft.edges[i] == Edge(keys[i], keys[i + 1])
    requires forall i :: 0 <= i < |kinds| ==> (TypeOf(kinds[i]).ValidationStep? <==> i == |kinds| - 1)
    ensures IsChain(draft)
  {
    forall i | 0 <= i < |draft.specs| - 1
      ensures draft.edges[i].from == draft.specs[i].key && draft.edges[i].to == draft.specs[i + 1].key
    {
      assert draft.edges[i] == Edge(keys[i], keys[i + 1]);
    }
  }

  /** The three built-in plans, step by step. */
  lemma BuiltInSteps(workflow: Workflow, keys: seq<string>)
    requires |keys| == |Kinds(workflow)|
    ensures CreatePlan(workflow, keys) ==
      match workflow
      case IncidentTriage =>
        Draft([Spec(keys[0], "reasoning"), Spec(keys[1], "retrieval"), Spec(keys[2], "validation")],
              [Edge(keys[0], keys[1]), Edge(keys[1], keys[2])])
      case CostAttribution =>
        Draft([Spec(keys[0], "reasoning"), Spec(keys[1], "retrieval"), Spec(keys[2], "tool"), Spec(keys[3], "validation")],
              [Edge(keys[0], keys[1]), Edge(keys[1], keys[2]), Edge(keys[2], keys[3])])
      case OtherWorkflow(_) =>
        Draft([Spec(keys[0], "reasoning"), Spec(keys[1], "validation")], [Edge(keys[0], keys[1])])
  {
  }

  /** A built-in plan is acyclic, its edges resolve, every key is scheduled and the schedule
      opens the gate, whatever its fresh keys. */
  lemma BuiltInPlansPass(workflow: Workflow, keys: seq<string>)
    requires |keys| == |Kinds(workflow)| && NoDuplicates(keys)
    ensures var draft := CreatePlan(workflow, keys);
      EdgesResolve(draft) && Acyclic(draft) && PassesGate(draft) && RunsEverything(draft)
  {
    BuiltInIsChain(workflow, keys);
    ChainPasses(CreatePlan(workflow, keys));
    RunsEverythingIffAcyclic(CreatePlan(workflow, keys));
  }

  lemma BuiltInParts(workflow: Workflow, keys: seq<string>)
    requires |keys| == |Kinds(workflow)|
    ensures var draft := CreatePlan(workflow, keys);
      && |draft.specs| == |keys| && |draft.edges| == |keys| - 1
      && (forall i :: 0 <= i < |keys| ==> draft.specs[i] == Spec(keys[i], Kinds(workflow)[i]))
      && (forall i :: 0 <= i < |keys| - 1 ==> draft.edges[i] == Edge(keys[i], keys[i + 1]))
  {
  }

  lemma BuiltInIsChain(workflow: Workflow, keys: seq<string>)
    requires |keys| == |Kinds(workflow)| && NoDuplicates(keys)
    ensures IsChain(CreatePlan(workflow, keys))
  {
    var kinds := Kinds(workflow);
    forall i | 0 <= i < |kinds| ensures TypeOf(kinds[i]).ValidationStep? <==> i == |kinds| - 1 {
      OnlyLastValidates(workflow, i);
    }
    BuiltInParts(workflow, keys);
    MakesChain(CreatePlan(workflow, keys), kinds, keys);
  }

  lemma DependencyTaken(draft: Draft, s: seq<string>, i: nat, m: nat)
    requires IsChain(draft) && Topological(draft, s) && i < |s| && m < |draft.specs| && s[i] == draft.specs[m].key
    ensures m > 0 ==> exists j :: 0 <= j < i && s[j] == draft.specs[m - 1].key
  {
    if m > 0 {
      ChainEdge(draft, m - 1);
      assert draft.specs[m - 1].key in DependsOn(draft, s[i]);
      assert draft.specs[m - 1].key in Elements(s[..i]);
    }
  }

  /** The `i`th key taken from a chain is that of its `i`th step. */
  lemma {:induction false} ChainTakes(draft: Draft, i: nat)
    requires IsChain(draft) && i < |Schedule(draft)|
    ensures i < |draft.specs| && Schedule(draft)[i] == draft.specs[i].key
    decreases i
  {
    var s := Schedule(draft);
    ScheduleOk(draft);
    assert s[i] in Elements(s);
    var m: nat :| m < |draft.specs| && draft.specs[m].key == s[i];
    forall j: nat | j < i ensures j < |draft.specs| && s[j] == draft.specs[j].key {
      ChainTakes(draft, j);
    }
    DependencyTaken(draft, s, i, m);
    assert m >= i by {
      assert forall j :: 0 <= j < i ==> s[j] != s[i];
    }
  }

  lemma {:induction false} ChainLength(draft: Draft)
    requires IsChain(draft) && RunsEverything(draft)
    ensures |Schedule(draft)| == |draft.specs|
    ensures forall i :: 0 <= i < |draft.specs| ==> Schedule(draft)[i] == draft.specs[i].key
  {
    var s, n := Schedule(draft), |draft.specs|;
    forall i: nat | i < |s| ensures i < n && s[i] == draft.specs[i].key {
      ChainTakes(draft, i);
    }
    if |s| > n {
      ChainTakes(draft, n);
    }
    var last := draft.specs[n - 1];
    assert last in draft.specs && last.key in Elements(s);
    var j :| 0 <= j < |s| && s[j] == last.key;
  }

  /** A run of a built-in plan starts its steps in the order they are written in. */
  lemma {:induction false} BuiltInOrder(workflow: Workflow, keys: seq<string>)
    requires |keys| == |Kinds(workflow)| && NoDuplicates(keys)
    ensures Schedule(CreatePlan(workflow, keys)) == keys
  {
    BuiltInIsChain(workflow, keys);
    BuiltInPlansPass(workflow, keys);
    BuiltInParts(workflow, keys);
    ChainLength(CreatePlan(workflow, keys));
  }

  /** Where an uninterrupted run of a built-in plan ends: every step succeeds, and only
      policy can keep the execution from completing at once. */
  lemma BuiltInRunEnds(c: Case, keys: seq<string>, acts: seq<Action>)
    requires Fresh(c) && !CancellationRequested(c.ex.input)
    requires |keys| == |Kinds(c.ex.workflow)| && NoDuplicates(keys)
    requires acts != [] && Undisturbed(acts)
    requires acts[0].input.draft == CreatePlan(c.ex.workflow, keys)
    requires Run(Sys(c, AtStart), acts).pc.AtRest?
    ensures var t := Run(Sys(c, AtStart), acts).c;
      && AllSucceeded(t.steps)
      && t.ex.status == if c.ex.workflow.IncidentTriage?
           then FinalStatus(Policy.Decision(c.ctx.value, EscalateIncident)) else Completed
  {
    BuiltInPlansPass(c.ex.workflow, keys);
    DeadlockIffCyclic(c, acts);
    SerialRunEnds(c, acts);
    Theorems.IdentityKept(Sys(c, AtStart), acts);
    EndsWell(Run(Sys(c, AtStart), acts).c, CreatePlan(c.ex.workflow, keys));
  }

  lemma EndsWell(c: Case, draft: Draft)
    requires EndsAsPlanned(c, draft) && RunsEverything(draft) && PassesGate(draft)
    ensures c.ex.workflow.IncidentTriage? ==>
      c.ctx.Some? && c.ex.status == FinalStatus(Policy.Decision(c.ctx.value, EscalateIncident))
    ensures !c.ex.workflow.IncidentTriage? ==> c.ex.status.Completed?
  {
  }
}
