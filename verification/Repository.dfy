/** The in-memory store: one dictionary per table, changed in place.  `CaseOf` reads the
    rows of one execution out of all tables; every operation says what it does to the
    case it belongs to and that no other execution has a row changed. */
module Repository {
  import opened Records
  import opened Lifecycle

  datatype StepRow = StepRow(id: Id, step: Step)

  /** A listing holds every step of the map once, in some order. */
  ghost predicate IsListing(rows: seq<StepRow>, steps: map<Id, Step>) {
    && (forall i :: 0 <= i < |rows| ==> rows[i].id in steps && steps[rows[i].id] == rows[i].step)
    && (forall id :: id in steps ==> exists i :: 0 <= i < |rows| && rows[i].id == id)
    && (forall i, j :: 0 <= i < j < |rows| ==> rows[i].id != rows[j].id)
  }

  predicate SortedByCreation(rows: seq<StepRow>) {
    forall i, j :: 0 <= i < j < |rows| ==> rows[i].step.createdAt <= rows[j].step.createdAt
  }

  // ---------------------------------------------------------------- rows of one execution

  function PlansOf(m: map<Id, Plan>, e: Id): map<Id, Plan> {
    map k | k in m && m[k].executionId == e :: m[k]
  }

  function StepsOf(m: map<Id, Step>, e: Id): map<Id, Step> {
    map k | k in m && m[k].executionId == e :: m[k]
  }

  function ResultsOf(m: map<Id, StepResult>, steps: map<Id, Step>, e: Id): map<Id, StepResult> {
    map k | k in m && k in steps && steps[k].executionId == e :: m[k]
  }

  function ProposalsOf(m: map<Id, Proposal>, e: Id): map<Id, Proposal> {
    map k | k in m && m[k].executionId == e :: m[k]
  }

  function EvaluationsOf(m: map<Id, Evaluation>, e: Id): map<Id, Evaluation> {
    map k | k in m && m[k].executionId == e :: m[k]
  }

  function ApprovalsOf(m: map<Id, Approval>, e: Id): map<Id, Approval> {
    map k | k in m && m[k].executionId == e :: m[k]
  }

  lemma Empty<T>(m: map<Id, T>)
    requires forall k :: k !in m
    ensures m == map[]
  {
    assert m.Keys == {};
  }

  lemma PlanSaved(m: map<Id, Plan>, id: Id, p: Plan, e: Id)
    requires id !in m
    ensures PlansOf(m[id := p], e) == if e == p.executionId then PlansOf(m, e)[id := p] else PlansOf(m, e)
  {
  }

  lemma StepSaved(m: map<Id, Step>, rs: map<Id, StepResult>, id: Id, s: Step, e: Id)
    requires id in m ==> m[id].executionId == s.executionId
    requires rs.Keys <= m.Keys
    ensures StepsOf(m[id := s], e) == if e == s.executionId then StepsOf(m, e)[id := s] else StepsOf(m, e)
    ensures ResultsOf(rs, m[id := s], e) == ResultsOf(rs, m, e)
  {
  }

  lemma ResultSaved(m: map<Id, StepResult>, steps: map<Id, Step>, id: Id, r: StepResult, e: Id)
    requires id in steps
    ensures ResultsOf(m[id := r], steps, e) ==
      if e == steps[id].executionId then ResultsOf(m, steps, e)[id := r] else ResultsOf(m, steps, e)
  {
  }

  lemma ProposalSaved(m: map<Id, Proposal>, id: Id, p: Proposal, e: Id)
    requires id in m ==> m[id].executionId == p.executionId
    ensures ProposalsOf(m[id := p], e) ==
      if e == p.executionId then ProposalsOf(m, e)[id := p] else ProposalsOf(m, e)
  {
  }

  lemma EvaluationSaved(m: map<Id, Evaluation>, id: Id, v: Evaluation, e: Id)
    requires id !in m
    ensures EvaluationsOf(m[id := v], e) ==
      if e == v.executionId then EvaluationsOf(m, e)[id := v] else EvaluationsOf(m, e)
  {
  }

  lemma ApprovalSaved(m: map<Id, Approval>, id: Id, a: Approval, e: Id)
    requires id !in m
    ensures ApprovalsOf(m[id := a], e) ==
      if e == a.executionId then ApprovalsOf(m, e)[id := a] else ApprovalsOf(m, e)
  {
  }

  class InMemoryRepository {
    var contexts: map<Id, Context>
    var executions: map<Id, Execution>
    var plans: map<Id, Plan>
    var steps: map<Id, Step>
    var results: map<Id, StepResult>
    var proposals: map<Id, Proposal>
    var evaluations: map<Id, Evaluation>
    var approvals: map<Id, Approval>
    var nextId: Id

    /** The same rows, execution by execution. */
    ghost var cases: map<Id, Case>

    constructor ()
      ensures Valid() && cases == map[]
    {
      contexts, executions, plans, steps := map[], map[], map[], map[];
      results, proposals, evaluations, approvals := map[], map[], map[], map[];
      nextId, cases := 0, map[];
      new;
      forall x ensures Tied(x) { }
      forall x ensures HandedOut(x) { }
    }

    /** The rows of execution `e` in all tables. */
    ghost function CaseOf(e: Id): Case
      requires e in executions
      reads this
    {
      Case(executions[e],
           if executions[e].contextId in contexts then Some(contexts[executions[e].contextId]) else None,
           PlansOf(plans, e), StepsOf(steps, e), ResultsOf(results, steps, e),
           ProposalsOf(proposals, e), EvaluationsOf(evaluations, e), ApprovalsOf(approvals, e))
    }

    /** Execution `e` is stored under its own id with its context, its current plan is its
        own, and `cases` holds its rows. */
    ghost predicate Tied(e: Id)
      reads this
    {
      && (e in cases <==> e in executions)
      && (e in executions ==>
            && cases[e] == CaseOf(e)
            && executions[e].executionId == e
            && executions[e].contextId in contexts
            && (executions[e].planId.Some? ==> executions[e].planId.value in cases[e].plans))
    }

    /** No row has an identifier that was not handed out yet, and results belong to steps. */
    ghost predicate HandedOut(id: Id)
      reads this
    {
      && (id in contexts || id in executions ==> id < nextId)
      && (id in plans ==> id < nextId && plans[id].executionId in executions)
      && (id in steps ==> id < nextId && steps[id].executionId in executions)
      && (id in proposals ==> id < nextId && proposals[id].executionId in executions)
      && (id in evaluations ==> id < nextId && evaluations[id].executionId in executions)
      && (id in approvals ==> id < nextId && approvals[id].executionId in executions)
      && (id in results ==> id in steps)
    }

    ghost predicate Valid()
      reads this
    {
      && (forall e {:trigger Tied(e)} :: Tied(e))
      && (forall id {:trigger HandedOut(id)} :: HandedOut(id))
    }

    /** Fresh identifiers, as `uuid4` gives: no row has one of them. */
    method NewIds(count: nat) returns (id: Id)
      requires Valid()
      modifies this`nextId
      ensures Valid() && id == old(nextId) && nextId == id + count
      ensures forall k: Id :: k >= id ==> k !in plans && k !in steps && k !in proposals
      ensures forall k: Id :: k >= id ==> k !in evaluations && k !in approvals
    {
      id := nextId;
      forall k: Id ensures k >= id ==> k !in plans && k !in steps && k !in proposals && k !in evaluations && k !in approvals {
        assert HandedOut(k);
      }
      nextId := nextId + count;
      Kept();
    }

    /** The tables did not change: what holds of them still does. */
    twostate lemma Kept()
      requires old(Valid()) && old(nextId) <= nextId
      requires unchanged(`contexts, `executions, `plans, `steps, `results, `proposals)
      requires unchanged(`evaluations, `approvals, `cases)
      ensures Valid()
    {
      forall x ensures Tied(x) { assert old(Tied(x)); }
      forall x ensures HandedOut(x) { assert old(HandedOut(x)); }
    }

    method Knows(e: Id) returns (known: bool)
      requires Valid()
      ensures known <==> e in cases
    {
      assert Tied(e);
      known := e in executions;
    }

    method GetExecution(e: Id) returns (ex: Execution)
      requires Valid() && e in cases
      ensures ex == cases[e].ex && ex.executionId == e
      ensures ex.planId.Some? ==> ex.planId.value in cases[e].plans
    {
      assert Tied(e);
      ex := executions[e];
    }

    method UpdateExecution(ex: Execution)
      requires Valid() && ex.executionId in cases
      requires ex.contextId == cases[ex.executionId].ex.contextId
      requires ex.planId.Some? ==> ex.planId.value in cases[ex.executionId].plans
      modifies this`executions, this`cases
      ensures Valid()
      ensures cases == old(cases)[ex.executionId := old(cases[ex.executionId]).(ex := ex)]
    {
      var e := ex.executionId;
      assert Tied(e);
      cases := cases[e := cases[e].(ex := ex)];
      executions := executions[e := ex];
      forall x ensures Tied(x) { assert old(Tied(x)); }
      forall x ensures HandedOut(x) { assert old(HandedOut(x)); }
    }

    method GetContext(e: Id) returns (ctx: Context)
      requires Valid() && e in cases
      ensures cases[e].ctx == Some(ctx)
    {
      assert Tied(e);
      ctx := contexts[executions[e].contextId];
    }

    method SavePlan(id: Id, plan: Plan)
      requires Valid() && plan.executionId in cases && id < nextId && id !in plans
      modifies this`plans, this`cases
      ensures Valid()
      ensures var e := plan.executionId; var c := old(cases[e]);
        cases == old(cases)[e := c.(plans := c.plans[id := plan])]
    {
      var e := plan.executionId;
      assert Tied(e);
      cases := cases[e := cases[e].(plans := cases[e].plans[id := plan])];
      plans := plans[id := plan];
      forall x ensures Tied(x) { assert old(Tied(x)); PlanSaved(old(plans), id, plan, x); }
      forall x ensures HandedOut(x) { assert old(HandedOut(x)); }
    }

    method GetPlan(e: Id) returns (plan: Plan)
      requires Valid() && e in cases && cases[e].ex.planId.Some?
      ensures PlanResolves(cases[e]) && plan == cases[e].plans[cases[e].ex.planId.value]
    {
      assert Tied(e);
      plan := plans[executions[e].planId.value];
    }

    method SaveStep(id: Id, step: Step)
      requires Valid() && step.executionId in cases && id < nextId
      requires id in steps ==> steps[id].executionId == step.executionId
      modifies this`steps, this`cases
      ensures Valid() && steps == old(steps)[id := step]
      ensures var e := step.executionId; var c := old(cases[e]);
        cases == old(cases)[e := c.(steps := c.steps[id := step])]
    {
      var e := step.executionId;
      assert Tied(e);
      cases := cases[e := cases[e].(steps := cases[e].steps[id := step])];
      steps := steps[id := step];
      forall x ensures HandedOut(x) { assert old(HandedOut(x)); }
      forall x ensures Tied(x) {
        assert old(Tied(x));
        assert old(results).Keys <= old(steps).Keys by { ResultsHaveSteps(); }
        StepSaved(old(steps), old(results), id, step, x);
      }
    }

    twostate lemma ResultsHaveSteps()
      requires old(Valid())
      ensures old(results).Keys <= old(steps).Keys
    {
      forall k: Id | k in old(results) ensures k in old(steps) { assert old(HandedOut(k)); }
    }

    method GetStep(e: Id, id: Id) returns (step: Step)
      requires Valid() && e in cases && id in cases[e].steps
      ensures step == cases[e].steps[id] && step.executionId == e
    {
      assert Tied(e);
      step := steps[id];
    }

    method UpdateStep(id: Id, step: Step)
      requires Valid() && step.executionId in cases && id in cases[step.executionId].steps
      modifies this`steps, this`cases
      ensures Valid()
      ensures var e := step.executionId; var c := old(cases[e]);
        cases == old(cases)[e := c.(steps := c.steps[id := step])]
    {
      assert HandedOut(id) && Tied(step.executionId);
      SaveStep(id, step);
    }

    method SaveStepResult(e: Id, id: Id, result: StepResult)
      requires Valid() && e in cases && id in cases[e].steps
      modifies this`results, this`cases
      ensures Valid()
      ensures var c := old(cases[e]); cases == old(cases)[e := c.(results := c.results[id := result])]
    {
      assert Tied(e);
      cases := cases[e := cases[e].(results := cases[e].results[id := result])];
      results := results[id := result];
      forall x ensures HandedOut(x) { assert old(HandedOut(x)); }
      forall x ensures Tied(x) { assert old(Tied(x)); ResultSaved(old(results), steps, id, result, x); }
    }

    method SaveProposal(id: Id, p: Proposal)
      requires Valid() && p.executionId in cases && id < nextId
      requires id !in proposals || id in cases[p.executionId].proposals
      modifies this`proposals, this`cases
      ensures Valid()
      ensures var e := p.executionId; var c := old(cases[e]);
        cases == old(cases)[e := c.(proposals := c.proposals[id := p])]
    {
      var e := p.executionId;
      assert Tied(e);
      cases := cases[e := cases[e].(proposals := cases[e].proposals[id := p])];
      proposals := proposals[id := p];
      forall x ensures HandedOut(x) { assert old(HandedOut(x)); }
      forall x ensures Tied(x) { assert old(Tied(x)); ProposalSaved(old(proposals), id, p, x); }
    }

    method GetProposal(e: Id, id: Id) returns (p: Proposal)
      requires Valid() && e in cases && id in cases[e].proposals
      ensures p == cases[e].proposals[id] && p.executionId == e && id < nextId
    {
      assert Tied(e) && HandedOut(id);
      p := proposals[id];
    }

    method SaveEvaluation(id: Id, v: Evaluation)
      requires Valid() && v.executionId in cases && id < nextId && id !in evaluations
      modifies this`evaluations, this`cases
      ensures Valid()
      ensures var e := v.executionId; var c := old(cases[e]);
        cases == old(cases)[e := c.(evaluations := c.evaluations[id := v])]
    {
      var e := v.executionId;
      assert Tied(e);
      cases := cases[e := cases[e].(evaluations := cases[e].evaluations[id := v])];
      evaluations := evaluations[id := v];
      forall x ensures HandedOut(x) { assert old(HandedOut(x)); }
      forall x ensures Tied(x) { assert old(Tied(x)); EvaluationSaved(old(evaluations), id, v, x); }
    }

    method SaveApproval(id: Id, a: Approval)
      requires Valid() && a.executionId in cases && id < nextId && id !in approvals
      modifies this`approvals, this`cases
      ensures Valid()
      ensures var e := a.executionId; var c := old(cases[e]);
        cases == old(cases)[e := c.(approvals := c.approvals[id := a])]
    {
      var e := a.executionId;
      assert Tied(e);
      cases := cases[e := cases[e].(approvals := cases[e].approvals[id := a])];
      approvals := approvals[id := a];
      forall x ensures HandedOut(x) { assert old(HandedOut(x)); }
      forall x ensures Tied(x) { assert old(Tied(x)); ApprovalSaved(old(approvals), id, a, x); }
    }

    /** No row belongs to an execution that is not stored. */
    lemma NoRows(e: Id)
      requires Valid() && e !in executions
      ensures PlansOf(plans, e) == map[] && StepsOf(steps, e) == map[] && ResultsOf(results, steps, e) == map[]
      ensures ProposalsOf(proposals, e) == map[] && EvaluationsOf(evaluations, e) == map[]
      ensures ApprovalsOf(approvals, e) == map[]
    {
      forall k: Id ensures k !in PlansOf(plans, e) && k !in StepsOf(steps, e) && k !in ResultsOf(results, steps, e)
        && k !in ProposalsOf(proposals, e) && k !in EvaluationsOf(evaluations, e) && k !in ApprovalsOf(approvals, e)
      {
        assert HandedOut(k);
      }
      Empty(PlansOf(plans, e));
      Empty(StepsOf(steps, e));
      Empty(ResultsOf(results, steps, e));
      Empty(ProposalsOf(proposals, e));
      Empty(EvaluationsOf(evaluations, e));
      Empty(ApprovalsOf(approvals, e));
    }

    /** Store a new execution with its context. */
    method CreateExecution(ex: Execution, ctx: Context) returns (e: Id)
      requires Valid() && ex.planId.None?
      modifies this`executions, this`contexts, this`nextId, this`cases
      ensures Valid() && e !in old(cases)
      ensures cases == old(cases)[e :=
        Case(ex.(executionId := e, contextId := e + 1), Some(ctx), map[], map[], map[], map[], map[], map[])]
    {
      e := nextId;
      assert HandedOut(e) && HandedOut(e + 1) && Tied(e);
      NoRows(e);
      nextId := nextId + 2;
      var stored := ex.(executionId := e, contextId := e + 1);
      contexts := contexts[e + 1 := ctx];
      executions := executions[e := stored];
      cases := cases[e := Case(stored, Some(ctx), map[], map[], map[], map[], map[], map[])];
      forall x ensures HandedOut(x) { assert old(HandedOut(x)); }
      forall x ensures Tied(x) {
        assert old(Tied(x));
        if x in old(executions) { assert old(HandedOut(executions[x].contextId)); }
      }
    }

    /** The steps of one execution, sorted by creation time; ties in no particular order. */
    method ListSteps(e: Id) returns (rows: seq<StepRow>)
      requires Valid() && e in cases
      ensures IsListing(rows, cases[e].steps) && SortedByCreation(rows)
    {
      assert Tied(e);
      rows := [];
      var rest := set k | k in steps && steps[k].executionId == e;
      ghost var all := StepsOf(steps, e);
      ghost var listed: map<Id, Step> := map[];
      while rest != {}
        invariant rest <= all.Keys && listed.Keys == all.Keys - rest
        invariant forall k :: k in listed ==> listed[k] == all[k]
        invariant IsListing(rows, listed) && SortedByCreation(rows)
        decreases rest
      {
        var id: Id :| id in rest;
        assert id in all;
        rows := InsertByCreation(rows, StepRow(id, steps[id]), listed);
        listed := listed[id := steps[id]];
        rest := rest - {id};
      }
      assert listed == all;
    }
  }

  /** The row at `j` once `row` stands at `i`. */
  function RowAt(rows: seq<StepRow>, i: nat, row: StepRow, j: nat): StepRow
    requires i <= |rows| && j <= |rows|
  {
    if j < i then rows[j] else if j == i then row else rows[j - 1]
  }

  lemma InsertedAt(rows: seq<StepRow>, i: nat, row: StepRow)
    requires i <= |rows|
    ensures var r := rows[..i] + [row] + rows[i..];
      |r| == |rows| + 1 && forall j :: 0 <= j < |r| ==> r[j] == RowAt(rows, i, row, j)
  {
  }

  lemma ListingInserted(rows: seq<StepRow>, i: nat, row: StepRow, listed: map<Id, Step>, r: seq<StepRow>)
    requires IsListing(rows, listed) && row.id !in listed && i <= |rows|
    requires |r| == |rows| + 1 && forall j :: 0 <= j < |r| ==> r[j] == RowAt(rows, i, row, j)
    ensures IsListing(r, listed[row.id := row.step])
  {
    var more := listed[row.id := row.step];
    forall id | id in more ensures exists j :: 0 <= j < |r| && r[j].id == id {
      if id == row.id {
        assert r[i].id == id;
      } else {
        var j :| 0 <= j < |rows| && rows[j].id == id;
        assert r[if j < i then j else j + 1].id == id;
      }
    }
    forall j | 0 <= j < |r| ensures r[j].id in more && more[r[j].id] == r[j].step {
      assert r[j] == RowAt(rows, i, row, j);
    }
    forall j, k | 0 <= j < k < |r| ensures r[j].id != r[k].id {
      assert r[j] == RowAt(rows, i, row, j) && r[k] == RowAt(rows, i, row, k);
    }
  }

  lemma SortedInserted(rows: seq<StepRow>, i: nat, row: StepRow, r: seq<StepRow>)
    requires SortedByCreation(rows) && i <= |rows|
    requires |r| == |rows| + 1 && forall j :: 0 <= j < |r| ==> r[j] == RowAt(rows, i, row, j)
    requires forall j :: 0 <= j < i ==> rows[j].step.createdAt <= row.step.createdAt
    requires i < |rows| ==> row.step.createdAt <= rows[i].step.createdAt
    ensures SortedByCreation(r)
  {
    forall j, k | 0 <= j < k < |r| ensures r[j].step.createdAt <= r[k].step.createdAt {
      assert r[j] == RowAt(rows, i, row, j) && r[k] == RowAt(rows, i, row, k);
    }
  }

  /** Insert after every row created no later. */
  method InsertByCreation(rows: seq<StepRow>, row: StepRow, ghost listed: map<Id, Step>)
    returns (r: seq<StepRow>)
    requires IsListing(rows, listed) && SortedByCreation(rows) && row.id !in listed
    ensures IsListing(r, listed[row.id := row.step]) && SortedByCreation(r)
  {
    var i := 0;
    while i < |rows| && rows[i].step.createdAt <= row.step.createdAt
      invariant i <= |rows|
      invariant forall j :: 0 <= j < i ==> rows[j].step.createdAt <= row.step.createdAt
    {
      i := i + 1;
    }
    r := rows[..i] + [row] + rows[i..];
    InsertedAt(rows, i, row);
    ListingInserted(rows, i, row, listed, r);
    SortedInserted(rows, i, row, r);
  }
}
