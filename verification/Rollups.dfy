/** Metric rollups: counts per workflow, policy decision, step type and tool, and the
    evaluation score.  Rates are exact rationals. */
module Rollups {
  import opened Records
  import opened Sums

  datatype StepInfo = StepInfo(id: Id, stepType: string, succeeded: bool, failed: bool)

  /** A reasoning event of the timeline, with the step it names, if it names one. */
  datatype Reasoning = Reasoning(stepId: Option<Id>, fallback: bool)

  datatype ToolInfo = ToolInfo(name: string, ok: bool)

  /** What the store holds about one execution, as far as the metrics read it. */
  datatype Run = Run(
    id: string, workflow: string, failed: bool, decisions: seq<string>,
    steps: seq<StepInfo>, events: seq<Reasoning>, tools: seq<ToolInfo>)

  datatype Metrics = Metrics(
    executionId: string, workflow: string, failed: bool, decisions: seq<string>,
    fallbackRate: Option<real>, toolRate: Option<real>)

  // ---------------------------------------------------------------- per execution

  function Fallbacks(events: seq<Reasoning>): (n: nat)
    ensures n <= |events|
    ensures n == |events| <==> forall ev :: ev in events ==> ev.fallback
    ensures n == 0 <==> forall ev :: ev in events ==> !ev.fallback
  {
    if events == [] then 0
    else
      assert events == events[..|events| - 1] + [events[|events| - 1]];
      Fallbacks(events[..|events| - 1]) + if events[|events| - 1].fallback then 1 else 0
  }

  function Successes(tools: seq<ToolInfo>): (n: nat)
    ensures n <= |tools|
    ensures n == |tools| <==> forall t :: t in tools ==> t.ok
    ensures n == 0 <==> forall t :: t in tools ==> !t.ok
  {
    if tools == [] then 0
    else
      assert tools == tools[..|tools| - 1] + [tools[|tools| - 1]];
      Successes(tools[..|tools| - 1]) + if tools[|tools| - 1].ok then 1 else 0
  }

  /** The counts of an execution, by position. */
  lemma {:induction false} FallbacksAre(events: seq<Reasoning>)
    ensures Fallbacks(events) == CountIf(events, (ev: Reasoning) => ev.fallback)
  {
    if events == [] {
      CountSnoc([], Reasoning(None, false), (ev: Reasoning) => ev.fallback);
    } else {
      var init, last := events[..|events| - 1], events[|events| - 1];
      assert events == init + [last];
      FallbacksAre(init);
      CountSnoc(init, last, (ev: Reasoning) => ev.fallback);
    }
  }

  lemma {:induction false} SuccessesAre(tools: seq<ToolInfo>)
    ensures Successes(tools) == CountIf(tools, (t: ToolInfo) => t.ok)
  {
    if tools == [] {
      CountSnoc([], ToolInfo("", false), (t: ToolInfo) => t.ok);
    } else {
      var init, last := tools[..|tools| - 1], tools[|tools| - 1];
      assert tools == init + [last];
      SuccessesAre(init);
      CountSnoc(init, last, (t: ToolInfo) => t.ok);
    }
  }

  /** The two rates of an execution are shares of its events and calls. */
  lemma RatesAre(run: Run)
    ensures var m := MetricsOf(run);
      && m.executionId == run.id && m.workflow == run.workflow && m.failed == run.failed
      && m.decisions == run.decisions
      && m.fallbackRate == (if run.events == [] then None
                             else Some(CountIf(run.events, (ev: Reasoning) => ev.fallback) as real / |run.events| as real))
      && m.toolRate == (if run.tools == [] then None
                         else Some(CountIf(run.tools, (t: ToolInfo) => t.ok) as real / |run.tools| as real))
  {
    FallbacksAre(run.events);
    SuccessesAre(run.tools);
  }

  predicate InUnit(x: real) { 0.0 <= x <= 1.0 }

  /** The share of a part, if there is a whole to share. */
  function Rate(part: nat, whole: nat): (r: Option<real>)
    ensures r.Some? <==> whole > 0
    ensures r.Some? && part <= whole ==> InUnit(r.value)
    ensures r.Some? ==> (r.value == 1.0 <==> part == whole) && (r.value == 0.0 <==> part == 0)
  {
    if whole == 0 then None else Some(part as real / whole as real)
  }

  predicate RatesInUnit(m: Metrics) {
    (m.toolRate.Some? ==> InUnit(m.toolRate.value)) && (m.fallbackRate.Some? ==> InUnit(m.fallbackRate.value))
  }

  function MetricsOf(run: Run): (m: Metrics)
    ensures RatesInUnit(m)
    ensures (m.fallbackRate.Some? <==> run.events != []) && (m.toolRate.Some? <==> run.tools != [])
  {
    Metrics(run.id, run.workflow, run.failed, run.decisions,
            Rate(Fallbacks(run.events), |run.events|), Rate(Successes(run.tools), |run.tools|))
  }

  function Measured(runs: seq<Run>): (per: seq<Metrics>)
    ensures |per| == |runs|
  {
    seq(|runs|, i requires 0 <= i < |runs| => MetricsOf(runs[i]))
  }

  // The rates that are defined, and their mean.

  function ToolRates(per: seq<Metrics>): seq<real> {
    if per == [] then []
    else ToolRates(per[..|per| - 1]) + if per[|per| - 1].toolRate.Some? then [per[|per| - 1].toolRate.value] else []
  }

  function FallbackRates(per: seq<Metrics>): seq<real> {
    if per == [] then []
    else
      FallbackRates(per[..|per| - 1])
      + if per[|per| - 1].fallbackRate.Some? then [per[|per| - 1].fallbackRate.value] else []
  }

  function Total(xs: seq<real>): real {
    if xs == [] then 0.0 else Total(xs[..|xs| - 1]) + xs[|xs| - 1]
  }

  function Mean(xs: seq<real>): Option<real> {
    if xs == [] then None else Some(Total(xs) / |xs| as real)
  }

  lemma {:induction false} TotalBounds(xs: seq<real>)
    requires forall x :: x in xs ==> InUnit(x)
    ensures 0.0 <= Total(xs) <= |xs| as real
  {
    if xs != [] {
      assert xs[|xs| - 1] in xs && forall x :: x in xs[..|xs| - 1] ==> x in xs;
      TotalBounds(xs[..|xs| - 1]);
    }
  }

  predicate AllAre(xs: seq<real>, y: real) {
    forall x :: x in xs ==> x == y
  }

  lemma AllAreSnoc(init: seq<real>, last: real, y: real)
    ensures AllAre(init + [last], y) <==> AllAre(init, y) && last == y
  {
    assert last in init + [last] && forall x :: x in init ==> x in init + [last];
  }

  lemma {:induction false} TotalExtremes(xs: seq<real>)
    requires forall x :: x in xs ==> InUnit(x)
    ensures Total(xs) == |xs| as real <==> AllAre(xs, 1.0)
    ensures Total(xs) == 0.0 <==> AllAre(xs, 0.0)
  {
    if xs != [] {
      var init, last := xs[..|xs| - 1], xs[|xs| - 1];
      assert xs == init + [last];
      assert InUnit(last) by { assert last in xs; }
      forall x | x in init ensures InUnit(x) { assert x in xs; }
      TotalBounds(init);
      TotalExtremes(init);
      AllAreSnoc(init, last, 1.0);
      AllAreSnoc(init, last, 0.0);
    }
  }

  lemma DivBounds(x: real, n: real)
    requires n > 0.0 && 0.0 <= x <= n
    ensures InUnit(x / n)
    ensures (x / n == 1.0 <==> x == n) && (x / n == 0.0 <==> x == 0.0)
  {
  }

  /** The mean of shares is a share, and an extreme one only if all are. */
  lemma MeanInUnit(xs: seq<real>)
    requires xs != [] && forall x :: x in xs ==> InUnit(x)
    ensures InUnit(Mean(xs).value)
    ensures Mean(xs).value == 1.0 <==> forall x :: x in xs ==> x == 1.0
    ensures Mean(xs).value == 0.0 <==> forall x :: x in xs ==> x == 0.0
  {
    TotalBounds(xs);
    TotalExtremes(xs);
    DivBounds(Total(xs), |xs| as real);
  }

  lemma {:induction false} RatesFrom(per: seq<Metrics>)
    ensures forall x :: x in ToolRates(per) <==> exists m :: m in per && m.toolRate == Some(x)
    ensures forall x :: x in FallbackRates(per) <==> exists m :: m in per && m.fallbackRate == Some(x)
  {
    if per != [] {
      var init, last := per[..|per| - 1], per[|per| - 1];
      assert per == init + [last];
      RatesFrom(init);
    }
  }

  lemma ToolMean(per: seq<Metrics>)
    requires forall m :: m in per ==> RatesInUnit(m)
    ensures Mean(ToolRates(per)).Some? <==> exists m :: m in per && m.toolRate.Some?
    ensures Mean(ToolRates(per)).Some? ==> InUnit(Mean(ToolRates(per)).value)
  {
    RatesFrom(per);
    if ToolRates(per) != [] {
      assert ToolRates(per)[0] in ToolRates(per);
      MeanInUnit(ToolRates(per));
    }
  }

  lemma FallbackMean(per: seq<Metrics>)
    requires forall m :: m in per ==> RatesInUnit(m)
    ensures Mean(FallbackRates(per)).Some? <==> exists m :: m in per && m.fallbackRate.Some?
    ensures Mean(FallbackRates(per)).Some? ==> InUnit(Mean(FallbackRates(per)).value)
  {
    RatesFrom(per);
    if FallbackRates(per) != [] {
      assert FallbackRates(per)[0] in FallbackRates(per);
      MeanInUnit(FallbackRates(per));
    }
  }

  /** As many rates as executions have one. */
  lemma {:induction false} RatesCount(per: seq<Metrics>)
    ensures |ToolRates(per)| == CountIf(per, (m: Metrics) => m.toolRate.Some?)
    ensures |FallbackRates(per)| == CountIf(per, (m: Metrics) => m.fallbackRate.Some?)
  {
    if per == [] {
      CountSnoc([], Metrics("", "", false, [], None, None), (m: Metrics) => m.toolRate.Some?);
      CountSnoc([], Metrics("", "", false, [], None, None), (m: Metrics) => m.fallbackRate.Some?);
    } else {
      var init, last := per[..|per| - 1], per[|per| - 1];
      assert per == init + [last];
      RatesCount(init);
      CountSnoc(init, last, (m: Metrics) => m.toolRate.Some?);
      CountSnoc(init, last, (m: Metrics) => m.fallbackRate.Some?);
    }
  }

  // ---------------------------------------------------------------- by workflow and by decision

  function RowsOf(per: seq<Metrics>, workflow: string): seq<Metrics> {
    if per == [] then []
    else
      RowsOf(per[..|per| - 1], workflow)
      + if per[|per| - 1].workflow == workflow then [per[|per| - 1]] else []
  }

  function Decisions(per: seq<Metrics>): seq<string> {
    if per == [] then [] else Decisions(per[..|per| - 1]) + per[|per| - 1].decisions
  }

  function Workflows(per: seq<Metrics>): seq<string> {
    seq(|per|, i requires 0 <= i < |per| => per[i].workflow)
  }

  function FailedIn(rows: seq<Metrics>): nat {
    if rows == [] then 0 else FailedIn(rows[..|rows| - 1]) + if rows[|rows| - 1].failed then 1 else 0
  }

  datatype WorkflowRollup = WorkflowRollup(
    executions: nat, failed: nat, meanFallback: Option<real>, meanTool: Option<real>, decisions: map<string, nat>)

  /** A dictionary of counts that says how often each name occurs. */
  predicate Counts(m: map<string, nat>, names: seq<string>) {
    m.Keys == Names(names) && forall k :: k in m ==> m[k] == Occurrences(names, k)
  }

  predicate RollupOf(r: WorkflowRollup, rows: seq<Metrics>) {
    && r.executions == |rows|
    && r.failed == FailedIn(rows)
    && r.meanFallback == Mean(FallbackRates(rows))
    && r.meanTool == Mean(ToolRates(rows))
    && Counts(r.decisions, Decisions(rows))
  }

  lemma OccursInNames(names: seq<string>, k: string)
    ensures Occurrences(names, k) > 0 <==> k in Names(names)
  {
    if names != [] {
      var init, last := names[..|names| - 1], names[|names| - 1];
      OccursInNames(init, k);
      assert k in names <==> k in init || k == last by {
        assert names == init + [last];
      }
    }
  }

  method CountNames(m: map<string, nat>, names: seq<string>, ghost before: seq<string>) returns (more: map<string, nat>)
    requires Counts(m, before)
    ensures Counts(more, before + names)
  {
    more := m;
    assert before + names[..0] == before;
    for i := 0 to |names|
      invariant Counts(more, before + names[..i])
    {
      var k := names[i];
      ghost var seen := before + names[..i];
      assert before + names[..i + 1] == seen + [k];
      CountOneMore(more, seen, k);
      more := more[k := if k in more then more[k] + 1 else 1];
    }
    assert names[..|names|] == names;
  }

  lemma CountOneMore(m: map<string, nat>, seen: seq<string>, k: string)
    requires Counts(m, seen)
    ensures Counts(m[k := if k in m then m[k] + 1 else 1], seen + [k])
  {
    assert (seen + [k])[..|seen|] == seen;
    OccursInNames(seen, k);
    forall j ensures j in Names(seen + [k]) <==> j in Names(seen) || j == k {
      assert j in seen + [k] <==> j in seen || j == k;
    }
  }

  method RollUpWorkflow(rows: seq<Metrics>) returns (r: WorkflowRollup)
    ensures RollupOf(r, rows)
  {
    var failed: nat, counts: map<string, nat> := 0, map[];
    for i := 0 to |rows|
      invariant failed == FailedIn(rows[..i]) && Counts(counts, Decisions(rows[..i]))
    {
      assert rows[..i + 1][..i] == rows[..i];
      if rows[i].failed {
        failed := failed + 1;
      }
      counts := CountNames(counts, rows[i].decisions, Decisions(rows[..i]));
    }
    assert rows[..|rows|] == rows;
    r := WorkflowRollup(|rows|, failed, Mean(FallbackRates(rows)), Mean(ToolRates(rows)), counts);
  }

  predicate Grouped(groups: map<string, seq<Metrics>>, per: seq<Metrics>) {
    groups.Keys == Names(Workflows(per)) && forall w :: w in groups ==> groups[w] == RowsOf(per, w)
  }

  lemma NoRows(per: seq<Metrics>, w: string)
    requires w !in Names(Workflows(per))
    ensures RowsOf(per, w) == []
  {
    if per != [] {
      var init := per[..|per| - 1];
      assert Workflows(per)[|per| - 1] == per[|per| - 1].workflow;
      assert forall i :: 0 <= i < |init| ==> Workflows(init)[i] == Workflows(per)[i];
      NoRows(init, w);
    }
  }

  lemma GroupOneMore(groups: map<string, seq<Metrics>>, seen: seq<Metrics>, m: Metrics)
    requires Grouped(groups, seen)
    ensures Grouped(groups[m.workflow := (if m.workflow in groups then groups[m.workflow] else []) + [m]], seen + [m])
  {
    assert (seen + [m])[..|seen|] == seen;
    assert Workflows(seen + [m]) == Workflows(seen) + [m.workflow];
    if m.workflow !in groups {
      NoRows(seen, m.workflow);
    }
  }

  /** Group by workflow, then roll each group up. */
  method AggregateByWorkflow(per: seq<Metrics>) returns (roll: map<string, WorkflowRollup>)
    ensures RolledUp(roll, per)
  {
    var groups: map<string, seq<Metrics>> := map[];
    for i := 0 to |per|
      invariant Grouped(groups, per[..i])
    {
      assert per[..i + 1] == per[..i] + [per[i]];
      var m := per[i];
      GroupOneMore(groups, per[..i], m);
      groups := groups[m.workflow := (if m.workflow in groups then groups[m.workflow] else []) + [m]];
    }
    assert per[..|per|] == per;
    roll := map[];
    var rest := groups.Keys;
    while rest != {}
      invariant rest <= groups.Keys && roll.Keys == groups.Keys - rest
      invariant forall w :: w in roll ==> RollupOf(roll[w], groups[w])
      decreases rest
    {
      var w: string :| w in rest;
      var r := RollUpWorkflow(groups[w]);
      roll := roll[w := r];
      rest := rest - {w};
    }
  }

  datatype DecisionRollup = DecisionRollup(evaluations: nat, executions: nat)

  /** The executions that have an evaluation with this decision. */
  function Deciders(per: seq<Metrics>, d: string): set<string> {
    set m | m in per && d in m.decisions :: m.executionId
  }

  /** One rollup for each decision taken, with its evaluations and its distinct executions. */
  predicate DecisionsCounted(roll: map<string, DecisionRollup>, per: seq<Metrics>) {
    && roll.Keys == Names(Decisions(per))
    && forall d :: d in roll ==> roll[d] == DecisionRollup(Occurrences(Decisions(per), d), |Deciders(per, d)|)
  }

  /** The rollups of the decisions, counted on the executions: a decision has one exactly if
      some execution has taken it. */
  lemma DecisionRollupIs(roll: map<string, DecisionRollup>, per: seq<Metrics>, d: string)
    requires DecisionsCounted(roll, per)
    ensures d in roll <==> exists m :: m in per && d in m.decisions
    ensures d in roll ==>
      && roll[d].evaluations == TimesTaken(per, d)
      && roll[d].executions == |set m | m in per && d in m.decisions :: m.executionId|
  {
    TakenBySome(per, d);
    DecisionsAre(per, d);
  }

  lemma {:induction false} TakenBySome(per: seq<Metrics>, d: string)
    ensures d in Decisions(per) <==> exists m :: m in per && d in m.decisions
  {
    if per != [] {
      var init, last := per[..|per| - 1], per[|per| - 1];
      assert per == init + [last];
      TakenBySome(init, d);
    }
  }

  /** The execution identifiers noted for each decision, one for each evaluation. */
  predicate Noted(groups: map<string, seq<string>>, names: seq<string>, per: seq<Metrics>, id: string, of: seq<string>) {
    && groups.Keys == Names(names)
    && forall d :: d in groups ==>
      Names(groups[d]) == Deciders(per, d) + (if d in of then {id} else {})
  }

  lemma NobodyDecides(per: seq<Metrics>, d: string)
    requires d !in Names(Decisions(per))
    ensures Deciders(per, d) == {}
  {
    if per != [] {
      var init, last := per[..|per| - 1], per[|per| - 1];
      assert per == init + [last];
      assert d !in Names(Decisions(init)) && d !in last.decisions;
      NobodyDecides(init, d);
    }
  }

  lemma NoteOneMore(
    groups: map<string, seq<string>>, names: seq<string>, per: seq<Metrics>, id: string, of: seq<string>, d: string,
    more: map<string, seq<string>>)
    requires Noted(groups, names, per, id, of)
    requires d !in Names(names) ==> Deciders(per, d) == {} && d !in of
    requires more == groups[d := (if d in groups then groups[d] else []) + [id]]
    ensures Noted(more, names + [d], per, id, of + [d])
  {
    NamesSnoc(names, d);
    NamesSnoc(more[d][..|more[d]| - 1], id);
  }

  lemma NotedAll(groups: map<string, seq<string>>, per: seq<Metrics>, m: Metrics)
    requires Noted(groups, Decisions(per) + m.decisions, per, m.executionId, m.decisions)
    ensures Noted(groups, Decisions(per + [m]), per + [m], "", [])
  {
    assert (per + [m])[..|per|] == per;
    forall d | d in groups
      ensures Deciders(per + [m], d) == Deciders(per, d) + (if d in m.decisions then {m.executionId} else {})
    {
    }
  }

  method NoteDecisions(groups: map<string, seq<string>>, m: Metrics, ghost per: seq<Metrics>)
    returns (more: map<string, seq<string>>)
    requires Noted(groups, Decisions(per), per, "", [])
    ensures Noted(more, Decisions(per + [m]), per + [m], "", [])
  {
    more := groups;
    ghost var before := Decisions(per);
    assert before + m.decisions[..0] == before;
    for i := 0 to |m.decisions|
      invariant Noted(more, before + m.decisions[..i], per, m.executionId, m.decisions[..i])
    {
      var d := m.decisions[i];
      ghost var names, had := before + m.decisions[..i], more;
      assert names + [d] == before + m.decisions[..i + 1];
      assert m.decisions[..i] + [d] == m.decisions[..i + 1];
      if d !in Names(names) {
        NobodyDecides(per, d);
      }
      more := more[d := (if d in more then more[d] else []) + [m.executionId]];
      NoteOneMore(had, names, per, m.executionId, m.decisions[..i], d, more);
    }
    assert m.decisions[..|m.decisions|] == m.decisions;
    NotedAll(more, per, m);
  }

  /** The rollups as computed from the notes. */
  predicate CountedFrom(roll: map<string, DecisionRollup>, groups: map<string, seq<string>>, names: seq<string>) {
    forall d :: d in roll ==> d in groups && roll[d] == DecisionRollup(Occurrences(names, d), |Names(groups[d])|)
  }

  lemma NotedNames(groups: map<string, seq<string>>, per: seq<Metrics>, d: string)
    requires Noted(groups, Decisions(per), per, "", []) && d in groups
    ensures Names(groups[d]) == Deciders(per, d)
  {
  }

  lemma CountedIsRight(roll: map<string, DecisionRollup>, groups: map<string, seq<string>>, per: seq<Metrics>)
    requires Noted(groups, Decisions(per), per, "", [])
    requires roll.Keys == groups.Keys && CountedFrom(roll, groups, Decisions(per))
    ensures DecisionsCounted(roll, per)
  {
    forall d | d in roll ensures roll[d] == DecisionRollup(Occurrences(Decisions(per), d), |Deciders(per, d)|) {
      NotedNames(groups, per, d);
    }
    assert roll.Keys == Names(Decisions(per));
  }

  method CountNoted(groups: map<string, seq<string>>, names: seq<string>) returns (roll: map<string, DecisionRollup>)
    ensures roll.Keys == groups.Keys && CountedFrom(roll, groups, names)
  {
    roll := map[];
    var rest := groups.Keys;
    while rest != {}
      invariant rest <= groups.Keys && roll.Keys == groups.Keys - rest && CountedFrom(roll, groups, names)
      decreases rest
    {
      var d: string :| d in rest;
      roll := roll[d := DecisionRollup(Occurrences(names, d), |Names(groups[d])|)];
      rest := rest - {d};
    }
  }

  /** Note the execution of every evaluation by decision, then count each decision. */
  /** The rollup of a workflow, counted on the executions. */
  lemma {:induction false} WorkflowRollupIs(per: seq<Metrics>, w: string, r: WorkflowRollup)
    requires RollupOf(r, RowsOf(per, w))
    ensures r.executions == CountIf(per, (m: Metrics) => m.workflow == w)
    ensures r.failed == CountIf(per, (m: Metrics) => m.workflow == w && m.failed)
  {
    RowsAreCounted(per, w);
  }

  lemma {:induction false} RowsAreCounted(per: seq<Metrics>, w: string)
    ensures |RowsOf(per, w)| == CountIf(per, (m: Metrics) => m.workflow == w)
    ensures FailedIn(RowsOf(per, w)) == CountIf(per, (m: Metrics) => m.workflow == w && m.failed)
  {
    var p: Metrics -> bool := (m: Metrics) => m.workflow == w;
    var q: Metrics -> bool := (m: Metrics) => m.workflow == w && m.failed;
    if per == [] {
      CountSnoc([], Metrics("", "", false, [], None, None), p);
      CountSnoc([], Metrics("", "", false, [], None, None), q);
    } else {
      var init, last := per[..|per| - 1], per[|per| - 1];
      assert per == init + [last];
      RowsAreCounted(init, w);
      CountSnoc(init, last, p);
      CountSnoc(init, last, q);
      if last.workflow == w {
        assert (RowsOf(init, w) + [last])[..|RowsOf(init, w)|] == RowsOf(init, w);
      } else {
        assert RowsOf(init, w) + [] == RowsOf(init, w);
      }
    }
  }

  method CountDecisions(per: seq<Metrics>) returns (roll: map<string, DecisionRollup>)
    ensures DecisionsCounted(roll, per)
  {
    var groups: map<string, seq<string>> := map[];
    for i := 0 to |per|
      invariant Noted(groups, Decisions(per[..i]), per[..i], "", [])
    {
      assert per[..i] + [per[i]] == per[..i + 1];
      groups := NoteDecisions(groups, per[i], per[..i]);
    }
    assert per[..|per|] == per;
    roll := CountNoted(groups, Decisions(per));
    CountedIsRight(roll, groups, per);
  }

  lemma {:induction false} RowsCount(per: seq<Metrics>, w: string)
    ensures |RowsOf(per, w)| == Occurrences(Workflows(per), w)
  {
    if per != [] {
      var init := per[..|per| - 1];
      RowsCount(init, w);
      assert Workflows(per)[..|per| - 1] == Workflows(init);
    }
  }

  /** The executions of the workflow rollups add up to the executions in scope. */
  lemma ExecutionsConserve(per: seq<Metrics>, roll: map<string, WorkflowRollup>)
    requires RolledUp(roll, per)
    ensures Sum(w => if w in roll then roll[w].executions else 0, roll.Keys) == |per|
  {
    forall w | w in roll ensures roll[w].executions == Occurrences(Workflows(per), w) {
      RowsCount(per, w);
    }
    CountedExecutions(Workflows(per), roll);
  }

  lemma CountedExecutions(names: seq<string>, roll: map<string, WorkflowRollup>)
    requires roll.Keys == Names(names) && forall w :: w in roll ==> roll[w].executions == Occurrences(names, w)
    ensures Sum(w => if w in roll then roll[w].executions else 0, roll.Keys) == |names|
  {
    SumEqual(w => if w in roll then roll[w].executions else 0, w => Occurrences(names, w), roll.Keys);
    CountsConserve(names, roll.Keys);
  }

  lemma {:induction false} OccurrencesConcat(a: seq<string>, b: seq<string>, k: string)
    ensures Occurrences(a + b, k) == Occurrences(a, k) + Occurrences(b, k)
  {
    if b == [] {
      assert a + b == a;
    } else {
      assert (a + b)[..|a + b| - 1] == a + b[..|b| - 1];
      OccurrencesConcat(a, b[..|b| - 1], k);
    }
  }

  function DecisionsIn(per: seq<Metrics>, w: string, d: string): nat {
    Occurrences(Decisions(RowsOf(per, w)), d)
  }

  lemma DecisionsSnoc(init: seq<Metrics>, m: Metrics, w: string, d: string)
    ensures DecisionsIn(init + [m], w, d)
         == DecisionsIn(init, w, d) + if m.workflow == w then Occurrences(m.decisions, d) else 0
    ensures Occurrences(Decisions(init + [m]), d) == Occurrences(Decisions(init), d) + Occurrences(m.decisions, d)
  {
    assert (init + [m])[..|init|] == init;
    OccurrencesConcat(Decisions(init), m.decisions, d);
    var rows := RowsOf(init, w);
    if m.workflow == w {
      assert (rows + [m])[..|rows|] == rows;
      OccurrencesConcat(Decisions(rows), m.decisions, d);
    } else {
      assert rows + [] == rows;
    }
  }

  lemma {:induction false} DecisionsAddUp(per: seq<Metrics>, keys: set<string>, d: string)
    requires Names(Workflows(per)) <= keys
    ensures Sum(w => DecisionsIn(per, w, d), keys) == Occurrences(Decisions(per), d)
  {
    var f := w => DecisionsIn(per, w, d);
    if per == [] {
      SumZero(f, keys);
    } else {
      var init, m := per[..|per| - 1], per[|per| - 1];
      assert per == init + [m];
      assert Workflows(per) == Workflows(init) + [m.workflow];
      assert m.workflow in Names(Workflows(per)) && Names(Workflows(init)) <= Names(Workflows(per));
      DecisionsAddUp(init, keys, d);
      forall w ensures f(w) == DecisionsIn(init, w, d) + if m.workflow == w then Occurrences(m.decisions, d) else 0 {
        DecisionsSnoc(init, m, w, d);
      }
      DecisionsSnoc(init, m, m.workflow, d);
      SumRaised(w => DecisionsIn(init, w, d), f, keys, m.workflow, Occurrences(m.decisions, d));
    }
  }

  predicate RolledUp(roll: map<string, WorkflowRollup>, per: seq<Metrics>) {
    roll.Keys == Names(Workflows(per)) && forall w :: w in roll ==> RollupOf(roll[w], RowsOf(per, w))
  }

  /** What a workflow's rollup says about a decision. */
  function Says(roll: map<string, WorkflowRollup>, d: string): string -> nat {
    w => if w in roll && d in roll[w].decisions then roll[w].decisions[d] else 0
  }

  /** The two dictionaries agree: for every decision, taken or not, the evaluations of its
      rollup are the sum of what the workflow rollups say of it. */
  lemma DecisionsConserve(
    per: seq<Metrics>, roll: map<string, WorkflowRollup>, taken: map<string, DecisionRollup>, d: string)
    requires RolledUp(roll, per) && DecisionsCounted(taken, per)
    ensures Sum(Says(roll, d), roll.Keys) == if d in taken then taken[d].evaluations else 0
  {
    DecisionsAddUp(per, roll.Keys, d);
    forall w | w in roll ensures Says(roll, d)(w) == DecisionsIn(per, w, d) {
      OccursInNames(Decisions(RowsOf(per, w)), d);
    }
    SumEqual(Says(roll, d), w => DecisionsIn(per, w, d), roll.Keys);
    OccursInNames(Decisions(per), d);
  }

  /** How often a decision was taken, added up over the executions. */
  function TimesTaken(per: seq<Metrics>, d: string): nat {
    if per == [] then 0
    else
      TimesTaken(per[..|per| - 1], d)
      + CountIf(per[|per| - 1].decisions, (taken: string) => taken == d)
  }

  lemma {:induction false} DecisionsAre(per: seq<Metrics>, d: string)
    ensures Occurrences(Decisions(per), d) == TimesTaken(per, d)
  {
    if per != [] {
      var init, last := per[..|per| - 1], per[|per| - 1];
      DecisionsAre(init, d);
      OccurrencesConcat(Decisions(init), last.decisions, d);
      OccurrencesAre(last.decisions, d);
    }
  }

  /** A decision's executions are some and at most as many as its evaluations, and no more
      than the executions in scope. */
  lemma {:induction false} DistinctExecutions(per: seq<Metrics>, d: string)
    ensures |Deciders(per, d)| <= Occurrences(Decisions(per), d) && |Deciders(per, d)| <= |per|
    ensures Deciders(per, d) != {} <==> Occurrences(Decisions(per), d) > 0
  {
    if per != [] {
      var init, m := per[..|per| - 1], per[|per| - 1];
      assert per == init + [m];
      DistinctExecutions(init, d);
      OccurrencesConcat(Decisions(init), m.decisions, d);
      OccursInNames(m.decisions, d);
      assert Deciders(per, d) == Deciders(init, d) + if d in m.decisions then {m.executionId} else {};
    }
  }

  lemma {:induction false} RowsAre(per: seq<Metrics>, w: string)
    ensures forall m :: m in RowsOf(per, w) <==> m in per && m.workflow == w
  {
    if per != [] {
      var init, last := per[..|per| - 1], per[|per| - 1];
      assert per == init + [last];
      RowsAre(init, w);
    }
  }

  /** The mean rates in the workflow rollups of measured executions are shares, and a
      workflow has one exactly when one of its executions has the rate. */
  lemma MeansInUnit(runs: seq<Run>, roll: map<string, WorkflowRollup>, w: string)
    requires RolledUp(roll, Measured(runs)) && w in roll
    ensures roll[w].meanTool.Some? ==> InUnit(roll[w].meanTool.value)
    ensures roll[w].meanFallback.Some? ==> InUnit(roll[w].meanFallback.value)
    ensures roll[w].meanTool.Some? <==> exists m :: m in Measured(runs) && m.workflow == w && m.toolRate.Some?
    ensures roll[w].meanFallback.Some? <==> exists m :: m in Measured(runs) && m.workflow == w && m.fallbackRate.Some?
  {
    var per := Measured(runs);
    var rows := RowsOf(per, w);
    RowsAre(per, w);
    assert forall m :: m in per ==> RatesInUnit(m);
    ToolMean(rows);
    FallbackMean(rows);
  }

  // ---------------------------------------------------------------- by step type and by tool

  datatype StepRollup = StepRollup(steps: nat, succeeded: nat, failed: nat, reasoning: nat, fallbacks: nat)

  datatype ToolRollup = ToolRollup(invocations: nat, successes: nat, failures: nat)

  function ToolName(t: ToolInfo): string {
    if t.name == "" then "unknown" else t.name
  }

  /** The names of the calls that ended as asked. */
  function CallNames(tools: seq<ToolInfo>, ok: bool): seq<string> {
    if tools == [] then []
    else
      CallNames(tools[..|tools| - 1], ok)
      + if tools[|tools| - 1].ok == ok then [ToolName(tools[|tools| - 1])] else []
  }

  function AllCallNames(tools: seq<ToolInfo>): seq<string> {
    if tools == [] then [] else AllCallNames(tools[..|tools| - 1]) + [ToolName(tools[|tools| - 1])]
  }

  function AllTools(runs: seq<Run>): seq<ToolInfo> {
    if runs == [] then [] else AllTools(runs[..|runs| - 1]) + runs[|runs| - 1].tools
  }

  /** One rollup for each tool that was called, counting its calls and how they ended. */
  predicate ToolsCounted(roll: map<string, ToolRollup>, tools: seq<ToolInfo>) {
    && roll.Keys == Names(AllCallNames(tools))
    && forall k :: k in roll ==> roll[k] == ToolRollupFrom(tools, k)
  }

  function ToolRollupFrom(tools: seq<ToolInfo>, k: string): ToolRollup {
    ToolRollup(Occurrences(AllCallNames(tools), k), Occurrences(CallNames(tools, true), k),
               Occurrences(CallNames(tools, false), k))
  }

  lemma {:induction false} NamesSnoc(names: seq<string>, k: string)
    ensures Names(names + [k]) == Names(names) + {k}
    ensures forall j :: Occurrences(names + [k], j) == Occurrences(names, j) + if j == k then 1 else 0
  {
    assert (names + [k])[..|names|] == names;
  }

  lemma NotNamed(names: seq<string>, k: string)
    requires k !in Names(names)
    ensures Occurrences(names, k) == 0
  {
    OccursInNames(names, k);
  }

  lemma {:induction false} EndingsSplit(tools: seq<ToolInfo>, k: string)
    ensures Occurrences(AllCallNames(tools), k)
         == Occurrences(CallNames(tools, true), k) + Occurrences(CallNames(tools, false), k)
  {
    if tools != [] {
      var init, last := tools[..|tools| - 1], tools[|tools| - 1];
      EndingsSplit(init, k);
      NamesSnoc(AllCallNames(init), ToolName(last));
      NamesSnoc(CallNames(init, last.ok), ToolName(last));
      assert CallNames(init, !last.ok) + [] == CallNames(init, !last.ok);
    }
  }

  function Called(r: ToolRollup, ok: bool): ToolRollup {
    ToolRollup(r.invocations + 1, r.successes + (if ok then 1 else 0), r.failures + if ok then 0 else 1)
  }

  lemma ToolSnoc(seen: seq<ToolInfo>, t: ToolInfo, k: string)
    ensures AllCallNames(seen + [t]) == AllCallNames(seen) + [ToolName(t)]
    ensures ToolRollupFrom(seen + [t], k) ==
      if k == ToolName(t) then Called(ToolRollupFrom(seen, k), t.ok) else ToolRollupFrom(seen, k)
  {
    assert (seen + [t])[..|seen|] == seen;
    NamesSnoc(AllCallNames(seen), ToolName(t));
    NamesSnoc(CallNames(seen, t.ok), ToolName(t));
    assert CallNames(seen, !t.ok) + [] == CallNames(seen, !t.ok);
  }

  lemma NeverCalled(seen: seq<ToolInfo>, k: string)
    requires k !in Names(AllCallNames(seen))
    ensures ToolRollupFrom(seen, k) == ToolRollup(0, 0, 0)
  {
    NotNamed(AllCallNames(seen), k);
    EndingsSplit(seen, k);
  }

  lemma ToolOneMore(roll: map<string, ToolRollup>, seen: seq<ToolInfo>, t: ToolInfo, r: ToolRollup)
    requires ToolsCounted(roll, seen)
    requires r == Called(if ToolName(t) in roll then roll[ToolName(t)] else ToolRollup(0, 0, 0), t.ok)
    ensures ToolsCounted(roll[ToolName(t) := r], seen + [t])
  {
    if ToolName(t) !in roll {
      NeverCalled(seen, ToolName(t));
    }
    NamesSnoc(AllCallNames(seen), ToolName(t));
    forall k ensures ToolRollupFrom(seen + [t], k) ==
      if k == ToolName(t) then Called(ToolRollupFrom(seen, k), t.ok) else ToolRollupFrom(seen, k)
    {
      ToolSnoc(seen, t, k);
    }
    ToolSnoc(seen, t, "");
  }

  method RollUpTools(runs: seq<Run>) returns (roll: map<string, ToolRollup>)
    ensures ToolsCounted(roll, AllTools(runs))
  {
    roll := map[];
    for i := 0 to |runs|
      invariant ToolsCounted(roll, AllTools(runs[..i]))
    {
      assert runs[..i + 1][..i] == runs[..i];
      roll := RollUpCalls(roll, runs[i].tools, AllTools(runs[..i]));
    }
    assert runs[..|runs|] == runs;
  }

  method RollUpCalls(roll: map<string, ToolRollup>, tools: seq<ToolInfo>, ghost seen: seq<ToolInfo>)
    returns (more: map<string, ToolRollup>)
    requires ToolsCounted(roll, seen)
    ensures ToolsCounted(more, seen + tools)
  {
    more := roll;
    assert seen + tools[..0] == seen;
    for i := 0 to |tools|
      invariant ToolsCounted(more, seen + tools[..i])
    {
      var t := tools[i];
      assert seen + tools[..i + 1] == (seen + tools[..i]) + [t];
      var r := CountCall(if ToolName(t) in more then more[ToolName(t)] else ToolRollup(0, 0, 0), t);
      ToolOneMore(more, seen + tools[..i], t, r);
      more := more[ToolName(t) := r];
    }
    assert tools[..|tools|] == tools;
  }

  method CountCall(had: ToolRollup, t: ToolInfo) returns (r: ToolRollup)
    ensures r == Called(had, t.ok)
  {
    r := had.(invocations := had.invocations + 1);
    if t.ok {
      r := r.(successes := r.successes + 1);
    } else {
      r := r.(failures := r.failures + 1);
    }
  }

  lemma {:induction false} AllCallNamesLength(tools: seq<ToolInfo>)
    ensures |AllCallNames(tools)| == |tools|
  {
    if tools != [] {
      AllCallNamesLength(tools[..|tools| - 1]);
    }
  }

  /** The calls of all executions. */
  function CallTotal(runs: seq<Run>): nat {
    if runs == [] then 0 else CallTotal(runs[..|runs| - 1]) + |runs[|runs| - 1].tools|
  }

  lemma {:induction false} AllToolsAre(runs: seq<Run>)
    ensures |AllTools(runs)| == CallTotal(runs)
    ensures forall t :: t in AllTools(runs) <==> exists run :: run in runs && t in run.tools
  {
    if runs != [] {
      var init, last := runs[..|runs| - 1], runs[|runs| - 1];
      assert runs == init + [last];
      AllToolsAre(init);
    }
  }

  /** Each tool's successes and failures make up its invocations, and the invocations of
      all tools add up to all calls of all executions. */
  lemma InvocationsConserve(roll: map<string, ToolRollup>, runs: seq<Run>)
    requires ToolsCounted(roll, AllTools(runs))
    ensures forall k :: k in roll ==> roll[k].successes + roll[k].failures == roll[k].invocations
    ensures Sum(k => if k in roll then roll[k].invocations else 0, roll.Keys) == CallTotal(runs)
  {
    var tools := AllTools(runs);
    AllToolsAre(runs);
    forall k | k in roll ensures roll[k].successes + roll[k].failures == roll[k].invocations {
      EndingsSplit(tools, k);
    }
    var names := AllCallNames(tools);
    SumEqual(k => if k in roll then roll[k].invocations else 0, k => Occurrences(names, k), roll.Keys);
    CountsConserve(names, roll.Keys);
    AllCallNamesLength(tools);
  }

  // Step types.

  /** The type names that each counter of a step rollup counts. */
  datatype Lists = Lists(
    steps: seq<string>, succeeded: seq<string>, failed: seq<string>, reasoning: seq<string>, fallbacks: seq<string>)

  function WithStep(l: Lists, s: StepInfo): Lists {
    l.(steps := l.steps + [s.stepType],
       succeeded := l.succeeded + (if s.succeeded then [s.stepType] else []),
       failed := l.failed + if !s.succeeded && s.failed then [s.stepType] else [])
  }

  function WithSteps(l: Lists, steps: seq<StepInfo>): Lists {
    if steps == [] then l else WithStep(WithSteps(l, steps[..|steps| - 1]), steps[|steps| - 1])
  }

  function TypeMap(steps: seq<StepInfo>): map<Id, string> {
    if steps == [] then map[]
    else TypeMap(steps[..|steps| - 1])[steps[|steps| - 1].id := steps[|steps| - 1].stepType]
  }

  /** A reasoning event counts for the type of the step it names, if the run has it. */
  function WithEvent(l: Lists, types: map<Id, string>, ev: Reasoning): Lists {
    if ev.stepId.None? || ev.stepId.value !in types then l
    else
      var k := types[ev.stepId.value];
      l.(reasoning := l.reasoning + [k], fallbacks := l.fallbacks + if ev.fallback then [k] else [])
  }

  function WithEvents(l: Lists, types: map<Id, string>, events: seq<Reasoning>): Lists {
    if events == [] then l
    else WithEvent(WithEvents(l, types, events[..|events| - 1]), types, events[|events| - 1])
  }

  function Collected(runs: seq<Run>): Lists {
    if runs == [] then Lists([], [], [], [], [])
    else
      var last := runs[|runs| - 1];
      WithEvents(WithSteps(Collected(runs[..|runs| - 1]), last.steps), TypeMap(last.steps), last.events)
  }

  function RollupFrom(l: Lists, k: string): StepRollup {
    StepRollup(Occurrences(l.steps, k), Occurrences(l.succeeded, k), Occurrences(l.failed, k),
               Occurrences(l.reasoning, k), Occurrences(l.fallbacks, k))
  }

  /** Everything that is counted is counted under a type that has steps. */
  ghost predicate Within(l: Lists) {
    forall k :: k !in Names(l.steps) ==> RollupFrom(l, k) == StepRollup(0, 0, 0, 0, 0)
  }

  ghost predicate StepsCounted(roll: map<string, StepRollup>, l: Lists) {
    && Within(l)
    && roll.Keys == Names(l.steps)
    && forall k :: k in roll ==> roll[k] == RollupFrom(l, k)
  }

  function WithOneStep(r: StepRollup, s: StepInfo): StepRollup {
    r.(steps := r.steps + 1, succeeded := r.succeeded + (if s.succeeded then 1 else 0),
       failed := r.failed + if !s.succeeded && s.failed then 1 else 0)
  }

  lemma StepSnoc(l: Lists, s: StepInfo, k: string)
    ensures WithStep(l, s).steps == l.steps + [s.stepType]
    ensures RollupFrom(WithStep(l, s), k) ==
      if k == s.stepType then WithOneStep(RollupFrom(l, k), s) else RollupFrom(l, k)
  {
    NamesSnoc(l.steps, s.stepType);
    NamesSnoc(l.succeeded, s.stepType);
    NamesSnoc(l.failed, s.stepType);
    assert l.succeeded + [] == l.succeeded && l.failed + [] == l.failed;
  }

  lemma StepOneMore(roll: map<string, StepRollup>, l: Lists, s: StepInfo, r: StepRollup)
    requires StepsCounted(roll, l)
    requires r == WithOneStep(if s.stepType in roll then roll[s.stepType] else StepRollup(0, 0, 0, 0, 0), s)
    ensures StepsCounted(roll[s.stepType := r], WithStep(l, s))
  {
    var l' := WithStep(l, s);
    NamesSnoc(l.steps, s.stepType);
    forall k ensures RollupFrom(l', k) ==
      if k == s.stepType then WithOneStep(RollupFrom(l, k), s) else RollupFrom(l, k)
    {
      StepSnoc(l, s, k);
    }
    StepSnoc(l, s, "");
  }

  function WithOneEvent(r: StepRollup, ev: Reasoning): StepRollup {
    r.(reasoning := r.reasoning + 1, fallbacks := r.fallbacks + if ev.fallback then 1 else 0)
  }

  lemma EventSnoc(l: Lists, types: map<Id, string>, ev: Reasoning, k: string)
    requires ev.stepId.Some? && ev.stepId.value in types
    ensures WithEvent(l, types, ev).steps == l.steps
    ensures RollupFrom(WithEvent(l, types, ev), k) ==
      if k == types[ev.stepId.value] then WithOneEvent(RollupFrom(l, k), ev) else RollupFrom(l, k)
  {
    NamesSnoc(l.reasoning, types[ev.stepId.value]);
    NamesSnoc(l.fallbacks, types[ev.stepId.value]);
    assert l.fallbacks + [] == l.fallbacks;
  }

  lemma EventOneMore(roll: map<string, StepRollup>, l: Lists, types: map<Id, string>, ev: Reasoning, r: StepRollup)
    requires StepsCounted(roll, l) && ev.stepId.Some? && ev.stepId.value in types
    requires types[ev.stepId.value] in roll && r == WithOneEvent(roll[types[ev.stepId.value]], ev)
    ensures StepsCounted(roll[types[ev.stepId.value] := r], WithEvent(l, types, ev))
  {
    var l' := WithEvent(l, types, ev);
    forall k ensures RollupFrom(l', k) ==
      if k == types[ev.stepId.value] then WithOneEvent(RollupFrom(l, k), ev) else RollupFrom(l, k)
    {
      EventSnoc(l, types, ev, k);
    }
    EventSnoc(l, types, ev, "");
  }

  method RollUpSteps(runs: seq<Run>) returns (roll: map<string, StepRollup>)
    ensures StepsCounted(roll, Collected(runs))
  {
    roll := map[];
    assert Within(Lists([], [], [], [], []));
    for i := 0 to |runs|
      invariant StepsCounted(roll, Collected(runs[..i]))
    {
      assert runs[..i + 1][..i] == runs[..i];
      ghost var l := Collected(runs[..i]);
      var types;
      roll, types := RollUpRunSteps(roll, runs[i].steps, l);
      roll := RollUpReasoning(roll, runs[i].events, types, WithSteps(l, runs[i].steps));
    }
    assert runs[..|runs|] == runs;
  }

  method RollUpRunSteps(roll: map<string, StepRollup>, steps: seq<StepInfo>, ghost l: Lists)
    returns (more: map<string, StepRollup>, types: map<Id, string>)
    requires StepsCounted(roll, l)
    ensures StepsCounted(more, WithSteps(l, steps)) && types == TypeMap(steps)
    ensures forall id :: id in types ==> types[id] in more
  {
    more, types := roll, map[];
    for i := 0 to |steps|
      invariant StepsCounted(more, WithSteps(l, steps[..i])) && types == TypeMap(steps[..i])
    {
      assert steps[..i + 1][..i] == steps[..i];
      var s := steps[i];
      more := RollUpStep(more, s, WithSteps(l, steps[..i]));
      types := types[s.id := s.stepType];
    }
    assert steps[..|steps|] == steps;
    TypesCounted(l, steps);
  }

  lemma {:induction false} TypesCounted(l: Lists, steps: seq<StepInfo>)
    ensures forall id :: id in TypeMap(steps) ==> TypeMap(steps)[id] in Names(WithSteps(l, steps).steps)
  {
    if steps != [] {
      var init, last := steps[..|steps| - 1], steps[|steps| - 1];
      TypesCounted(l, init);
      NamesSnoc(WithSteps(l, init).steps, last.stepType);
    }
  }

  method RollUpStep(roll: map<string, StepRollup>, s: StepInfo, ghost l: Lists) returns (more: map<string, StepRollup>)
    requires StepsCounted(roll, l)
    ensures StepsCounted(more, WithStep(l, s))
  {
    var r := CountStep(if s.stepType in roll then roll[s.stepType] else StepRollup(0, 0, 0, 0, 0), s);
    StepOneMore(roll, l, s, r);
    more := roll[s.stepType := r];
  }

  method CountStep(had: StepRollup, s: StepInfo) returns (r: StepRollup)
    ensures r == WithOneStep(had, s)
  {
    r := had.(steps := had.steps + 1);
    if s.succeeded {
      r := r.(succeeded := r.succeeded + 1);
    } else if s.failed {
      r := r.(failed := r.failed + 1);
    }
  }

  method RollUpReasoning(roll: map<string, StepRollup>, events: seq<Reasoning>, types: map<Id, string>, ghost l: Lists)
    returns (more: map<string, StepRollup>)
    requires StepsCounted(roll, l) && forall id :: id in types ==> types[id] in roll
    ensures StepsCounted(more, WithEvents(l, types, events))
  {
    more := roll;
    for i := 0 to |events|
      invariant StepsCounted(more, WithEvents(l, types, events[..i])) && more.Keys == roll.Keys
    {
      assert events[..i + 1][..i] == events[..i];
      var ev := events[i];
      if ev.stepId.None? || ev.stepId.value !in types {
        continue;
      }
      var k := types[ev.stepId.value];
      var r := more[k];
      r := r.(reasoning := r.reasoning + 1);
      if ev.fallback {
        r := r.(fallbacks := r.fallbacks + 1);
      }
      EventOneMore(more, WithEvents(l, types, events[..i]), types, ev, r);
      more := more[k := r];
    }
    assert events[..|events|] == events;
  }

  // What the counters count.

  function OfType(k: string): StepInfo -> bool {
    (s: StepInfo) => s.stepType == k
  }

  function SucceededOf(k: string): StepInfo -> bool {
    (s: StepInfo) => s.stepType == k && s.succeeded
  }

  function FailedOf(k: string): StepInfo -> bool {
    (s: StepInfo) => s.stepType == k && s.failed && !s.succeeded
  }

  /** The event names a step of type `k`. */
  function About(types: map<Id, string>, k: string): Reasoning -> bool {
    (ev: Reasoning) => ev.stepId.Some? && ev.stepId.value in types && types[ev.stepId.value] == k
  }

  function FallbackAbout(types: map<Id, string>, k: string): Reasoning -> bool {
    (ev: Reasoning) => ev.fallback && ev.stepId.Some? && ev.stepId.value in types && types[ev.stepId.value] == k
  }

  lemma {:induction false} StepsCount(l: Lists, steps: seq<StepInfo>, k: string)
    ensures var had, has := RollupFrom(l, k), RollupFrom(WithSteps(l, steps), k);
      && has.steps == had.steps + CountIf(steps, OfType(k))
      && has.succeeded == had.succeeded + CountIf(steps, SucceededOf(k))
      && has.failed == had.failed + CountIf(steps, FailedOf(k))
      && has.reasoning == had.reasoning && has.fallbacks == had.fallbacks
  {
    if steps == [] {
      var none := StepInfo(0, "", false, false);
      CountSnoc([], none, OfType(k));
      CountSnoc([], none, SucceededOf(k));
      CountSnoc([], none, FailedOf(k));
    } else {
      var init, last := steps[..|steps| - 1], steps[|steps| - 1];
      assert steps == init + [last];
      StepsCount(l, init, k);
      StepSnoc(WithSteps(l, init), last, k);
      CountSnoc(init, last, OfType(k));
      CountSnoc(init, last, SucceededOf(k));
      CountSnoc(init, last, FailedOf(k));
    }
  }

  lemma {:induction false} EventsCount(l: Lists, types: map<Id, string>, events: seq<Reasoning>, k: string)
    ensures var had, has := RollupFrom(l, k), RollupFrom(WithEvents(l, types, events), k);
      && has.reasoning == had.reasoning + CountIf(events, About(types, k))
      && has.fallbacks == had.fallbacks + CountIf(events, FallbackAbout(types, k))
      && has.steps == had.steps && has.succeeded == had.succeeded && has.failed == had.failed
  {
    if events == [] {
      CountSnoc([], Reasoning(None, false), About(types, k));
      CountSnoc([], Reasoning(None, false), FallbackAbout(types, k));
    } else {
      var init, last := events[..|events| - 1], events[|events| - 1];
      assert events == init + [last];
      EventsCount(l, types, init, k);
      if last.stepId.Some? && last.stepId.value in types {
        EventSnoc(WithEvents(l, types, init), types, last, k);
      }
      CountSnoc(init, last, About(types, k));
      CountSnoc(init, last, FallbackAbout(types, k));
    }
  }

  /** The type an event's step has: that of the last step with its id. */
  lemma {:induction false} TypeMapIs(steps: seq<StepInfo>, id: Id)
    ensures id in TypeMap(steps) <==> exists i :: 0 <= i < |steps| && steps[i].id == id
    ensures id in TypeMap(steps) ==>
      exists i :: 0 <= i < |steps| && steps[i].id == id && TypeMap(steps)[id] == steps[i].stepType
                  && forall j :: i < j < |steps| ==> steps[j].id != id
  {
    if steps != [] {
      var n := |steps| - 1;
      TypeMapIs(steps[..n], id);
      if steps[n].id != id && id in TypeMap(steps[..n]) {
        var i :| 0 <= i < n && steps[..n][i].id == id && TypeMap(steps[..n])[id] == steps[..n][i].stepType
                 && forall j :: i < j < n ==> steps[..n][j].id != id;
        assert steps[i].id == id && TypeMap(steps)[id] == steps[i].stepType;
        forall j | i < j < |steps| ensures steps[j].id != id {
          if j < n {
            assert steps[..n][j].id != id;
          }
        }
      }
      forall i | 0 <= i < n ensures steps[..n][i] == steps[i] {
      }
    }
  }

  /** A number added up over the executions. */
  function Tally(runs: seq<Run>, f: Run -> nat): nat {
    if runs == [] then 0 else Tally(runs[..|runs| - 1], f) + f(runs[|runs| - 1])
  }

  /** The five counters of a step type, as totals over the executions: its steps, how they
      ended, and the reasoning events that name one of them. */
  lemma {:induction false} StepCounters(runs: seq<Run>, k: string)
    ensures RollupFrom(Collected(runs), k) == StepRollup(
      Tally(runs, (run: Run) => CountIf(run.steps, OfType(k))),
      Tally(runs, (run: Run) => CountIf(run.steps, SucceededOf(k))),
      Tally(runs, (run: Run) => CountIf(run.steps, FailedOf(k))),
      Tally(runs, (run: Run) => CountIf(run.events, About(TypeMap(run.steps), k))),
      Tally(runs, (run: Run) => CountIf(run.events, FallbackAbout(TypeMap(run.steps), k))))
  {
    if runs != [] {
      var init, last := runs[..|runs| - 1], runs[|runs| - 1];
      StepCounters(init, k);
      StepsCount(Collected(init), last.steps, k);
      EventsCount(WithSteps(Collected(init), last.steps), TypeMap(last.steps), last.events, k);
    }
  }

  /** And the three counters of a tool. */
  lemma {:induction false} ToolCounters(tools: seq<ToolInfo>, k: string)
    ensures ToolRollupFrom(tools, k) == ToolRollup(
      CountIf(tools, (t: ToolInfo) => (if t.name == "" then "unknown" else t.name) == k),
      CountIf(tools, (t: ToolInfo) => (if t.name == "" then "unknown" else t.name) == k && t.ok),
      CountIf(tools, (t: ToolInfo) => (if t.name == "" then "unknown" else t.name) == k && !t.ok))
  {
    var p: ToolInfo -> bool := (t: ToolInfo) => (if t.name == "" then "unknown" else t.name) == k;
    var q: ToolInfo -> bool := (t: ToolInfo) => (if t.name == "" then "unknown" else t.name) == k && t.ok;
    var r: ToolInfo -> bool := (t: ToolInfo) => (if t.name == "" then "unknown" else t.name) == k && !t.ok;
    if tools == [] {
      CountSnoc([], ToolInfo("", false), p);
      CountSnoc([], ToolInfo("", false), q);
      CountSnoc([], ToolInfo("", false), r);
    } else {
      var init, last := tools[..|tools| - 1], tools[|tools| - 1];
      assert tools == init + [last];
      ToolCounters(init, k);
      ToolSnoc(init, last, k);
      CountSnoc(init, last, p);
      CountSnoc(init, last, q);
      CountSnoc(init, last, r);
    }
  }

  predicate Sane(l: Lists, k: string) {
    && Occurrences(l.succeeded, k) + Occurrences(l.failed, k) <= Occurrences(l.steps, k)
    && Occurrences(l.fallbacks, k) <= Occurrences(l.reasoning, k)
  }

  lemma {:induction false} StepsSane(l: Lists, steps: seq<StepInfo>, k: string)
    requires Sane(l, k)
    ensures Sane(WithSteps(l, steps), k)
    ensures |WithSteps(l, steps).steps| == |l.steps| + |steps|
  {
    if steps != [] {
      var s := steps[|steps| - 1];
      StepsSane(l, steps[..|steps| - 1], k);
      var had := WithSteps(l, steps[..|steps| - 1]);
      NamesSnoc(had.steps, s.stepType);
      NamesSnoc(had.succeeded, s.stepType);
      NamesSnoc(had.failed, s.stepType);
      assert had.succeeded + [] == had.succeeded && had.failed + [] == had.failed;
    }
  }

  lemma {:induction false} EventsSane(l: Lists, types: map<Id, string>, events: seq<Reasoning>, k: string)
    requires Sane(l, k)
    ensures Sane(WithEvents(l, types, events), k)
    ensures WithEvents(l, types, events).steps == l.steps
  {
    if events != [] {
      var ev := events[|events| - 1];
      EventsSane(l, types, events[..|events| - 1], k);
      var had := WithEvents(l, types, events[..|events| - 1]);
      if ev.stepId.Some? && ev.stepId.value in types {
        NamesSnoc(had.reasoning, types[ev.stepId.value]);
        NamesSnoc(had.fallbacks, types[ev.stepId.value]);
        assert had.fallbacks + [] == had.fallbacks;
      }
    }
  }

  function StepTotal(runs: seq<Run>): nat {
    if runs == [] then 0 else StepTotal(runs[..|runs| - 1]) + |runs[|runs| - 1].steps|
  }

  lemma {:induction false} CollectedSane(runs: seq<Run>, k: string)
    ensures Sane(Collected(runs), k) && |Collected(runs).steps| == StepTotal(runs)
  {
    if runs != [] {
      var init, last := runs[..|runs| - 1], runs[|runs| - 1];
      CollectedSane(init, k);
      StepsSane(Collected(init), last.steps, k);
      EventsSane(WithSteps(Collected(init), last.steps), TypeMap(last.steps), last.events, k);
    }
  }

  /** Fallbacks never exceed reasoning events, successes and failures never exceed steps,
      and the steps of all types add up to all steps of all runs. */
  lemma StepsConserve(roll: map<string, StepRollup>, runs: seq<Run>)
    requires StepsCounted(roll, Collected(runs))
    ensures forall k :: k in roll ==>
      roll[k].fallbacks <= roll[k].reasoning && roll[k].succeeded + roll[k].failed <= roll[k].steps
    ensures Sum(k => if k in roll then roll[k].steps else 0, roll.Keys) == StepTotal(runs)
  {
    var l := Collected(runs);
    forall k | k in roll
      ensures roll[k].fallbacks <= roll[k].reasoning && roll[k].succeeded + roll[k].failed <= roll[k].steps
    {
      CollectedSane(runs, k);
    }
    CollectedSane(runs, "");
    SumEqual(k => if k in roll then roll[k].steps else 0, k => Occurrences(l.steps, k), roll.Keys);
    CountsConserve(l.steps, roll.Keys);
  }

  // ---------------------------------------------------------------- the score

  function Score(per: seq<Metrics>): Option<real> {
    if per == [] then None
    else
      var tools, fallbacks := Mean(ToolRates(per)), Mean(FallbackRates(per));
      var base := 0.10 * (1.0 - FailedIn(per) as real / |per| as real);
      if tools.Some? && fallbacks.Some? then Some(0.45 * tools.value + 0.45 * (1.0 - fallbacks.value) + base)
      else if tools.Some? then Some(0.90 * tools.value + base)
      else if fallbacks.Some? then Some(0.90 * (1.0 - fallbacks.value) + base)
      else None
  }

  lemma {:induction false} FailedAre(rows: seq<Metrics>)
    ensures FailedIn(rows) == CountIf(rows, (m: Metrics) => m.failed)
  {
    if rows == [] {
      CountSnoc([], Metrics("", "", false, [], None, None), (m: Metrics) => m.failed);
    } else {
      var init, last := rows[..|rows| - 1], rows[|rows| - 1];
      assert rows == init + [last];
      FailedAre(init);
      CountSnoc(init, last, (m: Metrics) => m.failed);
    }
  }

  predicate AllFailed(per: seq<Metrics>, failed: bool) {
    forall m :: m in per ==> m.failed == failed
  }

  lemma {:induction false} FailedAll(per: seq<Metrics>)
    ensures AllFailed(per, true) ==> FailedIn(per) == |per|
    ensures AllFailed(per, false) ==> FailedIn(per) == 0
  {
    if per != [] {
      var init, last := per[..|per| - 1], per[|per| - 1];
      assert per == init + [last] && last in per && forall m :: m in init ==> m in per;
      FailedAll(init);
    }
  }

  /** The weights: what is left of the score when one thing alone goes wrong throughout, with
      both rates and with only one of them. */
  lemma ScoreWeights(per: seq<Metrics>)
    requires per != [] && (AllFailed(per, true) || AllFailed(per, false))
    ensures var tools, fallbacks := ToolRates(per), FallbackRates(per);
      var lost := if AllFailed(per, true) then 0.10 else 0.0;
      && (tools != [] && fallbacks != [] && AllAre(tools, 1.0) && AllAre(fallbacks, 0.0) ==>
            Score(per) == Some(1.0 - lost))
      && (tools != [] && fallbacks != [] && AllAre(tools, 0.0) && AllAre(fallbacks, 0.0) ==>
            Score(per) == Some(1.0 - 0.45 - lost))
      && (tools != [] && fallbacks != [] && AllAre(tools, 1.0) && AllAre(fallbacks, 1.0) ==>
            Score(per) == Some(1.0 - 0.45 - lost))
      && (tools != [] && fallbacks == [] && AllAre(tools, 0.0) ==> Score(per) == Some(1.0 - 0.90 - lost))
      && (tools == [] && fallbacks != [] && AllAre(fallbacks, 1.0) ==> Score(per) == Some(1.0 - 0.90 - lost))
  {
    FailedAll(per);
    Shares(per);
    MeanOfAll(ToolRates(per), 0.0);
    MeanOfAll(ToolRates(per), 1.0);
    MeanOfAll(FallbackRates(per), 0.0);
    MeanOfAll(FallbackRates(per), 1.0);
  }

  lemma Shares(per: seq<Metrics>)
    requires per != []
    ensures FailedIn(per) == |per| ==> FailedIn(per) as real / |per| as real == 1.0
    ensures FailedIn(per) == 0 ==> FailedIn(per) as real / |per| as real == 0.0
  {
  }

  lemma {:induction false} TotalOfAll(xs: seq<real>, y: real)
    requires AllAre(xs, y)
    ensures Total(xs) == |xs| as real * y
  {
    if xs != [] {
      var init, last := xs[..|xs| - 1], xs[|xs| - 1];
      assert last in xs && forall x :: x in init ==> x in xs;
      TotalOfAll(init, y);
    }
  }

  lemma MeanOfAll(xs: seq<real>, y: real)
    requires y == 0.0 || y == 1.0
    ensures xs != [] && AllAre(xs, y) ==> Mean(xs) == Some(y)
  {
    if xs != [] && AllAre(xs, y) {
      TotalOfAll(xs, y);
      assert Total(xs) == if y == 0.0 then 0.0 else |xs| as real;
      DivBounds(Total(xs), |xs| as real);
    }
  }

  /** A mean is the total shared out, and totals add up. */
  lemma {:induction false} TotalAdds(a: seq<real>, b: seq<real>)
    ensures Total(a + b) == Total(a) + Total(b)
    ensures a != [] ==> Mean(a).Some? && Mean(a).value * |a| as real == Total(a)
    ensures |a| == 1 ==> Total(a) == a[0]
  {
    if b == [] {
      assert a + b == a;
    } else {
      assert (a + b)[..|a + b| - 1] == a + b[..|b| - 1];
      TotalAdds(a, b[..|b| - 1]);
    }
    if |a| == 1 {
      assert a[..0] == [];
    }
  }

  lemma {:induction false} FailedBound(per: seq<Metrics>)
    ensures FailedIn(per) <= |per|
    ensures FailedIn(per) == 0 <==> forall m :: m in per ==> !m.failed
  {
    if per != [] {
      assert per == per[..|per| - 1] + [per[|per| - 1]];
      FailedBound(per[..|per| - 1]);
    }
  }

  /** Nothing failed, no tool call failed and no reasoning fell back. */
  predicate Perfect(m: Metrics) {
    && !m.failed
    && (m.toolRate.Some? ==> m.toolRate.value == 1.0)
    && (m.fallbackRate.Some? ==> m.fallbackRate.value == 0.0)
  }

  lemma AllPerfect(per: seq<Metrics>)
    ensures (forall m :: m in per ==> Perfect(m)) <==>
      && FailedIn(per) == 0
      && (forall x :: x in ToolRates(per) ==> x == 1.0)
      && (forall x :: x in FallbackRates(per) ==> x == 0.0)
  {
    RatesFrom(per);
    FailedBound(per);
    if forall m :: m in per ==> Perfect(m) {
    } else {
      var m :| m in per && !Perfect(m);
      if m.toolRate.Some? {
        assert m.toolRate == Some(m.toolRate.value);
      }
      if m.fallbackRate.Some? {
        assert m.fallbackRate == Some(m.fallbackRate.value);
      }
    }
  }

  /** The score of metrics whose rates are shares. */
  lemma RatedScore(per: seq<Metrics>)
    requires forall m :: m in per ==> RatesInUnit(m)
    ensures Score(per).Some? <==> exists m :: m in per && (m.toolRate.Some? || m.fallbackRate.Some?)
    ensures Score(per).Some? ==> InUnit(Score(per).value)
  {
    ToolMean(per);
    FallbackMean(per);
    if per != [] {
      FailedBound(per);
      DivBounds(FailedIn(per) as real, |per| as real);
    }
  }

  lemma FullScore(per: seq<Metrics>)
    requires (forall m :: m in per ==> RatesInUnit(m)) && Score(per).Some?
    ensures Score(per).value == 1.0 <==> forall m :: m in per ==> Perfect(m)
  {
    AllPerfect(per);
    FailedBound(per);
    DivBounds(FailedIn(per) as real, |per| as real);
    FullMeans(per);
  }

  lemma FullMeans(per: seq<Metrics>)
    requires forall m :: m in per ==> RatesInUnit(m)
    ensures var tool := Mean(ToolRates(per));
      tool.Some? ==> InUnit(tool.value) && (tool.value == 1.0 <==> forall x :: x in ToolRates(per) ==> x == 1.0)
    ensures var fallback := Mean(FallbackRates(per));
      fallback.Some? ==>
        InUnit(fallback.value) && (fallback.value == 0.0 <==> forall x :: x in FallbackRates(per) ==> x == 0.0)
  {
    RatesFrom(per);
    if ToolRates(per) != [] {
      MeanInUnit(ToolRates(per));
    }
    if FallbackRates(per) != [] {
      MeanInUnit(FallbackRates(per));
    }
  }

  predicate Flawless(run: Run) {
    && !run.failed
    && (forall t :: t in run.tools ==> t.ok)
    && (forall ev :: ev in run.events ==> !ev.fallback)
  }

  lemma FlawlessIsPerfect(run: Run)
    ensures Flawless(run) <==> Perfect(MetricsOf(run))
  {
  }

  /** The score of any executions is defined exactly when some execution called a tool or
      has a reasoning event, and then it lies between zero and one; it is one exactly when
      no execution failed, no tool call failed and no reasoning fell back. */
  lemma ScoreInUnit(runs: seq<Run>)
    ensures Score(Measured(runs)).Some? <==> exists run :: run in runs && (run.tools != [] || run.events != [])
    ensures Score(Measured(runs)).Some? ==> InUnit(Score(Measured(runs)).value)
    ensures Score(Measured(runs)).Some? ==>
      (Score(Measured(runs)).value == 1.0 <==> forall run :: run in runs ==> Flawless(run))
  {
    var per := Measured(runs);
    assert forall i :: 0 <= i < |runs| ==> per[i] == MetricsOf(runs[i]);
    RatedScore(per);
    if Score(per).Some? {
      FullScore(per);
    }
    ScoredIff(runs, per);
    PerfectIff(runs, per);
  }

  lemma ScoredIff(runs: seq<Run>, per: seq<Metrics>)
    requires per == Measured(runs)
    ensures (exists m :: m in per && (m.toolRate.Some? || m.fallbackRate.Some?)) <==>
      exists run :: run in runs && (run.tools != [] || run.events != [])
  {
    forall i | 0 <= i < |runs|
      ensures (per[i].toolRate.Some? <==> runs[i].tools != []) && (per[i].fallbackRate.Some? <==> runs[i].events != [])
    {
      assert per[i] == MetricsOf(runs[i]);
    }
    if m :| m in per && (m.toolRate.Some? || m.fallbackRate.Some?) {
      var i :| 0 <= i < |per| && per[i] == m;
      assert runs[i] in runs;
    }
    if run :| run in runs && (run.tools != [] || run.events != []) {
      var i :| 0 <= i < |runs| && runs[i] == run;
      assert per[i] in per;
    }
  }

  lemma PerfectIff(runs: seq<Run>, per: seq<Metrics>)
    requires per == Measured(runs)
    ensures (forall m :: m in per ==> Perfect(m)) <==> forall run :: run in runs ==> Flawless(run)
  {
    forall i | 0 <= i < |runs| ensures Flawless(runs[i]) <==> Perfect(per[i]) {
      FlawlessIsPerfect(runs[i]);
    }
    if forall m :: m in per ==> Perfect(m) {
      forall run | run in runs ensures Flawless(run) {
        var i :| 0 <= i < |runs| && runs[i] == run;
        assert per[i] in per;
      }
    }
    if forall run :: run in runs ==> Flawless(run) {
      forall m | m in per ensures Perfect(m) {
        var i :| 0 <= i < |per| && per[i] == m;
        assert runs[i] in runs;
      }
    }
  }
}
