/** The loops that pick the next step out of a listing.  They are specified on the stored
    steps alone, so any order the store lists them in gives the same choice. */
module Dispatch {
  import opened StateMachine
  import opened Records
  import opened Lifecycle
  import opened Safety
  import opened Repository

  ghost predicate KeyStored(steps: map<Id, Step>, key: string) {
    exists id :: id in steps && steps[id].key == key
  }

  /** The stored steps of the plan's keys, in plan order. */
  ghost predicate InPlanOrder(ordered: seq<StepRow>, specs: seq<Spec>, steps: map<Id, Step>)
    decreases |specs|
  {
    if specs == [] then ordered == []
    else
      var n := |specs| - 1;
      var m := |ordered| - 1;
      if KeyStored(steps, specs[n].key) then
        && m >= 0
        && ordered[m].id in steps && steps[ordered[m].id] == ordered[m].step
        && ordered[m].step.key == specs[n].key
        && InPlanOrder(ordered[..m], specs[..n], steps)
      else InPlanOrder(ordered, specs[..n], steps)
  }

  method StepsInPlanOrder(rows: seq<StepRow>, specs: seq<Spec>, ghost steps: map<Id, Step>)
    returns (ordered: seq<StepRow>)
    requires IsListing(rows, steps)
    ensures InPlanOrder(ordered, specs, steps)
  {
    var byKey := IndexByKey(rows, steps);
    ordered := [];
    for i := 0 to |specs|
      invariant InPlanOrder(ordered, specs[..i], steps)
    {
      var key := specs[i].key;
      assert specs[..i + 1][..i] == specs[..i];
      if key in byKey {
        ghost var before := ordered;
        ordered := ordered + [byKey[key]];
        assert ordered[..|before|] == before;
      }
    }
    assert specs[..|specs|] == specs;
  }

  /** The dictionary from step keys to listed steps. */
  method IndexByKey(rows: seq<StepRow>, ghost steps: map<Id, Step>) returns (byKey: map<string, StepRow>)
    requires IsListing(rows, steps)
    ensures forall k :: k in byKey <==> KeyStored(steps, k)
    ensures forall k :: k in byKey ==>
      byKey[k].id in steps && steps[byKey[k].id] == byKey[k].step && byKey[k].step.key == k
  {
    byKey := map[];
    for i := 0 to |rows|
      invariant forall k :: k in byKey ==>
        byKey[k].id in steps && steps[byKey[k].id] == byKey[k].step && byKey[k].step.key == k
      invariant forall j :: 0 <= j < i ==> rows[j].step.key in byKey
    {
      byKey := byKey[rows[i].step.key := rows[i]];
    }
    forall k | KeyStored(steps, k) ensures k in byKey {
      var id :| id in steps && steps[id].key == k;
      var j :| 0 <= j < |rows| && rows[j].id == id;
    }
  }

  method IsReady(row: StepRow, rows: seq<StepRow>, ghost steps: map<Id, Step>) returns (ready: bool)
    requires IsListing(rows, steps) && row.id in steps && steps[row.id] == row.step
    ensures ready <==> DependenciesSucceeded(steps, row.id)
  {
    var byId: map<Id, Step> := map[];
    for i := 0 to |rows|
      invariant byId.Keys <= steps.Keys && forall id :: id in byId ==> byId[id] == steps[id]
      invariant forall j :: 0 <= j < i ==> rows[j].id in byId
    {
      byId := byId[rows[i].id := rows[i].step];
    }
    forall id | id in steps ensures id in byId {
      var j :| 0 <= j < |rows| && rows[j].id == id;
    }
    var deps := row.step.dependencies;
    for i := 0 to |deps|
      invariant forall j :: 0 <= j < i ==> deps[j] in steps && steps[deps[j]].status.Succeeded?
    {
      var d: Id := deps[i];
      if d !in byId || !byId[d].status.Succeeded? {
        assert deps[i] in steps[row.id].dependencies;
        return false;
      }
    }
    return true;
  }

  /** The first ready row, if any. */
  ghost function FirstReady(ordered: seq<StepRow>, steps: map<Id, Step>): Option<Id> {
    if ordered == [] then None
    else
      var n := |ordered| - 1;
      var before := FirstReady(ordered[..n], steps);
      if before.Some? then before
      else if Ready(steps, ordered[n].id) then Some(ordered[n].id)
      else None
  }

  lemma {:induction false} NextReadySnoc(specs: seq<Spec>, steps: map<Id, Step>)
    requires specs != []
    ensures var n := |specs| - 1; var before := NextReady(specs[..n], steps);
      NextReady(specs, steps) == if before.Some? then before else ReadyStepOf(steps, specs[n].key)
    decreases |specs|
  {
    var n := |specs| - 1;
    if n == 0 {
      assert NextReady(specs[1..], steps) == None;
    } else {
      NextReadySnoc(specs[1..], steps);
      assert specs[1..][..n - 1] == specs[..n][1..];
      assert specs[1..][n - 1] == specs[n];
    }
  }

  lemma {:induction false} FirstReadyIsNext(ordered: seq<StepRow>, specs: seq<Spec>, steps: map<Id, Step>)
    requires InPlanOrder(ordered, specs, steps) && UniqueKeys(steps)
    ensures FirstReady(ordered, steps) == NextReady(specs, steps)
    decreases |specs|
  {
    if specs != [] {
      var n := |specs| - 1;
      var key := specs[n].key;
      NextReadySnoc(specs, steps);
      if KeyStored(steps, key) {
        var m := |ordered| - 1;
        var id := ordered[m].id;
        FirstReadyIsNext(ordered[..m], specs[..n], steps);
        assert ReadyWithKey(steps, key, id) <==> Ready(steps, id);
      } else {
        FirstReadyIsNext(ordered, specs[..n], steps);
      }
    }
  }

  /** One step per iteration of the engine: the first pending one, in plan order, whose
      dependencies have all succeeded. */
  method NextPendingReady(ordered: seq<StepRow>, rows: seq<StepRow>, ghost specs: seq<Spec>, ghost steps: map<Id, Step>)
    returns (r: Option<Id>)
    requires IsListing(rows, steps) && UniqueKeys(steps) && InPlanOrder(ordered, specs, steps)
    requires forall i :: 0 <= i < |ordered| ==> ordered[i].id in steps && steps[ordered[i].id] == ordered[i].step
    ensures r == NextReady(specs, steps)
  {
    FirstReadyIsNext(ordered, specs, steps);
    for i := 0 to |ordered|
      invariant FirstReady(ordered[..i], steps).None?
    {
      assert ordered[..i + 1][..i] == ordered[..i];
      if ordered[i].step.status.Pending? {
        var ready := IsReady(ordered[i], rows, steps);
        if ready {
          FirstReadyPrefix(ordered, i + 1, steps);
          return Some(ordered[i].id);
        }
      }
    }
    assert ordered[..|ordered|] == ordered;
    return None;
  }

  lemma {:induction false} FirstReadyPrefix(ordered: seq<StepRow>, i: nat, steps: map<Id, Step>)
    requires i <= |ordered| && FirstReady(ordered[..i], steps).Some?
    ensures FirstReady(ordered, steps) == FirstReady(ordered[..i], steps)
    decreases |ordered|
  {
    if i == |ordered| {
      assert ordered[..i] == ordered;
    } else {
      var n := |ordered| - 1;
      assert ordered[..n][..i] == ordered[..i];
      FirstReadyPrefix(ordered[..n], i, steps);
    }
  }

  lemma {:induction false} InPlanOrderStored(ordered: seq<StepRow>, specs: seq<Spec>, steps: map<Id, Step>)
    requires InPlanOrder(ordered, specs, steps)
    ensures forall i :: 0 <= i < |ordered| ==> ordered[i].id in steps && steps[ordered[i].id] == ordered[i].step
    decreases |specs|
  {
    if specs != [] {
      var n := |specs| - 1;
      if KeyStored(steps, specs[n].key) {
        var m := |ordered| - 1;
        InPlanOrderStored(ordered[..m], specs[..n], steps);
        forall i | 0 <= i < m ensures ordered[i].id in steps && steps[ordered[i].id] == ordered[i].step {
          assert ordered[..m][i] == ordered[i];
        }
      } else {
        InPlanOrderStored(ordered, specs[..n], steps);
      }
    }
  }

  /** Step `sid` may run: it is pending and its dependencies have succeeded. */
  predicate MayRun(steps: map<Id, Step>, sid: Id) {
    && sid in steps && steps[sid].status.Pending?
    && forall i :: 0 <= i < |steps[sid].dependencies| ==>
         var d := steps[sid].dependencies[i]; d in steps && steps[d].status.Succeeded?
  }

  /** It is the first of the plan's steps, in plan order, that may run. */
  predicate FirstThatMayRun(specs: seq<Spec>, steps: map<Id, Step>, sid: Id, n: nat) {
    && n < |specs| && MayRun(steps, sid) && steps[sid].key == specs[n].key
    && forall t, j :: 0 <= j < n && t in steps && steps[t].key == specs[j].key ==> !MayRun(steps, t)
  }

  lemma ReadyMayRun(steps: map<Id, Step>, sid: Id)
    ensures Ready(steps, sid) <==> MayRun(steps, sid)
  {
    if MayRun(steps, sid) {
      forall d | d in steps[sid].dependencies ensures d in steps && steps[d].status.Succeeded? {
        var i :| 0 <= i < |steps[sid].dependencies| && steps[sid].dependencies[i] == d;
      }
    }
    if Ready(steps, sid) {
      forall i | 0 <= i < |steps[sid].dependencies|
        ensures steps[sid].dependencies[i] in steps && steps[steps[sid].dependencies[i]].status.Succeeded?
      {
        assert steps[sid].dependencies[i] in steps[sid].dependencies;
      }
    }
  }

  lemma {:induction false} NextReadyIsFirst(specs: seq<Spec>, steps: map<Id, Step>, n: nat) returns (m: nat)
    requires n <= |specs|
    requires forall j :: 0 <= j < n ==> ReadyStepOf(steps, specs[j].key).None?
    ensures NextReady(specs[n..], steps).Some? ==> FirstThatMayRun(specs, steps, NextReady(specs[n..], steps).value, m)
    ensures NextReady(specs[n..], steps).None? ==>
      forall t, j :: 0 <= j < |specs| && t in steps && steps[t].key == specs[j].key ==> !MayRun(steps, t)
    decreases |specs| - n
  {
    m := n;
    NoneMayRun(specs, steps, n);
    if n < |specs| {
      if ReadyStepOf(steps, specs[n].key).Some? {
        ReadyMayRun(steps, ReadyStepOf(steps, specs[n].key).value);
      } else {
        assert specs[n..][1..] == specs[n + 1..];
        m := NextReadyIsFirst(specs, steps, n + 1);
      }
    }
  }

  lemma NoneMayRun(specs: seq<Spec>, steps: map<Id, Step>, n: nat)
    requires n <= |specs| && forall j :: 0 <= j < n ==> ReadyStepOf(steps, specs[j].key).None?
    ensures forall t, j :: 0 <= j < n && t in steps && steps[t].key == specs[j].key ==> !MayRun(steps, t)
  {
    forall t, j | 0 <= j < n && t in steps && steps[t].key == specs[j].key ensures !MayRun(steps, t) {
      ReadyMayRun(steps, t);
      assert !ReadyWithKey(steps, specs[j].key, t);
    }
  }

  /** The whole choice, from whatever listing the store gave. */
  method ChooseNext(rows: seq<StepRow>, specs: seq<Spec>, ghost steps: map<Id, Step>) returns (r: Option<Id>)
    requires IsListing(rows, steps) && UniqueKeys(steps)
    ensures r == NextReady(specs, steps)
    ensures r.Some? ==> exists n :: FirstThatMayRun(specs, steps, r.value, n)
    ensures r.None? ==>
      forall t, j :: 0 <= j < |specs| && t in steps && steps[t].key == specs[j].key ==> !MayRun(steps, t)
  {
    assert specs[0..] == specs;
    ghost var n := NextReadyIsFirst(specs, steps, 0);
    var ordered := StepsInPlanOrder(rows, specs, steps);
    InPlanOrderStored(ordered, specs, steps);
    r := NextPendingReady(ordered, rows, specs, steps);
  }

  /** Two listings of the same steps, in whatever orders, lead to the same choice. */
  lemma {:induction false} ListingOrderIrrelevant(
      a: seq<StepRow>, b: seq<StepRow>, orderedA: seq<StepRow>, orderedB: seq<StepRow>,
      specs: seq<Spec>, steps: map<Id, Step>)
    requires IsListing(a, steps) && IsListing(b, steps) && UniqueKeys(steps)
    requires InPlanOrder(orderedA, specs, steps) && InPlanOrder(orderedB, specs, steps)
    ensures FirstReady(orderedA, steps) == FirstReady(orderedB, steps)
  {
    FirstReadyIsNext(orderedA, specs, steps);
    FirstReadyIsNext(orderedB, specs, steps);
  }

  // ---------------------------------------------------------------- the tests on a listing

  predicate AllSucceededIn(rows: seq<StepRow>) {
    forall i :: 0 <= i < |rows| ==> rows[i].step.status.Succeeded?
  }

  predicate PendingIn(rows: seq<StepRow>) {
    exists i :: 0 <= i < |rows| && rows[i].step.status.Pending?
  }

  predicate GateOpensIn(rows: seq<StepRow>) {
    && (exists i :: 0 <= i < |rows| && rows[i].step.stepType.WorkStep?)
    && (forall i :: 0 <= i < |rows| && rows[i].step.stepType.WorkStep? ==> rows[i].step.status.Succeeded?)
    && (exists i :: 0 <= i < |rows| && rows[i].step.stepType.ValidationStep? && rows[i].step.status.Pending?)
  }

  lemma ListingTests(rows: seq<StepRow>, steps: map<Id, Step>)
    requires IsListing(rows, steps)
    ensures AllSucceededIn(rows) <==> AllSucceeded(steps)
    ensures PendingIn(rows) <==> HasPending(steps)
    ensures |rows| == |steps|
  {
    ListingSize(rows, steps);
  }

  lemma ListingGate(rows: seq<StepRow>, steps: map<Id, Step>)
    requires IsListing(rows, steps)
    ensures GateOpensIn(rows) <==> GateOpens(steps)
  {
  }

  lemma ListingWithoutLast(rows: seq<StepRow>, steps: map<Id, Step>)
    requires IsListing(rows, steps) && rows != []
    ensures IsListing(rows[..|rows| - 1], steps - {rows[|rows| - 1].id})
  {
    var n := |rows| - 1;
    forall id | id in steps - {rows[n].id} ensures exists i :: 0 <= i < n && rows[..n][i].id == id {
      var i :| 0 <= i < |rows| && rows[i].id == id;
      assert rows[..n][i].id == id;
    }
  }

  lemma {:induction false} ListingSize(rows: seq<StepRow>, steps: map<Id, Step>)
    requires IsListing(rows, steps)
    ensures |rows| == |steps|
    decreases |rows|
  {
    if rows == [] {
      Empty(steps);
    } else {
      var n := |rows| - 1;
      var rest := steps - {rows[n].id};
      ListingWithoutLast(rows, steps);
      ListingSize(rows[..n], rest);
      OneLess(steps, rows[n].id);
    }
  }

  lemma OneLess<T>(m: map<Id, T>, k: Id)
    requires k in m
    ensures |m - {k}| == |m| - 1
  {
    assert (m - {k}).Keys == m.Keys - {k};
    assert |(m - {k}).Keys| == |m.Keys| - 1;
  }
}
