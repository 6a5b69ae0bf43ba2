/** Plans as dependency graphs: the greedy order in which one ready step at a time is
    taken in plan order, and its relation to cycles. */
module Scheduling {
  import opened Records
  import opened Lifecycle

  // ---------------------------------------------------------------- the greedy order

  function DependsOn(draft: Draft, key: string): set<string> {
    set e | e in draft.edges && e.to == key :: e.from
  }

  function Elements(s: seq<string>): set<string> {
    set k | k in s
  }

  predicate KeyReady(draft: Draft, done: set<string>, key: string) {
    key !in done && DependsOn(draft, key) <= done
  }

  function NextKey(draft: Draft, specs: seq<Spec>, done: set<string>): (r: Option<string>)
    ensures r.Some? ==> r.value in Keys(specs) && KeyReady(draft, done, r.value)
    ensures r.None? ==> forall k :: k in Keys(specs) ==> !KeyReady(draft, done, k)
  {
    if specs == [] then None
    else if KeyReady(draft, done, specs[0].key) then Some(specs[0].key)
    else
      assert Keys(specs) == {specs[0].key} + Keys(specs[1..]);
      NextKey(draft, specs[1..], done)
  }

  function ScheduleFrom(draft: Draft, done: seq<string>): seq<string>
    decreases |Keys(draft.specs) - Elements(done)|
  {
    var next := NextKey(draft, draft.specs, Elements(done));
    if next.None? then done
    else
      assert Keys(draft.specs) - Elements(done + [next.value])
          == Keys(draft.specs) - Elements(done) - {next.value};
      ScheduleFrom(draft, done + [next.value])
  }

  function Schedule(draft: Draft): seq<string> {
    ScheduleFrom(draft, [])
  }

  predicate NoDuplicates(s: seq<string>) {
    forall i, j :: 0 <= i < j < |s| ==> s[i] != s[j]
  }

  /** Everything a key depends on comes before it. */
  predicate Topological(draft: Draft, s: seq<string>) {
    forall i :: 0 <= i < |s| ==> DependsOn(draft, s[i]) <= Elements(s[..i])
  }

  predicate Stuck(draft: Draft, s: seq<string>) {
    forall k :: k in Keys(draft.specs) ==> !KeyReady(draft, Elements(s), k)
  }

  lemma TakeOne(draft: Draft, done: seq<string>, key: string)
    requires NoDuplicates(done) && Topological(draft, done) && KeyReady(draft, Elements(done), key)
    ensures var more := done + [key];
      && Elements(more) == Elements(done) + {key}
      && NoDuplicates(more) && Topological(draft, more)
  {
    var more := done + [key];
    forall i | 0 <= i < |more| ensures DependsOn(draft, more[i]) <= Elements(more[..i]) {
      if i < |done| {
        assert more[..i] == done[..i];
      } else {
        assert more[..i] == done;
      }
    }
  }

  lemma {:induction false} ScheduleFromOk(draft: Draft, done: seq<string>)
    requires Elements(done) <= Keys(draft.specs) && NoDuplicates(done) && Topological(draft, done)
    ensures var s := ScheduleFrom(draft, done);
      && done <= s && Elements(s) <= Keys(draft.specs)
      && NoDuplicates(s) && Topological(draft, s) && Stuck(draft, s)
    decreases |Keys(draft.specs) - Elements(done)|
  {
    var next := NextKey(draft, draft.specs, Elements(done));
    if next.Some? {
      var more := done + [next.value];
      TakeOne(draft, done, next.value);
      assert Keys(draft.specs) - Elements(more) == Keys(draft.specs) - Elements(done) - {next.value};
      ScheduleFromOk(draft, more);
    }
  }

  /** The schedule runs keys of the plan, each at most once, after everything they depend
      on, and stops only when nothing else is ready. */
  lemma ScheduleOk(draft: Draft)
    ensures var s := Schedule(draft);
      && Elements(s) <= Keys(draft.specs)
      && NoDuplicates(s) && Topological(draft, s) && Stuck(draft, s)
  {
    ScheduleFromOk(draft, []);
  }

  /** `key` is the first of the plan, in its order, that is not done and whose dependencies
      are. */
  predicate FirstOpen(draft: Draft, done: set<string>, key: string, n: nat) {
    && n < |draft.specs| && draft.specs[n].key == key
    && key !in done && (forall e :: e in draft.edges && e.to == key ==> e.from in done)
    && forall j :: 0 <= j < n ==>
         draft.specs[j].key in done || exists e :: e in draft.edges && e.to == draft.specs[j].key && e.from !in done
  }

  ghost predicate OpensFirst(draft: Draft, done: set<string>, key: string) {
    exists n :: FirstOpen(draft, done, key, n)
  }

  ghost predicate TakesFirst(draft: Draft, s: seq<string>) {
    forall i :: 0 <= i < |s| ==> OpensFirst(draft, Elements(s[..i]), s[i])
  }

  lemma NotReadyWhy(draft: Draft, done: set<string>, key: string)
    ensures KeyReady(draft, done, key) <==>
      key !in done && forall e :: e in draft.edges && e.to == key ==> e.from in done
  {
    forall e | e in draft.edges && e.to == key ensures e.from in DependsOn(draft, key) {
    }
  }

  lemma {:induction false} NextKeyIsFirst(draft: Draft, done: set<string>, n: nat) returns (m: nat)
    requires n <= |draft.specs| && NextKey(draft, draft.specs[n..], done).Some?
    requires forall j :: 0 <= j < n ==> !KeyReady(draft, done, draft.specs[j].key)
    ensures FirstOpen(draft, done, NextKey(draft, draft.specs[n..], done).value, m)
    decreases |draft.specs| - n
  {
    if KeyReady(draft, done, draft.specs[n].key) {
      m := n;
      NotReadyWhy(draft, done, draft.specs[n].key);
      forall j | 0 <= j < n
        ensures draft.specs[j].key in done
                || exists e :: e in draft.edges && e.to == draft.specs[j].key && e.from !in done
      {
        NotReadyWhy(draft, done, draft.specs[j].key);
      }
    } else {
      assert draft.specs[n..][1..] == draft.specs[n + 1..];
      m := NextKeyIsFirst(draft, done, n + 1);
    }
  }

  lemma TakesOneMore(draft: Draft, done: seq<string>, key: string)
    requires TakesFirst(draft, done) && OpensFirst(draft, Elements(done), key)
    ensures TakesFirst(draft, done + [key])
  {
    var more := done + [key];
    forall i | 0 <= i < |more| ensures OpensFirst(draft, Elements(more[..i]), more[i]) {
      if i < |done| {
        assert more[..i] == done[..i];
      } else {
        assert more[..i] == done;
      }
    }
  }

  lemma {:induction false} ScheduleFromFirst(draft: Draft, done: seq<string>)
    requires TakesFirst(draft, done)
    ensures TakesFirst(draft, ScheduleFrom(draft, done))
    decreases |Keys(draft.specs) - Elements(done)|
  {
    var next := NextKey(draft, draft.specs, Elements(done));
    if next.Some? {
      var more := done + [next.value];
      assert draft.specs[0..] == draft.specs;
      var m := NextKeyIsFirst(draft, Elements(done), 0);
      assert OpensFirst(draft, Elements(done), next.value);
      TakesOneMore(draft, done, next.value);
      assert Keys(draft.specs) - Elements(more) == Keys(draft.specs) - Elements(done) - {next.value};
      ScheduleFromFirst(draft, more);
    }
  }

  /** The schedule takes, each time, the first key in plan order that is open. */
  lemma ScheduleTakesFirst(draft: Draft)
    ensures TakesFirst(draft, Schedule(draft))
  {
    ScheduleFromFirst(draft, []);
  }

  predicate RunsEverything(draft: Draft) {
    Elements(Schedule(draft)) == Keys(draft.specs)
  }

  // ---------------------------------------------------------------- cycles

  predicate HasEdge(draft: Draft, a: string, b: string) {
    b in Keys(draft.specs) && Edge(a, b) in draft.edges
  }

  /** A walk along dependency edges. */
  ghost predicate Walk(draft: Draft, p: seq<string>) {
    forall i :: 0 < i < |p| ==> HasEdge(draft, p[i - 1], p[i])
  }

  ghost predicate Cycle(draft: Draft, p: seq<string>) {
    |p| > 1 && p[0] == p[|p| - 1] && Walk(draft, p)
  }

  ghost predicate Acyclic(draft: Draft) {
    forall p :: !Cycle(draft, p)
  }

  function Position(s: seq<string>, key: string): (i: nat)
    requires key in s
    ensures i < |s| && s[i] == key
  {
    if s[0] == key then 0 else 1 + Position(s[1..], key)
  }

  /** Along a walk inside a topological order, positions only grow. */
  lemma {:induction false} WalkAscends(draft: Draft, s: seq<string>, p: seq<string>)
    requires Topological(draft, s) && NoDuplicates(s)
    requires Walk(draft, p) && |p| > 1 && forall k :: k in p ==> k in s
    ensures Position(s, p[0]) < Position(s, p[|p| - 1])
    decreases |p|
  {
    var n := |p| - 1;
    assert HasEdge(draft, p[n - 1], p[n]);
    assert p[n - 1] in DependsOn(draft, p[n]);
    var j := Position(s, p[n]);
    assert p[n - 1] in s[..j];
    var i :| 0 <= i < j && s[i] == p[n - 1];
    assert Position(s, p[n - 1]) == i;
    if n > 1 {
      assert Walk(draft, p[..n]) by {
        forall m | 0 < m < |p[..n]| ensures HasEdge(draft, p[..n][m - 1], p[..n][m]) {
          assert HasEdge(draft, p[m - 1], p[m]);
        }
      }
      WalkAscends(draft, s, p[..n]);
    }
  }

  /** More positions than values: two positions agree. */
  lemma {:induction false} Pigeonhole(s: seq<string>, within: set<string>) returns (i: nat, j: nat)
    requires |s| > |within| && forall k :: k in s ==> k in within
    ensures i < j < |s| && s[i] == s[j]
    decreases |s|
  {
    var n := |s| - 1;
    if s[n] in s[..n] {
      i :| 0 <= i < n && s[i] == s[n];
      j := n;
    } else {
      assert |within - {s[n]}| == |within| - 1;
      i, j := Pigeonhole(s[..n], within - {s[n]});
    }
  }

  /** Walking backwards from a key that is never scheduled, for as long as one likes. */
  lemma {:induction false} BlockedWalk(draft: Draft, n: nat, start: string) returns (w: seq<string>)
    requires EdgesResolve(draft) && start in Keys(draft.specs) - Elements(Schedule(draft))
    ensures |w| == n + 1
    ensures forall k :: k in w ==> k in Keys(draft.specs) - Elements(Schedule(draft))
    ensures forall i :: 0 < i < |w| ==> HasEdge(draft, w[i], w[i - 1])
    decreases n
  {
    if n == 0 {
      w := [start];
    } else {
      var v := BlockedWalk(draft, n - 1, start);
      var last := v[n - 1];
      ScheduleOk(draft);
      assert last in v;
      assert !KeyReady(draft, Elements(Schedule(draft)), last);
      var from :| from in DependsOn(draft, last) && from !in Elements(Schedule(draft));
      assert Edge(from, last) in draft.edges;
      w := v + [from];
    }
  }

  lemma ReverseIsCycle(draft: Draft, w: seq<string>, i: nat, j: nat) returns (p: seq<string>)
    requires i < j < |w| && w[i] == w[j]
    requires forall k :: 0 < k < |w| ==> HasEdge(draft, w[k], w[k - 1])
    ensures Cycle(draft, p)
  {
    p := seq(j - i + 1, k requires 0 <= k <= j - i => w[j - k]);
    forall k | 0 < k < |p| ensures HasEdge(draft, p[k - 1], p[k]) {
      assert HasEdge(draft, w[j - k + 1], w[j - k + 1 - 1]);
    }
  }

  /** A plan whose schedule leaves a key out has a cycle. */
  lemma BlockedHasCycle(draft: Draft) returns (p: seq<string>)
    requires EdgesResolve(draft) && !RunsEverything(draft)
    ensures Cycle(draft, p)
  {
    ScheduleOk(draft);
    var blocked := Keys(draft.specs) - Elements(Schedule(draft));
    assert !(Keys(draft.specs) <= Elements(Schedule(draft)));
    var start :| start in Keys(draft.specs) && start !in Elements(Schedule(draft));
    var w := BlockedWalk(draft, |blocked|, start);
    var i, j := Pigeonhole(w, blocked);
    p := ReverseIsCycle(draft, w, i, j);
  }

  /** Every step runs if and only if the dependency graph is acyclic. */
  lemma RunsEverythingIffAcyclic(draft: Draft)
    requires EdgesResolve(draft)
    ensures RunsEverything(draft) <==> Acyclic(draft)
  {
    if RunsEverything(draft) {
      ScheduleOk(draft);
      var s := Schedule(draft);
      forall p ensures !Cycle(draft, p) {
        if Cycle(draft, p) {
          forall k | k in p ensures k in s {
            var i :| 0 <= i < |p| && p[i] == k;
            assert HasEdge(draft, p[if i == 0 then |p| - 2 else i - 1], p[if i == 0 then |p| - 1 else i]);
            assert k in Elements(s);
          }
          WalkAscends(draft, s, p);
        }
      }
    } else {
      var p := BlockedHasCycle(draft);
    }
  }

  /** A rank that grows along every edge rules cycles out. */
  lemma {:induction false} RankAscends(draft: Draft, rank: map<string, int>, p: seq<string>)
    requires forall a, b :: HasEdge(draft, a, b) ==> a in rank && b in rank && rank[a] < rank[b]
    requires Walk(draft, p) && |p| > 1
    ensures p[0] in rank && p[|p| - 1] in rank && rank[p[0]] < rank[p[|p| - 1]]
    decreases |p|
  {
    var n := |p| - 1;
    assert HasEdge(draft, p[n - 1], p[n]);
    if n > 1 {
      assert Walk(draft, p[..n]) by {
        forall m | 0 < m < |p[..n]| ensures HasEdge(draft, p[..n][m - 1], p[..n][m]) {
          assert HasEdge(draft, p[m - 1], p[m]);
        }
      }
      RankAscends(draft, rank, p[..n]);
    }
  }

  lemma RankedIsAcyclic(draft: Draft, rank: map<string, int>)
    requires forall a, b :: HasEdge(draft, a, b) ==> a in rank && b in rank && rank[a] < rank[b]
    ensures Acyclic(draft)
  {
    forall p ensures !Cycle(draft, p) {
      if Cycle(draft, p) {
        RankAscends(draft, rank, p);
      }
    }
  }

  // ---------------------------------------------------------------- the validation gate

  /** The type of the step that carries a key: the last spec with that key decides. */
  function TypeOfKey(draft: Draft, key: string): StepType
    requires key in Keys(draft.specs)
  {
    TypeOf(draft.specs[LastIndex(draft.specs, key)].kind)
  }

  predicate IsWork(draft: Draft, key: string) {
    key in Keys(draft.specs) && TypeOfKey(draft, key).WorkStep?
  }

  predicate IsCheck(draft: Draft, key: string) {
    key in Keys(draft.specs) && TypeOfKey(draft, key).ValidationStep?
  }

  predicate PlansWork(draft: Draft) {
    exists k :: k in Keys(draft.specs) && IsWork(draft, k)
  }

  /** The loop head opens the gate when these keys are done. */
  predicate OpensAt(draft: Draft, done: seq<string>) {
    && PlansWork(draft)
    && (forall k :: k in Keys(draft.specs) && IsWork(draft, k) ==> k in done)
    && (exists k :: k in Keys(draft.specs) && IsCheck(draft, k) && k !in done)
  }

  predicate OpensWithin(draft: Draft, s: seq<string>, n: int) {
    exists i :: 0 <= i <= n && i <= |s| && OpensAt(draft, s[..i])
  }

  /** The gate opens at some point of the schedule. */
  predicate PassesGate(draft: Draft) {
    OpensWithin(draft, Schedule(draft), |Schedule(draft)|)
  }

  lemma LastCheckOpens(draft: Draft, s: seq<string>)
    requires NoDuplicates(s) && Elements(s) == Keys(draft.specs) && PlansWork(draft)
    requires s != [] && IsCheck(draft, s[|s| - 1])
    ensures OpensAt(draft, s[..|s| - 1])
  {
    var n := |s| - 1;
    forall k | k in Keys(draft.specs) && IsWork(draft, k) ensures k in s[..n] {
      assert k in Elements(s);
      var i :| 0 <= i <= n && s[i] == k;
      assert s[..n][i] == k;
    }
  }

  lemma OpenMeansLastCheck(draft: Draft, s: seq<string>, i: nat)
    requires NoDuplicates(s) && Elements(s) == Keys(draft.specs)
    requires i <= |s| && OpensAt(draft, s[..i])
    ensures s != [] && IsCheck(draft, s[|s| - 1])
  {
    var v :| v in Keys(draft.specs) && IsCheck(draft, v) && v !in s[..i];
    assert v in Elements(s);
    var n := |s| - 1;
    assert s[n] in Elements(s);
    assert i <= n && s[n] !in s[..i];
  }

  lemma OpensIffLastCheck(draft: Draft, s: seq<string>)
    requires NoDuplicates(s) && Elements(s) == Keys(draft.specs)
    ensures OpensWithin(draft, s, |s|) <==>
      PlansWork(draft) && s != [] && IsCheck(draft, s[|s| - 1])
  {
    if PlansWork(draft) && s != [] && IsCheck(draft, s[|s| - 1]) {
      LastCheckOpens(draft, s);
    }
    if OpensWithin(draft, s, |s|) {
      var i :| 0 <= i <= |s| && OpensAt(draft, s[..i]);
      OpenMeansLastCheck(draft, s, i);
    }
  }

  /** For a plan that runs to the end, the gate opens exactly when there is work and a
      validation step comes last. */
  lemma GateOpensIffValidationLast(draft: Draft)
    requires RunsEverything(draft)
    ensures var s := Schedule(draft);
      PassesGate(draft) <==> PlansWork(draft) && s != [] && IsCheck(draft, s[|s| - 1])
  {
    ScheduleOk(draft);
    OpensIffLastCheck(draft, Schedule(draft));
  }

  /** `b` depends on `a`, directly or through other steps. */
  ghost predicate DependsTransitively(draft: Draft, b: string, a: string) {
    exists p :: Walk(draft, p) && |p| > 1 && p[0] == a && p[|p| - 1] == b
  }

  /** The sufficient condition on the graph alone: some validation step depends, directly
      or not, on every work step. */
  lemma DependentValidationPasses(draft: Draft, v: string)
    requires EdgesResolve(draft) && Acyclic(draft)
    requires PlansWork(draft) && IsCheck(draft, v)
    requires forall k :: IsWork(draft, k) ==> DependsTransitively(draft, v, k)
    ensures PassesGate(draft)
  {
    RunsEverythingIffAcyclic(draft);
    ScheduleOk(draft);
    var s := Schedule(draft);
    assert v in Elements(s);
    var j := Position(s, v);
    forall k | k in Keys(draft.specs) && IsWork(draft, k) ensures k in s[..j] {
      var p :| Walk(draft, p) && |p| > 1 && p[0] == k && p[|p| - 1] == v;
      forall x | x in p ensures x in s {
        var i :| 0 <= i < |p| && p[i] == x;
        if i > 0 {
          assert HasEdge(draft, p[i - 1], p[i]);
        }
        assert x in Elements(s);
      }
      WalkAscends(draft, s, p);
      assert s[..j][Position(s, k)] == k;
    }
    assert v !in s[..j];
    assert OpensAt(draft, s[..j]);
  }
}
