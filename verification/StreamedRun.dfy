/** Streaming a run of the control plane: what the polls of one execution read, at any
    times and with any actors at work in between, is append-only, so every client ends up
    with the true state. */
module StreamedRun {
  import opened StateMachine
  import opened Records
  import opened Lifecycle
  import opened Effects
  import opened Theorems
  import opened Stream

  /** One poll reads the execution after `execAt` actions and the projection after
      `traceAt`, possibly later. */
  datatype Reading = Reading(execAt: nat, traceAt: nat, snap: Snapshot)

  /** A snapshot whose execution record was read in `a` and whose projection in `b`. */
  ghost predicate Shows(snap: Snapshot, a: Case, b: Case) {
    && snap.status == a.ex.status
    && snap.timeline == b.ex.timeline
    && StepMap(snap.steps) == (map id | id in b.steps :: b.steps[id].status)
    && |snap.approvals| == |b.approvals|
  }

  ghost predicate ReadIn(s: Sys, acts: seq<Action>, r: Reading) {
    && r.execAt <= r.traceAt <= |acts|
    && Shows(r.snap, Run(s, acts[..r.execAt]).c, Run(s, acts[..r.traceAt]).c)
  }

  /** Successive polls, each after the one before. */
  ghost predicate ReadAlong(s: Sys, acts: seq<Action>, rs: seq<Reading>) {
    && (forall i :: 0 <= i < |rs| ==> ReadIn(s, acts, rs[i]))
    && (forall i :: 0 < i < |rs| ==> rs[i - 1].traceAt <= rs[i].execAt)
  }

  function Snaps(rs: seq<Reading>): seq<Snapshot> {
    seq(|rs|, i requires 0 <= i < |rs| => rs[i].snap)
  }

  // ---------------------------------------------------------------- rows accumulate

  predicate Accumulates(c: Case, c': Case) {
    c.steps.Keys <= c'.steps.Keys && c.approvals.Keys <= c'.approvals.Keys
  }

  lemma EngineAccumulates(s: Sys, input: Input)
    ensures Accumulates(s.c, Apply(s, Action.Engine(input)).c)
  {
    match s.pc
    case AtDecide => DecideKeepsApprovals(s.c, input); DecideEffect(s.c, input);
    case AtStart => BeginAccumulates(s.c, input);
    case AtStepBegin(sid) => StepAccumulates(s.c, s.pc, input);
    case AtStepStarted(sid) => StepAccumulates(s.c, s.pc, input);
    case AtStepWork(sid) => StepAccumulates(s.c, s.pc, input);
    case AtStepDone(sid) => StepAccumulates(s.c, s.pc, input);
    case _ =>
  }

  lemma BeginAccumulates(c: Case, input: Input)
    ensures Accumulates(c, Begin(c, input).0)
  {
  }

  lemma StepAccumulates(c: Case, pc: Pc, input: Input)
    requires pc.AtStepBegin? || pc.AtStepStarted? || pc.AtStepWork? || pc.AtStepDone?
    ensures Accumulates(c, EngineNext(c, pc, input).0)
  {
  }

  lemma DecideKeepsApprovals(c: Case, input: Input)
    ensures Decide(c, input).0.approvals == c.approvals
  {
  }

  lemma ActionAccumulates(s: Sys, a: Action)
    ensures Accumulates(s.c, Apply(s, a).c)
  {
    match a
    case Engine(input) => EngineAccumulates(s, input);
    case _ =>
  }

  lemma {:induction false} RunAccumulates(s: Sys, acts: seq<Action>)
    ensures Accumulates(s.c, Run(s, acts).c)
    decreases |acts|
  {
    if acts != [] {
      ActionAccumulates(s, acts[0]);
      RunAccumulates(Apply(s, acts[0]), acts[1..]);
    }
  }

  lemma Between(s: Sys, acts: seq<Action>, i: nat, j: nat)
    requires i <= j <= |acts|
    ensures Run(s, acts[..j]) == Run(Run(s, acts[..i]), acts[i..j])
  {
    assert acts[..j] == acts[..i] + acts[i..j];
    RunConcat(s, acts[..i], acts[i..j]);
  }

  lemma SubsetSize<T>(a: set<T>, b: set<T>)
    requires a <= b
    ensures |a| <= |b|
  {
    assert |b| == |a| + |b - a| by {
      assert b == a + (b - a);
    }
  }

  /** What a later poll reads follows on from what an earlier one read. */
  lemma ReadingsFollow(s: Sys, acts: seq<Action>, a: Reading, b: Reading)
    requires ReadIn(s, acts, a) && ReadIn(s, acts, b) && a.traceAt <= b.execAt
    ensures Follows(a.snap, b.snap)
  {
    TracesFollow(s, acts, a, b);
    var first := Run(s, acts[..a.execAt]);
    Between(s, acts, a.execAt, b.execAt);
    if Terminal(first.c.ex.status) {
      TerminalFrozen(first, acts[a.execAt..b.execAt]);
    }
  }

  lemma TracesFollow(s: Sys, acts: seq<Action>, a: Reading, b: Reading)
    requires ReadIn(s, acts, a) && ReadIn(s, acts, b) && a.traceAt <= b.traceAt
    ensures a.snap.timeline <= b.snap.timeline
    ensures StepMap(a.snap.steps).Keys <= StepMap(b.snap.steps).Keys
    ensures |a.snap.approvals| <= |b.snap.approvals|
  {
    var first, second := Run(s, acts[..a.traceAt]), Run(s, acts[..b.traceAt]);
    Between(s, acts, a.traceAt, b.traceAt);
    TimelineOnlyGrows(first, acts[a.traceAt..b.traceAt]);
    RunAccumulates(first, acts[a.traceAt..b.traceAt]);
    SubsetSize(first.c.approvals.Keys, second.c.approvals.Keys);
    assert |first.c.approvals| == |first.c.approvals.Keys| && |second.c.approvals| == |second.c.approvals.Keys|;
  }

  lemma ReadingsAppendOnly(s: Sys, acts: seq<Action>, rs: seq<Reading>)
    requires ReadAlong(s, acts, rs)
    ensures AppendOnly(Snaps(rs))
  {
    forall i | 0 < i < |rs| ensures Follows(Snaps(rs)[i - 1], Snaps(rs)[i]) {
      assert ReadIn(s, acts, rs[i - 1]) && ReadIn(s, acts, rs[i]);
      ReadingsFollow(s, acts, rs[i - 1], rs[i]);
    }
  }

  /** Whatever the engine and the other actors do while a client polls, and whenever it
      polls: folding the events of its stream from nothing gives the status it last read,
      the timeline and the step statuses as stored at that moment, and one ending if and
      only if it has read an ended execution. */
  lemma ClientSeesTheRun(s: Sys, acts: seq<Action>, rs: seq<Reading>)
    requires rs != [] && ReadAlong(s, acts, rs)
    ensures var client := LearnAll(NewClient(), AllBodies(Snaps(rs)));
      var last := rs[|rs| - 1];
      var ex, c := Run(s, acts[..last.execAt]).c.ex, Run(s, acts[..last.traceAt]).c;
      && client.status == Some(ex.status)
      && client.rows == c.ex.timeline
      && client.steps == (map id | id in c.steps :: c.steps[id].status)
      && client.endings == if Terminal(ex.status) then [ex.status] else []
  {
    ReadingsAppendOnly(s, acts, rs);
    Reconstruction(Snaps(rs));
    assert ReadIn(s, acts, rs[|rs| - 1]);
  }

  /** What the polls before the last one have read of the timeline. */
  function SeenRows(rs: seq<Reading>): seq<Row>
    requires rs != []
  {
    if |rs| == 1 then [] else rs[|rs| - 2].snap.timeline
  }

  lemma ViewBefore(rs: seq<Reading>)
    requires rs != []
    ensures var view := ViewAfter(Snaps(rs)[..|rs| - 1]);
      && view.timelineLen == |SeenRows(rs)|
      && view.status == if |rs| == 1 then None else Some(rs[|rs| - 2].snap.status)
  {
  }

  /** An execution that ended has the row of its ending in its timeline, so a poll that
      meets it ended has at least the rows of the poll before, and one more unless that
      poll's projection, read after its execution record, showed the end already. */
  lemma EndingHasRow(s: Sys, acts: seq<Action>, rs: seq<Reading>)
    requires Initial(s) && rs != [] && ReadAlong(s, acts, rs)
    requires Terminal(rs[|rs| - 1].snap.status) && rs[|rs| - 1].snap.timeline == SeenRows(rs)
    ensures |rs| > 1 && Terminal(Run(s, acts[..rs[|rs| - 2].traceAt]).c.ex.status)
  {
    var last := rs[|rs| - 1];
    assert ReadIn(s, acts, last);
    var first := Run(s, acts[..last.execAt]);
    Between(s, acts, last.execAt, last.traceAt);
    TerminalFrozen(first, acts[last.execAt..last.traceAt]);
    StatusHistory(s, acts[..last.traceAt]);
    if |rs| > 1 {
      assert ReadIn(s, acts, rs[|rs| - 2]);
      StatusHistory(s, acts[..rs[|rs| - 2].traceAt]);
    }
  }

  /** In a stream of a real run the ending is the last event of its batch only if the poll
      before had read the projection, but not the execution record, after the end.  In
      every other run rows, and with them the row of the ending itself, come after the
      event that tells the client to stop. */
  lemma EndingSeldomLast(s: Sys, acts: seq<Action>, rs: seq<Reading>)
    requires Initial(s) && rs != [] && ReadAlong(s, acts, rs)
    requires var view := ViewAfter(Snaps(rs)[..|rs| - 1]); var snap := rs[|rs| - 1].snap;
      && Terminal(snap.status) && view.status != Some(snap.status)
      && Bodies(view, snap)[|Bodies(view, snap)| - 1] == ExecutionEnded(snap.status)
    ensures |rs| > 1
    ensures var before := rs[|rs| - 2];
      && Terminal(Run(s, acts[..before.traceAt]).c.ex.status)
      && !Terminal(Run(s, acts[..before.execAt]).c.ex.status)
  {
    var view, last := ViewAfter(Snaps(rs)[..|rs| - 1]), rs[|rs| - 1];
    ViewBefore(rs);
    EndingLastIff(view, last.snap);
    if |rs| > 1 {
      assert ReadIn(s, acts, rs[|rs| - 2]) && ReadIn(s, acts, last);
      ReadingsFollow(s, acts, rs[|rs| - 2], last);
    }
    assert SeenRows(rs) <= last.snap.timeline;
    EndingHasRow(s, acts, rs);
  }
}
