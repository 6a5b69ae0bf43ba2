/** The live stream of one execution: successive snapshots become numbered events, and a
    client that starts from nothing rebuilds the execution from the events alone. */
module Stream {
  import opened StateMachine
  import opened Records

  datatype StepLine = StepLine(id: Id, status: StepStatus)

  /** One poll: the execution record, and the trace projection read right after it. */
  datatype Snapshot = Snapshot(
    status: ExecutionStatus,
    governance: Option<Governance>,
    timeline: seq<Row>,
    steps: seq<StepLine>,
    approvals: seq<Approval>)

  datatype Body =
    | ExecutionUpdated(status: ExecutionStatus)
    | ApprovalAsked(governance: Option<Governance>)
    | ExecutionEnded(final: ExecutionStatus)
    | TraceEvent(row: Row)
    | ReplayNotice(sourceId: Id, mode: ReplayMode)
    | StepUpdated(line: StepLine)
    | ApprovalRecorded(decision: ApprovalDecision, approver: string)
    | Heartbeat

  datatype StreamEvent = StreamEvent(sequence: nat, body: Body)

  datatype View = View(
    status: Option<ExecutionStatus>, timelineLen: nat, steps: map<Id, StepStatus>, approvals: nat)

  // ---------------------------------------------------------------- one poll, as a function

  function StatusBodies(snap: Snapshot): seq<Body> {
    [ExecutionUpdated(snap.status)]
    + (if snap.status.AwaitingApproval? then [ApprovalAsked(snap.governance)] else [])
    + (if Terminal(snap.status) then [ExecutionEnded(snap.status)] else [])
  }

  function RowBodies(row: Row): seq<Body> {
    [TraceEvent(row)]
    + if row.event.ReplayCreated? then [ReplayNotice(row.event.sourceId, row.event.mode)] else []
  }

  function TraceBodies(rows: seq<Row>): seq<Body> {
    if rows == [] then [] else TraceBodies(rows[..|rows| - 1]) + RowBodies(rows[|rows| - 1])
  }

  /** Step statuses after the first lines have been taken in. */
  function StepsAfter(known: map<Id, StepStatus>, lines: seq<StepLine>): map<Id, StepStatus> {
    if lines == [] then known
    else StepsAfter(known, lines[..|lines| - 1])[lines[|lines| - 1].id := lines[|lines| - 1].status]
  }

  predicate Shown(known: map<Id, StepStatus>, line: StepLine) {
    line.id in known && known[line.id] == line.status
  }

  function StepBodies(known: map<Id, StepStatus>, lines: seq<StepLine>): seq<Body> {
    if lines == [] then []
    else
      var init, last := lines[..|lines| - 1], lines[|lines| - 1];
      StepBodies(known, init) + if Shown(StepsAfter(known, init), last) then [] else [StepUpdated(last)]
  }

  function ApprovalBodies(seen: nat, approvals: seq<Approval>): seq<Body> {
    if |approvals| <= seen then []
    else [ApprovalRecorded(approvals[|approvals| - 1].decision, approvals[|approvals| - 1].approver)]
  }

  function NewRows(seen: nat, timeline: seq<Row>): seq<Row> {
    if seen <= |timeline| then timeline[seen..] else []
  }

  /** The events of a status the client has not been told. */
  function NewStatus(view: View, snap: Snapshot): seq<Body> {
    if view.status == Some(snap.status) then [] else StatusBodies(snap)
  }

  function Bodies(view: View, snap: Snapshot): seq<Body> {
    NewStatus(view, snap)
    + TraceBodies(NewRows(view.timelineLen, snap.timeline))
    + StepBodies(view.steps, snap.steps)
    + ApprovalBodies(view.approvals, snap.approvals)
  }

  function Max(a: nat, b: nat): nat { if a < b then b else a }

  function After(view: View, snap: Snapshot): View {
    View(Some(snap.status), |snap.timeline|, StepsAfter(view.steps, snap.steps),
         Max(view.approvals, |snap.approvals|))
  }

  function Numbered(start: nat, bodies: seq<Body>): (events: seq<StreamEvent>)
    ensures |events| == |bodies|
    ensures forall i :: 0 <= i < |events| ==> events[i] == StreamEvent(start + i + 1, bodies[i])
  {
    seq(|bodies|, i requires 0 <= i < |bodies| => StreamEvent(start + i + 1, bodies[i]))
  }

  // ---------------------------------------------------------------- one poll, as the source runs it

  class StreamCursor {
    var executionStatus: Option<ExecutionStatus>
    var timelineLen: nat
    var stepStatusById: map<Id, StepStatus>
    var approvalCount: nat
    var sequence: nat

    constructor ()
      ensures Seen() == View(None, 0, map[], 0) && sequence == 0
    {
      executionStatus, timelineLen, stepStatusById, approvalCount, sequence := None, 0, map[], 0, 0;
    }

    function Seen(): View
      reads this
    {
      View(executionStatus, timelineLen, stepStatusById, approvalCount)
    }

    /** Number one event and add it to the batch; `bodies` is the batch so far. */
    method Emit(body: Body, events: seq<StreamEvent>, ghost start: nat, ghost bodies: seq<Body>)
      returns (more: seq<StreamEvent>)
      requires events == Numbered(start, bodies) && sequence == start + |events|
      modifies this`sequence
      ensures more == Numbered(start, bodies + [body]) && sequence == start + |more|
    {
      sequence := sequence + 1;
      more := events + [StreamEvent(sequence, body)];
    }

    /** New events since the last poll, for any two successive snapshots at all. */
    method DiffStreamEvents(snap: Snapshot) returns (events: seq<StreamEvent>)
      modifies this
      ensures Seen() == After(old(Seen()), snap)
      ensures events == Numbered(old(sequence), Bodies(old(Seen()), snap)) && sequence == old(sequence) + |events|
    {
      events := StatusEvents(snap);
      ghost var bodies := if old(executionStatus) == Some(snap.status) then [] else StatusBodies(snap);
      events := TraceEvents(snap.timeline, events, old(sequence), bodies);
      bodies := bodies + TraceBodies(NewRows(old(timelineLen), snap.timeline));
      events := StepEvents(snap.steps, events, old(sequence), bodies);
      bodies := bodies + StepBodies(old(stepStatusById), snap.steps);
      if |snap.approvals| > approvalCount {
        approvalCount := |snap.approvals|;
        var last := snap.approvals[|snap.approvals| - 1];
        events := Emit(ApprovalRecorded(last.decision, last.approver), events, old(sequence), bodies);
      } else {
        assert bodies + [] == bodies;
      }
    }

    method StatusEvents(snap: Snapshot) returns (events: seq<StreamEvent>)
      modifies this`executionStatus, this`sequence
      ensures executionStatus == Some(snap.status) && sequence == old(sequence) + |events|
      ensures events == Numbered(
        old(sequence), if old(executionStatus) == Some(snap.status) then [] else StatusBodies(snap))
    {
      events := [];
      if executionStatus == Some(snap.status) {
        return;
      }
      executionStatus := Some(snap.status);
      ghost var bodies := [ExecutionUpdated(snap.status)];
      events := Emit(ExecutionUpdated(snap.status), events, old(sequence), []);
      if snap.status.AwaitingApproval? {
        events := Emit(ApprovalAsked(snap.governance), events, old(sequence), bodies);
        bodies := bodies + [ApprovalAsked(snap.governance)];
      }
      if snap.status.Completed? || snap.status.Failed? || snap.status.Cancelled? {
        events := Emit(ExecutionEnded(snap.status), events, old(sequence), bodies);
        bodies := bodies + [ExecutionEnded(snap.status)];
      }
      assert bodies == StatusBodies(snap);
    }

    method TraceEvents(timeline: seq<Row>, events: seq<StreamEvent>, ghost start: nat, ghost bodies: seq<Body>)
      returns (more: seq<StreamEvent>)
      requires events == Numbered(start, bodies) && sequence == start + |events|
      modifies this`timelineLen, this`sequence
      ensures timelineLen == |timeline| && sequence == start + |more|
      ensures more == Numbered(start, bodies + TraceBodies(NewRows(old(timelineLen), timeline)))
    {
      more := events;
      ghost var rows := NewRows(timelineLen, timeline);
      assert bodies + [] == bodies;
      var idx := timelineLen;
      while idx < |timeline|
        invariant timelineLen <= idx && (idx <= |timeline| || idx == timelineLen)
        invariant timelineLen == old(timelineLen) && sequence == start + |more|
        invariant idx - timelineLen <= |rows|
        invariant more == Numbered(start, bodies + TraceBodies(rows[..idx - timelineLen]))
      {
        var row := timeline[idx];
        ghost var n := idx - timelineLen;
        assert rows[..n + 1][..n] == rows[..n];
        ghost var had := bodies + TraceBodies(rows[..n]);
        more := Emit(TraceEvent(row), more, start, had);
        if row.event.ReplayCreated? {
          var notice := ReplayNotice(row.event.sourceId, row.event.mode);
          more := Emit(notice, more, start, had + [TraceEvent(row)]);
          assert had + [TraceEvent(row)] + [notice] == bodies + TraceBodies(rows[..n + 1]);
        } else {
          assert had + [TraceEvent(row)] == bodies + TraceBodies(rows[..n + 1]);
        }
        idx := idx + 1;
      }
      assert rows[..|rows|] == rows;
      timelineLen := |timeline|;
    }

    method StepEvents(lines: seq<StepLine>, events: seq<StreamEvent>, ghost start: nat, ghost bodies: seq<Body>)
      returns (more: seq<StreamEvent>)
      requires events == Numbered(start, bodies) && sequence == start + |events|
      modifies this`stepStatusById, this`sequence
      ensures stepStatusById == StepsAfter(old(stepStatusById), lines) && sequence == start + |more|
      ensures more == Numbered(start, bodies + StepBodies(old(stepStatusById), lines))
    {
      more := events;
      ghost var known := stepStatusById;
      assert bodies + [] == bodies;
      for i := 0 to |lines|
        invariant sequence == start + |more| && stepStatusById == StepsAfter(known, lines[..i])
        invariant more == Numbered(start, bodies + StepBodies(known, lines[..i]))
      {
        assert lines[..i + 1][..i] == lines[..i];
        var line := lines[i];
        ghost var had := bodies + StepBodies(known, lines[..i]);
        if line.id !in stepStatusById || stepStatusById[line.id] != line.status {
          stepStatusById := stepStatusById[line.id := line.status];
          more := Emit(StepUpdated(line), more, start, had);
          assert had + [StepUpdated(line)] == bodies + StepBodies(known, lines[..i + 1]);
        } else {
          assert had == bodies + StepBodies(known, lines[..i + 1]);
        }
      }
      assert lines[..|lines|] == lines;
    }
  }

  // ---------------------------------------------------------------- what a client makes of it

  /** What a client knows that started from nothing and saw only events. */
  datatype Client = Client(
    status: Option<ExecutionStatus>, rows: seq<Row>, steps: map<Id, StepStatus>, endings: seq<ExecutionStatus>)

  function Learn(c: Client, body: Body): Client {
    match body
    case ExecutionUpdated(status) => c.(status := Some(status))
    case TraceEvent(row) => c.(rows := c.rows + [row])
    case StepUpdated(line) => c.(steps := c.steps[line.id := line.status])
    case ExecutionEnded(status) => c.(endings := c.endings + [status])
    case _ => c
  }

  function LearnAll(c: Client, bodies: seq<Body>): Client {
    if bodies == [] then c else Learn(LearnAll(c, bodies[..|bodies| - 1]), bodies[|bodies| - 1])
  }

  lemma {:induction false} LearnConcat(c: Client, a: seq<Body>, b: seq<Body>)
    ensures LearnAll(c, a + b) == LearnAll(LearnAll(c, a), b)
  {
    if b == [] {
      assert a + b == a;
    } else {
      assert (a + b)[..|a + b| - 1] == a + b[..|b| - 1];
      LearnConcat(c, a, b[..|b| - 1]);
    }
  }

  lemma LearnOne(c: Client, body: Body)
    ensures LearnAll(c, [body]) == Learn(c, body)
  {
    assert [body][..0] == [];
    assert LearnAll(c, []) == c;
  }

  lemma LearnTwo(c: Client, a: Body, b: Body)
    ensures LearnAll(c, [a, b]) == Learn(Learn(c, a), b)
  {
    LearnOne(c, a);
    assert [a, b][..1] == [a];
  }

  lemma LearnStatus(c: Client, snap: Snapshot)
    ensures LearnAll(c, StatusBodies(snap)) ==
      c.(status := Some(snap.status),
         endings := c.endings + if Terminal(snap.status) then [snap.status] else [])
  {
    var updated := ExecutionUpdated(snap.status);
    if snap.status.AwaitingApproval? {
      assert StatusBodies(snap) == [updated, ApprovalAsked(snap.governance)];
      LearnTwo(c, updated, ApprovalAsked(snap.governance));
    } else if Terminal(snap.status) {
      assert StatusBodies(snap) == [updated, ExecutionEnded(snap.status)];
      LearnTwo(c, updated, ExecutionEnded(snap.status));
    } else {
      assert StatusBodies(snap) == [updated];
      LearnOne(c, updated);
    }
  }

  lemma LearnRow(c: Client, row: Row)
    ensures LearnAll(c, RowBodies(row)) == c.(rows := c.rows + [row])
  {
    if row.event.ReplayCreated? {
      LearnTwo(c, TraceEvent(row), ReplayNotice(row.event.sourceId, row.event.mode));
    } else {
      LearnOne(c, TraceEvent(row));
    }
  }

  lemma {:induction false} LearnRows(c: Client, rows: seq<Row>)
    ensures LearnAll(c, TraceBodies(rows)) == c.(rows := c.rows + rows)
  {
    if rows != [] {
      var init, last := rows[..|rows| - 1], rows[|rows| - 1];
      LearnRows(c, init);
      LearnConcat(c, TraceBodies(init), RowBodies(last));
      LearnRow(c.(rows := c.rows + init), last);
      assert c.rows + init + [last] == c.rows + rows;
    }
  }

  lemma {:induction false} LearnSteps(c: Client, lines: seq<StepLine>)
    ensures LearnAll(c, StepBodies(c.steps, lines)) == c.(steps := StepsAfter(c.steps, lines))
  {
    if lines != [] {
      var init, last := lines[..|lines| - 1], lines[|lines| - 1];
      LearnSteps(c, init);
      var known := StepsAfter(c.steps, init);
      if Shown(known, last) {
        assert known[last.id := last.status] == known;
        assert StepBodies(c.steps, init) + [] == StepBodies(c.steps, init);
      } else {
        LearnConcat(c, StepBodies(c.steps, init), [StepUpdated(last)]);
        LearnOne(c.(steps := known), StepUpdated(last));
      }
    }
  }

  /** The client agrees with the cursor. */
  predicate Synced(view: View, c: Client) {
    c.status == view.status && |c.rows| == view.timelineLen && c.steps == view.steps
  }

  function Learned(c: Client, view: View, snap: Snapshot): Client {
    Client(Some(snap.status), c.rows + NewRows(view.timelineLen, snap.timeline), StepsAfter(c.steps, snap.steps),
           c.endings + if view.status != Some(snap.status) && Terminal(snap.status) then [snap.status] else [])
  }

  lemma LearnFour(c: Client, a: seq<Body>, b: seq<Body>, d: seq<Body>, e: seq<Body>)
    ensures LearnAll(c, a + b + d + e) == LearnAll(LearnAll(LearnAll(LearnAll(c, a), b), d), e)
  {
    LearnConcat(c, a + b + d, e);
    LearnConcat(c, a + b, d);
    LearnConcat(c, a, b);
  }

  lemma LearnApprovals(c: Client, seen: nat, approvals: seq<Approval>)
    ensures LearnAll(c, ApprovalBodies(seen, approvals)) == c
  {
    if |approvals| > seen {
      LearnOne(c, ApprovalBodies(seen, approvals)[0]);
    }
  }

  /** One batch brings the client exactly as far as the cursor. */
  lemma LearnBatch(c: Client, view: View, snap: Snapshot)
    requires Synced(view, c)
    ensures LearnAll(c, Bodies(view, snap)) == Learned(c, view, snap)
  {
    var rows := NewRows(view.timelineLen, snap.timeline);
    LearnFour(c, NewStatus(view, snap), TraceBodies(rows), StepBodies(view.steps, snap.steps),
              ApprovalBodies(view.approvals, snap.approvals));
    var ended := if view.status != Some(snap.status) && Terminal(snap.status) then [snap.status] else [];
    var c1 := c.(status := Some(snap.status), endings := c.endings + ended);
    LearnNewStatus(c, view, snap, c1);
    LearnRows(c1, rows);
    var c2 := c1.(rows := c1.rows + rows);
    LearnSteps(c2, snap.steps);
    LearnApprovals(c2.(steps := StepsAfter(c2.steps, snap.steps)), view.approvals, snap.approvals);
  }

  lemma LearnNewStatus(c: Client, view: View, snap: Snapshot, c1: Client)
    requires c.status == view.status
    requires c1 == c.(status := Some(snap.status), endings :=
      c.endings + if view.status != Some(snap.status) && Terminal(snap.status) then [snap.status] else [])
    ensures LearnAll(c, NewStatus(view, snap)) == c1
  {
    if view.status == Some(snap.status) {
      assert c.endings + [] == c.endings;
    } else {
      LearnStatus(c, snap);
    }
  }

  // ---------------------------------------------------------------- whole streams

  function ViewAfter(snaps: seq<Snapshot>): View {
    if snaps == [] then View(None, 0, map[], 0)
    else After(ViewAfter(snaps[..|snaps| - 1]), snaps[|snaps| - 1])
  }

  /** Everything sent for a sequence of polls, one batch after the other. */
  function AllBodies(snaps: seq<Snapshot>): seq<Body> {
    if snaps == [] then []
    else AllBodies(snaps[..|snaps| - 1]) + Bodies(ViewAfter(snaps[..|snaps| - 1]), snaps[|snaps| - 1])
  }

  function StepMap(lines: seq<StepLine>): map<Id, StepStatus> {
    StepsAfter(map[], lines)
  }

  /** Rows are only appended, steps only added, and an ended execution stays as it ended. */
  predicate Follows(a: Snapshot, b: Snapshot) {
    && a.timeline <= b.timeline
    && StepMap(a.steps).Keys <= StepMap(b.steps).Keys
    && |a.approvals| <= |b.approvals|
    && (Terminal(a.status) ==> b.status == a.status)
  }

  predicate AppendOnly(snaps: seq<Snapshot>) {
    forall i :: 0 < i < |snaps| ==> Follows(snaps[i - 1], snaps[i])
  }

  lemma AppendOnlyInit(snaps: seq<Snapshot>)
    requires AppendOnly(snaps) && snaps != []
    ensures AppendOnly(snaps[..|snaps| - 1])
    ensures |snaps| > 1 ==> Follows(snaps[|snaps| - 2], snaps[|snaps| - 1])
  {
    var init := snaps[..|snaps| - 1];
    forall i | 0 < i < |init| ensures Follows(init[i - 1], init[i]) {
      assert Follows(snaps[i - 1], snaps[i]);
    }
  }

  lemma {:induction false} StepsAfterKeys(known: map<Id, StepStatus>, lines: seq<StepLine>)
    ensures StepsAfter(known, lines).Keys == known.Keys + StepMap(lines).Keys
    ensures forall k :: k in StepMap(lines) ==> StepsAfter(known, lines)[k] == StepMap(lines)[k]
  {
    if lines != [] {
      StepsAfterKeys(known, lines[..|lines| - 1]);
    }
  }

  lemma StepsCaughtUp(known: map<Id, StepStatus>, lines: seq<StepLine>)
    requires known.Keys <= StepMap(lines).Keys
    ensures StepsAfter(known, lines) == StepMap(lines)
  {
    StepsAfterKeys(known, lines);
    assert StepsAfter(known, lines).Keys == StepMap(lines).Keys;
  }

  function NewClient(): Client {
    Client(None, [], map[], [])
  }

  /** What the snapshot itself shows; it has ended at most once. */
  function ClientOf(snap: Snapshot): Client {
    Client(Some(snap.status), snap.timeline, StepMap(snap.steps), if Terminal(snap.status) then [snap.status] else [])
  }

  lemma LearnedIsLast(before: Snapshot, view: View, snap: Snapshot)
    requires Follows(before, snap) && Synced(view, ClientOf(before))
    ensures Learned(ClientOf(before), view, snap) == ClientOf(snap)
    ensures Synced(After(view, snap), ClientOf(snap))
  {
    StepsCaughtUp(view.steps, snap.steps);
    assert before.timeline + snap.timeline[|before.timeline|..] == snap.timeline;
  }

  /** The reconstruction theorem.  For any polling schedule over an append-only history,
      folding all events from nothing gives the last snapshot: its status, its timeline
      row for row, its step statuses, and one ending if and only if it has ended. */
  lemma {:induction false} Reconstruction(snaps: seq<Snapshot>)
    requires snaps != [] && AppendOnly(snaps)
    ensures LearnAll(NewClient(), AllBodies(snaps)) == ClientOf(snaps[|snaps| - 1])
    ensures Synced(ViewAfter(snaps), ClientOf(snaps[|snaps| - 1]))
  {
    var init, last := snaps[..|snaps| - 1], snaps[|snaps| - 1];
    LearnConcat(NewClient(), AllBodies(init), Bodies(ViewAfter(init), last));
    if init == [] {
      FirstBatch(last);
    } else {
      AppendOnlyInit(snaps);
      Reconstruction(init);
      NextBatch(init[|init| - 1], ViewAfter(init), last);
    }
  }

  lemma FirstBatch(snap: Snapshot)
    ensures LearnAll(LearnAll(NewClient(), AllBodies([])), Bodies(ViewAfter([]), snap)) == ClientOf(snap)
    ensures Synced(After(ViewAfter([]), snap), ClientOf(snap))
  {
    assert LearnAll(NewClient(), []) == NewClient();
    LearnBatch(NewClient(), ViewAfter([]), snap);
  }

  lemma NextBatch(before: Snapshot, view: View, snap: Snapshot)
    requires Follows(before, snap) && Synced(view, ClientOf(before))
    ensures LearnAll(ClientOf(before), Bodies(view, snap)) == ClientOf(snap)
    ensures Synced(After(view, snap), ClientOf(snap))
  {
    LearnBatch(ClientOf(before), view, snap);
    LearnedIsLast(before, view, snap);
  }

  // ---------------------------------------------------------------- single kinds of events

  datatype Kind = UpdateKind | AskKind | EndingKind | RowKind | NoticeKind | StepKind | ApprovalKind

  predicate HasKind(kind: Kind, body: Body) {
    match kind
    case UpdateKind => body.ExecutionUpdated?
    case AskKind => body.ApprovalAsked?
    case EndingKind => body.ExecutionEnded?
    case RowKind => body.TraceEvent?
    case NoticeKind => body.ReplayNotice?
    case StepKind => body.StepUpdated?
    case ApprovalKind => body.ApprovalRecorded?
  }

  /** The events of one kind, in order. */
  function Only(kind: Kind, bodies: seq<Body>): seq<Body> {
    if bodies == [] then []
    else
      Only(kind, bodies[..|bodies| - 1])
      + if HasKind(kind, bodies[|bodies| - 1]) then [bodies[|bodies| - 1]] else []
  }

  lemma {:induction false} OnlyConcat(kind: Kind, a: seq<Body>, b: seq<Body>)
    ensures Only(kind, a + b) == Only(kind, a) + Only(kind, b)
  {
    if b == [] {
      assert a + b == a;
    } else {
      assert (a + b)[..|a + b| - 1] == a + b[..|b| - 1];
      OnlyConcat(kind, a, b[..|b| - 1]);
    }
  }

  lemma {:induction false} OnlyNone(kind: Kind, bodies: seq<Body>)
    requires forall b :: b in bodies ==> !HasKind(kind, b)
    ensures Only(kind, bodies) == []
  {
    if bodies != [] {
      OnlyNone(kind, bodies[..|bodies| - 1]);
    }
  }

  lemma OnlyOne(kind: Kind, body: Body)
    ensures Only(kind, [body]) == if HasKind(kind, body) then [body] else []
  {
    assert [body][..0] == [];
    assert Only(kind, []) == [];
  }

  lemma {:induction false} StepBodiesOnly(known: map<Id, StepStatus>, lines: seq<StepLine>)
    ensures forall b :: b in StepBodies(known, lines) ==> b.StepUpdated?
  {
    if lines != [] {
      StepBodiesOnly(known, lines[..|lines| - 1]);
    }
  }

  lemma OnlyBatch(kind: Kind, view: View, snap: Snapshot)
    requires !kind.StepKind? && !kind.ApprovalKind?
    ensures Only(kind, Bodies(view, snap)) ==
      Only(kind, NewStatus(view, snap)) + Only(kind, TraceBodies(NewRows(view.timelineLen, snap.timeline)))
  {
    var status, trace := NewStatus(view, snap), TraceBodies(NewRows(view.timelineLen, snap.timeline));
    var steps, approvals := StepBodies(view.steps, snap.steps), ApprovalBodies(view.approvals, snap.approvals);
    OnlyConcat(kind, status + trace + steps, approvals);
    OnlyConcat(kind, status + trace, steps);
    OnlyConcat(kind, status, trace);
    StepBodiesOnly(view.steps, snap.steps);
    OnlyNone(kind, steps);
    OnlyNone(kind, approvals);
  }

  // Rows: each timeline row is carried exactly once.

  function RowEvents(rows: seq<Row>): seq<Body> {
    seq(|rows|, i requires 0 <= i < |rows| => TraceEvent(rows[i]))
  }

  lemma {:induction false} RowsAreLearned(c: Client, bodies: seq<Body>)
    ensures RowEvents(LearnAll(c, bodies).rows) == RowEvents(c.rows) + Only(RowKind, bodies)
  {
    if bodies != [] {
      var init, last := bodies[..|bodies| - 1], bodies[|bodies| - 1];
      RowsAreLearned(c, init);
      if last.TraceEvent? {
        var rows := LearnAll(c, init).rows;
        assert RowEvents(rows + [last.row]) == RowEvents(rows) + [last];
      }
    }
  }

  lemma EachRowOnce(snaps: seq<Snapshot>)
    requires snaps != [] && AppendOnly(snaps)
    ensures Only(RowKind, AllBodies(snaps)) == RowEvents(snaps[|snaps| - 1].timeline)
  {
    Reconstruction(snaps);
    RowsAreLearned(NewClient(), AllBodies(snaps));
  }

  // Notices: one for each row that records a replay, and no other.

  /** The notices called for by the rows that record a replay, in order. */
  function NoticesOf(rows: seq<Row>): seq<Body> {
    if rows == [] then []
    else
      var last := rows[|rows| - 1].event;
      NoticesOf(rows[..|rows| - 1]) + if last.ReplayCreated? then [ReplayNotice(last.sourceId, last.mode)] else []
  }

  lemma {:induction false} TraceNotices(rows: seq<Row>)
    ensures Only(NoticeKind, TraceBodies(rows)) == NoticesOf(rows)
  {
    if rows != [] {
      var init, last := rows[..|rows| - 1], rows[|rows| - 1];
      TraceNotices(init);
      OnlyConcat(NoticeKind, TraceBodies(init), RowBodies(last));
      RowNotices(last);
    }
  }

  lemma RowNotices(row: Row)
    ensures Only(NoticeKind, RowBodies(row)) ==
      if row.event.ReplayCreated? then [ReplayNotice(row.event.sourceId, row.event.mode)] else []
  {
    OnlyOne(NoticeKind, TraceEvent(row));
    if row.event.ReplayCreated? {
      var notice := ReplayNotice(row.event.sourceId, row.event.mode);
      OnlyConcat(NoticeKind, [TraceEvent(row)], [notice]);
      OnlyOne(NoticeKind, notice);
    }
  }

  lemma {:induction false} NoticesOfConcat(a: seq<Row>, b: seq<Row>)
    ensures NoticesOf(a + b) == NoticesOf(a) + NoticesOf(b)
  {
    if b == [] {
      assert a + b == a;
    } else {
      assert (a + b)[..|a + b| - 1] == a + b[..|b| - 1];
      NoticesOfConcat(a, b[..|b| - 1]);
    }
  }

  lemma StatusNotices(view: View, snap: Snapshot)
    ensures Only(NoticeKind, NewStatus(view, snap)) == []
  {
    OnlyNone(NoticeKind, NewStatus(view, snap));
  }

  lemma BatchNotices(view: View, snap: Snapshot)
    ensures Only(NoticeKind, Bodies(view, snap)) == NoticesOf(NewRows(view.timelineLen, snap.timeline))
  {
    OnlyBatch(NoticeKind, view, snap);
    StatusNotices(view, snap);
    TraceNotices(NewRows(view.timelineLen, snap.timeline));
  }

  lemma {:induction false} EachNoticeOnce(snaps: seq<Snapshot>)
    requires snaps != [] && AppendOnly(snaps)
    ensures Only(NoticeKind, AllBodies(snaps)) == NoticesOf(snaps[|snaps| - 1].timeline)
  {
    var init, last := snaps[..|snaps| - 1], snaps[|snaps| - 1];
    OnlyConcat(NoticeKind, AllBodies(init), Bodies(ViewAfter(init), last));
    BatchNotices(ViewAfter(init), last);
    if init != [] {
      AppendOnlyInit(snaps);
      EachNoticeOnce(init);
      NoticesGrow(init[|init| - 1].timeline, last.timeline);
    }
  }

  lemma NoticesGrow(seen: seq<Row>, timeline: seq<Row>)
    requires seen <= timeline
    ensures NoticesOf(seen) + NoticesOf(NewRows(|seen|, timeline)) == NoticesOf(timeline)
  {
    NoticesOfConcat(seen, timeline[|seen|..]);
    assert seen + timeline[|seen|..] == timeline;
  }

  // Endings: at most one, in the batch of the poll that ends the stream.

  lemma {:induction false} TraceEndsNothing(rows: seq<Row>)
    ensures forall b :: b in TraceBodies(rows) ==> b.TraceEvent? || b.ReplayNotice?
  {
    if rows != [] {
      TraceEndsNothing(rows[..|rows| - 1]);
    }
  }

  lemma StatusEnding(view: View, snap: Snapshot)
    ensures Only(EndingKind, NewStatus(view, snap)) ==
      if view.status != Some(snap.status) && Terminal(snap.status) then [ExecutionEnded(snap.status)] else []
  {
    var updated, ended := ExecutionUpdated(snap.status), ExecutionEnded(snap.status);
    if view.status != Some(snap.status) && Terminal(snap.status) {
      assert StatusBodies(snap) == [updated] + [ended];
      OnlyConcat(EndingKind, [updated], [ended]);
      OnlyOne(EndingKind, updated);
      OnlyOne(EndingKind, ended);
    } else {
      OnlyNone(EndingKind, NewStatus(view, snap));
    }
  }

  lemma TraceEnding(rows: seq<Row>)
    ensures Only(EndingKind, TraceBodies(rows)) == []
  {
    TraceEndsNothing(rows);
    OnlyNone(EndingKind, TraceBodies(rows));
  }

  lemma BatchEnding(view: View, snap: Snapshot)
    ensures Only(EndingKind, Bodies(view, snap)) ==
      if view.status != Some(snap.status) && Terminal(snap.status) then [ExecutionEnded(snap.status)] else []
  {
    OnlyBatch(EndingKind, view, snap);
    StatusEnding(view, snap);
    TraceEnding(NewRows(view.timelineLen, snap.timeline));
  }

  /** Exactly when the ending is the last event of its batch: the poll brought no new row,
      no changed step and no new approval. */
  lemma EndingLastIff(view: View, snap: Snapshot)
    requires Terminal(snap.status) && view.status != Some(snap.status)
    ensures Bodies(view, snap)[1] == ExecutionEnded(snap.status)
    ensures Bodies(view, snap)[|Bodies(view, snap)| - 1] == ExecutionEnded(snap.status) <==>
      && NewRows(view.timelineLen, snap.timeline) == []
      && StepBodies(view.steps, snap.steps) == []
      && |snap.approvals| <= view.approvals
  {
    var trace := TraceBodies(NewRows(view.timelineLen, snap.timeline));
    var steps, approvals := StepBodies(view.steps, snap.steps), ApprovalBodies(view.approvals, snap.approvals);
    assert StatusBodies(snap) == [ExecutionUpdated(snap.status), ExecutionEnded(snap.status)];
    StepBodiesOnly(view.steps, snap.steps);
    TraceEndsNothing(NewRows(view.timelineLen, snap.timeline));
    if trace != [] {
      assert trace[|trace| - 1] in trace;
    }
    if steps != [] {
      assert steps[|steps| - 1] in steps;
    }
    if NewRows(view.timelineLen, snap.timeline) != [] {
      FirstRowFirst(NewRows(view.timelineLen, snap.timeline));
    }
  }

  /** The rows that were new to the poll come after the ending, so a client that stops
      listening at the ending misses them. */
  lemma RowsFollowEnding(view: View, snap: Snapshot)
    requires Terminal(snap.status) && view.status != Some(snap.status)
    requires NewRows(view.timelineLen, snap.timeline) != []
    ensures var bodies := Bodies(view, snap);
      && bodies[1] == ExecutionEnded(snap.status)
      && exists i :: 1 < i < |bodies| && bodies[i] == TraceEvent(NewRows(view.timelineLen, snap.timeline)[0])
  {
    var rows := NewRows(view.timelineLen, snap.timeline);
    var bodies := Bodies(view, snap);
    FirstRowFirst(rows);
    assert StatusBodies(snap) == [ExecutionUpdated(snap.status), ExecutionEnded(snap.status)];
    assert bodies[2] == TraceBodies(rows)[0];
  }

  lemma {:induction false} FirstRowFirst(rows: seq<Row>)
    requires rows != []
    ensures TraceBodies(rows) != [] && TraceBodies(rows)[0] == TraceEvent(rows[0])
  {
    if |rows| > 1 {
      FirstRowFirst(rows[..|rows| - 1]);
    } else {
      assert TraceBodies(rows[..0]) == [];
    }
  }

  // ---------------------------------------------------------------- the poll loop

  /** What one turn of the poll loop meets. */
  datatype Poll = TimedOut | Vanished | Polled(snap: Snapshot, heartbeatDue: bool)

  /** The snapshots the loop takes in: up to the first failed poll or the first ended one. */
  function Served(polls: seq<Poll>): seq<Snapshot> {
    if polls == [] || !polls[0].Polled? then []
    else if Terminal(polls[0].snap.status) then [polls[0].snap]
    else [polls[0].snap] + Served(polls[1..])
  }

  /** The heartbeats due in the turns the loop survives. */
  function BeatsDue(polls: seq<Poll>): nat {
    if polls == [] || !polls[0].Polled? || Terminal(polls[0].snap.status) then 0
    else (if polls[0].heartbeatDue then 1 else 0) + BeatsDue(polls[1..])
  }

  function Heartbeats(events: seq<StreamEvent>): nat {
    if events == [] then 0
    else Heartbeats(events[..|events| - 1]) + if events[|events| - 1].body.Heartbeat? then 1 else 0
  }

  lemma {:induction false} HeartbeatsSilent(sent: seq<StreamEvent>, batch: seq<StreamEvent>)
    requires forall ev :: ev in batch ==> !ev.body.Heartbeat?
    ensures Heartbeats(sent + batch) == Heartbeats(sent)
  {
    if batch == [] {
      assert sent + batch == sent;
    } else {
      var init, last := batch[..|batch| - 1], batch[|batch| - 1];
      assert last in batch && forall ev :: ev in init ==> ev in batch;
      assert (sent + batch)[..|sent + batch| - 1] == sent + init;
      HeartbeatsSilent(sent, init);
    }
  }

  lemma HeartbeatsMore(sent: seq<StreamEvent>, sequence: nat)
    ensures Heartbeats(sent + [StreamEvent(sequence, Heartbeat)]) == Heartbeats(sent) + 1
  {
    assert (sent + [StreamEvent(sequence, Heartbeat)])[..|sent|] == sent;
  }

  function WithoutHeartbeats(events: seq<StreamEvent>): seq<StreamEvent> {
    if events == [] then []
    else
      WithoutHeartbeats(events[..|events| - 1])
      + if events[|events| - 1].body.Heartbeat? then [] else [events[|events| - 1]]
  }

  lemma {:induction false} WithoutConcat(a: seq<StreamEvent>, b: seq<StreamEvent>)
    ensures WithoutHeartbeats(a + b) == WithoutHeartbeats(a) + WithoutHeartbeats(b)
  {
    if b == [] {
      assert a + b == a;
    } else {
      assert (a + b)[..|a + b| - 1] == a + b[..|b| - 1];
      WithoutConcat(a, b[..|b| - 1]);
    }
  }

  lemma {:induction false} NoHeartbeats(events: seq<StreamEvent>)
    requires forall ev :: ev in events ==> !ev.body.Heartbeat?
    ensures WithoutHeartbeats(events) == events
  {
    if events != [] {
      var init, last := events[..|events| - 1], events[|events| - 1];
      assert events == init + [last];
      assert last in events && forall ev :: ev in init ==> ev in events;
      NoHeartbeats(init);
    }
  }

  lemma BatchHasNoHeartbeat(start: nat, view: View, snap: Snapshot)
    ensures forall ev :: ev in Numbered(start, Bodies(view, snap)) ==> !ev.body.Heartbeat?
  {
    StepBodiesOnly(view.steps, snap.steps);
    TraceEndsNothing(NewRows(view.timelineLen, snap.timeline));
    forall ev | ev in Numbered(start, Bodies(view, snap)) ensures !ev.body.Heartbeat? {
      assert ev.body in Bodies(view, snap);
    }
  }

  /** The snapshots taken so far, none of them ended, out of all that will be taken. */
  predicate TakenSoFar(all: seq<Snapshot>, taken: seq<Snapshot>, rest: seq<Poll>) {
    all == taken + Served(rest) && forall snap :: snap in taken ==> !Terminal(snap.status)
  }

  lemma TakeOne(all: seq<Snapshot>, taken: seq<Snapshot>, rest: seq<Poll>)
    requires TakenSoFar(all, taken, rest) && rest != [] && rest[0].Polled?
    ensures var snap := rest[0].snap;
      if Terminal(snap.status) then all == taken + [snap] else TakenSoFar(all, taken + [snap], rest[1..])
  {
    var snap := rest[0].snap;
    assert taken + ([snap] + Served(rest[1..])) == (taken + [snap]) + Served(rest[1..]);
  }

  /** What has gone out is what the polls taken so far call for. */
  predicate SentFor(sent: seq<StreamEvent>, taken: seq<Snapshot>) {
    WithoutHeartbeats(sent) == Numbered(0, AllBodies(taken))
  }

  lemma Snoc(taken: seq<Snapshot>, snap: Snapshot)
    ensures AllBodies(taken + [snap]) == AllBodies(taken) + Bodies(ViewAfter(taken), snap)
    ensures ViewAfter(taken + [snap]) == After(ViewAfter(taken), snap)
  {
    var more := taken + [snap];
    assert more[..|more| - 1] == taken;
  }

  lemma NumberedConcat(a: seq<Body>, b: seq<Body>)
    ensures Numbered(0, a) + Numbered(|a|, b) == Numbered(0, a + b)
  {
  }

  lemma SentBatch(sent: seq<StreamEvent>, taken: seq<Snapshot>, snap: Snapshot, batch: seq<StreamEvent>)
    requires SentFor(sent, taken)
    requires batch == Numbered(|AllBodies(taken)|, Bodies(ViewAfter(taken), snap))
    ensures SentFor(sent + batch, taken + [snap])
    ensures |AllBodies(taken + [snap])| == |AllBodies(taken)| + |batch|
    ensures ViewAfter(taken + [snap]) == After(ViewAfter(taken), snap)
  {
    WithoutConcat(sent, batch);
    BatchHasNoHeartbeat(|AllBodies(taken)|, ViewAfter(taken), snap);
    NoHeartbeats(batch);
    Snoc(taken, snap);
    NumberedConcat(AllBodies(taken), Bodies(ViewAfter(taken), snap));
  }

  lemma SentHeartbeat(sent: seq<StreamEvent>, taken: seq<Snapshot>, sequence: nat)
    requires SentFor(sent, taken)
    ensures SentFor(sent + [StreamEvent(sequence, Heartbeat)], taken)
  {
    var beat := [StreamEvent(sequence, Heartbeat)];
    WithoutConcat(sent, beat);
    assert beat[..0] == [];
    assert WithoutHeartbeats(beat) == [];
  }

  lemma EndingSent(view: View, snap: Snapshot, batch: seq<StreamEvent>, start: nat)
    requires Terminal(snap.status) && view.status != Some(snap.status)
    requires batch == Numbered(start, Bodies(view, snap))
    ensures CarriesEnding(batch)
  {
    var bodies := Bodies(view, snap);
    var at := |StatusBodies(snap)| - 1;
    assert StatusBodies(snap)[at] == ExecutionEnded(snap.status);
    assert bodies[at] == StatusBodies(snap)[at];
    assert batch[at].body.ExecutionEnded?;
  }

  /** Poll until the execution has ended.  Whatever the polls show, the fallback ending is
      never needed: the batch that first shows an ended execution already carries one. */
  method StreamExecution(polls: seq<Poll>) returns (sent: seq<StreamEvent>, fallback: bool)
    ensures !fallback
    ensures SentFor(sent, Served(polls)) && Heartbeats(sent) == BeatsDue(polls)
  {
    var cursor := new StreamCursor();
    sent, fallback := [], false;
    var terminalSent := false;
    ghost var taken: seq<Snapshot> := [];
    ghost var all := Served(polls);
    var rest := polls;
    while rest != []
      invariant TakenSoFar(all, taken, rest) && SentFor(sent, taken) && !fallback && !terminalSent
      invariant cursor.Seen() == ViewAfter(taken) && cursor.sequence == |AllBodies(taken)|
      invariant Heartbeats(sent) + BeatsDue(rest) == BeatsDue(polls)
      decreases |rest|
    {
      if !rest[0].Polled? {
        break;
      }
      var snap := rest[0].snap;
      var batch := cursor.DiffStreamEvents(snap);
      SentBatch(sent, taken, snap, batch);
      BatchHasNoHeartbeat(|AllBodies(taken)|, ViewAfter(taken), snap);
      HeartbeatsSilent(sent, batch);
      NotYetEnded(taken, snap, batch);
      TakeOne(all, taken, rest);
      terminalSent := HasEnding(batch, terminalSent);
      sent := sent + batch;
      taken := taken + [snap];
      var next := StreamEvent(cursor.sequence + 1, ExecutionEnded(snap.status));
      if Terminal(snap.status) && (terminalSent || batch == []) {
        if !terminalSent {
          fallback := true;
          sent := sent + [next];
        }
        return;
      }
      if rest[0].heartbeatDue {
        SentHeartbeat(sent, taken, cursor.sequence);
        HeartbeatsMore(sent, cursor.sequence);
        sent := sent + [StreamEvent(cursor.sequence, Heartbeat)];
      }
      rest := rest[1..];
    }
    assert taken + [] == taken;
  }

  predicate CarriesEnding(batch: seq<StreamEvent>) {
    exists i :: 0 <= i < |batch| && batch[i].body.ExecutionEnded?
  }

  lemma ViewStatus(taken: seq<Snapshot>)
    requires forall t :: t in taken ==> !Terminal(t.status)
    ensures ViewAfter(taken).status.Some? ==> !Terminal(ViewAfter(taken).status.value)
  {
  }

  /** While no ended execution has been taken in, a batch carries an ending exactly when
      its snapshot shows one. */
  lemma NotYetEnded(taken: seq<Snapshot>, snap: Snapshot, batch: seq<StreamEvent>)
    requires forall t :: t in taken ==> !Terminal(t.status)
    requires batch == Numbered(|AllBodies(taken)|, Bodies(ViewAfter(taken), snap))
    ensures CarriesEnding(batch) <==> Terminal(snap.status)
  {
    ViewStatus(taken);
    if Terminal(snap.status) {
      EndingSent(ViewAfter(taken), snap, batch, |AllBodies(taken)|);
    } else {
      EndsNothing(ViewAfter(taken), snap, batch, |AllBodies(taken)|);
    }
  }

  lemma EndsNothing(view: View, snap: Snapshot, batch: seq<StreamEvent>, start: nat)
    requires !Terminal(snap.status) && batch == Numbered(start, Bodies(view, snap))
    ensures !CarriesEnding(batch)
  {
    StepBodiesOnly(view.steps, snap.steps);
    TraceEndsNothing(NewRows(view.timelineLen, snap.timeline));
    forall i | 0 <= i < |batch| ensures !batch[i].body.ExecutionEnded? {
      assert batch[i].body in Bodies(view, snap);
    }
  }

  method HasEnding(batch: seq<StreamEvent>, already: bool) returns (found: bool)
    ensures found <==> already || CarriesEnding(batch)
  {
    found := already;
    for i := 0 to |batch|
      invariant found <==> already || exists j :: 0 <= j < i && batch[j].body.ExecutionEnded?
    {
      if batch[i].body.ExecutionEnded? {
        found := true;
      }
    }
  }

  lemma {:induction false} ServedEnds(polls: seq<Poll>)
    ensures forall i :: 0 <= i < |Served(polls)| - 1 ==> !Terminal(Served(polls)[i].status)
  {
    if polls != [] && polls[0].Polled? && !Terminal(polls[0].snap.status) {
      ServedEnds(polls[1..]);
    }
  }

  /** A stream carries exactly one ending if it gets to see an ended execution, with the
      status it ended in, and none otherwise; the snapshots need not fit together. */
  lemma OneEnding(polls: seq<Poll>)
    ensures var snaps := Served(polls);
      Only(EndingKind, AllBodies(snaps)) ==
        if snaps != [] && Terminal(snaps[|snaps| - 1].status) then [ExecutionEnded(snaps[|snaps| - 1].status)] else []
  {
    ServedEnds(polls);
    EndingAtLast(Served(polls));
  }

  lemma {:induction false} EndingAtLast(snaps: seq<Snapshot>)
    requires forall i :: 0 <= i < |snaps| - 1 ==> !Terminal(snaps[i].status)
    ensures Only(EndingKind, AllBodies(snaps)) ==
      if snaps != [] && Terminal(snaps[|snaps| - 1].status) then [ExecutionEnded(snaps[|snaps| - 1].status)] else []
  {
    if snaps != [] {
      var init, last := snaps[..|snaps| - 1], snaps[|snaps| - 1];
      EndingAtLast(init);
      OnlyConcat(EndingKind, AllBodies(init), Bodies(ViewAfter(init), last));
      BatchEnding(ViewAfter(init), last);
    }
  }
}
