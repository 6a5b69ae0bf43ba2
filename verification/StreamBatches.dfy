/** What one batch of the stream carries, event type by event type and in which order, and
    when approvals are asked for and recorded over a whole stream. */
module StreamBatches {
  import opened StateMachine
  import opened Records
  import opened Stream

  // ---------------------------------------------------------------- the parts of a batch

  lemma OnlyParts(kind: Kind, view: View, snap: Snapshot)
    ensures Only(kind, Bodies(view, snap)) ==
      Only(kind, NewStatus(view, snap)) + Only(kind, TraceBodies(NewRows(view.timelineLen, snap.timeline)))
      + Only(kind, StepBodies(view.steps, snap.steps)) + Only(kind, ApprovalBodies(view.approvals, snap.approvals))
  {
    var status, trace := NewStatus(view, snap), TraceBodies(NewRows(view.timelineLen, snap.timeline));
    var steps, approvals := StepBodies(view.steps, snap.steps), ApprovalBodies(view.approvals, snap.approvals);
    OnlyConcat(kind, status + trace + steps, approvals);
    OnlyConcat(kind, status + trace, steps);
    OnlyConcat(kind, status, trace);
  }

  predicate InTrace(kind: Kind) { kind.RowKind? || kind.NoticeKind? }

  predicate InStatus(kind: Kind) { kind.UpdateKind? || kind.AskKind? || kind.EndingKind? }

  lemma NotInTrace(kind: Kind, rows: seq<Row>)
    requires !InTrace(kind)
    ensures Only(kind, TraceBodies(rows)) == []
  {
    TraceEndsNothing(rows);
    OnlyNone(kind, TraceBodies(rows));
  }

  lemma NotInSteps(kind: Kind, known: map<Id, StepStatus>, lines: seq<StepLine>)
    requires !kind.StepKind?
    ensures Only(kind, StepBodies(known, lines)) == []
  {
    StepBodiesOnly(known, lines);
    OnlyNone(kind, StepBodies(known, lines));
  }

  lemma NotInApprovals(kind: Kind, seen: nat, approvals: seq<Approval>)
    requires !kind.ApprovalKind?
    ensures Only(kind, ApprovalBodies(seen, approvals)) == []
  {
    OnlyNone(kind, ApprovalBodies(seen, approvals));
  }

  lemma NotInStatus(kind: Kind, view: View, snap: Snapshot)
    requires !InStatus(kind)
    ensures Only(kind, NewStatus(view, snap)) == []
  {
    OnlyNone(kind, NewStatus(view, snap));
  }

  /** A batch is searched part by part. */
  function PartFor(kind: Kind, view: View, snap: Snapshot): seq<Body> {
    if InStatus(kind) then NewStatus(view, snap)
    else if InTrace(kind) then TraceBodies(NewRows(view.timelineLen, snap.timeline))
    else if kind.StepKind? then StepBodies(view.steps, snap.steps)
    else ApprovalBodies(view.approvals, snap.approvals)
  }

  /** The events of one type all stand in the part of the batch where that type belongs. */
  lemma OnlyPart(kind: Kind, view: View, snap: Snapshot)
    ensures Only(kind, Bodies(view, snap)) == Only(kind, PartFor(kind, view, snap))
  {
    OnlyParts(kind, view, snap);
    OtherParts(kind, view, snap);
    OneOfFour(Only(kind, NewStatus(view, snap)), Only(kind, TraceBodies(NewRows(view.timelineLen, snap.timeline))),
              Only(kind, StepBodies(view.steps, snap.steps)), Only(kind, ApprovalBodies(view.approvals, snap.approvals)));
  }

  lemma OneOfFour(p: seq<Body>, q: seq<Body>, r: seq<Body>, t: seq<Body>)
    ensures q == r == t == [] ==> p + q + r + t == p
    ensures p == r == t == [] ==> p + q + r + t == q
    ensures p == q == t == [] ==> p + q + r + t == r
    ensures p == q == r == [] ==> p + q + r + t == t
  {
  }

  lemma OtherParts(kind: Kind, view: View, snap: Snapshot)
    ensures !InStatus(kind) ==> Only(kind, NewStatus(view, snap)) == []
    ensures !InTrace(kind) ==> Only(kind, TraceBodies(NewRows(view.timelineLen, snap.timeline))) == []
    ensures !kind.StepKind? ==> Only(kind, StepBodies(view.steps, snap.steps)) == []
    ensures !kind.ApprovalKind? ==> Only(kind, ApprovalBodies(view.approvals, snap.approvals)) == []
  {
    if !InStatus(kind) {
      NotInStatus(kind, view, snap);
    }
    if !InTrace(kind) {
      NotInTrace(kind, NewRows(view.timelineLen, snap.timeline));
    }
    if !kind.StepKind? {
      NotInSteps(kind, view.steps, snap.steps);
    }
    if !kind.ApprovalKind? {
      NotInApprovals(kind, view.approvals, snap.approvals);
    }
  }

  // ---------------------------------------------------------------- type by type

  /** A new status is told once, with the request for approval or the ending it brings. */
  lemma StatusEvents(view: View, snap: Snapshot)
    ensures var bodies := Bodies(view, snap); var changed := view.status != Some(snap.status);
      && Only(UpdateKind, bodies) == (if changed then [ExecutionUpdated(snap.status)] else [])
      && Only(AskKind, bodies) ==
           (if changed && snap.status.AwaitingApproval? then [ApprovalAsked(snap.governance)] else [])
      && Only(EndingKind, bodies) ==
           (if changed && Terminal(snap.status) then [ExecutionEnded(snap.status)] else [])
  {
    BatchEnding(view, snap);
    NewStatusOnly(UpdateKind, view, snap);
    NewStatusOnly(AskKind, view, snap);
  }

  lemma NewStatusOnly(kind: Kind, view: View, snap: Snapshot)
    requires kind.UpdateKind? || kind.AskKind?
    ensures Only(kind, Bodies(view, snap)) ==
      if view.status == Some(snap.status) then [] else Only(kind, StatusBodies(snap))
    ensures Only(kind, StatusBodies(snap)) ==
      if kind.UpdateKind? then [ExecutionUpdated(snap.status)]
      else if snap.status.AwaitingApproval? then [ApprovalAsked(snap.governance)] else []
  {
    OnlyPart(kind, view, snap);
    StatusOnly(kind, snap);
  }

  lemma OnlyTwo(kind: Kind, a: Body, b: Body)
    ensures Only(kind, [a, b]) == Only(kind, [a]) + Only(kind, [b])
  {
    OnlyConcat(kind, [a], [b]);
    assert [a, b] == [a] + [b];
  }

  lemma StatusOnly(kind: Kind, snap: Snapshot)
    requires kind.UpdateKind? || kind.AskKind?
    ensures Only(kind, StatusBodies(snap)) ==
      if kind.UpdateKind? then [ExecutionUpdated(snap.status)]
      else if snap.status.AwaitingApproval? then [ApprovalAsked(snap.governance)] else []
  {
    var updated, asked, ended :=
      ExecutionUpdated(snap.status), ApprovalAsked(snap.governance), ExecutionEnded(snap.status);
    StatusBodiesAre(snap, updated, asked, ended);
    OnlyOne(kind, updated);
    OnlyOne(kind, asked);
    OnlyOne(kind, ended);
    OnlyTwo(kind, updated, asked);
    OnlyTwo(kind, updated, ended);
  }

  lemma StatusBodiesAre(snap: Snapshot, updated: Body, asked: Body, ended: Body)
    requires updated == ExecutionUpdated(snap.status) && asked == ApprovalAsked(snap.governance)
    requires ended == ExecutionEnded(snap.status)
    ensures StatusBodies(snap) ==
      if snap.status.AwaitingApproval? then [updated, asked]
      else if Terminal(snap.status) then [updated, ended] else [updated]
  {
  }

  /** Each row beyond those already seen is told once, in order, and each replay among them
      has its notice. */
  lemma RowEventsOnce(view: View, snap: Snapshot)
    requires view.timelineLen <= |snap.timeline|
    ensures Only(RowKind, Bodies(view, snap)) == RowEvents(snap.timeline[view.timelineLen..])
    ensures Only(NoticeKind, Bodies(view, snap)) == NoticesOf(snap.timeline[view.timelineLen..])
  {
    var rows := NewRows(view.timelineLen, snap.timeline);
    OnlyPart(RowKind, view, snap);
    TraceRows(rows);
    BatchNotices(view, snap);
  }

  lemma {:induction false} TraceRows(rows: seq<Row>)
    ensures Only(RowKind, TraceBodies(rows)) == RowEvents(rows)
  {
    if rows != [] {
      var init, last := rows[..|rows| - 1], rows[|rows| - 1];
      TraceRows(init);
      OnlyConcat(RowKind, TraceBodies(init), RowBodies(last));
      OneRow(last);
      assert RowEvents(rows) == RowEvents(init) + [TraceEvent(last)];
    }
  }

  lemma OneRow(row: Row)
    ensures Only(RowKind, RowBodies(row)) == [TraceEvent(row)]
  {
    OnlyOne(RowKind, TraceEvent(row));
    if row.event.ReplayCreated? {
      var notice := ReplayNotice(row.event.sourceId, row.event.mode);
      OnlyConcat(RowKind, [TraceEvent(row)], [notice]);
      OnlyOne(RowKind, notice);
    } else {
      assert RowBodies(row) == [TraceEvent(row)];
    }
  }

  predicate DistinctLines(lines: seq<StepLine>) {
    forall i, j :: 0 <= i < j < |lines| ==> lines[i].id != lines[j].id
  }

  /** The steps that are new or have moved, in the order of the listing. */
  function Moved(known: map<Id, StepStatus>, lines: seq<StepLine>): seq<Body> {
    if lines == [] then []
    else
      var last := lines[|lines| - 1];
      Moved(known, lines[..|lines| - 1])
      + if last.id in known && known[last.id] == last.status then [] else [StepUpdated(last)]
  }

  lemma {:induction false} NotYetSeen(known: map<Id, StepStatus>, lines: seq<StepLine>, id: Id)
    requires forall i :: 0 <= i < |lines| ==> lines[i].id != id
    ensures id in StepsAfter(known, lines) <==> id in known
    ensures id in known ==> StepsAfter(known, lines)[id] == known[id]
  {
    if lines != [] {
      NotYetSeen(known, lines[..|lines| - 1], id);
    }
  }

  lemma {:induction false} MovedSteps(known: map<Id, StepStatus>, lines: seq<StepLine>)
    requires DistinctLines(lines)
    ensures StepBodies(known, lines) == Moved(known, lines)
  {
    if lines != [] {
      var init, last := lines[..|lines| - 1], lines[|lines| - 1];
      MovedSteps(known, init);
      NotYetSeen(known, init, last.id);
    }
  }

  lemma {:induction false} OnlyAll(kind: Kind, bodies: seq<Body>)
    requires forall i :: 0 <= i < |bodies| ==> HasKind(kind, bodies[i])
    ensures Only(kind, bodies) == bodies
  {
    if bodies != [] {
      var init, last := bodies[..|bodies| - 1], bodies[|bodies| - 1];
      OnlyAll(kind, init);
      assert bodies == init + [last];
    }
  }

  /** A step is told exactly when the poll shows it new or with another status. */
  lemma StepEventsExact(view: View, snap: Snapshot)
    requires DistinctLines(snap.steps)
    ensures Only(StepKind, Bodies(view, snap)) == Moved(view.steps, snap.steps)
  {
    OnlyPart(StepKind, view, snap);
    OnlySteps(view.steps, snap.steps);
    MovedSteps(view.steps, snap.steps);
  }

  lemma OnlySteps(known: map<Id, StepStatus>, lines: seq<StepLine>)
    ensures Only(StepKind, StepBodies(known, lines)) == StepBodies(known, lines)
  {
    var bodies := StepBodies(known, lines);
    StepBodiesOnly(known, lines);
    forall i | 0 <= i < |bodies| ensures HasKind(StepKind, bodies[i]) {
      assert bodies[i] in bodies;
    }
    OnlyAll(StepKind, bodies);
  }

  /** When there are more approvals than before, the newest is told, and only then. */
  lemma ApprovalEvents(view: View, snap: Snapshot)
    ensures Only(ApprovalKind, Bodies(view, snap)) ==
      if |snap.approvals| > view.approvals
      then [ApprovalRecorded(snap.approvals[|snap.approvals| - 1].decision, snap.approvals[|snap.approvals| - 1].approver)]
      else []
  {
    OnlyPart(ApprovalKind, view, snap);
    if |snap.approvals| > view.approvals {
      OnlyOne(ApprovalKind, ApprovalBodies(view.approvals, snap.approvals)[0]);
    }
  }

  // ---------------------------------------------------------------- the order

  function Rank(body: Body): nat {
    match body
    case ExecutionUpdated(_) => 0
    case ApprovalAsked(_) => 1
    case ExecutionEnded(_) => 2
    case TraceEvent(_) => 3
    case ReplayNotice(_, _) => 3
    case StepUpdated(_) => 4
    case ApprovalRecorded(_, _) => 5
    case Heartbeat => 6
  }

  predicate Ordered(bodies: seq<Body>, lo: nat, hi: nat) {
    && (forall b :: b in bodies ==> lo <= Rank(b) < hi)
    && (forall i, j :: 0 <= i < j < |bodies| ==> Rank(bodies[i]) <= Rank(bodies[j]))
  }

  lemma OrderedConcat(a: seq<Body>, b: seq<Body>, lo: nat, mid: nat, hi: nat)
    requires Ordered(a, lo, mid) && Ordered(b, mid, hi) && lo <= mid <= hi
    ensures Ordered(a + b, lo, hi)
  {
    forall i, j | 0 <= i < j < |a + b| ensures Rank((a + b)[i]) <= Rank((a + b)[j]) {
      if i < |a| <= j {
        assert a[i] in a && b[j - |a|] in b;
      }
    }
  }

  lemma StatusOrdered(view: View, snap: Snapshot)
    ensures Ordered(NewStatus(view, snap), 0, 3)
  {
  }

  lemma TraceOrdered(rows: seq<Row>)
    ensures Ordered(TraceBodies(rows), 3, 4)
  {
    TraceEndsNothing(rows);
    AllOfRank(TraceBodies(rows), 3);
  }

  lemma StepsOrdered(known: map<Id, StepStatus>, lines: seq<StepLine>)
    ensures Ordered(StepBodies(known, lines), 4, 5)
  {
    StepBodiesOnly(known, lines);
    AllOfRank(StepBodies(known, lines), 4);
  }

  lemma AllOfRank(bodies: seq<Body>, rank: nat)
    requires forall b :: b in bodies ==> Rank(b) == rank
    ensures Ordered(bodies, rank, rank + 1)
  {
    forall i, j | 0 <= i < j < |bodies| ensures Rank(bodies[i]) <= Rank(bodies[j]) {
      assert bodies[i] in bodies && bodies[j] in bodies;
    }
  }

  lemma ApprovalsOrdered(seen: nat, approvals: seq<Approval>)
    ensures Ordered(ApprovalBodies(seen, approvals), 5, 6)
  {
    AllOfRank(ApprovalBodies(seen, approvals), 5);
  }

  /** Status first, with what it brings; then rows, steps, and the approval last. */
  lemma BatchOrder(view: View, snap: Snapshot)
    ensures Ordered(Bodies(view, snap), 0, 6)
  {
    var status, trace := NewStatus(view, snap), TraceBodies(NewRows(view.timelineLen, snap.timeline));
    var steps, approvals := StepBodies(view.steps, snap.steps), ApprovalBodies(view.approvals, snap.approvals);
    StatusOrdered(view, snap);
    TraceOrdered(NewRows(view.timelineLen, snap.timeline));
    StepsOrdered(view.steps, snap.steps);
    ApprovalsOrdered(view.approvals, snap.approvals);
    OrderedConcat(status, trace, 0, 3, 4);
    OrderedConcat(status + trace, steps, 0, 4, 5);
    OrderedConcat(status + trace + steps, approvals, 0, 5, 6);
  }

  // ---------------------------------------------------------------- over a whole stream

  /** What one poll asks, the poll before having shown `before`. */
  function NewAsks(before: Option<ExecutionStatus>, snap: Snapshot): seq<Body> {
    if snap.status.AwaitingApproval? && before != Some(AwaitingApproval) then [ApprovalAsked(snap.governance)] else []
  }

  /** What one poll records, the poll before having shown `before` approvals. */
  function NewRecords(before: nat, snap: Snapshot): seq<Body> {
    if |snap.approvals| > before
    then [ApprovalRecorded(snap.approvals[|snap.approvals| - 1].decision, snap.approvals[|snap.approvals| - 1].approver)]
    else []
  }

  function LastStatus(snaps: seq<Snapshot>): Option<ExecutionStatus> {
    if snaps == [] then None else Some(snaps[|snaps| - 1].status)
  }

  function LastCount(snaps: seq<Snapshot>): nat {
    if snaps == [] then 0 else |snaps[|snaps| - 1].approvals|
  }

  /** The requests for approval that successive polls call for. */
  function AskedIn(snaps: seq<Snapshot>): seq<Body> {
    if snaps == [] then []
    else
      var init := snaps[..|snaps| - 1];
      AskedIn(init) + NewAsks(LastStatus(init), snaps[|snaps| - 1])
  }

  /** The approvals that successive polls find to be new. */
  function RecordedIn(snaps: seq<Snapshot>): seq<Body> {
    if snaps == [] then []
    else
      var init := snaps[..|snaps| - 1];
      RecordedIn(init) + NewRecords(LastCount(init), snaps[|snaps| - 1])
  }

  lemma {:induction false} ViewOfLast(snaps: seq<Snapshot>)
    requires AppendOnly(snaps)
    ensures ViewAfter(snaps).status == LastStatus(snaps)
    ensures ViewAfter(snaps).approvals == LastCount(snaps)
    decreases |snaps|
  {
    if snaps != [] {
      AppendOnlyInit(snaps);
      ViewOfLast(snaps[..|snaps| - 1]);
    }
  }

  lemma AskedMore(init: seq<Snapshot>, last: Snapshot)
    ensures AskedIn(init + [last]) == AskedIn(init) + NewAsks(LastStatus(init), last)
  {
    assert (init + [last])[..|init|] == init;
  }

  lemma RecordedMore(init: seq<Snapshot>, last: Snapshot)
    ensures RecordedIn(init + [last]) == RecordedIn(init) + NewRecords(LastCount(init), last)
  {
    assert (init + [last])[..|init|] == init;
  }

  lemma {:induction false} OnlySnoc(kind: Kind, init: seq<Snapshot>, last: Snapshot)
    ensures Only(kind, AllBodies(init + [last])) ==
      Only(kind, AllBodies(init)) + Only(kind, Bodies(ViewAfter(init), last))
  {
    assert (init + [last])[..|init|] == init;
    OnlyConcat(kind, AllBodies(init), Bodies(ViewAfter(init), last));
  }

  /** What one more poll tells of approvals. */
  lemma {:induction false} MoreTold(init: seq<Snapshot>, last: Snapshot)
    requires AppendOnly(init)
    ensures Only(AskKind, AllBodies(init + [last])) == Only(AskKind, AllBodies(init)) + NewAsks(LastStatus(init), last)
    ensures Only(ApprovalKind, AllBodies(init + [last])) ==
      Only(ApprovalKind, AllBodies(init)) + NewRecords(LastCount(init), last)
  {
    ViewOfLast(init);
    OnlySnoc(AskKind, init, last);
    OnlySnoc(ApprovalKind, init, last);
    StatusEvents(ViewAfter(init), last);
    ApprovalEvents(ViewAfter(init), last);
  }

  /** Over an append-only history, approval is asked for once each time the execution is
      first seen to wait for it, and each growth of the approvals is told once. */
  lemma {:induction false} ApprovalsTold(snaps: seq<Snapshot>)
    requires AppendOnly(snaps)
    ensures Only(AskKind, AllBodies(snaps)) == AskedIn(snaps)
    ensures Only(ApprovalKind, AllBodies(snaps)) == RecordedIn(snaps)
  {
    if snaps != [] {
      var init, last := snaps[..|snaps| - 1], snaps[|snaps| - 1];
      assert snaps == init + [last];
      AppendOnlyInit(snaps);
      ApprovalsTold(init);
      MoreTold(init, last);
      AskedMore(init, last);
      RecordedMore(init, last);
    }
  }
}
