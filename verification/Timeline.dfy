/** Readings of a stored timeline: the status it implies, the chain of status edges it
    records, and the start/completion rows of one step. */
module Timeline {
  import opened StateMachine
  import opened Records

  datatype Mark = Began | Ended

  /** The status an observer gets by folding the status rows from creation on. */
  function StatusOf(tl: seq<Row>): ExecutionStatus {
    if tl == [] then Created
    else if tl[|tl| - 1].event.StatusRow? then tl[|tl| - 1].event.status
    else StatusOf(tl[..|tl| - 1])
  }

  /** Every status row continues the status before it along an allowed edge. */
  predicate ChainOk(tl: seq<Row>) {
    tl == [] ||
    (var init, last := tl[..|tl| - 1], tl[|tl| - 1].event;
     ChainOk(init) && (last.StatusRow? ==> ExecutionEdge(StatusOf(init), last.status)))
  }

  function MarkOf(event: Event, sid: Id): seq<Mark> {
    if event == StepStarted(sid) then [Began]
    else if event == StepCompleted(sid) then [Ended]
    else []
  }

  /** The start and completion rows of step `sid`, in order. */
  function Marks(tl: seq<Row>, sid: Id): seq<Mark> {
    if tl == [] then []
    else
      Marks(tl[..|tl| - 1], sid) + MarkOf(tl[|tl| - 1].event, sid)
  }

  /** The ids of all started steps, in order. */
  function StartedSteps(tl: seq<Row>): seq<Id> {
    if tl == [] then []
    else
      var init, last := tl[..|tl| - 1], tl[|tl| - 1].event;
      if last.StepStarted? then StartedSteps(init) + [last.stepId] else StartedSteps(init)
  }

  /** Appending one row, for each of the readings at once. */
  lemma Snoc(tl: seq<Row>, r: Row)
    ensures StatusOf(tl + [r]) == if r.event.StatusRow? then r.event.status else StatusOf(tl)
    ensures ChainOk(tl + [r]) <==>
      ChainOk(tl) && (r.event.StatusRow? ==> ExecutionEdge(StatusOf(tl), r.event.status))
    ensures StartedSteps(tl + [r]) ==
      StartedSteps(tl) + if r.event.StepStarted? then [r.event.stepId] else []
    ensures forall sid :: Marks(tl + [r], sid) == Marks(tl, sid) + MarkOf(r.event, sid)
  {
    assert (tl + [r])[..|tl|] == tl;
  }

  /** Rows written at creation imply nothing but creation. */
  lemma {:induction false} QuietRows(tl: seq<Row>)
    requires forall r :: r in tl ==> r.event.ReplayCreated?
    ensures StatusOf(tl) == Created && ChainOk(tl) && StartedSteps(tl) == []
    ensures forall sid :: Marks(tl, sid) == []
  {
    if tl != [] {
      QuietRows(tl[..|tl| - 1]);
    }
  }

  /** The statuses a timeline goes through, from creation on. */
  function Statuses(tl: seq<Row>): (p: seq<ExecutionStatus>)
    ensures p != [] && p[0] == Created && p[|p| - 1] == StatusOf(tl)
    ensures ChainOk(tl) ==> Path(p)
  {
    if tl == [] then [Created]
    else if tl[|tl| - 1].event.StatusRow? then Statuses(tl[..|tl| - 1]) + [tl[|tl| - 1].event.status]
    else Statuses(tl[..|tl| - 1])
  }
}
