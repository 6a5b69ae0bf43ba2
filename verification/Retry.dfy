/** The two bounded retry loops: tool calls and model calls.  What a handler or a provider
    does on each attempt is an arbitrary sequence of outcomes. */
module Retry {
  import opened Records

  /** Sum of the first `k` numbers. */
  function Triangle(k: nat): nat {
    if k == 0 then 0 else Triangle(k - 1) + k
  }

  lemma {:induction false} TriangleIs(k: nat)
    ensures 2 * Triangle(k) == k * (k + 1)
  {
    if k > 0 {
      TriangleIs(k - 1);
    }
  }

  lemma TriangleStep(base: nat, k: nat)
    ensures base * Triangle(k + 1) == base * Triangle(k) + base * (k + 1)
  {
    assert Triangle(k + 1) == Triangle(k) + (k + 1);
  }

  // ---------------------------------------------------------------- tools

  datatype Failure =
    | TransientTool | TimedOut | ConnectionLost | UrlFailure | OsFailure(errno: int) | OtherFailure

  datatype Attempt = Answered | NotADict | InvalidInput | Raised(failure: Failure)

  predicate IsTransient(f: Failure): (r: bool)
    ensures r <==> f in {TransientTool, TimedOut, ConnectionLost, UrlFailure, OsFailure(110), OsFailure(111)}
  {
    || f.TransientTool? || f.TimedOut? || f.ConnectionLost? || f.UrlFailure?
    || (f.OsFailure? && (f.errno == 110 || f.errno == 111))
  }

  datatype SideEffect = ReadOnly | StateChanging

  datatype Tool = Tool(sideEffect: SideEffect, maxRetries: nat, backoff: nat)

  /** The audit row of a call, with the retry count where it records one. */
  datatype CallRow =
    | RejectedByPolicy
    | UnknownTool
    | CancelledRow(retryCount: nat)
    | InvalidRequest
    | Success(retryCount: nat)
    | ValidationFailed(retryCount: nat)
    | TimeoutRow(retryCount: nat)
    | ExecutionError(retryCount: nat)

  /** How each attempt would go, and whether a cancellation is seen before it. */
  datatype Course = Course(attempt: nat -> Attempt, cancelled: nat -> bool)

  predicate RetriedAt(c: Course, i: nat) {
    c.attempt(i).Raised? && IsTransient(c.attempt(i).failure)
  }

  /** Why a call ended after `calls` invocations with `row`. */
  predicate EndedBy(c: Course, maxRetries: nat, calls: nat, row: CallRow) {
    match row
    case CancelledRow(n) => n == calls && calls <= maxRetries && c.cancelled(calls) && (calls > 0 ==> RetriedAt(c, calls - 1))
    case Success(n) => calls > 0 && n == calls - 1 && c.attempt(n).Answered?
    case ValidationFailed(n) => calls > 0 && n == calls - 1 && (c.attempt(n).InvalidInput? || c.attempt(n).NotADict?)
    case TimeoutRow(n) => n == maxRetries && calls == n + 1 && c.attempt(n) == Raised(TimedOut)
    case ExecutionError(n) =>
      && n == maxRetries && 0 < calls <= n + 1
      && c.attempt(calls - 1).Raised? && !c.attempt(calls - 1).failure.TimedOut?
      && (RetriedAt(c, calls - 1) ==> calls == n + 1)
    case _ => false
  }

  /** The attempt loop: each invocation but the last failed transiently, and each pause is
      longer than the one before by the backoff. */
  method Attempts(c: Course, tool: Tool) returns (row: CallRow, calls: nat, slept: nat)
    ensures calls <= tool.maxRetries + 1
    ensures forall i :: 0 <= i < calls - 1 ==> RetriedAt(c, i)
    ensures forall i :: 0 <= i < calls ==> !c.cancelled(i)
    ensures EndedBy(c, tool.maxRetries, calls, row)
    ensures 2 * slept == tool.backoff * (if row.CancelledRow? then calls * (calls + 1) else (calls - 1) * calls)
    ensures var at := if row.CancelledRow? then calls else calls - 1;
      && 0 <= at <= tool.maxRetries
      && row == if c.cancelled(at) then CancelledRow(at)
                else match c.attempt(at)
                     case Answered => Success(at)
                     case NotADict => ValidationFailed(at)
                     case InvalidInput => ValidationFailed(at)
                     case Raised(failure) =>
                       if failure.TimedOut? then TimeoutRow(tool.maxRetries) else ExecutionError(tool.maxRetries)
    ensures row.ExecutionError? ==>
      (row.retryCount == calls - 1 <==> forall i :: 0 <= i < tool.maxRetries ==> RetriedAt(c, i))
  {
    calls, slept := 0, 0;
    var last := OtherFailure;
    for attempt := 0 to tool.maxRetries + 1
      invariant calls == attempt <= tool.maxRetries && slept == tool.backoff * Triangle(attempt)
      invariant forall i :: 0 <= i < attempt ==> RetriedAt(c, i) && !c.cancelled(i)
    {
      if c.cancelled(attempt) {
        Pauses(tool.backoff, attempt);
        return CancelledRow(attempt), calls, slept;
      }
      calls := calls + 1;
      Pauses(tool.backoff, attempt);
      match c.attempt(attempt) {
        case Answered => return Success(attempt), calls, slept;
        case NotADict => return ValidationFailed(attempt), calls, slept;
        case InvalidInput => return ValidationFailed(attempt), calls, slept;
        case Raised(failure) =>
          last := failure;
          if !IsTransient(failure) || attempt + 1 >= tool.maxRetries + 1 {
            break;
          }
          TriangleStep(tool.backoff, attempt);
          slept := slept + tool.backoff * (attempt + 1);
      }
    }
    row := if last.TimedOut? then TimeoutRow(tool.maxRetries) else ExecutionError(tool.maxRetries);
    if row.ExecutionError? {
      ErrorCountIff(c, tool.maxRetries, calls, row);
    }
  }

  class ToolRegistry {
    var tools: map<string, Tool>

    constructor ()
      ensures tools == map[]
    {
      tools := map[];
    }

    method Register(name: string, tool: Tool)
      modifies this
      ensures tools == old(tools)[name := tool]
    {
      tools := tools[name := tool];
    }
  }

  const INCIDENT := "incident_system_tool"
  const INCIDENT_UPDATE := "incident_system_update_tool"
  const METRICS := "metrics_lookup_tool"
  const COST := "cloud_cost_tool"
  const METADATA := "incident_metadata_tool"
  const SIGNAL := "signal_lookup_tool"

  /** The default tools: those that change state are never retried. */
  method BuildDefaultRegistry() returns (reg: ToolRegistry)
    ensures fresh(reg) && DefaultTools(reg.tools)
  {
    reg := new ToolRegistry();
    reg.Register(INCIDENT, Tool(ReadOnly, 2, 100));
    reg.Register(INCIDENT_UPDATE, Tool(StateChanging, 0, 0));
    reg.Register(METRICS, Tool(ReadOnly, 2, 100));
    reg.Register(COST, Tool(ReadOnly, 2, 100));
    reg.Register(METADATA, Tool(ReadOnly, 2, 100));
    reg.Register(SIGNAL, Tool(ReadOnly, 2, 100));
  }

  /** Five tools that only read, with two retries, and the one that changes state, with none. */
  predicate DefaultTools(tools: map<string, Tool>) {
    && tools.Keys == {"incident_system_tool", "incident_system_update_tool", "metrics_lookup_tool",
                      "cloud_cost_tool", "incident_metadata_tool", "signal_lookup_tool"}
    && tools["incident_system_update_tool"] == Tool(StateChanging, 0, 0)
    && forall name :: name in tools && name != "incident_system_update_tool" ==> tools[name] == Tool(ReadOnly, 2, 100)
  }

  /** A request, as far as the executor looks at it; `cancelledFirst` is the check made
      before the attempts. */
  datatype Request = Request(toolName: string, policyDenied: bool, hasId: bool, cancelledFirst: bool)

  /** Denied, unknown, cancelled and malformed requests never reach a handler. */
  predicate Reaches(reg: map<string, Tool>, req: Request) {
    !req.policyDenied && req.toolName in reg && !req.cancelledFirst && req.hasId
  }

  method Execute(reg: ToolRegistry, req: Request, c: Course) returns (row: CallRow, calls: nat)
    ensures !Reaches(reg.tools, req) ==> calls == 0
    ensures row.RejectedByPolicy? <==> req.policyDenied
    ensures row.UnknownTool? <==> !req.policyDenied && req.toolName !in reg.tools
    ensures !req.policyDenied && req.toolName in reg.tools && req.cancelledFirst ==> row == CancelledRow(0)
    ensures !req.policyDenied && req.toolName in reg.tools && !req.cancelledFirst && !req.hasId ==>
      row == InvalidRequest
    ensures Reaches(reg.tools, req) ==>
      var max := reg.tools[req.toolName].maxRetries;
      calls <= max + 1 && EndedBy(c, max, calls, row) && forall i :: 0 <= i < calls - 1 ==> RetriedAt(c, i)
    ensures DefaultTools(reg.tools) && req.toolName in reg.tools && reg.tools[req.toolName].sideEffect.StateChanging? ==>
      calls <= 1
  {
    if req.policyDenied {
      return RejectedByPolicy, 0;
    }
    if req.toolName !in reg.tools {
      return UnknownTool, 0;
    }
    var tool := reg.tools[req.toolName];
    if req.cancelledFirst {
      return CancelledRow(0), 0;
    }
    if !req.hasId {
      return InvalidRequest, 0;
    }
    var slept;
    row, calls, slept := Attempts(c, tool);
  }

  /** An execution error records the number of retries made exactly when every attempt that
      could be followed by a retry failed transiently; otherwise the loop stopped earlier,
      and the row still records the maximum. */
  lemma ErrorCountIff(c: Course, maxRetries: nat, calls: nat, row: CallRow)
    requires EndedBy(c, maxRetries, calls, row) && row.ExecutionError?
    requires forall i :: 0 <= i < calls - 1 ==> RetriedAt(c, i)
    ensures row.retryCount == calls - 1 <==> forall i :: 0 <= i < maxRetries ==> RetriedAt(c, i)
  {
    if calls <= maxRetries {
      assert !RetriedAt(c, calls - 1);
    }
  }

  /** A handler whose first attempt fails for good. */
  function FailsForGood(): Course {
    Course(_ => Raised(OtherFailure), _ => false)
  }

  /** Whatever the limit above zero, its one invocation is recorded as that many retries. */
  lemma ErrorCountWrong(maxRetries: nat, calls: nat, row: CallRow)
    requires maxRetries > 0 && EndedBy(FailsForGood(), maxRetries, calls, row)
    requires forall i :: 0 <= i < calls - 1 ==> RetriedAt(FailsForGood(), i)
    ensures calls == 1 && row == ExecutionError(maxRetries) && row.retryCount != calls - 1
  {
    assert !RetriedAt(FailsForGood(), 0);
  }

  // ---------------------------------------------------------------- models

  datatype Reply = Reply | SchemaInvalid | TransientModel | OtherError

  datatype ModelEnd = Replied(retryCount: nat) | GaveUp(last: Reply)

  function ModelAttempts(maxRetries: int): nat {
    if maxRetries + 1 < 1 then 1 else maxRetries + 1
  }

  /** The first `k` attempts all failed transiently. */
  predicate AllTransient(replies: nat -> Reply, k: nat) {
    forall i :: 0 <= i < k ==> replies(i).TransientModel?
  }

  /** A model call succeeds exactly when some attempt within the limit does and all before
      it fail transiently; then it reports that many retries, after that many pauses. */
  method CallWithRetries(maxRetries: int, backoff: nat, replies: nat -> Reply)
    returns (end: ModelEnd, calls: nat, slept: nat)
    ensures calls <= ModelAttempts(maxRetries) && calls > 0 && AllTransient(replies, calls - 1)
    ensures end.Replied? <==>
      exists k: nat :: k < ModelAttempts(maxRetries) && AllTransient(replies, k) && replies(k).Reply?
    ensures end.Replied? ==> end.retryCount == calls - 1 && replies(calls - 1).Reply?
    ensures end.GaveUp? ==>
      && end.last == replies(calls - 1) && !end.last.Reply?
      && (end.last.TransientModel? ==> calls == ModelAttempts(maxRetries))
    ensures 2 * slept == backoff * ((calls - 1) * calls)
  {
    var maxAttempts := if maxRetries + 1 < 1 then 1 else maxRetries + 1;
    calls, slept := 0, 0;
    var last := OtherError;
    for attempt := 0 to maxAttempts
      invariant calls == attempt < maxAttempts && AllTransient(replies, attempt)
      invariant slept == backoff * Triangle(attempt)
    {
      calls := calls + 1;
      Pauses(backoff, attempt);
      match replies(attempt) {
        case Reply => return Replied(attempt), calls, slept;
        case SchemaInvalid =>
          NoLaterReply(maxRetries, replies, attempt);
          return GaveUp(SchemaInvalid), calls, slept;
        case TransientModel =>
          last := TransientModel;
          if attempt + 1 >= maxAttempts {
            break;
          }
          TriangleStep(backoff, attempt);
          slept := slept + backoff * (attempt + 1);
        case OtherError =>
          NoLaterReply(maxRetries, replies, attempt);
          return GaveUp(OtherError), calls, slept;
      }
    }
    NoLaterReply(maxRetries, replies, calls - 1);
    end := GaveUp(last);
  }

  lemma Pauses(backoff: nat, k: nat)
    ensures 2 * (backoff * Triangle(k)) == backoff * (k * (k + 1))
  {
    TriangleIs(k);
  }

  lemma NoLaterReply(maxRetries: int, replies: nat -> Reply, at: nat)
    requires AllTransient(replies, at) && !replies(at).Reply?
    requires replies(at).TransientModel? ==> at + 1 == ModelAttempts(maxRetries)
    ensures !exists k: nat :: k < ModelAttempts(maxRetries) && AllTransient(replies, k) && replies(k).Reply?
  {
    forall k: nat | k < ModelAttempts(maxRetries) && replies(k).Reply? ensures !AllTransient(replies, k) {
      if k > at {
        assert AllTransient(replies, k) ==> replies(at).TransientModel?;
      }
    }
  }
}
