/** The execution list: the open and closed runs of the trailing window,
    each projected to a summary view, open ones first. */
module Listing {
  import opened Wrappers
  import opened Clock
  import opened Backend

  const Running: string := "RUNNING"
  const DefaultClosedStatus: string := "COMPLETED"

  /** One run in the list response. */
  datatype WorkflowView = WorkflowView(
    workflowId: string,
    runId: string,
    workflowType: string,
    startTime: Instant,
    closeTime: Option<Instant>,
    status: string,
    executionTime: Duration)

  /** The view keeps the run's ids, type name and start time. */
  predicate SameRun(v: WorkflowView, info: ExecutionInfo) {
    && v.workflowId == info.execution.workflowId
    && v.runId == info.execution.runId
    && v.workflowType == TypeName(info.workflowType)
    && v.startTime == info.startTime
  }

  /** An open run: RUNNING, no close time (whatever close fields the record
      carries), and the time elapsed from its start to `now`. */
  function ProjectOpen(info: ExecutionInfo, now: Instant): (v: WorkflowView)
    ensures SameRun(v, info)
    ensures v.status == Running && v.closeTime.None?
    ensures v.executionTime == Sub(now, info.startTime)
  {
    WorkflowView(info.execution.workflowId, info.execution.runId, TypeName(info.workflowType),
                 info.startTime, None, Running, Sub(now, info.startTime))
  }

  /** A closed run: its close status name (COMPLETED when the backend gave
      none), its close time, and the time from start to close, or zero when
      the close time is missing. */
  function ProjectClosed(info: ExecutionInfo): (v: WorkflowView)
    ensures SameRun(v, info)
    ensures v.closeTime == info.closeTime
    ensures v.status != Running
    ensures info.closeStatus.Some? ==> v.status == info.closeStatus.value.Name()
    ensures info.closeStatus.None? ==> v.status == DefaultClosedStatus
    ensures info.closeTime.None? ==> v.executionTime == 0
    ensures info.closeTime.Some? ==> v.executionTime == Sub(info.closeTime.value, info.startTime)
  {
    var status := if info.closeStatus.Some? then info.closeStatus.value.Name() else DefaultClosedStatus;
    var elapsed := if info.closeTime.Some? then Sub(info.closeTime.value, info.startTime) else 0;
    WorkflowView(info.execution.workflowId, info.execution.runId, TypeName(info.workflowType),
                 info.startTime, info.closeTime, status, elapsed)
  }

  /** The list response. */
  datatype ListView = ListView(workflows: seq<WorkflowView>, count: nat)

  /** Which backend query failed; its error ends the request. */
  datatype ListError = OpenQueryFailed(error: string) | ClosedQueryFailed(error: string)

  /** The list response from the two backend queries: all open runs, then
      all closed runs, in the backend's order. An error from either query
      gives no list at all, and the open query's error is the one reported
      when both fail. */
  function ListWorkflows(open: Result<seq<ExecutionInfo>, string>, closed: Result<seq<ExecutionInfo>, string>, now: Instant): (r: Result<ListView, ListError>)
    ensures r.Success? <==> open.Success? && closed.Success?
    ensures open.Failure? ==> r == Failure(OpenQueryFailed(open.error))
    ensures open.Success? && closed.Failure? ==> r == Failure(ClosedQueryFailed(closed.error))
    ensures r.Success? ==>
      && |r.value.workflows| == r.value.count == |open.value| + |closed.value|
      && (forall i :: 0 <= i < |open.value| ==> r.value.workflows[i] == ProjectOpen(open.value[i], now))
      && (forall j :: 0 <= j < |closed.value| ==> r.value.workflows[|open.value| + j] == ProjectClosed(closed.value[j]))
    ensures r.Success? ==> forall i :: 0 <= i < r.value.count ==>
      (r.value.workflows[i].status == Running <==> i < |open.value|)
  {
    match open
    case Failure(e) => Failure(OpenQueryFailed(e))
    case Success(o) =>
      match closed
      case Failure(e) => Failure(ClosedQueryFailed(e))
      case Success(c) =>
        var ws := seq(|o|, i requires 0 <= i < |o| => ProjectOpen(o[i], now))
                + seq(|c|, j requires 0 <= j < |c| => ProjectClosed(c[j]));
        Success(ListView(ws, |ws|))
  }
}
