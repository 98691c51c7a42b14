/** The status view of one run, read from the backend's describe response
    (its close status, close time and history length), not from the event
    log. */
module Status {
  import opened Wrappers
  import opened Clock
  import opened Backend
  import Listing

  /** One pending activity in the status view. */
  datatype PendingView = PendingView(
    activityId: string,
    activityType: string,
    state: string,
    attempt: Int32,
    scheduledTime: Option<Instant>,
    lastStartedTime: Option<Instant>)

  /** The status view; `pendingActivities` is None when the key is left out. */
  datatype StatusView = StatusView(
    workflowId: string,
    runId: string,
    workflowType: string,
    startTime: Instant,
    closeTime: Option<Instant>,
    status: string,
    executionTime: Duration,
    historyLength: Option<Int64>,
    pendingActivities: Option<seq<PendingView>>)

  /** A pending activity's entry: the type name or "", the state's name, and
      each timestamp key exactly when the backend gave that timestamp. */
  function ProjectPending(a: PendingActivity): (v: PendingView)
    ensures v.activityId == a.activityId && v.attempt == a.attempt
    ensures v.activityType == TypeName(a.activityType)
    ensures v.state == a.state.Name()
    ensures v.scheduledTime == a.scheduledTimestamp && v.lastStartedTime == a.lastStartedTimestamp
  {
    PendingView(a.activityId, TypeName(a.activityType), a.state.Name(), a.attempt,
                a.scheduledTimestamp, a.lastStartedTimestamp)
  }

  /** The status view of a describe response at time `now`. RUNNING exactly
      when there is no close status; the elapsed time runs to the close time
      when there is one and to `now` otherwise; pending activities appear
      only when there are some, one entry each, in order. */
  function ProjectStatus(resp: DescribeResponse, now: Instant): (v: StatusView)
    ensures v.workflowId == resp.info.execution.workflowId && v.runId == resp.info.execution.runId
    ensures v.workflowType == TypeName(resp.info.workflowType) && v.startTime == resp.info.startTime
    ensures v.status == Listing.Running <==> resp.info.closeStatus.None?
    ensures resp.info.closeStatus.Some? ==> v.status == resp.info.closeStatus.value.Name()
    ensures v.closeTime == resp.info.closeTime
    ensures resp.info.closeTime.Some? ==> v.executionTime == Sub(resp.info.closeTime.value, resp.info.startTime)
    ensures resp.info.closeTime.None? ==> v.executionTime == Sub(now, resp.info.startTime)
    ensures v.historyLength == resp.info.historyLength
    ensures v.pendingActivities.Some? <==> |resp.pendingActivities| > 0
    ensures v.pendingActivities.Some? ==>
      && |v.pendingActivities.value| == |resp.pendingActivities|
      && forall i :: 0 <= i < |resp.pendingActivities| ==> v.pendingActivities.value[i] == ProjectPending(resp.pendingActivities[i])
  {
    var info := resp.info;
    var elapsed := match info.closeTime
      case Some(ct) => Sub(ct, info.startTime)
      case None => Sub(now, info.startTime);
    var status := match info.closeStatus
      case Some(cs) => cs.Name()
      case None => Listing.Running;
    var pending := resp.pendingActivities;
    var activities := if |pending| > 0 then
        Some(seq(|pending|, i requires 0 <= i < |pending| => ProjectPending(pending[i])))
      else None;
    StatusView(info.execution.workflowId, info.execution.runId, TypeName(info.workflowType),
               info.startTime, info.closeTime, status, elapsed, info.historyLength, activities)
  }

  /** Polling a run with no close time never shows its elapsed time
      shrinking, and shows it growing while no clamping happens; once the
      close time is known the view no longer depends on `now`. */
  lemma ExecutionTimeOverPolls(resp: DescribeResponse, now1: Instant, now2: Instant)
    requires now1 <= now2
    ensures resp.info.closeTime.None? ==>
      ProjectStatus(resp, now1).executionTime <= ProjectStatus(resp, now2).executionTime
    ensures (&& resp.info.closeTime.None? && now1 < now2
             && MinInt64 <= now1 - resp.info.startTime && now2 - resp.info.startTime <= MaxInt64) ==>
      ProjectStatus(resp, now1).executionTime < ProjectStatus(resp, now2).executionTime
    ensures resp.info.closeTime.Some? ==> ProjectStatus(resp, now1) == ProjectStatus(resp, now2)
  {
    SubMonotone(now1, now2, resp.info.startTime);
  }

  /** The list and the status view describe a run alike: a closed run with a
      close status and time gets the same status, close time and elapsed
      time in both; an open run with no close fields is RUNNING in both,
      with the same elapsed time at the same `now`. */
  lemma ListAgreesWithStatus(info: ExecutionInfo, pending: seq<PendingActivity>, now: Instant)
    ensures info.closeStatus.Some? && info.closeTime.Some? ==>
      var l := Listing.ProjectClosed(info);
      var s := ProjectStatus(DescribeResponse(info, pending), now);
      l.status == s.status && l.closeTime == s.closeTime && l.executionTime == s.executionTime
    ensures info.closeStatus.None? && info.closeTime.None? ==>
      var l := Listing.ProjectOpen(info, now);
      var s := ProjectStatus(DescribeResponse(info, pending), now);
      l.status == s.status && l.closeTime == s.closeTime && l.executionTime == s.executionTime
  {
  }

  /** Where they differ: a closed run the backend reports without a close
      status reads COMPLETED in the list but RUNNING in the status view. */
  lemma ListAndStatusDivergeWithoutCloseStatus(info: ExecutionInfo, pending: seq<PendingActivity>, now: Instant)
    requires info.closeStatus.None?
    ensures Listing.ProjectClosed(info).status == "COMPLETED"
    ensures ProjectStatus(DescribeResponse(info, pending), now).status == "RUNNING"
  {
  }
}
