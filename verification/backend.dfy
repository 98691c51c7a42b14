/** The records the workflow backend hands to the facade: execution
    summaries, describe responses with their pending activities, and history
    events. Only the fields the facade reads are kept; a field the Go code
    dereferences without a nil check is required here, one it tests for nil
    is an `Option`. */
module Backend {
  import opened Wrappers
  import opened Clock

  /** How a run ended (the backend's WorkflowExecutionCloseStatus). */
  datatype CloseStatus = Completed | Failed | Canceled | Terminated | ContinuedAsNew | TimedOut
  {
    /** The enum's String() rendering. */
    function Name(): (s: string)
      ensures s != "RUNNING" && s != ""
    {
      match this
      case Completed => "COMPLETED"
      case Failed => "FAILED"
      case Canceled => "CANCELED"
      case Terminated => "TERMINATED"
      case ContinuedAsNew => "CONTINUED_AS_NEW"
      case TimedOut => "TIMED_OUT"
    }
  }

  /** Distinct close statuses render to distinct names. */
  lemma CloseStatusNameInjective(a: CloseStatus, b: CloseStatus)
    ensures a.Name() == b.Name() <==> a == b
  {
  }

  /** State of an activity the backend still tracks (PendingActivityState). */
  datatype PendingActivityState = Scheduled | Started | CancelRequested
  {
    /** The enum's String() rendering. */
    function Name(): (s: string)
      ensures s != ""
    {
      match this
      case Scheduled => "SCHEDULED"
      case Started => "STARTED"
      case CancelRequested => "CANCEL_REQUESTED"
    }
  }

  /** Distinct pending states render to distinct names. */
  lemma PendingStateNameInjective(a: PendingActivityState, b: PendingActivityState)
    ensures a.Name() == b.Name() <==> a == b
  {
  }

  /** A workflow or activity type reference; its name may itself be nil. */
  datatype TypeRef = TypeRef(name: Option<string>)

  /** The name of an optional type reference, or "" when the reference or
      its name is missing. */
  function TypeName(t: Option<TypeRef>): (n: string)
    ensures t.Some? && t.value.name.Some? ==> n == t.value.name.value
    ensures t.None? || t.value.name.None? ==> n == ""
  {
    match t
    case Some(TypeRef(Some(name))) => name
    case _ => ""
  }

  /** Identifies one run: (workflowId, runId). */
  datatype ExecutionRef = ExecutionRef(workflowId: string, runId: string)

  /** One execution summary, as returned by the list queries and inside a
      describe response (WorkflowExecutionInfo). */
  datatype ExecutionInfo = ExecutionInfo(
    execution: ExecutionRef,
    workflowType: Option<TypeRef>,
    startTime: Instant,
    closeTime: Option<Instant>,
    closeStatus: Option<CloseStatus>,
    historyLength: Option<Int64>)

  /** An activity the backend has scheduled and not yet closed. */
  datatype PendingActivity = PendingActivity(
    activityId: string,
    activityType: Option<TypeRef>,
    state: PendingActivityState,
    attempt: Int32,
    scheduledTimestamp: Option<Instant>,
    lastStartedTimestamp: Option<Instant>)

  /** The backend's answer to a describe request. */
  datatype DescribeResponse = DescribeResponse(
    info: ExecutionInfo,
    pendingActivities: seq<PendingActivity>)

  /** Attributes of an ActivityTaskScheduled event that the facade reads. */
  datatype ScheduledAttributes = ScheduledAttributes(activityType: Option<TypeRef>)

  /** Attributes of an ActivityTaskFailed or WorkflowExecutionFailed event
      that the facade reads. */
  datatype FailureAttributes = FailureAttributes(reason: Option<string>)

  /** One history event. `eventType` is the event type's String() name; each
      of the per-type attribute groups the facade inspects may be nil. */
  datatype HistoryEvent = HistoryEvent(
    eventId: Int64,
    eventType: string,
    timestamp: Instant,
    hasWorkflowStartedAttributes: bool,
    activityScheduled: Option<ScheduledAttributes>,
    hasActivityCompletedAttributes: bool,
    activityFailed: Option<FailureAttributes>,
    workflowFailed: Option<FailureAttributes>)

  /** One call of the history iterator's Next: an event, or the error that
      fetching it produced. The iterator is a finite, forward-only sequence
      of these steps. */
  datatype IteratorStep = Item(event: HistoryEvent) | ItemError(error: string)
}
