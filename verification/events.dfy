/** The history-event timeline: each backend event becomes a display record
    whose details text follows a fixed template per recognised event type. */
module Events {
  import opened Wrappers
  import opened Clock
  import opened Backend

  const WorkflowExecutionStarted: string := "WorkflowExecutionStarted"
  const ActivityTaskScheduled: string := "ActivityTaskScheduled"
  const ActivityTaskStarted: string := "ActivityTaskStarted"
  const ActivityTaskCompleted: string := "ActivityTaskCompleted"
  const ActivityTaskFailed: string := "ActivityTaskFailed"
  const WorkflowExecutionCompleted: string := "WorkflowExecutionCompleted"
  const WorkflowExecutionFailed: string := "WorkflowExecutionFailed"

  /** The seven event types that carry a details template. */
  const RecognisedTypes: set<string> := {
    WorkflowExecutionStarted, ActivityTaskScheduled, ActivityTaskStarted,
    ActivityTaskCompleted, ActivityTaskFailed, WorkflowExecutionCompleted,
    WorkflowExecutionFailed }

  const WorkflowStartedText: string := "Workflow started with input"
  const ActivityStartedText: string := "Activity execution started"
  const ActivityCompletedText: string := "Activity completed successfully"
  const WorkflowCompletedText: string := "Workflow completed successfully"
  const ActivityPrefix: string := "Activity: "
  const ActivityFailedPrefix: string := "Activity failed: "
  const WorkflowFailedPrefix: string := "Workflow failed: "

  /** What an event's details text reports. */
  datatype Detail =
    | WorkflowStarted
    | ActivityScheduled(activityType: string)
    | ActivityStarted
    | ActivityCompleted
    | ActivityFailed(reason: string)
    | WorkflowCompleted
    | WorkflowFailed(reason: string)
  {
    /** The event type whose events are reported this way. */
    function EventTypeName(): (t: string)
      ensures t in RecognisedTypes
    {
      match this
      case WorkflowStarted => WorkflowExecutionStarted
      case ActivityScheduled(_) => ActivityTaskScheduled
      case ActivityStarted => ActivityTaskStarted
      case ActivityCompleted => ActivityTaskCompleted
      case ActivityFailed(_) => ActivityTaskFailed
      case WorkflowCompleted => WorkflowExecutionCompleted
      case WorkflowFailed(_) => WorkflowExecutionFailed
    }
  }

  /** The activity type name an ActivityTaskScheduled event carries, if its
      attributes, type and name are all present. */
  function ScheduledTypeName(e: HistoryEvent): (n: Option<string>)
    ensures n.Some? <==> (&& e.activityScheduled.Some?
                          && e.activityScheduled.value.activityType.Some?
                          && e.activityScheduled.value.activityType.value.name.Some?)
    ensures n.Some? ==> n.value == e.activityScheduled.value.activityType.value.name.value
  {
    match e.activityScheduled
    case Some(ScheduledAttributes(Some(TypeRef(Some(n))))) => Some(n)
    case _ => None
  }

  /** The reason carried by optional failure attributes, if present. */
  function FailureReason(a: Option<FailureAttributes>): (r: Option<string>)
    ensures r.Some? <==> a.Some? && a.value.reason.Some?
    ensures r.Some? ==> r.value == a.value.reason.value
  {
    match a
    case Some(FailureAttributes(Some(r))) => Some(r)
    case _ => None
  }

  /** What the details of an event report, or None when they stay empty: an
      unrecognised event type, or a recognised one whose required attribute
      is missing. ActivityTaskStarted and WorkflowExecutionCompleted need no
      attribute. Never an error. */
  function Classify(e: HistoryEvent): (d: Option<Detail>)
    ensures d.Some? ==> d.value.EventTypeName() == e.eventType
    ensures e.eventType !in RecognisedTypes ==> d.None?
    ensures e.eventType == ActivityTaskStarted || e.eventType == WorkflowExecutionCompleted ==> d.Some?
    ensures d.Some? && d.value.ActivityScheduled? ==> ScheduledTypeName(e) == Some(d.value.activityType)
    ensures d.Some? && d.value.ActivityFailed? ==> FailureReason(e.activityFailed) == Some(d.value.reason)
    ensures d.Some? && d.value.WorkflowFailed? ==> FailureReason(e.workflowFailed) == Some(d.value.reason)
  {
    if e.eventType == WorkflowExecutionStarted then
      if e.hasWorkflowStartedAttributes then Some(WorkflowStarted) else None
    else if e.eventType == ActivityTaskScheduled then
      match ScheduledTypeName(e)
      case Some(n) => Some(ActivityScheduled(n))
      case None => None
    else if e.eventType == ActivityTaskStarted then
      Some(ActivityStarted)
    else if e.eventType == ActivityTaskCompleted then
      if e.hasActivityCompletedAttributes then Some(ActivityCompleted) else None
    else if e.eventType == ActivityTaskFailed then
      match FailureReason(e.activityFailed)
      case Some(r) => Some(ActivityFailed(r))
      case None => None
    else if e.eventType == WorkflowExecutionCompleted then
      Some(WorkflowCompleted)
    else if e.eventType == WorkflowExecutionFailed then
      match FailureReason(e.workflowFailed)
      case Some(r) => Some(WorkflowFailed(r))
      case None => None
    else
      None
  }

  /** The details text of a detail. */
  function Render(d: Detail): (s: string)
    ensures s != ""
  {
    match d
    case WorkflowStarted => WorkflowStartedText
    case ActivityScheduled(t) => ActivityPrefix + t
    case ActivityStarted => ActivityStartedText
    case ActivityCompleted => ActivityCompletedText
    case ActivityFailed(r) => ActivityFailedPrefix + r
    case WorkflowCompleted => WorkflowCompletedText
    case WorkflowFailed(r) => WorkflowFailedPrefix + r
  }

  /** Reads a details text back; None for the empty text and for any text no
      template produces. Whatever it reads renders back to the same text. */
  function Parse(s: string): (d: Option<Detail>)
    ensures d.Some? ==> Render(d.value) == s
    ensures s == "" ==> d.None?
  {
    if s == WorkflowStartedText then Some(WorkflowStarted)
    else if s == ActivityStartedText then Some(ActivityStarted)
    else if s == ActivityCompletedText then Some(ActivityCompleted)
    else if s == WorkflowCompletedText then Some(WorkflowCompleted)
    else if ActivityPrefix <= s then
      assert s == ActivityPrefix + s[|ActivityPrefix|..];
      Some(ActivityScheduled(s[|ActivityPrefix|..]))
    else if ActivityFailedPrefix <= s then
      assert s == ActivityFailedPrefix + s[|ActivityFailedPrefix|..];
      Some(ActivityFailed(s[|ActivityFailedPrefix|..]))
    else if WorkflowFailedPrefix <= s then
      assert s == WorkflowFailedPrefix + s[|WorkflowFailedPrefix|..];
      Some(WorkflowFailed(s[|WorkflowFailedPrefix|..]))
    else None
  }

  /** The templates are uniquely readable: every detail is read back from its
      text, so distinct details never share a text. */
  lemma ParseRender(d: Detail)
    ensures Parse(Render(d)) == Some(d)
  {
    var s := Render(d);
    match d
    case ActivityScheduled(t) =>
      assert s[0] == 'A' && s[8] == ':';
      assert WorkflowStartedText[0] == 'W' && WorkflowCompletedText[0] == 'W';
      assert ActivityStartedText[8] == ' ' && ActivityCompletedText[8] == ' ';
      assert s[|ActivityPrefix|..] == t;
    case ActivityFailed(r) =>
      assert s[0] == 'A' && s[8] == ' ' && s[9] == 'f';
      assert WorkflowStartedText[0] == 'W' && WorkflowCompletedText[0] == 'W';
      assert ActivityStartedText[9] == 'e' && ActivityCompletedText[9] == 'c';
      assert ActivityPrefix[8] == ':';
      assert s[|ActivityFailedPrefix|..] == r;
    case WorkflowFailed(r) =>
      assert s[0] == 'W' && s[9] == 'f';
      assert WorkflowStartedText[9] == 's' && WorkflowCompletedText[9] == 'c';
      assert ActivityStartedText[0] == 'A' && ActivityCompletedText[0] == 'A';
      assert ActivityPrefix[0] == 'A' && ActivityFailedPrefix[0] == 'A';
      assert s[|WorkflowFailedPrefix|..] == r;
    case _ =>
  }

  /** The details text of an event: its detail rendered, or "" when there is
      none. The text is empty exactly when there is nothing to report, and
      reading it back recovers the event's classification. */
  function Details(e: HistoryEvent): (s: string)
    ensures s == "" <==> Classify(e).None?
  {
    match Classify(e)
    case None => ""
    case Some(d) => Render(d)
  }

  /** The details table of the timeline, one line per recognised type. */
  lemma DetailsTemplates(e: HistoryEvent)
    ensures e.eventType == WorkflowExecutionStarted ==>
      Details(e) == (if e.hasWorkflowStartedAttributes then "Workflow started with input" else "")
    ensures e.eventType == ActivityTaskScheduled ==>
      Details(e) == (if ScheduledTypeName(e).Some? then "Activity: " + ScheduledTypeName(e).value else "")
    ensures e.eventType == ActivityTaskStarted ==> Details(e) == "Activity execution started"
    ensures e.eventType == ActivityTaskCompleted ==>
      Details(e) == (if e.hasActivityCompletedAttributes then "Activity completed successfully" else "")
    ensures e.eventType == ActivityTaskFailed ==>
      Details(e) == (if FailureReason(e.activityFailed).Some? then "Activity failed: " + FailureReason(e.activityFailed).value else "")
    ensures e.eventType == WorkflowExecutionCompleted ==> Details(e) == "Workflow completed successfully"
    ensures e.eventType == WorkflowExecutionFailed ==>
      Details(e) == (if FailureReason(e.workflowFailed).Some? then "Workflow failed: " + FailureReason(e.workflowFailed).value else "")
    ensures e.eventType !in RecognisedTypes ==> Details(e) == ""
  {
  }

  /** One display record of the timeline. */
  datatype EventView = EventView(eventId: Int64, eventType: string, timestamp: Instant, details: string)

  /** The display record of an event: its id, type and timestamp unchanged,
      and its details text; an unrecognised type leaves the text empty. */
  function ProjectEvent(e: HistoryEvent): (v: EventView)
    ensures v.eventId == e.eventId && v.eventType == e.eventType && v.timestamp == e.timestamp
    ensures e.eventType !in RecognisedTypes ==> v.details == ""
  {
    EventView(e.eventId, e.eventType, e.timestamp, Details(e))
  }

  /** A display record's details read back to what its event reports. */
  lemma ProjectEventReadsBack(e: HistoryEvent)
    ensures Parse(ProjectEvent(e).details) == Classify(e)
    ensures ProjectEvent(e).details == "" <==> Classify(e).None?
  {
    match Classify(e)
    case None =>
    case Some(d) => ParseRender(d);
  }
}
