/** The registered workflow and activity, and how a start request is shaped
    before it is submitted to the backend. */
module Hello {
  import opened Wrappers
  import opened Clock

  const DefaultName: string := "World"
  const WorkflowIdPrefix: string := "hello-world-"
  const TaskList: string := "test-worker"
  const ExecutionStartToCloseTimeout: Duration := 10 * Minute
  const DecisionTaskStartToCloseTimeout: Duration := Minute

  /** The activity's greeting for `name`. */
  function Greeting(name: string): (g: string)
    ensures |g| == |name| + 7
    ensures "Hello " <= g && g[|g| - 1] == '!'
  {
    "Hello " + name + "!"
  }

  /** Recovers the name from a greeting, or None for any other text. */
  function GreetedName(g: string): (name: Option<string>) {
    if 7 <= |g| && "Hello " <= g && g[|g| - 1] == '!' then Some(g[6..|g| - 1]) else None
  }

  /** Greetings lose nothing: the name is recovered from its greeting, and a
      recovered name greets back to the same text. */
  lemma GreetingRoundTrip(name: string, g: string)
    ensures GreetedName(Greeting(name)) == Some(name)
    ensures GreetedName(g) == Some(name) ==> Greeting(name) == g
  {
    var h := Greeting(name);
    assert h[6..|h| - 1] == name;
    if GreetedName(g) == Some(name) {
      assert g == g[..6] + g[6..|g| - 1] + [g[|g| - 1]];
    }
  }

  /** The activity: never fails and returns the greeting. */
  function HelloActivity(name: string): (r: Result<string, string>)
    ensures r.Success? && GreetedName(r.value) == Some(name)
  {
    GreetingRoundTrip(name, "");
    Success(Greeting(name))
  }

  /** What the workflow gets back from executing the activity through the
      backend: the backend's error when the call does not complete (a
      timeout, a cancellation), otherwise the activity's own result. */
  function ActivityOutcome(name: string, backendError: Option<string>): (r: Result<string, string>)
    ensures r.Failure? <==> backendError.Some?
    ensures backendError.Some? ==> r.error == backendError.value
    ensures r.Success? ==> r.value == Greeting(name)
  {
    match backendError
    case Some(e) => Failure(e)
    case None => HelloActivity(name)
  }

  /** The Go (result pointer, error) pair a workflow function returns. */
  datatype WorkflowReturn = WorkflowReturn(result: Option<string>, err: Option<string>)

  /** The workflow body, given what the activity call yielded: on success
      the activity's value and no error, on failure no value and the very
      same error. */
  function HelloWorkflow(outcome: Result<string, string>): (w: WorkflowReturn)
    ensures w.result.Some? != w.err.Some?
    ensures w.result.Some? ==> outcome == Success(w.result.value)
    ensures w.err.Some? ==> outcome == Failure(w.err.value)
  {
    match outcome
    case Success(v) => WorkflowReturn(Some(v), None)
    case Failure(e) => WorkflowReturn(None, Some(e))
  }

  /** One whole run: the greeting comes back exactly when the backend
      delivered the activity call, and otherwise the backend's error does. */
  lemma HelloRun(name: string, backendError: Option<string>)
    ensures var w := HelloWorkflow(ActivityOutcome(name, backendError));
      && (w.result == Some("Hello " + name + "!") <==> backendError.None?)
      && w.err == backendError
  {
  }

  /** The name submitted to the workflow: "World" when the request gave an
      empty name (or none), otherwise the given name unchanged. */
  function StartName(decoded: string): (n: string)
    ensures decoded == "" ==> n == DefaultName
    ensures decoded != "" ==> n == decoded
  {
    if decoded == "" then DefaultName else decoded
  }

  /** Defaulting is idempotent and never yields an empty name. */
  lemma StartNameIdempotent(decoded: string)
    ensures StartName(StartName(decoded)) == StartName(decoded)
    ensures StartName(decoded) != ""
  {
  }

  /** The id of a new run: the fixed prefix and the start time stamp (the
      caller's rendering of the wall clock, layout 20060102-150405). */
  function WorkflowId(stamp: string): (id: string)
    ensures WorkflowIdPrefix <= id
    ensures id[|WorkflowIdPrefix|..] == stamp
  {
    WorkflowIdPrefix + stamp
  }

  /** Two starts get the same id exactly when their stamps agree, so two
      starts within the same second collide. */
  lemma WorkflowIdCollision(a: string, b: string)
    ensures WorkflowId(a) == WorkflowId(b) <==> a == b
  {
    if WorkflowId(a) == WorkflowId(b) {
      assert a == WorkflowId(a)[|WorkflowIdPrefix|..];
    }
  }

  /** The options and argument submitted to the backend on a start. */
  datatype StartRequest = StartRequest(
    workflowId: string,
    taskList: string,
    executionStartToCloseTimeout: Duration,
    decisionTaskStartToCloseTimeout: Duration,
    input: string)

  /** The start request for a decoded name at a given time stamp. */
  function ShapeStart(decoded: string, stamp: string): (req: StartRequest)
    ensures req.input != "" && (decoded != "" ==> req.input == decoded)
    ensures decoded == "" ==> req.input == DefaultName
    ensures req.workflowId == WorkflowId(stamp)
    ensures req.taskList == TaskList
    ensures req.executionStartToCloseTimeout == 600 * Second
    ensures req.decisionTaskStartToCloseTimeout == 60 * Second
  {
    StartRequest(WorkflowId(stamp), TaskList, ExecutionStartToCloseTimeout,
                 DecisionTaskStartToCloseTimeout, StartName(decoded))
  }
}
