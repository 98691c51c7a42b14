# Hello-world workflow facade: the projection rules, in Dafny

The facade is an HTTP service in front of a durable workflow backend (Cadence).
It runs one workflow, which calls one activity that greets a name. It has four
endpoints: start a run, list runs, show one run's status, and show one run's
event history. Most of `main.go` is SDK and HTTP plumbing. This project models
the logic inside the handlers as total functions over plain datatypes:

- `Wrappers`: `Option` (a nil pointer) and `Result` (Go's value-or-error pair).
- `Clock`: instants and durations as signed 64-bit nanosecond counts. `Sub` is
  Go's `Time.Sub`, which clamps to the smallest or largest Duration instead of
  wrapping around.
- `Backend`: the records the backend returns. These are execution summaries,
  describe responses with pending activities, history events, and the history
  iterator as a finite sequence of event-or-error steps. A field the Go code
  dereferences without a nil check is required. A field it tests for nil is an
  `Option`.
- `Hello`: the activity (`"Hello " + name + "!"`, never fails) and the
  workflow, which passes the activity's value or error through unchanged. Also
  the start-request shaping: the default name `"World"`, the `hello-world-` id
  prefix, the task list and the two timeouts.
- `Events`: each history event's display record. The details text comes from a
  per-type template, or is `""`. `Parse` reads a details text back, which proves
  that no two different reports share a text.
- `History`: collecting events from the iterator until it is exhausted or its
  first error. `Collected` is the functional definition. `CollectHistory` is the
  loop, proved equal to it.
- `Listing`: the list response. It holds the open runs (RUNNING) followed by
  the closed runs, or no list at all if either backend query fails.
- `Status`: the status view. It is read from the describe response's close
  status, close time and history length, not by folding the event log.
- `Gateway`: the four handlers, reduced to their decisions. Each returns the
  backend calls it makes and its reply: a body, or a status code of 400, 405
  or 500.

Notes on what `main.go` does:

- The status and the history length come from the backend's describe and list
  responses. The code never folds the event log.
- In the list, a closed run without a close status is shown as `COMPLETED`. If
  it has no close time, its elapsed time is 0. An open run's elapsed time is
  measured to `now`.
- The elapsed time of a running execution grows with `now` only until it
  clamps at the largest Duration, so it need not grow strictly between polls.
- Start accepts only POST, and list, status and history accept only GET. Any
  other method gets 405.

## Model

| member | source | states |
|---|---|---|
| Clock.Sub | main.go:294-298 | the elapsed time between two instants equals their difference when it fits 64 bits; otherwise it keeps the sign and clamps, never overshooting |
| Clock.SubMonotone | main.go:366 | a later end instant never gives a shorter elapsed time, and gives a strictly longer one while nothing clamps |
| Backend.CloseStatus.Name | main.go:300-303 | a close status shows under its enum name, which is never empty and never "RUNNING", so a closed run can never read as running |
| Backend.PendingActivityState.Name | main.go:402 | a pending activity's state shows under its enum name, which is never empty |
| Backend.PendingStateNameInjective | main.go:402 | different pending states show under different names |
| Backend.CloseStatusNameInjective | main.go:300-303 | different close statuses show under different names |
| Backend.TypeName | main.go:273-276 | the workflow type is the reference's name when both the reference and the name are present, and "" otherwise |
| Hello.Greeting | main.go:145 | the greeting begins with "Hello ", ends with "!", and is seven characters longer than the name |
| Hello.HelloActivity | main.go:142-146 | the activity never fails, and its result is the greeting from which the name can be read back |
| Hello.GreetingRoundTrip | main.go:145 | "Hello " + name + "!" determines the name, and the text read back greets to the same string |
| Hello.ActivityOutcome | main.go:131 | the workflow sees an error exactly when the backend did not deliver the call, and that error is the backend's; otherwise it sees the greeting |
| Hello.HelloWorkflow | main.go:130-139 | the workflow returns either a result or an error, never both: the activity's value on success, and the same error unchanged on failure |
| Hello.HelloRun | main.go:120-146 | a run returns "Hello " + name + "!" exactly when the activity call was delivered, and otherwise returns the backend's error |
| Hello.StartName | main.go:179-181 | an empty decoded name becomes "World", and any other name is kept unchanged |
| Hello.StartNameIdempotent | main.go:179-181 | defaulting twice is the same as defaulting once, and the submitted name is never empty |
| Hello.WorkflowId | main.go:184 | the id starts with "hello-world-" and the rest of it is the time stamp |
| Hello.WorkflowIdCollision | main.go:184 | two starts get the same id exactly when their time stamps agree |
| Hello.ShapeStart | main.go:179-188 | the submitted request has the decoded name, or "World" when it is empty; the id is "hello-world-" followed by the stamp; task list "test-worker", a 10-minute execution timeout and a 1-minute decision timeout |
| Events.Detail.EventTypeName | main.go:468-491 | every kind of report belongs to one of the seven recognised case labels |
| Events.ScheduledTypeName | main.go:474-477 | an ActivityTaskScheduled event yields an activity type name exactly when its attributes, their type and the type's name are all present, and then that name |
| Events.FailureReason | main.go:486 | failure attributes yield a reason exactly when the attributes and their reason are both present, and then that reason |
| Events.Classify | main.go:468-495 | an event is reported only under its own type, never when its type is not one of the seven, always for ActivityTaskStarted and WorkflowExecutionCompleted, and with the activity type or reason taken from its attributes |
| Events.Render | main.go:471-493 | every template's text is non-empty |
| Events.Parse | main.go:468-495 | a details text that is read back renders to itself, and the empty text reads as no report |
| Events.ParseRender | main.go:468-495 | every report is read back from its text, so two different reports never share a details text |
| Events.Details | main.go:467-495 | details are "" exactly when the event has nothing to report |
| Events.DetailsTemplates | main.go:468-495 | the template for each of the seven types, conditional on the required attribute where the code checks one; "" for every other type |
| Events.ProjectEvent | main.go:461-466 | a display record keeps the event's id, type and timestamp, and an unrecognised type leaves its details empty |
| Events.ProjectEventReadsBack | main.go:461-495 | a display record's details read back to what its event reports, and are empty exactly when there is nothing to report |
| History.FirstError | main.go:454-459 | the steps before the first failing step are all events, and the step at that index is an error |
| History.Collected | main.go:452-498 | the timeline has one record per event before the first error, in order, each being that event's display record |
| History.CollectHistory | main.go:452-498 | the iterator loop gathers exactly the functional timeline |
| History.CollectedStep | main.go:454-466 | while no error has been met, each further event extends the gathered timeline by exactly its display record |
| History.CollectedDone | main.go:455-459 | stopping at the stream's end or its first error has gathered the whole timeline |
| History.CollectedStopsAtError | main.go:455-459 | steps after a failing step are never looked at, and every event before it is kept |
| History.CollectedPrefix | main.go:454-498 | reading a prefix of the stream gives a prefix of the timeline, so there is never a reordering |
| History.HistoryResponse | main.go:500-505 | the response echoes the queried ids, and count equals the number of collected events; an empty stream gives count 0 |
| Listing.ProjectOpen | main.go:269-286 | an open run keeps its ids, type and start, is RUNNING with no close time, and its elapsed time is the clamped span from its start to now |
| Listing.ProjectClosed | main.go:289-319 | a closed run keeps its ids, type, start and close time, is never RUNNING, shows its close status name or COMPLETED, and its elapsed time runs to its close time or is 0 |
| Listing.ListWorkflows | main.go:224-324 | a list exists iff both queries succeed; it holds the open projections then the closed ones, count is their total, and an entry is RUNNING iff it came from the open query |
| Status.ProjectPending | main.go:393-416 | a pending entry keeps id and attempt, names its type (or "") and state, and has each timestamp iff the backend gave it |
| Status.ProjectStatus | main.go:355-419 | status is RUNNING iff there is no close status; elapsed time runs to the close time if there is one, else to now; history length is passed through; pending activities appear iff there are some, one entry each |
| Status.ExecutionTimeOverPolls | main.go:358-367 | repeated polls of a run with no close time never show less elapsed time, and show more while nothing clamps; once closed, the view does not depend on now |
| Status.ListAgreesWithStatus | main.go:355-372 | for a run with both close fields, or neither, the list entry and the status view agree on status, close time and elapsed time |
| Status.ListAndStatusDivergeWithoutCloseStatus | main.go:300-303 | a closed run without a close status reads COMPLETED in the list but RUNNING in the status view |
| Gateway.QueryGet | main.go:337-338 | a query parameter is its first value, or "" when it is absent |
| Gateway.StartHandler | main.go:164-205 | a non-POST request gets 405 and a malformed body gets 400, both without a backend call; otherwise the shaped request is submitted once, and the reply is the backend's ids or 500 |
| Gateway.WindowQuery | main.go:217-232 | list queries cover the 24 hours ending now, in the test domain, with page size 100 |
| Gateway.ListHandler | main.go:209-327 | a non-GET request gets 405 with no call; the closed query is made only after the open query succeeds; any query error gives 500 and no list; a successful reply is exactly the list projection of the two answers |
| Gateway.StatusHandler | main.go:331-353 | a non-GET request gets 405 and an empty workflowId gets 400, both without a backend call; otherwise one describe call, then the projected view or 500 |
| Gateway.HistoryHandler | main.go:426-443 | a non-GET request gets 405 and an empty workflowId gets 400, both without a backend call; otherwise one history read, and the reply is always the collected timeline |
| Gateway.StatusAndHistoryValidateAlike | main.go:331-343 | the status and history endpoints reject the same requests with the same code before any backend call, and accept the same ones with one call for the same run |

## Left out

- Process bootstrap: `main`, `buildLogger`, `buildCadenceClient` and `startWorker` (main.go:36-118). This is construction of the logger, the RPC dispatcher and the worker.
- The health endpoint (main.go:157-161): it always answers `{"status":"healthy"}` and has no logic.
- Missing required fields: the Go code dereferences some backend fields without a nil check (the start time at main.go:270, the event id at main.go:462, the pending state at main.go:402), and a nil there makes the handler panic. The model makes these fields required, so that panic path is not modelled.
- Backend calls, which are inputs: the start result, the two list answers, the describe answer and the history iterator's steps. The Cadence client is not part of this model.
- HTTP serving, JSON encoding and decoding, response headers and error bodies. Only the status-code decision is kept. The JSON encoding of an empty Go slice as `null` is not modelled.
- Wall-clock reads: `now` is a parameter, and the start id's time stamp is a string parameter. The source reads the clock separately for the window ends and for each elapsed time, and the model uses one instant for all of these. The `20060102-150405` layout and `Duration.String()` rendering are not modelled.
- Gateway.WindowQuery: the lower bound is an unbounded integer. Go's 64-bit `UnixNano` behaviour for instants before the year 1678 is not modelled.
- Activity options and timeouts (main.go:121-126), workflow replay and worker concurrency: these belong to the backend. `ActivityOutcome` covers them only as "the backend delivered an error".
- Logging calls throughout.
- Backend.CloseStatus: only the six defined close statuses are modelled. The enum's String() rendering for undefined numeric values is not.
- Events.Classify: the event type is modelled as its String() name, and the backend's event-type enum itself is not part of this model.
- Strings are sequences of characters. Go's byte strings and UTF-8 are not modelled, which makes no difference to concatenation and comparison here.
- List paging: only the first page of each list query is read, because the source never follows the next-page token.
