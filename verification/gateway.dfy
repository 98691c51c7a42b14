/** The four HTTP handlers, reduced to their decisions: which backend calls
    each one makes, and which reply (a body or an HTTP status code) it gives.
    The backend's answers, the clock and the start time stamp are inputs;
    an answer is only consulted when the matching call is made. */
module Gateway {
  import opened Wrappers
  import opened Clock
  import opened Backend
  import opened Hello
  import Listing
  import Status
  import History

  const MethodGet: string := "GET"
  const MethodPost: string := "POST"

  const StatusOK: int := 200
  const StatusBadRequest: int := 400
  const StatusMethodNotAllowed: int := 405
  const StatusInternalServerError: int := 500

  const Domain: string := "test-domain"
  const ListPageSize: int := 100
  const ListWindow: Duration := 24 * Hour
  const StartedMessage: string := "Workflow started successfully"

  /** A handler's reply: a JSON body (status 200) or an error status. */
  datatype Reply<T> = Ok(body: T) | Rejected(code: int)

  function Code<T>(r: Reply<T>): (code: int) {
    match r
    case Ok(_) => StatusOK
    case Rejected(c) => c
  }

  /** The start-time filter and page size of a list query. The bounds are
      plain integers: the window's lower end can lie before the earliest
      Instant. */
  datatype ListQuery = ListQuery(domain: string, pageSize: int, earliestTime: int, latestTime: int)

  /** A call the facade makes to the backend. */
  datatype BackendCall =
    | StartWorkflow(request: StartRequest)
    | ListOpen(query: ListQuery)
    | ListClosed(query: ListQuery)
    | DescribeExecution(workflowId: string, runId: string)
    | GetHistory(workflowId: string, runId: string)

  /** What one request does: the backend calls in order, and the reply. */
  datatype Exchange<T> = Exchange(calls: seq<BackendCall>, reply: Reply<T>)

  /** The parsed query string of a request: each key with its values. */
  type Query = map<string, seq<string>>

  /** The first value given for `key`, or "" when there is none. */
  function QueryGet(q: Query, key: string): (v: string)
    ensures key in q && |q[key]| > 0 ==> v == q[key][0]
    ensures key !in q || q[key] == [] ==> v == ""
  {
    if key in q && |q[key]| > 0 then q[key][0] else ""
  }

  /** A start request's body: JSON that decoded (a missing name decodes to
      ""), or a body that did not. */
  datatype StartBody = Malformed | Decoded(name: string)

  /** The start response. */
  datatype StartView = StartView(workflowId: string, runId: string, message: string)

  /** POST /api/workflows/start. Only POST is allowed (405); a body that does
      not decode is a 400; neither reaches the backend. Otherwise the shaped
      request is submitted once, and the backend's ids come back, or a 500
      when it refuses. */
  function StartHandler(verb: string, body: StartBody, stamp: string, started: Result<ExecutionRef, string>): (x: Exchange<StartView>)
    ensures Code(x.reply) == StatusMethodNotAllowed <==> verb != MethodPost
    ensures Code(x.reply) == StatusBadRequest <==> verb == MethodPost && body.Malformed?
    ensures x.calls == [] <==> Code(x.reply) in {StatusMethodNotAllowed, StatusBadRequest}
    ensures x.calls != [] ==> x.calls == [StartWorkflow(ShapeStart(body.name, stamp))]
    ensures x.calls != [] && started.Failure? ==> x.reply == Rejected(StatusInternalServerError)
    ensures x.calls != [] && started.Success? ==>
      x.reply == Ok(StartView(started.value.workflowId, started.value.runId, StartedMessage))
  {
    if verb != MethodPost then Exchange([], Rejected(StatusMethodNotAllowed))
    else match body
      case Malformed => Exchange([], Rejected(StatusBadRequest))
      case Decoded(name) =>
        var call := StartWorkflow(ShapeStart(name, stamp));
        match started
        case Failure(_) => Exchange([call], Rejected(StatusInternalServerError))
        case Success(ref) => Exchange([call], Ok(StartView(ref.workflowId, ref.runId, StartedMessage)))
  }

  /** The list query for the 24 hours ending at `now`. */
  function WindowQuery(now: Instant): (q: ListQuery)
    ensures q.latestTime == now && q.latestTime - q.earliestTime == 86_400 * Second
    ensures q.domain == Domain && q.pageSize == ListPageSize
  {
    ListQuery(Domain, ListPageSize, now - ListWindow, now)
  }

  /** GET /api/workflows/list. Only GET is allowed (405, no backend call).
      The open query comes first; when it fails the closed query is never
      made. Any query error is a 500 with no partial list. */
  function ListHandler(verb: string, now: Instant, open: Result<seq<ExecutionInfo>, string>, closed: Result<seq<ExecutionInfo>, string>): (x: Exchange<Listing.ListView>)
    ensures Code(x.reply) == StatusMethodNotAllowed <==> verb != MethodGet
    ensures verb != MethodGet ==> x.calls == []
    ensures verb == MethodGet && open.Failure? ==> x.calls == [ListOpen(WindowQuery(now))]
    ensures verb == MethodGet && open.Success? ==> x.calls == [ListOpen(WindowQuery(now)), ListClosed(WindowQuery(now))]
    ensures verb == MethodGet ==>
      (x.reply.Ok? <==> open.Success? && closed.Success?)
      && (x.reply.Rejected? ==> x.reply.code == StatusInternalServerError)
    ensures x.reply.Ok? ==> Listing.ListWorkflows(open, closed, now) == Success(x.reply.body)
  {
    if verb != MethodGet then Exchange([], Rejected(StatusMethodNotAllowed))
    else
      var q := WindowQuery(now);
      var calls := if open.Failure? then [ListOpen(q)] else [ListOpen(q), ListClosed(q)];
      match Listing.ListWorkflows(open, closed, now)
      case Failure(_) => Exchange(calls, Rejected(StatusInternalServerError))
      case Success(view) => Exchange(calls, Ok(view))
  }

  /** GET /api/workflows/status?workflowId=&runId=. Only GET is allowed
      (405); a missing or empty workflowId is a 400; neither reaches the
      backend. Otherwise the run is described once: a backend error is a
      500, an answer is projected at `now`. */
  function StatusHandler(verb: string, query: Query, now: Instant, described: Result<DescribeResponse, string>): (x: Exchange<Status.StatusView>)
    ensures Code(x.reply) == StatusMethodNotAllowed <==> verb != MethodGet
    ensures Code(x.reply) == StatusBadRequest <==> verb == MethodGet && QueryGet(query, "workflowId") == ""
    ensures x.calls == [] <==> Code(x.reply) in {StatusMethodNotAllowed, StatusBadRequest}
    ensures x.calls != [] ==> x.calls == [DescribeExecution(QueryGet(query, "workflowId"), QueryGet(query, "runId"))]
    ensures x.calls != [] ==>
      x.reply == (if described.Success? then Ok(Status.ProjectStatus(described.value, now)) else Rejected(StatusInternalServerError))
  {
    if verb != MethodGet then Exchange([], Rejected(StatusMethodNotAllowed))
    else
      var workflowId := QueryGet(query, "workflowId");
      var runId := QueryGet(query, "runId");
      if workflowId == "" then Exchange([], Rejected(StatusBadRequest))
      else
        var call := DescribeExecution(workflowId, runId);
        match described
        case Failure(_) => Exchange([call], Rejected(StatusInternalServerError))
        case Success(resp) => Exchange([call], Ok(Status.ProjectStatus(resp, now)))
  }

  /** GET /api/workflows/history?workflowId=&runId=. Only GET is allowed
      (405); a missing or empty workflowId is a 400; neither reaches the
      backend. Otherwise the history is read once and the reply is always a
      body: a failing iterator only shortens the timeline. */
  function HistoryHandler(verb: string, query: Query, steps: seq<IteratorStep>): (x: Exchange<History.HistoryView>)
    ensures Code(x.reply) == StatusMethodNotAllowed <==> verb != MethodGet
    ensures Code(x.reply) == StatusBadRequest <==> verb == MethodGet && QueryGet(query, "workflowId") == ""
    ensures x.calls == [] <==> x.reply.Rejected?
    ensures x.calls == [] <==> Code(x.reply) in {StatusMethodNotAllowed, StatusBadRequest}
    ensures x.calls != [] ==>
      && x.calls == [GetHistory(QueryGet(query, "workflowId"), QueryGet(query, "runId"))]
      && x.reply == Ok(History.HistoryResponse(QueryGet(query, "workflowId"), QueryGet(query, "runId"), steps))
  {
    if verb != MethodGet then Exchange([], Rejected(StatusMethodNotAllowed))
    else
      var workflowId := QueryGet(query, "workflowId");
      var runId := QueryGet(query, "runId");
      if workflowId == "" then Exchange([], Rejected(StatusBadRequest))
      else Exchange([GetHistory(workflowId, runId)], Ok(History.HistoryResponse(workflowId, runId, steps)))
  }

  /** The status and history endpoints validate a request alike: both reject
      the same requests with the same code, and both accept the same ones,
      each then making exactly one backend call for the same run. */
  lemma StatusAndHistoryValidateAlike(verb: string, query: Query, now: Instant,
                                      described: Result<DescribeResponse, string>, steps: seq<IteratorStep>)
    ensures var s := StatusHandler(verb, query, now, described);
      var h := HistoryHandler(verb, query, steps);
      && (s.calls == [] <==> h.calls == [])
      && (s.calls == [] ==> Code(s.reply) == Code(h.reply))
      && (s.calls != [] ==> s.calls[0].workflowId == h.calls[0].workflowId && s.calls[0].runId == h.calls[0].runId)
  {
  }
}
