/** The run page of a workflow: the visitor types an input and starts an
    execution; the page then fetches the execution's snapshot (overall
    status and one log entry per step reached) every second, meant to stop
    once the run completes or fails, and renders the snapshot. The page's state (input,
    execution id, last fetched snapshot) is the set of fields of class
    ExecutionMonitor; the decisions the page takes from that state are pure
    functions. */
module Monitor {
  import opened Base

  const PollMillis: nat := 1000
  const StartedNotice := "Workflow execution started!"
  const StartFailedFallback := "Failed to start execution."
  const FetchFailedFallback := "Failed to load execution logs."
  const NoOutput := "No output"

  /** One step's record in an execution snapshot. */
  datatype LogEntry = LogEntry(
    id: nat,
    status: Option<string>,
    inputData: Option<string>,
    outputData: Option<string>,
    errorMessage: Option<string>)

  /** An execution snapshot as the server returns it. */
  datatype Execution = Execution(status: Option<string>, log: Option<seq<LogEntry>>)

  /** A failed fetch, with the message of the error if it has one. */
  datatype FetchFailure = FetchFailure(message: Option<string>)

  /** What one fetch of the snapshot returns. */
  datatype FetchResult = Fetched(execution: Execution) | FetchFailed(failure: FetchFailure)

  /** What the page knows of the execution: the last snapshot fetched, and
      the failure of the last fetch if it failed. */
  datatype QueryView = QueryView(data: Option<Execution>, failure: Option<FetchFailure>)

  const EmptyQuery := QueryView(None, None)

  /** When the next fetch is due: never, or after a delay in milliseconds. */
  datatype Interval = Stop | Every(millis: nat)

  /** The server's answer to the start request. */
  datatype StartResponse = Started(executionId: Option<nat>) | StartFailed(serverMessage: Option<string>)

  /** The toast the start request raises. */
  datatype Notice = Success(text: string) | Failure(text: string)

  // ---------------------------------------------------------------- polling

  /** A status ends the run when, lower-cased, it reads `completed` or
      `failed`. */
  predicate IsTerminalStatus(status: Option<string>)
  {
    status.Some? && (Lower(status.value) == "completed" || Lower(status.value) == "failed")
  }

  /** The body of the page's `refetchInterval` callback, given the `status`
      it reads: stop on `completed` or `failed` in any letter case, otherwise
      (a missing status included) fetch again after one second. */
  function StatusRule(status: Option<string>): (i: Interval)
    ensures i == Stop <==> IsTerminalStatus(status)
    ensures i != Stop ==> i == Every(PollMillis)
  {
    var s := if status.Some? then Some(Lower(status.value)) else None;
    if s == Some("completed") || s == Some("failed") then Stop else Every(PollMillis)
  }

  /** The polling rule as intended, applied to the last fetched snapshot:
      stop once the run has completed or failed, whatever the letter case;
      otherwise (no snapshot yet included) fetch again after one second. */
  function RefetchInterval(data: Option<Execution>): (i: Interval)
    ensures i == Stop <==> data.Some? && IsTerminalStatus(data.value.status)
    ensures i != Stop ==> i == Every(PollMillis)
  {
    StatusRule(if data.Some? then data.value.status else None)
  }

  /** The view after one fetch: a snapshot replaces the previous one whole
      and clears the error; a failure keeps the last snapshot and records
      the failure. */
  function ApplyFetch(q: QueryView, r: FetchResult): (v: QueryView)
    ensures v.failure.Some? <==> r.FetchFailed?
    ensures v.data == if r.Fetched? then Some(r.execution) else q.data
  {
    match r
    case Fetched(e) => QueryView(Some(e), None)
    case FetchFailed(f) => QueryView(q.data, Some(f))
  }

  /** Fetching the same answer again changes nothing, and a snapshot does
      not depend on what was shown before it. */
  lemma ReplayIsHarmless(q: QueryView, q': QueryView, r: FetchResult)
    ensures ApplyFetch(ApplyFetch(q, r), r) == ApplyFetch(q, r)
    ensures r.Fetched? ==> ApplyFetch(q, r) == ApplyFetch(q', r)
  {
  }

  /** How many of a series of answers the page fetches: each fetch is
      followed by the next only while the polling rule asks for one. */
  function SamplesTaken(q: QueryView, rs: seq<FetchResult>): nat
    decreases |rs|
  {
    if rs == [] then 0
    else
      var q' := ApplyFetch(q, rs[0]);
      if RefetchInterval(q'.data) == Stop then 1 else 1 + SamplesTaken(q', rs[1..])
  }

  /** The view once polling has consumed as many answers as it asks for. */
  function Polled(q: QueryView, rs: seq<FetchResult>): QueryView
    decreases |rs|
  {
    if rs == [] then q
    else
      var q' := ApplyFetch(q, rs[0]);
      if RefetchInterval(q'.data) == Stop then q' else Polled(q', rs[1..])
  }

  /** Once a completed or failed snapshot arrives no further fetch is made,
      and the page is left showing a terminal snapshot. */
  lemma {:induction false} NoSampleAfterTerminal(q: QueryView, rs: seq<FetchResult>, k: nat)
    requires k < |rs| && rs[k].Fetched? && IsTerminalStatus(rs[k].execution.status)
    ensures SamplesTaken(q, rs) <= k + 1
    ensures Polled(q, rs).data.Some? && IsTerminalStatus(Polled(q, rs).data.value.status)
    decreases k
  {
    var q' := ApplyFetch(q, rs[0]);
    if RefetchInterval(q'.data) != Stop {
      assert k != 0;
      NoSampleAfterTerminal(q', rs[1..], k - 1);
    }
  }

  // ---------------------------------------------------------------- polling as written

  /** What TanStack Query (version 5) passes to a `refetchInterval`
      callback: the query object. Its status, `pending`, `error` or
      `success`, is kept under `state`, and the fetched snapshot is a
      separate field; the object has no `status` property of its own. */
  datatype QueryStatus = QueryPending | QueryError | QuerySuccess
  datatype QueryObject = QueryObject(state: QueryStatus, data: Option<Execution>)

  function QueryStatusText(s: QueryStatus): string
  {
    match s
    case QueryPending => "pending"
    case QueryError => "error"
    case QuerySuccess => "success"
  }

  /** `data?.status` evaluated on the query object: the object has no
      `status` property, so it reads `undefined`. */
  function StatusProperty(query: QueryObject): Option<string>
  {
    None
  }

  /** The polling callback as the page writes it: the rule is applied to the
      `status` property of the object it receives, not to the run's status. */
  function RefetchIntervalAsWritten(query: QueryObject): (i: Interval)
    ensures i == Stop <==> IsTerminalStatus(StatusProperty(query))
    ensures i != Stop ==> i == Every(PollMillis)
  {
    StatusRule(StatusProperty(query))
  }

  /** As written, the callback never stops polling, whatever the run's
      status; it would not stop either if the property it read were the
      query's own status under `state`. */
  lemma AsWrittenNeverStops(query: QueryObject)
    ensures RefetchIntervalAsWritten(query) == Every(PollMillis)
    ensures StatusRule(Some(QueryStatusText(query.state))) == Every(PollMillis)
  {
    var text := QueryStatusText(query.state);
    LowerDiffersAtHead(text, "completed");
    LowerDiffersAtHead(text, "failed");
  }

  /** The query object after a fetch: `success` with the snapshot, or
      `error` with the last snapshot kept. */
  function QueryObjectOf(q: QueryView): QueryObject
  {
    QueryObject(if q.failure.Some? then QueryError else QuerySuccess, q.data)
  }

  /** How many of a series of answers the page fetches with the callback as
      written. */
  function SamplesTakenAsWritten(q: QueryView, rs: seq<FetchResult>): nat
    decreases |rs|
  {
    if rs == [] then 0
    else
      var q' := ApplyFetch(q, rs[0]);
      if RefetchIntervalAsWritten(QueryObjectOf(q')) == Stop then 1 else 1 + SamplesTakenAsWritten(q', rs[1..])
  }

  /** As written, every answer is fetched: polling goes on after the run
      completed or failed. */
  lemma {:induction false} AsWrittenTakesEverySample(q: QueryView, rs: seq<FetchResult>)
    ensures SamplesTakenAsWritten(q, rs) == |rs|
    decreases |rs|
  {
    if rs != [] {
      var q' := ApplyFetch(q, rs[0]);
      AsWrittenNeverStops(QueryObjectOf(q'));
      AsWrittenTakesEverySample(q', rs[1..]);
    }
  }

  /** A completed run: the intended rule stops, the written one fetches again
      one second later, and keeps doing so. */
  lemma CompletedRunKeepsPollingAsWritten(e: Execution, q: QueryView)
    requires e.status == Some("Completed")
    ensures RefetchInterval(Some(e)) == Stop
    ensures RefetchIntervalAsWritten(QueryObject(QuerySuccess, Some(e))) == Every(PollMillis)
    ensures SamplesTaken(q, [Fetched(e), Fetched(e)]) == 1
    ensures SamplesTakenAsWritten(q, [Fetched(e), Fetched(e)]) == 2
  {
    assert Lower("Completed") == "completed";
    AsWrittenNeverStops(QueryObject(QuerySuccess, Some(e)));
    AsWrittenTakesEverySample(q, [Fetched(e), Fetched(e)]);
  }

  // ---------------------------------------------------------------- display

  /** The start request's failure toast: the server's message, else a
      fallback. */
  function StartFailureMessage(serverMessage: Option<string>): (m: string)
    ensures m != ""
    ensures Truthy(serverMessage) ==> m == serverMessage.value
    ensures !Truthy(serverMessage) ==> m == StartFailedFallback
  {
    OrElse(serverMessage, StartFailedFallback)
  }

  /** The input box is locked while the start request is pending or while
      the snapshot's status is exactly `Running`. */
  predicate InputLocked(pending: bool, data: Option<Execution>): (b: bool)
    ensures b <==> pending || (data.Some? && data.value.status == Some("Running"))
    ensures b && !pending ==> RefetchInterval(data) != Stop
  {
    LowerDiffersAtHead("Running", "completed");
    LowerDiffersAtHead("Running", "failed");
    pending || (data.Some? && data.value.status == Some("Running"))
  }

  /** The start button is disabled when the input is empty, the start
      request is pending, or the snapshot's status is exactly `Running`. */
  function StartDisabled(input: string, pending: bool, data: Option<Execution>): (b: bool)
    ensures b <==> input == "" || InputLocked(pending, data)
  {
    input == "" || pending || (data.Some? && data.value.status == Some("Running"))
  }

  /** Once the run has completed or failed, a non-empty input can start a
      new run. */
  lemma StartReenabledAfterTerminal(input: string, e: Execution)
    requires input != "" && IsTerminalStatus(e.status)
    ensures !StartDisabled(input, false, Some(e))
  {
    if e.status == Some("Running") {
      LowerDiffersAtHead("Running", "completed");
      LowerDiffersAtHead("Running", "failed");
    }
  }

  /** The start button compares the status case-sensitively, the polling
      rule does not: with a status of `RUNNING` or `Pending` the page keeps
      polling a run that is not over while the start button is enabled. */
  lemma StartEnabledWhilePolling(input: string, e: Execution)
    requires input != "" && (e.status == Some("RUNNING") || e.status == Some("Pending"))
    ensures !StartDisabled(input, false, Some(e))
    ensures RefetchInterval(Some(e)) == Every(PollMillis)
  {
    var s := e.status.value;
    LowerDiffersAtHead(s, "completed");
    LowerDiffersAtHead(s, "failed");
  }

  datatype Color = Green | Blue | Red | Slate

  /** The overall status badge's colour, chosen on the lower-cased status. */
  function StatusColor(status: Option<string>): (c: Color)
    ensures c == Green <==> status.Some? && Lower(status.value) == "completed"
    ensures c == Blue <==> status.Some? && Lower(status.value) == "running"
    ensures c == Red <==> status.Some? && Lower(status.value) == "failed"
    ensures c == Slate <==> status.None? || Lower(status.value) !in {"completed", "running", "failed"}
  {
    var s := if status.Some? then Some(Lower(status.value)) else None;
    if s == Some("completed") then Green
    else if s == Some("running") then Blue
    else if s == Some("failed") then Red
    else Slate
  }

  /** The badge colour ignores letter case. */
  lemma StatusColorIgnoresCase(s: string)
    ensures StatusColor(Some(s)) == StatusColor(Some(Lower(s)))
  {
    LowerIdempotent(s);
  }

  /** The badge turns green or red exactly when polling stops. */
  lemma TerminalColorIffPollingStops(data: Execution)
    ensures (StatusColor(data.status) == Green || StatusColor(data.status) == Red) <==> RefetchInterval(Some(data)) == Stop
  {
  }

  /** A log entry's number badge: green for exactly `Completed`, red for
      exactly `Failed`, blue for anything else. */
  function LogBadge(status: Option<string>): (c: Color)
    ensures c == Green <==> status == Some("Completed")
    ensures c == Red <==> status == Some("Failed")
    ensures c == Blue <==> status != Some("Completed") && status != Some("Failed")
  {
    if status == Some("Completed") then Green
    else if status == Some("Failed") then Red
    else Blue
  }

  /** On the capitalised statuses the two colourings agree; on a lower-case
      `completed` the overall badge is green while the entry's badge is
      blue. */
  lemma BadgeColoursOnlyAgreeOnCapitalised()
    ensures StatusColor(Some("Completed")) == LogBadge(Some("Completed")) == Green
    ensures StatusColor(Some("Failed")) == LogBadge(Some("Failed")) == Red
    ensures StatusColor(Some("completed")) == Green && LogBadge(Some("completed")) == Blue
  {
    assert Lower("Completed") == "completed";
    assert Lower("Failed") == "failed";
    assert Lower("completed") == "completed";
  }

  /** What an entry's output cell shows. */
  datatype OutputCell = Generating | Output(text: string) | NoOutputText(text: string)

  /** An entry that is running shows progress; otherwise its output when it
      has a non-empty one; otherwise its error message, or `No output`. */
  function LogOutput(entry: LogEntry): (c: OutputCell)
    ensures c == Generating <==> entry.status == Some("Running")
    ensures c.Output? <==> entry.status != Some("Running") && Truthy(entry.outputData)
    ensures c.Output? ==> c.text == entry.outputData.value
    ensures c.NoOutputText? ==> c.text != "" && (Truthy(entry.errorMessage) ==> c.text == entry.errorMessage.value)
    ensures c.NoOutputText? && !Truthy(entry.errorMessage) ==> c.text == NoOutput
  {
    if entry.status == Some("Running") then Generating
    else if Truthy(entry.outputData) then Output(entry.outputData.value)
    else NoOutputText(OrElse(entry.errorMessage, NoOutput))
  }

  /** A failed step without output shows its error message. */
  lemma FailedStepShowsItsError(entry: LogEntry)
    requires entry.status == Some("Failed") && !Truthy(entry.outputData) && Truthy(entry.errorMessage)
    ensures LogOutput(entry) == NoOutputText(entry.errorMessage.value)
  {
  }

  /** One card of the execution log. */
  datatype LogCard = LogCard(number: nat, badge: Color, highlighted: bool, input: Option<string>, output: OutputCell)

  /** The execution log's cards: one per entry, in the snapshot's order,
      numbered from 1; the running entry is highlighted. */
  function LogCards(entries: seq<LogEntry>): (cards: seq<LogCard>)
    ensures |cards| == |entries|
    ensures forall i :: 0 <= i < |entries| ==>
              cards[i] == LogCard(i + 1, LogBadge(entries[i].status), entries[i].status == Some("Running"),
                                  entries[i].inputData, LogOutput(entries[i]))
  {
    var numbered := Numbered(entries);
    seq(|entries|, i requires 0 <= i < |entries| =>
      var (n, entry) := numbered[i];
      LogCard(n, LogBadge(entry.status), entry.status == Some("Running"), entry.inputData, LogOutput(entry)))
  }

  /** The logs section, present once an execution id is set. */
  datatype LogSection = LogSection(badge: Option<Color>, trigger: string, cards: seq<LogCard>)

  /** The page: an error panel when the last fetch failed, otherwise the
      input card and, once an execution id is set, the logs section. */
  datatype RunView = ErrorPanel(message: string) | RunPage(section: Option<LogSection>)

  /** `history?.execution_log`: the snapshot's entries, none without one. */
  function SnapshotEntries(data: Option<Execution>): seq<LogEntry>
  {
    if data.Some? && data.value.log.Some? then data.value.log.value else []
  }

  function RenderRun(input: string, executionId: Option<nat>, q: QueryView): (v: RunView)
    ensures v.ErrorPanel? <==> q.failure.Some?
    ensures v.ErrorPanel? ==> v.message != "" && (Truthy(q.failure.value.message) ==> v.message == q.failure.value.message.value)
    ensures v.ErrorPanel? && !Truthy(q.failure.value.message) ==> v.message == FetchFailedFallback
    ensures v.RunPage? ==> (v.section.Some? <==> IdSet(executionId))
    ensures v.RunPage? && v.section.Some? ==>
              v.section.value.trigger == input &&
              (v.section.value.badge.Some? <==> q.data.Some?) &&
              (q.data.Some? ==> v.section.value.badge == Some(StatusColor(q.data.value.status))) &&
              v.section.value.cards == LogCards(SnapshotEntries(q.data))
  {
    if q.failure.Some? then
      ErrorPanel(OrElse(q.failure.value.message, FetchFailedFallback))
    else if !IdSet(executionId) then
      RunPage(None)
    else
      var badge := if q.data.Some? then Some(StatusColor(q.data.value.status)) else None;
      RunPage(Some(LogSection(badge, input, LogCards(SnapshotEntries(q.data)))))
  }

  /** A run that failed is not an error of the page: it renders as the
      normal page with a red badge; the error panel is kept for fetches that
      failed. */
  lemma FailedRunIsNotAFetchError(input: string, id: nat, e: Execution)
    requires id != 0 && e.status == Some("Failed")
    ensures RenderRun(input, Some(id), QueryView(Some(e), None)).RunPage?
    ensures RenderRun(input, Some(id), QueryView(Some(e), None)).section.value.badge == Some(Red)
  {
    assert Lower("Failed") == "failed";
  }

  // ---------------------------------------------------------------- the page

  class ExecutionMonitor {
    /** The `:id` of the page's route. */
    const workflowRef: string
    var input: string
    var executionId: Option<nat>
    var query: QueryView
    /** Whether a fetch of the snapshot is due. */
    var pollScheduled: bool

    /** Fetching is enabled exactly when the execution id is truthy. */
    predicate FetchEnabled(): (b: bool)
      reads this
      ensures b <==> executionId.Some? && executionId.value != 0
    {
      IdSet(executionId)
    }

    /** A fetch is only ever due for an enabled query whose last snapshot
        is not terminal. */
    ghost predicate Valid()
      reads this
    {
      pollScheduled ==> FetchEnabled() && RefetchInterval(query.data) != Stop
    }

    function View(): RunView
      reads this
    {
      RenderRun(input, executionId, query)
    }

    constructor (workflowRef: string)
      ensures Valid()
      ensures this.workflowRef == workflowRef
      ensures input == "" && executionId == None && query == EmptyQuery && !pollScheduled
    {
      this.workflowRef := workflowRef;
      input := "";
      executionId := None;
      query := EmptyQuery;
      pollScheduled := false;
    }

    /** Typing in the input box, which exists only while no fetch error
        replaces the page and is locked while a run is `Running`. */
    method EditInput(text: string)
      requires query.failure.None? && !InputLocked(false, query.data)
      modifies this`input
      ensures input == text
    {
      input := text;
    }

    /** "Start Execution": posts the input to the workflow's execute URL. A
        success records the returned execution id; a new id opens a new
        query with no snapshot yet, whose first fetch is due at once if the
        id is truthy. A failure changes nothing and reports the server's
        message or a fallback. */
    method Start(response: StartResponse) returns (url: string, body: string, notice: Notice)
      requires Valid() && query.failure.None? && !StartDisabled(input, false, query.data)
      modifies this`executionId, this`query, this`pollScheduled
      ensures Valid()
      ensures url == "/workflows/" + workflowRef + "/execute" && body == input
      ensures response.Started? ==> executionId == response.executionId && notice == Success(StartedNotice)
      ensures response.Started? && response.executionId != old(executionId) ==>
                query == EmptyQuery && pollScheduled == FetchEnabled()
      ensures response.StartFailed? ==> executionId == old(executionId) && notice == Failure(StartFailureMessage(response.serverMessage))
      ensures (response.StartFailed? || response.executionId == old(executionId)) ==>
                query == old(query) && pollScheduled == old(pollScheduled)
    {
      url := "/workflows/" + workflowRef + "/execute";
      body := input;
      match response
      case Started(id) =>
        if id != executionId {
          executionId := id;
          query := EmptyQuery;
          pollScheduled := IdSet(id);
        }
        notice := Success(StartedNotice);
      case StartFailed(message) =>
        notice := Failure(OrElse(message, StartFailedFallback));
    }

    /** One fetch of the snapshot, made while one is due: the answer
        replaces the view, and the polling rule decides whether another
        fetch follows. */
    method Poll(r: FetchResult) returns (next: Interval)
      requires Valid() && pollScheduled
      modifies this`query, this`pollScheduled
      ensures Valid()
      ensures query == ApplyFetch(old(query), r)
      ensures next == RefetchInterval(query.data)
      ensures pollScheduled <==> next != Stop
    {
      match r {
        case Fetched(e) =>
          query := QueryView(Some(e), None);
        case FetchFailed(f) =>
          query := QueryView(query.data, Some(f));
      }
      next := RefetchInterval(query.data);
      pollScheduled := next != Stop;
    }
  }
}
