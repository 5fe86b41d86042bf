# Workflow builder, execution monitor and session rules — a Dafny model

This project models the decision logic of a React front end for building and running
AI-agent workflows. A workflow is a named, ordered pipeline of agent steps. Running it
feeds one input through the steps in order. The model covers three parts.

- **Workflow builder** (`builder.dfy`, class `Builder.WorkflowBuilder`). The workflow
  header (name and description) must be created first. Only then does the step form
  appear. Each step the server accepts is appended to the pipeline, and the form is
  partly reset. "Finish & Run" appears once the header is saved and at least one step
  exists.
- **Execution monitor** (`monitor.dfy`, class `Monitor.ExecutionMonitor`). The page
  starts an execution, then fetches the execution's snapshot every second. The
  polling is meant to stop once the run completes or fails; as written it does not
  (see "## Findings"). It renders the overall status, one card per log entry, and
  an error panel when a fetch fails.
- **Session rules** (`session.dfy`, `routes.dfy`). A stored token is usable when it is
  non-empty and not the string `undefined` or `null`. Only a usable token is sent as
  the `Authorization` header. A 401 outside the login, register and landing views
  clears the token and moves to `/login`. Two route guards, ProtectedRoute and
  PublicRoute, split the route table between signed-in and signed-out visitors.
- **Shared helpers** (`base.dfy`). JavaScript truthiness and `||` fallbacks,
  `toLowerCase`, `trim`, decimal rendering of ids, and 1-based list numbering.

Page state lives in class fields that the handler methods update. The server's answer
to a request is a parameter of the method that sends it. `localStorage` and
`window.location` are the two fields of `Session.Browser`. Every display decision is
a pure function of the state.

Three behaviours a user of these pages might expect are absent from the code, and the
model follows the code:

- **Adding a step.** One might expect the step form to be checked before it is sent,
  as the header name is. The code sends it as it is, even with an empty name or
  prompt.
- **Edit mode.** The `/dashboard/edit/:id` route renders the builder, but the page
  never reads the `:id` parameter. It offers no way to load, update or delete
  existing steps.
- **Start button.** One might expect the start button to stay disabled while a run
  is not over. The code disables it only while the status is exactly `Running`. So
  with a `Pending` or `RUNNING` status the page keeps polling while the button is
  enabled (`Monitor.StartEnabledWhilePolling`).

## Model

| member | source | states |
|---|---|---|
| Base.TrimEmptyIffAllWhitespace | src/pages/WorkflowBuilder.jsx:58 | `s.trim() === ""` holds exactly when every character of `s` is ECMAScript whitespace or a line terminator, the empty string included |
| Base.Numbered | src/pages/WorkflowBuilder.jsx:214-219 | the list rendering numbers the entry at position i as i + 1, with the i-th element, in list order, one entry per element |
| Session.UsableToken | src/lib/axios.js:10 | a stored token is usable exactly when it is present and none of the empty string, `undefined` or `null`; both guards of the route table use the same test |
| Session.WithAuthorization | src/lib/axios.js:9-12 | the Authorization header becomes exactly the raw token iff the token is usable; otherwise the headers are unchanged; no other header changes |
| Session.Browser.InterceptRequest | src/lib/axios.js:8-13 | the request interceptor returns the same config object; only its headers change, as WithAuthorization says |
| Session.ForcesLogout | src/lib/axios.js:23-25 | a logout is forced iff the request was rejected with a response of status 401 and the path neither starts with `/login` or `/register` nor equals `/` |
| Session.AfterResponse | src/lib/axios.js:23-28 | a forced logout removes the token and sets the location to `/login`; any other outcome leaves token and location as they were |
| Session.Browser.InterceptResponse | src/lib/axios.js:19-32 | responses and errors are passed on unchanged (errors re-rejected); the store changes as AfterResponse says |
| Session.LoginPathIsExempt | src/lib/axios.js:25-27 | the page a forced logout moves to is itself exempt: no outcome forces a logout there |
| Session.SecondUnauthorizedIsInert | src/lib/axios.js:23-28 | once a forced logout has moved the location to `/login`, a further outcome (a second 401 included) changes nothing |
| Session.AtMostOneLogout | src/lib/axios.js:23-28 | over any series of outcomes without other navigation in between, with the move to `/login` taking effect at once, the token is cleared at most once, and the final store is either the initial one or the logged-out one |
| Session.OnlyUnauthorizedEndsSession | src/lib/axios.js:23 | successes, non-401 errors and errors without a response leave token and location unchanged |
| Routes.ProtectedRoute | src/App.jsx:19-25 | renders its page iff the token is usable (the interceptor's predicate); otherwise redirects to `/login` |
| Routes.PublicRoute | src/App.jsx:27-33 | redirects to `/dashboard` iff the token is usable; otherwise renders its page |
| Routes.GuardsAreComplementary | src/App.jsx:21-29 | for every stored token exactly one of the two guards renders its page |
| Routes.Lookup | src/App.jsx:39-51 | the route found is in the table and matches the path's segments; none is found iff no route matches |
| Routes.Resolve | src/App.jsx:39-51 | an unmatched path goes to `/`; a public route redirects to `/dashboard` iff the token is usable; a protected route redirects to `/login` iff it is not; a rendered page is the matched route's page |
| Routes.RouteTable | src/App.jsx:40-48 | `/`, `/login` and `/register` select public routes; `/dashboard`, `/dashboard/create`, `/dashboard/edit/:id` and `/dashboard/run/:id` select protected ones |
| Routes.EditPageReceivesId | src/App.jsx:47 | with a usable token, `/dashboard/edit/<id>` renders the builder with `<id>` as its one route parameter |
| Routes.RunPageReceivesId | src/App.jsx:48 | with a usable token, `/dashboard/run/<id>` renders the run page with `<id>` as its one route parameter, the `id` the page posts to |
| Routes.UnknownPathsGoHome | src/App.jsx:51 | a path whose first segment is none of `login`, `register`, `dashboard` falls to the catch-all and is redirected to `/` |
| Routes.NavigationSettles | src/App.jsx:19-51 | following redirects from any path reaches a rendered page after at most two redirects |
| Builder.BlankNameIsAllWhitespace | src/pages/WorkflowBuilder.jsx:58-61 | the create handler refuses a name exactly when it is empty or whitespace only |
| Builder.StepsAfterAdd | src/pages/WorkflowBuilder.jsx:46-48 | a successful add grows the steps by exactly one, keeps the earlier steps in order and puts the returned agent last; a failed add changes nothing |
| Builder.StepsFollowCallOrder | src/pages/WorkflowBuilder.jsx:46-48 | after any series of adds the steps are the earlier steps followed by the agents of the successful answers, in call order |
| Builder.Preview | src/pages/WorkflowBuilder.jsx:214-228 | one preview card per step, in list order, numbered index + 1, showing that step's model, name and prompt, with a connector below all but the last |
| Builder.FinishPathIsUnrouted | src/pages/WorkflowBuilder.jsx:75-77 | the path "Finish & Run" navigates to, `/workflows/run/<id>`, is not in the route table: the catch-all redirects it to `/` |
| Builder.WorkflowBuilder.HasWorkflow | src/pages/WorkflowBuilder.jsx:114 | the header counts as saved exactly when the workflow id is present and not 0 (JavaScript truthiness); it locks the header inputs and shows the step form |
| Builder.WorkflowBuilder.CanFinish | src/pages/WorkflowBuilder.jsx:86 | "Finish & Run" is shown exactly when the header is saved and the preview has at least one card |
| Builder.WorkflowBuilder.NextStepNumber | src/pages/WorkflowBuilder.jsx:141 | the step form's label is one more than the number of preview cards |
| Builder.WorkflowBuilder.constructor | src/pages/WorkflowBuilder.jsx:16-27 | no workflow id, no steps, empty forms, model `gemini-1.5-flash`, temperature 0.7 |
| Builder.WorkflowBuilder.EditName | src/pages/WorkflowBuilder.jsx:110-115 | the name input is offered only while no header is saved |
| Builder.WorkflowBuilder.EditDescription | src/pages/WorkflowBuilder.jsx:119-124 | the description input is offered only while no header is saved |
| Builder.WorkflowBuilder.EditAgentName | src/pages/WorkflowBuilder.jsx:136-148 | the step form's inputs exist only once a header is saved |
| Builder.WorkflowBuilder.EditAgentPrompt | src/pages/WorkflowBuilder.jsx:165-170 | as EditAgentName, for the prompt |
| Builder.WorkflowBuilder.SelectModel | src/pages/WorkflowBuilder.jsx:152-159 | the model is one of the two offered options; only the model changes, and the page invariant is kept |
| Builder.WorkflowBuilder.SlideTemperature | src/pages/WorkflowBuilder.jsx:178-184 | the temperature is on the slider, 0 to 2 in steps of 0.1; only the temperature changes, and the page invariant is kept |
| Builder.WorkflowBuilder.CreateHeader | src/pages/WorkflowBuilder.jsx:30-64 | offered only while no header is saved; nothing is sent iff the name is all whitespace; otherwise exactly `{name, description}` is sent; the workflow id becomes the returned id on success and is unchanged otherwise; steps only exist under a saved header |
| Builder.WorkflowBuilder.AddStep | src/pages/WorkflowBuilder.jsx:41-73 | offered only under a saved header; sends the form unvalidated to `/workflows/<id>/steps`; on success appends the returned agent, clears name and prompt, resets temperature to 0.7 and keeps the model; on failure changes nothing; the workflow id is never touched |
| Builder.WorkflowBuilder.Finish | src/pages/WorkflowBuilder.jsx:75-86 | offered only with a saved header and at least one step; navigates to `/workflows/run/<id>`, whose first segment is `workflows` |
| Monitor.StatusRule | src/pages/WorkflowRun.jsx:43-47 | given the status the callback reads, polling stops iff that status, lower-cased, is `completed` or `failed`; a missing status keeps polling every 1000 ms |
| Monitor.RefetchInterval | src/pages/WorkflowRun.jsx:42-48 | polling stops iff the last snapshot's status, lower-cased, is `completed` or `failed`; otherwise (no snapshot included) the next fetch is due after 1000 ms |
| Monitor.ApplyFetch | src/pages/WorkflowRun.jsx:35-40 | the view records a failure exactly when the last fetch failed; its snapshot is the one just fetched, or the previous one after a failure |
| Monitor.ReplayIsHarmless | src/pages/WorkflowRun.jsx:37-40 | applying the same answer twice yields the same view, and a fetched snapshot replaces the previous one whole |
| Monitor.NoSampleAfterTerminal | src/pages/WorkflowRun.jsx:42-48 | in any series of answers, once a terminal snapshot arrives at position k no more than k + 1 fetches are made, and the page is left on a terminal snapshot |
| Monitor.RefetchIntervalAsWritten | src/pages/WorkflowRun.jsx:42-48 | the callback as written stops iff the `status` property of the query object it receives is terminal, not the run's status |
| Monitor.AsWrittenNeverStops | src/pages/WorkflowRun.jsx:42-48 | the callback as written returns 1000 ms for every query object; it would also return 1000 ms if it read the query's own status (`pending`, `error` or `success`) |
| Monitor.AsWrittenTakesEverySample | src/pages/WorkflowRun.jsx:42-48 | with the callback as written every answer in a series is fetched, terminal ones included |
| Monitor.CompletedRunKeepsPollingAsWritten | src/pages/WorkflowRun.jsx:42-48 | for a `Completed` run the intended rule stops after one fetch while the written one fetches again |
| Monitor.StartFailureMessage | src/pages/WorkflowRun.jsx:29-31 | the failure toast is the server's message when it has a non-empty one, else exactly "Failed to start execution." |
| Monitor.InputLocked | src/pages/WorkflowRun.jsx:88 | the input box is locked iff the start request is pending or the snapshot's status is exactly `Running`; a snapshot that locks it is still being polled |
| Monitor.StartDisabled | src/pages/WorkflowRun.jsx:94 | the start button is disabled iff the input is empty, the start request is pending, or the snapshot's status is exactly `Running` |
| Monitor.StartReenabledAfterTerminal | src/pages/WorkflowRun.jsx:94 | with a completed or failed snapshot (any letter case) and a non-empty input, the start button is enabled again |
| Monitor.StartEnabledWhilePolling | src/pages/WorkflowRun.jsx:94 | with status `RUNNING` or `Pending` the start button is enabled although polling goes on |
| Monitor.StatusColor | src/pages/WorkflowRun.jsx:51-59 | the overall badge is green, blue or red iff the lower-cased status is `completed`, `running` or `failed`, and slate for any other or a missing status |
| Monitor.StatusColorIgnoresCase | src/pages/WorkflowRun.jsx:51-59 | the overall badge's colour is the same for a status and its lower-cased form |
| Monitor.TerminalColorIffPollingStops | src/pages/WorkflowRun.jsx:51-59 | the overall badge is green or red exactly when polling stops |
| Monitor.LogBadge | src/pages/WorkflowRun.jsx:135-138 | an entry's badge is green iff its status is exactly `Completed`, red iff exactly `Failed`, blue otherwise |
| Monitor.BadgeColoursOnlyAgreeOnCapitalised | src/pages/WorkflowRun.jsx:136 | the two colourings agree on `Completed` and `Failed` but not on a lower-case `completed` |
| Monitor.LogOutput | src/pages/WorkflowRun.jsx:156-164 | a running entry shows "Generating..."; otherwise a non-empty output is shown; otherwise the non-empty error message, else exactly `No output` |
| Monitor.FailedStepShowsItsError | src/pages/WorkflowRun.jsx:160-163 | a failed entry without output shows its error message |
| Monitor.LogCards | src/pages/WorkflowRun.jsx:131-164 | one card per log entry, in the snapshot's order, numbered idx + 1, with that entry's badge, highlight, input and output |
| Monitor.RenderRun | src/pages/WorkflowRun.jsx:62-172 | the error panel is shown iff the last fetch failed, with the error's non-empty message or else exactly "Failed to load execution logs."; otherwise the logs section exists iff the execution id is truthy, shows the input, has a badge iff a snapshot exists, and its cards are the log cards of the snapshot's entries (none without a snapshot or a log) |
| Monitor.FailedRunIsNotAFetchError | src/pages/WorkflowRun.jsx:62-113 | a run whose status is `Failed` renders as the normal page with a red badge, not as the error panel |
| Monitor.ExecutionMonitor.constructor | src/pages/WorkflowRun.jsx:16-17 | empty input, no execution id, no snapshot, nothing to fetch |
| Monitor.ExecutionMonitor.FetchEnabled | src/pages/WorkflowRun.jsx:41 | the snapshot query is enabled exactly when the execution id is present and not 0 |
| Monitor.ExecutionMonitor.EditInput | src/pages/WorkflowRun.jsx:62-88 | the input box is offered only while no fetch error replaces the page and no `Running` snapshot locks it; only the input changes |
| Monitor.ExecutionMonitor.Start | src/pages/WorkflowRun.jsx:20-32 | offered only while no fetch error replaces the page (lines 62-71) and the button is enabled; posts the input; success sets the returned execution id and opens a fresh query; failure leaves the execution id and the view unchanged and reports the server's message or the fallback |
| Monitor.ExecutionMonitor.Poll | src/pages/WorkflowRun.jsx:35-48 | a fetch is made only while one is due; the answer replaces the view; the next fetch is due iff the polling rule asks for one, so none follows a terminal snapshot |

## Findings

| source | as written | input that shows it | evidently intended | confidence | as-written member | corrected member |
|---|---|---|---|---|---|---|
| src/pages/WorkflowRun.jsx:42-48 | `refetchInterval: (data) => data?.status?.toLowerCase()` reads `status` from its argument. TanStack Query version 5 passes the query object there, not the fetched snapshot. That object has no `status` property (the query's own status, `pending`, `error` or `success`, sits under `state`) | a fetched snapshot with status `Completed`: the callback reads `undefined` and returns 1000, so the page keeps fetching every second for good | stop on the run's own status, read from the query's data | medium, not executed: it depends on the library's major version; the page uses the mutation's `isPending`, which only version 5 has | Monitor.CompletedRunKeepsPollingAsWritten | Monitor.NoSampleAfterTerminal |

The rest of the model polls with the corrected rule, `Monitor.RefetchInterval`. The
as-written rule is `Monitor.RefetchIntervalAsWritten`.

## Left out

- JSX rendering, styling, icons and animation are not modelled. Display decisions are
  pure functions that return colours and cell kinds.
- React and TanStack Query internals are not modelled: hooks, re-rendering, caching per
  query key, retries after a failed fetch, refetch on window focus, timers, unmount
  cancellation, and the stale closure in `setSteps([...steps, data.agent])`. A request
  and its answer form one step: the method that sends it also takes the answer.
- Pending flags of the two builder requests are not modelled, since sending and
  answering are one step. The run page's start-button predicate takes "pending" as a
  parameter, and `Start` is offered with it false.
- Monitor.ExecutionMonitor.Start: a new execution id starts from an empty snapshot.
  An id used earlier would get back TanStack Query's cached snapshot; that cache is
  not modelled.
- Network transport, the axios library, the `baseURL` from the environment and the
  backend are not modelled. Answers are inputs to the methods.
- Log cards' titles (the agent name and model) and the plain status badge are display text and are not modelled.
- Toasts, `alert` and `console.error` are not modelled, except the start toast's text,
  which `Start` returns.
- Temperature is integer tenths (0.7 is 7). `parseFloat` and floating point are left
  out.
- Ids are natural numbers. JavaScript truthiness is kept: an id of 0 counts as unset.
- `toLowerCase` is modelled for ASCII letters only. Full Unicode case mapping is not.
- The route table matches on non-empty `/`-separated segments, with exact case.
  Repeated slashes are collapsed (`//dashboard` selects the dashboard), which
  react-router does not do: it sends such paths to the catch-all. react-router's
  case-insensitive matching and percent-decoding are not modelled.
- Axios's case-insensitive header names are not modelled. Headers are a map keyed by
  exact name.
- Routes.NavigationSettles assumes no other navigation happens between the redirects
  it follows.
- Session.AtMostOneLogout: assigning `window.location.href` starts a navigation, and
  the pathname keeps the old path until the login page loads. The model moves the
  location to `/login` at once. In the browser, a 401 that settles within that window
  clears the token and re-assigns the location again. The end state is the same, but
  "at most once" holds only with the move taking effect at once.
- Session.SecondUnauthorizedIsInert: assumes, as above, that the move to `/login`
  takes effect at once. A second 401 before the login page loads repeats the logout,
  with the same end state.
- The login, register, landing, dashboard-layout and workflow-list pages are not part
  of this model. Their only logic is request forms, message fallbacks and a date
  format.
- Edit mode, step update, step delete and step-edit toggles are not modelled, because
  the builder page does not implement them.
