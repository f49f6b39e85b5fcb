# Rundeck execution tracking, modelled in Dafny

This project models the core of a Rundeck integration for a flows
platform. Rundeck only answers status queries, so the app turns them into
a stream of events with an execution-tracking state machine:

- `startTracking` reports an execution that is already terminal once.
  Otherwise it opens a pending event, stores a `TrackingState` record under
  `tracking:<parentEventId>` in the block's key-value store, and sets a
  timer.
- `pollExecution` runs on every timer activation. It re-reads the status
  and emits on a change. A terminal change completes the pending event
  and deletes the record. Fetch failures are retried up to `maxRetries`,
  after which the pending event is cancelled and the record deleted. A
  wake whose record is gone does nothing.
- `cleanupStaleTracking` runs hourly. It pages through the `tracking:`
  keys and cancels and deletes the records created more than 24 hours
  ago.

Around the state machine the project models:

- the terminal-status classifier and its duplicate copy;
- the `mapExecution` projection that every event carries;
- the Run Job and Subscribe to Execution block handlers that drive the
  tracker;
- the project and job suggestion filters.

Layout:

- `execution_poller.dfy`: module `ExecutionPoller`. A `World` value holds
  the platform state one activation touches: store, pending events,
  emitted events, timers set. The pure functions `Started`, `Polled` and
  `Cleaned` give the world after each operation. The class `BlockRuntime`
  holds the same four fields and performs the operations step by step
  through the platform calls (`KvGet`, `KvSet`, `KvDelete`, `Emit`,
  `CreatePending`, `UpdatePending`, `CancelPending`, `SetTimer`). Each
  method is proved to reach exactly the world its function gives, and to
  keep the invariant `Consistent`. A second invariant, `TimersAgree`
  (every timer addressed to a live record carries that record's pending
  event id), is kept by wakes that come from timers the tracker set and by
  starts for parent events not tracked before.
- `tracker_properties.dfy`: module `TrackerProperties`, the promises of
  the tracker as lemmas over those functions.
- One module for each remaining source file: `execution_statuses.dfy`,
  `execution_states.dfy`, `map_execution.dfy` (module `ExecutionMapping`),
  `run_job.dfy`, `subscribe_to_execution.dfy`, `suggest_projects.dfy`,
  `suggest_jobs.dfy`.
- Two helper modules that correspond to no source file. `text.dfy` holds JavaScript truthiness, ASCII `toLowerCase`, `includes`,
  `filter` and `map`.
  `wrappers.dfy` holds `Option` and `Result`.

Inputs the model receives as parameters:

- `now` stands for `Date.now()`.
- The answer of each Rundeck request is a `FetchResult` or `PostResult`:
  the execution, or failure.
- The id `events.createPending` allocates is `newPendingId`.
- The pages `kv.block.list` returns are a sequence of `Page` values.
- The timer payload and pending event id are arguments of `OnTimer`.

Behaviour of the code worth knowing:

- Both blocks describe `maxRetries` as the maximum number of consecutive
  poll failures before giving up (blocks/runJob.ts:43-44,
  blocks/subscribeToExecution.ts:27-28). But `pollExecution` writes the
  record only when the status changes (utils/executionPoller.ts:79-110).
  A successful poll that sees the same status therefore leaves the error
  count as it was (`TrackerProperties.PollUnchangedStatus`). Failures
  separated by such polls add up
  (`TrackerProperties.FailuresAcrossUnchangedPollAddUp`).
- Subscribe to Execution passes `pollInterval` and `maxRetries` through
  without a fallback. With `maxRetries` unset, `errorCount >= undefined` is
  false in JavaScript, so the tracker never gives up
  (`SubscribeToExecution.NoBudgetNeverGivesUp`).
- `pollExecution` uses the pending id carried by the timer, not the one
  stored in the record, to complete, update or cancel a pending event. For
  a wake that comes from a timer the tracker set, the two are the same
  (`TrackerProperties.DeliveredWakeResolvesOwnPending`).
- A duplicate or late wake is harmless only once the record is gone
  (`TrackerProperties.LateWakeIsHarmless`). Two deliveries of a live
  tracker's wake each set a timer, so the timer chain forks
  (`TrackerProperties.DuplicateWakeForksChain`). A failing wake delivered
  twice counts as two failures
  (`TrackerProperties.DuplicateFailingWakeCountsTwice`).
- The two terminal-status modules both exist and are proved to agree.

## Model

| member | source | states |
|---|---|---|
| `ExecutionStatuses.AsTerminalStatus` | utils/executionStatuses.ts:1-18 | the type guard holds exactly for the five terminal statuses, and a terminal string is the literal of one member of the `TerminalStatus` union |
| `ExecutionStatuses.StatusNamesAreTerminal` | utils/executionStatuses.ts:1-14 | every member of the union is classified terminal, and distinct members have distinct literals |
| `ExecutionStatuses.TerminalStatusCount` | utils/executionStatuses.ts:8-14 | the terminal record has exactly five keys |
| `ExecutionStatuses.NonTerminalStatuses` | utils/executionStatuses.ts:16-18 | `running`, `scheduled`, `other` and the empty string are not terminal |
| `ExecutionStates.AsTerminalState` | utils/executionStates.ts:1-18 | the duplicate guard holds exactly for its five statuses and names a member of `TerminalState` |
| `ExecutionStates.ToStatus` | utils/executionStates.ts:1-6 | each `TerminalState` member corresponds to the `TerminalStatus` member with the same literal |
| `ExecutionStates.StatesAgreeWithStatuses` | utils/executionStates.ts:8-18 | `isTerminalState(s) == isTerminalStatus(s)` for every string, and both guards pick the same literal |
| `ExecutionStates.TerminalStateFacts` | utils/executionStates.ts:8-18 | the duplicate set equals the canonical one, has five members, and excludes `running`, `scheduled`, `other` |
| `ExecutionMapping.MapExecution` | utils/mapExecution.ts:3-27 | identifying fields, status, optional fields and the kept job fields are copied; `dateStarted` is the start date; `dateEnded` is absent exactly when `date-ended` is |
| `ExecutionMapping.MapExecutionRoundTrip` | utils/mapExecution.ts:3-26 | the event plus the dropped fields (server UUID, Unix times, job links) rebuild the execution, so nothing else is lost |
| `ExecutionMapping.MapExecutionIgnoresOnlyDropped` | utils/mapExecution.ts:3-26 | two executions give the same event exactly when they differ only in the dropped fields |
| `Text.Lower` | utils/suggestProjects.ts:34-38 | lower-casing keeps the length and lower-cases each ASCII letter in place |
| `Text.LowerIdempotent` | utils/suggestJobs.ts:30-31 | lower-casing twice is lower-casing once |
| `Text.IncludesIff` | utils/suggestProjects.ts:34-38 | `includes` holds exactly when the needle occurs at some position; the empty needle occurs everywhere |
| `Text.SubsequenceRefl` | utils/suggestProjects.ts:31-40 | the unfiltered list is an order-preserving subsequence of itself |
| `Text.Filter` | utils/suggestProjects.ts:31-40 | `filter` keeps exactly the elements satisfying the callback, in order, each as many times as it occurs in the input, and is no longer than its input |
| `Text.FilterAll` | utils/suggestJobs.ts:27-33 | a callback that keeps everything returns the list unchanged |
| `Text.Map` | utils/suggestProjects.ts:43-46 | `map` applies the callback at every index; every output comes from an input |
| `SuggestProjects.SuggestProjects` | utils/suggestProjects.ts:28-59 | an error gives []; without a phrase every project is returned in order; with one, every matching project's suggestion is returned; each suggestion comes from a project (matching when a phrase is given) with `label \|\| name` as label and the name as value; the result is the labelling of an order-preserving subsequence; with a phrase, that subsequence holds each matching project as many times as the input does and no other |
| `SuggestProjects.ProjectSearchIgnoresCase` | utils/suggestProjects.ts:31-39 | matching a phrase is the same as matching its lower-cased form |
| `SuggestJobs.SuggestJobs` | utils/suggestJobs.ts:10-45 | a missing or empty project, or an error, gives []; without a phrase every job is returned in order; with one, every job whose name or group matches is returned; results come from jobs, in order, no more than the input; with a phrase, they label a subsequence that holds each matching job as many times as the input does and no other |
| `SuggestJobs.JobLabels` | utils/suggestJobs.ts:35-40 | the label is `group/name` for a grouped job and `name` otherwise; the value is the job id |
| `SuggestJobs.JobSearchIgnoresCase` | utils/suggestJobs.ts:27-33 | matching a phrase is the same as matching its lower-cased form |
| `ExecutionPoller.TrackingKey` | utils/executionPoller.ts:31 | the key is `tracking:` followed by the parent event id, so distinct parents get distinct keys |
| `ExecutionPoller.VisitedCount` | utils/executionPoller.ts:148-165 | the do-while loop requests at least one page when there is one, and never more than the store returns |
| `ExecutionPoller.StartedKeepsConsistent` | utils/executionPoller.ts:16-56 | starting keeps the invariant: keys are tracking keys, records name known pending events, carry an error count, and a timer for their key and their own pending event has been set |
| `ExecutionPoller.PolledKeepsConsistent` | utils/executionPoller.ts:58-142 | polling keeps the same invariant |
| `ExecutionPoller.CleanedKeepsConsistent` | utils/executionPoller.ts:144-166 | cleanup keeps the same invariant |
| `ExecutionPoller.StartedKeepsTimersAgree` | utils/executionPoller.ts:31-55 | starting a tracker for a parent event not tracked before keeps every timer of a live record carrying that record's pending id |
| `ExecutionPoller.PolledKeepsTimersAgree` | utils/executionPoller.ts:70-141 | a wake from a timer that was set keeps the same agreement: the timer it sets carries the record's pending id |
| `ExecutionPoller.CleanedKeepsTimersAgree` | utils/executionPoller.ts:144-166 | cleanup keeps the same agreement |
| `ExecutionPoller.SweepStep` | utils/executionPoller.ts:154-161 | handling one more listed pair deletes its key and cancels its pending event exactly when it is stale |
| `ExecutionPoller.BlockRuntime.StartTracking` | utils/executionPoller.ts:16-56 | the emit-only or pending-record-timer sequence reaches exactly `Started` and keeps `Consistent` |
| `ExecutionPoller.BlockRuntime.PollExecution` | utils/executionPoller.ts:58-142 | the load, fetch, compare, emit, store, delete and timer steps reach exactly `Polled` and keep `Consistent` |
| `ExecutionPoller.BlockRuntime.SweepPage` | utils/executionPoller.ts:154-161 | the loop over one page's pairs deletes exactly the stale keys and cancels exactly their pending events, on top of the pages already handled |
| `ExecutionPoller.NextPage` | utils/executionPoller.ts:148-165 | reading one page appends its pairs to those listed and moves the do-while loop on exactly when the page names a next starting key |
| `ExecutionPoller.BlockRuntime.CleanupStaleTracking` | utils/executionPoller.ts:144-166 | the paged do-while loop with the nested pair loop reaches exactly `Cleaned` (deletes the stale listed keys, cancels their pending events) and keeps `Consistent` |
| `TrackerProperties.StartOnTerminalEmitsOnce` | utils/executionPoller.ts:23-29 | a terminal execution is emitted once with the output key and parent, and nothing is stored, created or scheduled |
| `TrackerProperties.StartOnRunningTracks` | utils/executionPoller.ts:31-55 | a non-terminal execution gets one open pending event, one record (status, error count 0, `createdAt = now`, pending id), one timer with key and pending id, no emission, no other key changed |
| `TrackerProperties.StartEitherEmitsOrSchedules` | utils/executionPoller.ts:16-56 | exactly one of "one emission" and "one timer with its record" happens, the emission exactly for terminal statuses |
| `TrackerProperties.PollWithoutRecordIsNoOp` | utils/executionPoller.ts:70-71 | a wake without a record changes nothing |
| `TrackerProperties.LateWakeIsHarmless` | utils/executionPoller.ts:70-71 | after a poll that ended a tracker, any further wake for its key changes nothing |
| `TrackerProperties.PollUnchangedStatus` | utils/executionPoller.ts:79-110 | an unchanged status emits, stores and updates nothing (the error count is kept) and sets exactly one timer with the same key, pending id and interval |
| `TrackerProperties.PollTerminalChange` | utils/executionPoller.ts:79-93 | a terminal change emits one event completing the pending id, naming the record's parent; that pending event is marked completed and no other entry changes; the record is deleted; no timer |
| `TrackerProperties.PollNonTerminalChange` | utils/executionPoller.ts:79-110 | a non-terminal change stores the new status with error count 0, emits one non-completing event, replaces the event and status description of that pending event and changes no other entry, and sets one timer |
| `TrackerProperties.PollFetchFailure` | utils/executionPoller.ts:111-141 | a failure raises the count by one (missing counts as 0); at `maxRetries` that pending event is cancelled, the record deleted, no timer; below it only the count changes, only the description of that pending event changes to show the progress, one timer with the same interval; no other pending entry changes |
| `TrackerProperties.PollKeepsRecordIffRescheduled` | utils/executionPoller.ts:58-142 | a record survives a poll exactly when one timer (its key, the wake's pending id, the interval) is appended; other keys are untouched |
| `TrackerProperties.DeliveredWakeResolvesOwnPending` | utils/executionPoller.ts:58-142 | a wake from a timer the tracker set carries the record's own pending id, which the platform knows; a poll that ends the tracker completes it on a fetched status and cancels it on a failure |
| `TrackerProperties.DuplicateWakeForksChain` | utils/executionPoller.ts:106-110 | two deliveries of one unchanged-status wake of a live tracker set two timers: the chain forks, nothing else changes |
| `TrackerProperties.DuplicateFailingWakeCountsTwice` | utils/executionPoller.ts:111-141 | with two retries left, one delivery of a failing wake keeps the record, a duplicated delivery ends the tracker |
| `TrackerProperties.FailuresAcrossUnchangedPollAddUp` | utils/executionPoller.ts:79-141 | a failure, an unchanged-status poll and another failure raise the error count by two: only a status change resets it |
| `TrackerProperties.RetryCounterBounded` | utils/executionPoller.ts:111-130 | a record that survives a failed fetch has an error count one higher and below `maxRetries` |
| `TrackerProperties.ConsecutiveFailures` | utils/executionPoller.ts:111-141 | from a fresh record, n < maxRetries failures leave error count n and n timers; the maxRetries-th failure removes the record; nothing is emitted |
| `TrackerProperties.RunningThenSucceeded` | utils/executionPoller.ts:16-110 | execution 42 started `running`, polled `running` (silent, one timer), then `succeeded`: one completing event for 42, pending completed, record deleted, no further timer |
| `TrackerProperties.ListingIsVisitedToTheEnd` | utils/executionPoller.ts:148-165 | on a complete listing the loop requests every page |
| `TrackerProperties.VisitedToTheEnd` | utils/executionPoller.ts:164-165 | pages that all announce a next key, except the last, are all requested |
| `TrackerProperties.CleanupKeepsFresh` | utils/executionPoller.ts:154-161 | records at or above the threshold and keys without a value keep their values; nothing is emitted or scheduled |
| `TrackerProperties.CleanupSkipsUntrackedKeys` | utils/executionPoller.ts:148-152 | the listing covers only the tracking prefix, so a record under another key survives cleanup unchanged |
| `TrackerProperties.CleanupRemovesExactlyStale` | utils/executionPoller.ts:144-166 | on a complete listing, exactly the records with `createdAt < now - 86400000` are deleted and exactly their pending events cancelled |
| `RunJob.ConfigDefaults` | blocks/runJob.ts:89-133 | `pollInterval` defaults to 5, `maxRetries` to 3, tracking to on; configured values are used as they are |
| `RunJob.BuildRequest` | blocks/runJob.ts:83-103 | the body always has `loglevel` ("INFO" when unset); `options` and `filter` are set exactly for non-empty inputs |
| `RunJob.OnEvent` | blocks/runJob.ts:81-124 | builds the request, and reaches `Submitted`: emit on the default output, then start tracking on `stateChanged` when enabled; keeps `Consistent` |
| `RunJob.OnTimer` | blocks/runJob.ts:128-154 | reaches `TimerFired`: nothing without a pending id, else a poll of the payload with the defaulted settings on `stateChanged` |
| `RunJob.SubmissionIsAnnouncedFirst` | blocks/runJob.ts:109-123 | the mapped execution is emitted first, once, on the default output; at most one more event follows, on `stateChanged`, only when tracking; without tracking nothing else changes |
| `RunJob.SubmissionStartsTracking` | blocks/runJob.ts:115-123 | with tracking on, a running execution is tracked under the input event's key with the configured or default interval |
| `RunJob.FailedSubmissionIsNoOp` | blocks/runJob.ts:105-108 | a failed submission changes nothing |
| `RunJob.TimerWithoutPendingIsNoOp` | blocks/runJob.ts:135-140 | a timer without a (non-empty) pending id changes nothing |
| `RunJob.TimerPollsPayload` | blocks/runJob.ts:128-153 | the payload is the tracking key; emissions go to `stateChanged`; timers keep payload, pending id and interval; with the default budget the third failure ends the tracker |
| `SubscribeToExecution.OnEvent` | blocks/subscribeToExecution.ts:45-66 | reaches `Subscribed`: after the fetch, tracking starts on the default output with the input event as parent; keeps `Consistent` |
| `SubscribeToExecution.OnTimer` | blocks/subscribeToExecution.ts:70-96 | reaches `SubscriptionTimerFired`: nothing without a pending id, else a poll of the payload with the configured settings |
| `SubscribeToExecution.SubscribeEmitsOnlyThroughTracker` | blocks/subscribeToExecution.ts:45-66 | the handler emits nothing itself: at most the tracker's single terminal report, on the default output and naming the input event as parent; a failed fetch changes nothing |
| `SubscribeToExecution.SubscribeTracksRunning` | blocks/subscribeToExecution.ts:56-65 | a running execution is tracked under the input event's key with the configured interval passed through |
| `SubscribeToExecution.SubscriptionTimerPollsPayload` | blocks/subscribeToExecution.ts:70-96 | no pending id, no change; otherwise emissions go to the default output and timers keep payload, pending id and the configured interval |
| `SubscribeToExecution.NoBudgetNeverGivesUp` | blocks/subscribeToExecution.ts:74-93 | with no `maxRetries` configured, a failed fetch keeps the record and sets a timer |

## Left out

- HTTP and JSON: `rundeck/client.ts`, `createRundeckClient`, the API
  version default and URL building are not part of this model. Each
  request is reduced to its answer (execution or failure).
- `JSON.parse` of the job options in Run Job: the body carries the option
  text as given. A parse failure is not modelled.
- Platform facilities: `Date.now()`, timer delivery, the hourly cron
  trigger and concurrency between activations. The timers set are kept
  as a log and never delivered. `now` and the listed pages are
  parameters. The pending id that `events.createPending` allocates is a
  parameter too.
- Text formatting: pending descriptions, timer descriptions and
  cancellation reasons are kept as template and arguments, not rendered
  strings. Logging (`console.log`/`console.error`) is left out.
- Exceptions thrown after the fetch: the `try` in `pollExecution` also
  catches failures of `emit`, `updatePending` and `timers.set`. Only a
  fetch failure is modelled as the error path.
- Platform semantics of unknown ids: updating, completing or cancelling
  an id the pending table does not hold leaves the table unchanged.
- `ExecutionStatuses.AsTerminalStatus`: the JavaScript `in` operator also
  answers true for inherited names such as `"toString"`. The model uses
  the closed five-element set. The same holds for
  `ExecutionStates.AsTerminalState`.
- Suggestion filters: `toLowerCase` is modelled on ASCII letters only.
  Projects and jobs carry only the fields the suggestions read.
- The request-and-emit blocks (`listJobs`, `listExecutions`,
  `getExecution`), app wiring (`main.ts`, `blocks/index.ts`) and the
  output schema literals are not part of this model.
- `TrackerProperties.CleanupRemovesExactlyStale`: it is stated for a
  listing that enumerates the store's tracking keys completely and
  consistently. The store is not modelled further, and the model has no
  defensive page cap, because the source has none.
