/** The Run Job block (blocks/runJob.ts): submit a job, report the
    submission at once on the default output, and optionally track the
    execution, reporting its changes on the `stateChanged` output. */
module RunJob {
  import opened Wrappers
  import opened Text
  import opened ExecutionStatuses
  import opened ExecutionMapping
  import opened ExecutionPoller

  /** `input.block.config`. */
  datatype RunJobConfig = RunJobConfig(trackExecution: Option<bool>, pollInterval: Option<int>, maxRetries: Option<int>)

  /** `input.event.inputConfig`. */
  datatype RunJobInput = RunJobInput(jobId: string, options: Option<string>, nodeFilter: Option<string>, logLevel: Option<string>)

  /** `RunJobRequest`; `options` carries the option JSON text. */
  datatype RunJobRequest = RunJobRequest(loglevel: string, options: Option<string>, filter: Option<string>)

  /** The answer to `POST job/<jobId>/executions`. */
  datatype PostResult = Posted(exec: RundeckExecution) | PostFailed

  const DefaultPollInterval: int := 5
  const DefaultMaxRetries: int := 3
  const DefaultLogLevel: string := "INFO"
  const StateChangedOutput: string := "stateChanged"

  /** `pollInterval ?? 5`, `maxRetries ?? 3`, `trackExecution ?? true`. */
  function PollIntervalOf(config: RunJobConfig): int { config.pollInterval.GetOr(DefaultPollInterval) }
  function MaxRetriesOf(config: RunJobConfig): int { config.maxRetries.GetOr(DefaultMaxRetries) }
  predicate TracksExecution(config: RunJobConfig) { config.trackExecution.GetOr(true) }

  /** The defaults apply only to absent settings; a configured value, even
      `false` for tracking, is used as it is. */
  lemma ConfigDefaults(config: RunJobConfig)
    ensures PollIntervalOf(config) == (if config.pollInterval.Some? then config.pollInterval.value else 5)
    ensures MaxRetriesOf(config) == (if config.maxRetries.Some? then config.maxRetries.value else 3)
    ensures TracksExecution(config) <==> config.trackExecution != Some(false)
  {
  }

  /** The request body: the log level (`"INFO"` when unset; a destructuring
      default, so an explicit empty string is kept), and `options` and
      `filter` only when their inputs are non-empty. */
  method BuildRequest(input: RunJobInput) returns (body: RunJobRequest)
    ensures input.logLevel.None? ==> body.loglevel == "INFO"
    ensures input.logLevel.Some? ==> body.loglevel == input.logLevel.value
    ensures body.options.Some? <==> Truthy(input.options)
    ensures body.options.Some? ==> body.options == input.options
    ensures body.filter.Some? <==> Truthy(input.nodeFilter)
    ensures body.filter.Some? ==> body.filter == input.nodeFilter
  {
    body := RunJobRequest(input.logLevel.GetOr(DefaultLogLevel), None, None);
    if Truthy(input.options) {
      body := body.(options := input.options);
    }
    if Truthy(input.nodeFilter) {
      body := body.(filter := input.nodeFilter);
    }
  }

  /** The world after `onEvent` for input event `eventId`. */
  function Submitted(w: World, eventId: string, config: RunJobConfig, posted: PostResult, now: int, newPendingId: string): World {
    match posted
    case PostFailed => w
    case Posted(exec) =>
      var announced := w.(emitted := w.emitted + [Emission(MapExecution(exec), None, None, None)]);
      if TracksExecution(config)
      then Started(announced, exec, eventId, StateChangedOutput, Some(PollIntervalOf(config)), now, newPendingId)
      else announced
  }

  /** The world after `onTimer` for a timer with the given payload and
      pending event. */
  function TimerFired(w: World, payload: string, pendingEvent: Option<string>, config: RunJobConfig, fetched: FetchResult): World {
    if !Truthy(pendingEvent) then w
    else Polled(w, payload, pendingEvent.value, fetched,
                Some(PollIntervalOf(config)), Some(MaxRetriesOf(config)), StateChangedOutput)
  }

  /** `onEvent`: build the request, submit it (`posted` is the answer),
      emit the mapped execution on the default output and, when tracking
      is on, start tracking it on `stateChanged`. */
  method OnEvent(rt: BlockRuntime, eventId: string, input: RunJobInput, config: RunJobConfig,
                 posted: PostResult, now: int, newPendingId: string)
    returns (body: RunJobRequest)
    requires rt.Valid()
    modifies rt
    ensures rt.Valid()
    ensures body.loglevel == input.logLevel.GetOr("INFO")
    ensures body.options == (if Truthy(input.options) then input.options else None)
    ensures body.filter == (if Truthy(input.nodeFilter) then input.nodeFilter else None)
    ensures rt.State() == Submitted(old(rt.State()), eventId, config, posted, now, newPendingId)
  {
    var pollInterval := config.pollInterval.GetOr(DefaultPollInterval);
    body := BuildRequest(input);
    match posted
    case PostFailed =>
      return;
    case Posted(exec) =>
      var mapped := MapExecution(exec);
      rt.Emit(mapped, None, None, None);
      var trackExecution := config.trackExecution.GetOr(true);
      if trackExecution {
        rt.StartTracking(exec, eventId, StateChangedOutput, Some(pollInterval), now, newPendingId);
      }
  }

  /** `onTimer`: without a pending event the activation is abandoned;
      otherwise the payload is polled as the tracking key. */
  method OnTimer(rt: BlockRuntime, payload: string, pendingEvent: Option<string>, config: RunJobConfig, fetched: FetchResult)
    requires rt.Valid()
    modifies rt
    ensures rt.Valid()
    ensures rt.State() == TimerFired(old(rt.State()), payload, pendingEvent, config, fetched)
  {
    var pollInterval := config.pollInterval.GetOr(DefaultPollInterval);
    var maxRetries := config.maxRetries.GetOr(DefaultMaxRetries);
    if !Truthy(pendingEvent) {
      return;
    }
    rt.PollExecution(payload, pendingEvent.value, fetched, Some(pollInterval), Some(maxRetries), StateChangedOutput);
  }

  /** The submission is always reported first, once, on the default output
      and with no parent event id; tracking adds at most one more event, on
      `stateChanged` and naming the input event as parent, and happens only
      when enabled. */
  lemma SubmissionIsAnnouncedFirst(w: World, eventId: string, config: RunJobConfig, exec: RundeckExecution,
                                   now: int, newPendingId: string)
    ensures var w' := Submitted(w, eventId, config, Posted(exec), now, newPendingId);
      && |w.emitted| < |w'.emitted| <= |w.emitted| + 2
      && w'.emitted[..|w.emitted|] == w.emitted
      && w'.emitted[|w.emitted|] == Emission(MapExecution(exec), None, None, None)
      && (|w'.emitted| == |w.emitted| + 2 ==>
            TracksExecution(config)
            && w'.emitted[|w.emitted| + 1] == Emission(MapExecution(exec), Some("stateChanged"), Some(eventId), None))
      && (!TracksExecution(config) ==> w'.store == w.store && w'.pending == w.pending && w'.timers == w.timers)
  {
  }

  /** With tracking on and a running execution, the tracker is keyed by
      the input event and polls with the configured interval (5 seconds
      by default) on the `stateChanged` output. */
  lemma SubmissionStartsTracking(w: World, eventId: string, config: RunJobConfig, exec: RundeckExecution,
                                 now: int, newPendingId: string)
    requires TracksExecution(config) && !IsTerminalStatus(exec.status)
    ensures var w' := Submitted(w, eventId, config, Posted(exec), now, newPendingId);
      && Record(w', TrackingKey(eventId)).Some?
      && Record(w', TrackingKey(eventId)).value.parentEventId == eventId
      && Record(w', TrackingKey(eventId)).value.pendingEventId == newPendingId
      && w'.pending[newPendingId].outputKey == "stateChanged"
      && w'.timers == w.timers + [Timer(Some(if config.pollInterval.Some? then config.pollInterval.value else 5),
                                        TrackingKey(eventId), newPendingId, PollingExecution(exec.id))]
  {
  }

  /** A failed submission changes nothing. */
  lemma FailedSubmissionIsNoOp(w: World, eventId: string, config: RunJobConfig, now: int, newPendingId: string)
    ensures Submitted(w, eventId, config, PostFailed, now, newPendingId) == w
  {
  }

  /** A timer without a pending event changes nothing. */
  lemma TimerWithoutPendingIsNoOp(w: World, payload: string, config: RunJobConfig, fetched: FetchResult)
    ensures TimerFired(w, payload, None, config, fetched) == w
    ensures TimerFired(w, payload, Some(""), config, fetched) == w
  {
  }

  /** A timer polls its payload as the tracking key: what it emits goes to
      `stateChanged`, the next timer carries the same payload and pending
      event, and with the default budget the third consecutive failure
      ends the tracker. */
  lemma TimerPollsPayload(w: World, payload: string, pendingEventId: string, config: RunJobConfig, fetched: FetchResult)
    requires pendingEventId != ""
    ensures var w' := TimerFired(w, payload, Some(pendingEventId), config, fetched);
      && (forall i :: |w.emitted| <= i < |w'.emitted| ==> w'.emitted[i].outputKey == Some("stateChanged"))
      && (forall i :: |w.timers| <= i < |w'.timers| ==>
            w'.timers[i].inputPayload == payload && w'.timers[i].pendingEventId == pendingEventId
            && w'.timers[i].delay == Some(PollIntervalOf(config)))
      && (forall k :: k != payload ==> Record(w', k) == Record(w, k))
      && ((config.maxRetries.None? && fetched.FetchFailed? && Record(w, payload).Some?
           && Record(w, payload).value.errorCount == Some(2))
          ==> Record(w', payload).None?)
  {
  }
}
