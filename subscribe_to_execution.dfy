/** The Subscribe to Execution block (blocks/subscribeToExecution.ts):
    fetch an existing execution and track it, reporting every status
    change on the default output. */
module SubscribeToExecution {
  import opened Wrappers
  import opened Text
  import opened ExecutionStatuses
  import opened ExecutionMapping
  import opened ExecutionPoller

  /** `input.block.config`; both settings are passed on as they are. */
  datatype SubscribeConfig = SubscribeConfig(pollInterval: Option<int>, maxRetries: Option<int>)

  const DefaultOutput: string := "default"

  /** The world after `onEvent` for input event `eventId`; `fetched` is the
      answer to `GET execution/<executionId>`. */
  function Subscribed(w: World, eventId: string, config: SubscribeConfig, fetched: FetchResult,
                      now: int, newPendingId: string): World {
    match fetched
    case FetchFailed => w
    case Fetched(exec) => Started(w, exec, eventId, DefaultOutput, config.pollInterval, now, newPendingId)
  }

  /** The world after `onTimer`. */
  function SubscriptionTimerFired(w: World, payload: string, pendingEvent: Option<string>,
                                  config: SubscribeConfig, fetched: FetchResult): World {
    if !Truthy(pendingEvent) then w
    else Polled(w, payload, pendingEvent.value, fetched, config.pollInterval, config.maxRetries, DefaultOutput)
  }

  /** `onEvent`: fetch the execution, then start tracking it on the
      default output, linked to the input event. */
  method OnEvent(rt: BlockRuntime, eventId: string, config: SubscribeConfig, fetched: FetchResult,
                 now: int, newPendingId: string)
    requires rt.Valid()
    modifies rt
    ensures rt.Valid()
    ensures rt.State() == Subscribed(old(rt.State()), eventId, config, fetched, now, newPendingId)
  {
    var pollInterval := config.pollInterval;
    match fetched
    case FetchFailed =>
      return;
    case Fetched(exec) =>
      rt.StartTracking(exec, eventId, DefaultOutput, pollInterval, now, newPendingId);
  }

  /** `onTimer`: without a pending event the activation is abandoned;
      otherwise the payload is polled as the tracking key. */
  method OnTimer(rt: BlockRuntime, payload: string, pendingEvent: Option<string>,
                 config: SubscribeConfig, fetched: FetchResult)
    requires rt.Valid()
    modifies rt
    ensures rt.Valid()
    ensures rt.State() == SubscriptionTimerFired(old(rt.State()), payload, pendingEvent, config, fetched)
  {
    var pollInterval := config.pollInterval;
    var maxRetries := config.maxRetries;
    if !Truthy(pendingEvent) {
      return;
    }
    rt.PollExecution(payload, pendingEvent.value, fetched, pollInterval, maxRetries, DefaultOutput);
  }

  /** `onEvent` emits nothing of its own: the only possible event is the
      tracker's report of an already terminal execution, on the default
      output and linked to the input event. */
  lemma SubscribeEmitsOnlyThroughTracker(w: World, eventId: string, config: SubscribeConfig, fetched: FetchResult,
                                         now: int, newPendingId: string)
    ensures var w' := Subscribed(w, eventId, config, fetched, now, newPendingId);
      && w'.emitted[..|w.emitted|] == w.emitted
      && |w'.emitted| <= |w.emitted| + 1
      && (|w'.emitted| == |w.emitted| + 1 ==>
            fetched.Fetched? && IsTerminalStatus(fetched.exec.status)
            && w'.emitted[|w.emitted|] == Emission(MapExecution(fetched.exec), Some("default"), Some(eventId), None))
      && (fetched.FetchFailed? ==> w' == w)
  {
  }

  /** A running execution is tracked under the input event's key, with
      the configured interval passed through unchanged. */
  lemma SubscribeTracksRunning(w: World, eventId: string, config: SubscribeConfig, exec: RundeckExecution,
                               now: int, newPendingId: string)
    requires !IsTerminalStatus(exec.status)
    ensures var w' := Subscribed(w, eventId, config, Fetched(exec), now, newPendingId);
      && Record(w', TrackingKey(eventId)).Some?
      && Record(w', TrackingKey(eventId)).value.parentEventId == eventId
      && w'.pending[newPendingId].outputKey == "default"
      && w'.timers == w.timers + [Timer(config.pollInterval, TrackingKey(eventId), newPendingId, PollingExecution(exec.id))]
  {
  }

  /** A timer without a pending event changes nothing; otherwise what it
      emits goes to the default output and its next timer carries the
      same payload, pending event and configured interval. */
  lemma SubscriptionTimerPollsPayload(w: World, payload: string, pendingEvent: Option<string>,
                                      config: SubscribeConfig, fetched: FetchResult)
    ensures var w' := SubscriptionTimerFired(w, payload, pendingEvent, config, fetched);
      && (!Truthy(pendingEvent) ==> w' == w)
      && (forall i :: |w.emitted| <= i < |w'.emitted| ==> w'.emitted[i].outputKey == Some("default"))
      && (forall i :: |w.timers| <= i < |w'.timers| ==>
            Some(w'.timers[i].pendingEventId) == pendingEvent
            && w'.timers[i].inputPayload == payload && w'.timers[i].delay == config.pollInterval)
  {
  }

  /** With no retry budget configured the comparison `errorCount >=
      undefined` never holds: a failed fetch never ends the tracker. */
  lemma NoBudgetNeverGivesUp(w: World, payload: string, pendingEventId: string, pollInterval: Option<int>)
    requires pendingEventId != "" && Record(w, payload).Some?
    ensures var w' := SubscriptionTimerFired(w, payload, Some(pendingEventId), SubscribeConfig(pollInterval, None), FetchFailed);
      Record(w', payload).Some? && |w'.timers| == |w.timers| + 1
  {
  }
}
