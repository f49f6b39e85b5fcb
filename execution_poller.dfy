/** The execution-tracking state machine (utils/executionPoller.ts).

    Rundeck only answers status queries, so a tracker turns them into a
    stream of events: `StartTracking` records a `TrackingState` in the
    block's key-value store and schedules a timer, every timer activation
    runs `PollExecution`, which re-reads the status, emits on a change and
    either schedules the next timer or ends the tracker, and the hourly
    `CleanupStaleTracking` evicts trackers older than a day.

    The platform state one activation touches is a `World`: the block's
    key-value store, the table of pending events, the log of emitted
    events and the log of timers set. `Started`, `Polled` and `Cleaned`
    give the world after each operation; the class `BlockRuntime` performs
    the operations step by step through the platform calls and is proved
    to reach exactly those worlds. */
module ExecutionPoller {
  import opened Wrappers
  import opened ExecutionStatuses
  import opened ExecutionMapping
  import opened Text

  /** The record kept under `tracking:<parentEventId>`. `errorCount` is
      optional because it is read as `errorCount ?? 0`. */
  datatype TrackingState = TrackingState(
    executionId: int,
    pendingEventId: string,
    lastStatus: string,
    parentEventId: string,
    createdAt: int,
    errorCount: Option<int>)

  /** The status descriptions shown on a pending event, as template and
      arguments. */
  datatype StatusDescription =
    | ExecutionIs(executionId: int, status: string)
    | RetryingAfterError(executionId: int, errorCount: int, maxRetries: Option<int>)

  datatype CancelReason = PollingFailed(maxRetries: Option<int>) | TrackingTimedOut

  datatype PendingState = Open | Completed | Cancelled(reason: CancelReason)

  datatype PendingEvent = PendingEvent(
    event: MappedExecution,
    outputKey: string,
    statusDescription: StatusDescription,
    state: PendingState)

  /** One `events.emit`: no output key means the block's default output;
      `complete` names the pending event the emission resolves. */
  datatype Emission = Emission(
    event: MappedExecution,
    outputKey: Option<string>,
    parentEventId: Option<string>,
    complete: Option<string>)

  datatype TimerDescription = PollingExecution(executionId: int) | RetryingPoll(executionId: int)

  /** One `timers.set`: the delay in seconds, the payload delivered to
      `onTimer` and the pending event the timer belongs to. */
  datatype Timer = Timer(
    delay: Option<int>,
    inputPayload: string,
    pendingEventId: string,
    description: TimerDescription)

  /** The outcome of `client.get("execution/<id>")`. */
  datatype FetchResult = Fetched(exec: RundeckExecution) | FetchFailed

  /** The platform state an activation reads and changes. A key bound to
      `None` is a key whose stored value is missing. */
  datatype World = World(
    store: map<string, Option<TrackingState>>,
    pending: map<string, PendingEvent>,
    emitted: seq<Emission>,
    timers: seq<Timer>)

  const TrackingPrefix: string := "tracking:"

  /** 24 hours in milliseconds. */
  const StaleAfterMillis: int := 24 * 60 * 60 * 1000

  /** The store key of the tracker started for `parentEventId`; different
      parent events get different keys, all under the tracking prefix. */
  function TrackingKey(parentEventId: string): (key: string)
    ensures TrackingPrefix <= key
    ensures key[|TrackingPrefix|..] == parentEventId
  {
    TrackingPrefix + parentEventId
  }

  /** `kv.block.get(key).value`. */
  function Record(w: World, key: string): Option<TrackingState> {
    if key in w.store then w.store[key] else None
  }

  /** `events.emit(..., { complete: id })` marks the pending event done. */
  function WithCompleted(pending: map<string, PendingEvent>, id: string): map<string, PendingEvent> {
    if id in pending then pending[id := pending[id].(state := Completed)] else pending
  }

  /** `events.cancelPending(id, reason)`. */
  function WithCancelled(pending: map<string, PendingEvent>, id: string, reason: CancelReason): map<string, PendingEvent> {
    if id in pending then pending[id := pending[id].(state := Cancelled(reason))] else pending
  }

  /** `events.updatePending(id, { event?, statusDescription })`. */
  function WithUpdate(pending: map<string, PendingEvent>, id: string, event: Option<MappedExecution>,
                      description: StatusDescription): map<string, PendingEvent> {
    if id in pending
    then pending[id := pending[id].(event := event.GetOr(pending[id].event), statusDescription := description)]
    else pending
  }

  /** `(errorCount ?? 0) + 1` after a failed fetch. */
  function ErrorCountAfterFailure(t: TrackingState): int {
    t.errorCount.GetOr(0) + 1
  }

  /** `errorCount >= maxRetries`; a comparison with an undefined bound is
      false in JavaScript, so without a bound the tracker never gives up. */
  predicate GivesUp(errorCount: int, maxRetries: Option<int>) {
    maxRetries.Some? && errorCount >= maxRetries.value
  }

  /** The world after `startTracking`. */
  function Started(w: World, exec: RundeckExecution, parentEventId: string, outputKey: string,
                   pollInterval: Option<int>, now: int, newPendingId: string): World
  {
    var mapped := MapExecution(exec);
    if IsTerminalStatus(exec.status) then
      w.(emitted := w.emitted + [Emission(mapped, Some(outputKey), Some(parentEventId), None)])
    else
      var key := TrackingKey(parentEventId);
      w.(pending := w.pending[newPendingId := PendingEvent(mapped, outputKey, ExecutionIs(exec.id, exec.status), Open)],
         store := w.store[key := Some(TrackingState(exec.id, newPendingId, exec.status, parentEventId, now, Some(0)))],
         timers := w.timers + [Timer(pollInterval, key, newPendingId, PollingExecution(exec.id))])
  }

  /** The world after `pollExecution` for the timer payload `trackingKey`
      and its pending event, given what the status fetch returned. */
  function Polled(w: World, trackingKey: string, pendingEventId: string, fetched: FetchResult,
                  pollInterval: Option<int>, maxRetries: Option<int>, outputKey: string): World
  {
    match Record(w, trackingKey)
    case None => w
    case Some(tracking) =>
      match fetched
      case Fetched(exec) =>
        var mapped := MapExecution(exec);
        var next := Timer(pollInterval, trackingKey, pendingEventId, PollingExecution(tracking.executionId));
        if exec.status == tracking.lastStatus then
          w.(timers := w.timers + [next])
        else if IsTerminalStatus(exec.status) then
          w.(store := w.store - {trackingKey},
             emitted := w.emitted + [Emission(mapped, Some(outputKey), Some(tracking.parentEventId), Some(pendingEventId))],
             pending := WithCompleted(w.pending, pendingEventId))
        else
          w.(store := w.store[trackingKey := Some(tracking.(lastStatus := exec.status, errorCount := Some(0)))],
             emitted := w.emitted + [Emission(mapped, Some(outputKey), Some(tracking.parentEventId), None)],
             pending := WithUpdate(w.pending, pendingEventId, Some(mapped), ExecutionIs(tracking.executionId, exec.status)),
             timers := w.timers + [next])
      case FetchFailed =>
        var errorCount := ErrorCountAfterFailure(tracking);
        if GivesUp(errorCount, maxRetries) then
          w.(store := w.store - {trackingKey},
             pending := WithCancelled(w.pending, pendingEventId, PollingFailed(maxRetries)))
        else
          w.(store := w.store[trackingKey := Some(tracking.(errorCount := Some(errorCount)))],
             pending := WithUpdate(w.pending, pendingEventId, None,
                                   RetryingAfterError(tracking.executionId, errorCount, maxRetries)),
             timers := w.timers + [Timer(pollInterval, trackingKey, pendingEventId, RetryingPoll(tracking.executionId))])
  }

  // ---------------------------------------------------------------------
  // The scavenger's view of the store: pages of `kv.block.list`.

  datatype Pair = Pair(key: string, value: Option<TrackingState>)

  /** One answer of `kv.block.list({ keyPrefix, startingKey })`. */
  datatype Page = Page(pairs: seq<Pair>, nextStartingKey: Option<string>)

  /** How many pages the do-while loop requests: pages are read until one
      comes back without a (truthy) next starting key; an empty sequence
      stands for a store that answers with no pairs at all. */
  function VisitedCount(pages: seq<Page>): (n: nat)
    ensures n <= |pages|
    ensures |pages| > 0 ==> n > 0
  {
    if pages == [] then 0
    else if !Truthy(pages[0].nextStartingKey) then 1
    else 1 + VisitedCount(pages[1..])
  }

  /** The pairs of the given pages, in listing order. */
  function Pairs(pages: seq<Page>): seq<Pair> {
    if pages == [] then [] else Pairs(pages[..|pages| - 1]) + pages[|pages| - 1].pairs
  }

  /** The pairs the scavenger inspects. */
  function Listed(pages: seq<Page>): seq<Pair> {
    Pairs(pages[..VisitedCount(pages)])
  }

  /** `pair.value?.createdAt < staleThreshold`: a missing value is never
      stale. */
  predicate IsStale(value: Option<TrackingState>, threshold: int) {
    value.Some? && value.value.createdAt < threshold
  }

  function StaleKeys(pairs: seq<Pair>, threshold: int): set<string> {
    set p | p in pairs && IsStale(p.value, threshold) :: p.key
  }

  function StalePendingIds(pairs: seq<Pair>, threshold: int): set<string> {
    set p | p in pairs && IsStale(p.value, threshold) :: p.value.value.pendingEventId
  }

  /** Cancel every pending event in `ids` with `reason`. */
  function CancelAll(pending: map<string, PendingEvent>, ids: set<string>, reason: CancelReason): map<string, PendingEvent> {
    map id | id in pending :: if id in ids then pending[id].(state := Cancelled(reason)) else pending[id]
  }

  /** The world after `cleanupStaleTracking` at time `now`, given the pages
      the store lists. */
  function Cleaned(w: World, pages: seq<Page>, now: int): World {
    var threshold := now - StaleAfterMillis;
    w.(store := w.store - StaleKeys(Listed(pages), threshold),
       pending := CancelAll(w.pending, StalePendingIds(Listed(pages), threshold), TrackingTimedOut))
  }

  // ---------------------------------------------------------------------
  // The invariant every activation keeps.

  /** A timer addressed to `key` and carrying the pending event `id` has
      been set. */
  predicate Scheduled(timers: seq<Timer>, key: string, id: string) {
    exists t :: t in timers && t.inputPayload == key && t.pendingEventId == id
  }

  /** Every stored key is a tracking key; every record names a pending
      event the platform knows, carries an error count, and a timer for
      its key and its own pending event has been set. Every operation
      keeps this, whatever its arguments. */
  ghost predicate Consistent(w: World) {
    && (forall k :: k in w.store ==> TrackingPrefix <= k)
    && (forall k :: k in w.store && w.store[k].Some? ==> w.store[k].value.pendingEventId in w.pending)
    && (forall k :: k in w.store && w.store[k].Some? ==> Scheduled(w.timers, k, w.store[k].value.pendingEventId))
    && (forall k :: k in w.store && w.store[k].Some? ==> w.store[k].value.errorCount.Some?)
  }

  /** Every timer addressed to a stored record carries that record's
      pending event id, so the wakes of a live tracker act on its own
      pending event. */
  ghost predicate TimersAgree(w: World) {
    forall t :: t in w.timers && Record(w, t.inputPayload).Some? ==>
      t.pendingEventId == Record(w, t.inputPayload).value.pendingEventId
  }

  lemma StartedKeepsConsistent(w: World, exec: RundeckExecution, parentEventId: string, outputKey: string,
                               pollInterval: Option<int>, now: int, newPendingId: string)
    requires Consistent(w)
    ensures Consistent(Started(w, exec, parentEventId, outputKey, pollInterval, now, newPendingId))
  {
    var w' := Started(w, exec, parentEventId, outputKey, pollInterval, now, newPendingId);
    if !IsTerminalStatus(exec.status) {
      var key := TrackingKey(parentEventId);
      forall k | k in w'.store && w'.store[k].Some? ensures Scheduled(w'.timers, k, w'.store[k].value.pendingEventId) {
        if k != key {
          var t :| t in w.timers && t.inputPayload == k && t.pendingEventId == w.store[k].value.pendingEventId;
          assert t in w'.timers;
        } else {
          assert w'.timers[|w'.timers| - 1] in w'.timers;
        }
      }
    }
  }

  lemma PolledKeepsConsistent(w: World, trackingKey: string, pendingEventId: string, fetched: FetchResult,
                              pollInterval: Option<int>, maxRetries: Option<int>, outputKey: string)
    requires Consistent(w)
    ensures Consistent(Polled(w, trackingKey, pendingEventId, fetched, pollInterval, maxRetries, outputKey))
  {
    var w' := Polled(w, trackingKey, pendingEventId, fetched, pollInterval, maxRetries, outputKey);
    assert w'.pending.Keys == w.pending.Keys;
    forall k | k in w'.store && w'.store[k].Some? ensures Scheduled(w'.timers, k, w'.store[k].value.pendingEventId) {
      assert w'.store[k].value.pendingEventId == w.store[k].value.pendingEventId;
      var t :| t in w.timers && t.inputPayload == k && t.pendingEventId == w.store[k].value.pendingEventId;
      assert t in w'.timers;
    }
  }

  lemma CleanedKeepsConsistent(w: World, pages: seq<Page>, now: int)
    requires Consistent(w)
    ensures Consistent(Cleaned(w, pages, now))
  {
  }

  /** Starting a tracker for a parent event that has not been tracked
      before (no timer was ever addressed to its key) keeps the timers in
      agreement with the records. */
  lemma StartedKeepsTimersAgree(w: World, exec: RundeckExecution, parentEventId: string, outputKey: string,
                                pollInterval: Option<int>, now: int, newPendingId: string)
    requires TimersAgree(w)
    requires forall t :: t in w.timers ==> t.inputPayload != TrackingKey(parentEventId)
    ensures TimersAgree(Started(w, exec, parentEventId, outputKey, pollInterval, now, newPendingId))
  {
  }

  /** A wake delivered by a timer that was set keeps the timers in
      agreement with the records: the timer it sets carries the pending
      id the record holds. */
  lemma PolledKeepsTimersAgree(w: World, trackingKey: string, pendingEventId: string, fetched: FetchResult,
                               pollInterval: Option<int>, maxRetries: Option<int>, outputKey: string)
    requires TimersAgree(w) && Scheduled(w.timers, trackingKey, pendingEventId)
    ensures TimersAgree(Polled(w, trackingKey, pendingEventId, fetched, pollInterval, maxRetries, outputKey))
  {
    if Record(w, trackingKey).Some? {
      var t :| t in w.timers && t.inputPayload == trackingKey && t.pendingEventId == pendingEventId;
      assert pendingEventId == Record(w, trackingKey).value.pendingEventId;
    }
  }

  lemma CleanedKeepsTimersAgree(w: World, pages: seq<Page>, now: int)
    requires TimersAgree(w)
    ensures TimersAgree(Cleaned(w, pages, now))
  {
  }

  // ---------------------------------------------------------------------
  // The operations, performed step by step on the platform state.

  class BlockRuntime {
    /** `kv.block`. */
    var store: map<string, Option<TrackingState>>
    /** The pending events created through `events.createPending`. */
    var pending: map<string, PendingEvent>
    /** Every `events.emit`, in order. */
    var emitted: seq<Emission>
    /** Every `timers.set`, in order. */
    var timers: seq<Timer>

    function State(): World
      reads this
    {
      World(store, pending, emitted, timers)
    }

    ghost predicate Valid()
      reads this
    {
      Consistent(State())
    }

    constructor ()
      ensures Valid()
      ensures State() == World(map[], map[], [], [])
    {
      store, pending, emitted, timers := map[], map[], [], [];
    }

    method Emit(event: MappedExecution, outputKey: Option<string>, parentEventId: Option<string>, complete: Option<string>)
      modifies this`emitted, this`pending
      ensures emitted == old(emitted) + [Emission(event, outputKey, parentEventId, complete)]
      ensures pending == if complete.Some? then WithCompleted(old(pending), complete.value) else old(pending)
    {
      emitted := emitted + [Emission(event, outputKey, parentEventId, complete)];
      if complete.Some? {
        pending := WithCompleted(pending, complete.value);
      }
    }

    /** `events.createPending`; the platform allocates the id, which the
        model receives as `newPendingId`. */
    method CreatePending(event: MappedExecution, outputKey: string, description: StatusDescription, newPendingId: string)
      returns (id: string)
      modifies this`pending
      ensures id == newPendingId
      ensures pending == old(pending)[id := PendingEvent(event, outputKey, description, Open)]
    {
      id := newPendingId;
      pending := pending[id := PendingEvent(event, outputKey, description, Open)];
    }

    method UpdatePending(id: string, event: Option<MappedExecution>, description: StatusDescription)
      modifies this`pending
      ensures pending == WithUpdate(old(pending), id, event, description)
    {
      pending := WithUpdate(pending, id, event, description);
    }

    method CancelPending(id: string, reason: CancelReason)
      modifies this`pending
      ensures pending == WithCancelled(old(pending), id, reason)
    {
      pending := WithCancelled(pending, id, reason);
    }

    method KvGet(key: string) returns (value: Option<TrackingState>)
      ensures value == Record(State(), key)
    {
      value := if key in store then store[key] else None;
    }

    method KvSet(key: string, value: TrackingState)
      modifies this`store
      ensures store == old(store)[key := Some(value)]
    {
      store := store[key := Some(value)];
    }

    method KvDelete(key: string)
      modifies this`store
      ensures store == old(store) - {key}
    {
      store := store - {key};
    }

    method SetTimer(delay: Option<int>, inputPayload: string, pendingEventId: string, description: TimerDescription)
      modifies this`timers
      ensures timers == old(timers) + [Timer(delay, inputPayload, pendingEventId, description)]
    {
      timers := timers + [Timer(delay, inputPayload, pendingEventId, description)];
    }

    /** `startTracking`. */
    method StartTracking(exec: RundeckExecution, parentEventId: string, outputKey: string,
                         pollInterval: Option<int>, now: int, newPendingId: string)
      requires Valid()
      modifies this
      ensures Valid()
      ensures State() == Started(old(State()), exec, parentEventId, outputKey, pollInterval, now, newPendingId)
    {
      StartedKeepsConsistent(State(), exec, parentEventId, outputKey, pollInterval, now, newPendingId);
      var mapped := MapExecution(exec);
      if IsTerminalStatus(exec.status) {
        Emit(mapped, Some(outputKey), Some(parentEventId), None);
        return;
      }
      var trackingKey := TrackingKey(parentEventId);
      var pendingEventId := CreatePending(mapped, outputKey, ExecutionIs(exec.id, exec.status), newPendingId);
      KvSet(trackingKey, TrackingState(exec.id, pendingEventId, exec.status, parentEventId, now, Some(0)));
      SetTimer(pollInterval, trackingKey, pendingEventId, PollingExecution(exec.id));
    }

    /** `pollExecution`; `fetched` is what the status request returned. */
    method PollExecution(trackingKey: string, pendingEventId: string, fetched: FetchResult,
                         pollInterval: Option<int>, maxRetries: Option<int>, outputKey: string)
      requires Valid()
      modifies this
      ensures Valid()
      ensures State() == Polled(old(State()), trackingKey, pendingEventId, fetched, pollInterval, maxRetries, outputKey)
    {
      ghost var w := State();
      PolledKeepsConsistent(w, trackingKey, pendingEventId, fetched, pollInterval, maxRetries, outputKey);
      var value := KvGet(trackingKey);
      if value.None? {
        return;
      }
      var tracking := value.value;
      match fetched
      case Fetched(exec) =>
        var mapped := MapExecution(exec);
        if exec.status != tracking.lastStatus {
          KvSet(trackingKey, tracking.(lastStatus := exec.status, errorCount := Some(0)));
          if IsTerminalStatus(exec.status) {
            Emit(mapped, Some(outputKey), Some(tracking.parentEventId), Some(pendingEventId));
            KvDelete(trackingKey);
            assert store == w.store - {trackingKey};
            return;
          }
          Emit(mapped, Some(outputKey), Some(tracking.parentEventId), None);
          UpdatePending(pendingEventId, Some(mapped), ExecutionIs(tracking.executionId, exec.status));
        }
        SetTimer(pollInterval, trackingKey, pendingEventId, PollingExecution(tracking.executionId));
      case FetchFailed =>
        var errorCount := ErrorCountAfterFailure(tracking);
        if GivesUp(errorCount, maxRetries) {
          CancelPending(pendingEventId, PollingFailed(maxRetries));
          KvDelete(trackingKey);
          return;
        }
        KvSet(trackingKey, tracking.(errorCount := Some(errorCount)));
        UpdatePending(pendingEventId, None, RetryingAfterError(tracking.executionId, errorCount, maxRetries));
        SetTimer(pollInterval, trackingKey, pendingEventId, RetryingPoll(tracking.executionId));
    }

    /** The body of the `for (const pair of result.pairs)` loop: cancels and
        deletes the stale pairs of one page, on top of the pairs `before`
        already handled. */
    method SweepPage(ghost w: World, ghost before: seq<Pair>, pairs: seq<Pair>, threshold: int)
      requires store == w.store - StaleKeys(before, threshold)
      requires pending == CancelAll(w.pending, StalePendingIds(before, threshold), TrackingTimedOut)
      modifies this`store, this`pending
      ensures store == w.store - StaleKeys(before + pairs, threshold)
      ensures pending == CancelAll(w.pending, StalePendingIds(before + pairs, threshold), TrackingTimedOut)
    {
      for j := 0 to |pairs|
        invariant store == w.store - StaleKeys(before + pairs[..j], threshold)
        invariant pending == CancelAll(w.pending, StalePendingIds(before + pairs[..j], threshold), TrackingTimedOut)
      {
        var pair := pairs[j];
        SweepStep(w, before + pairs[..j], pair, threshold);
        assert before + pairs[..j + 1] == before + pairs[..j] + [pair];
        if IsStale(pair.value, threshold) {
          CancelPending(pair.value.value.pendingEventId, TrackingTimedOut);
          KvDelete(pair.key);
        }
      }
      assert pairs[..|pairs|] == pairs;
    }

    /** `cleanupStaleTracking` at time `now`; `pages` are the answers the
        store gives to the successive list requests. */
    method CleanupStaleTracking(pages: seq<Page>, now: int)
      requires Valid()
      modifies this
      ensures Valid()
      ensures State() == Cleaned(old(State()), pages, now)
    {
      ghost var w := State();
      CleanedKeepsConsistent(w, pages, now);
      var staleThreshold := now - StaleAfterMillis;
      var i := 0;
      var more := |pages| > 0;  // do { ... } while (startingKey): the first list request is always made
      while more
        invariant 0 <= i <= |pages|
        invariant more ==> i < |pages|
        invariant VisitedCount(pages) == i + (if more then VisitedCount(pages[i..]) else 0)
        invariant store == w.store - StaleKeys(Pairs(pages[..i]), staleThreshold)
        invariant pending == CancelAll(w.pending, StalePendingIds(Pairs(pages[..i]), staleThreshold), TrackingTimedOut)
        invariant emitted == w.emitted && timers == w.timers
        decreases |pages| - i
      {
        var result := pages[i];
        SweepPage(w, Pairs(pages[..i]), result.pairs, staleThreshold);
        NextPage(pages, i);
        more := Truthy(result.nextStartingKey) && i + 1 < |pages|;
        i := i + 1;
      }
      assert pages[..i] == pages[..VisitedCount(pages)];
    }
  }

  /** Reading page `i` extends the listed pairs by its pairs and moves the
      do-while loop one page on. */
  lemma NextPage(pages: seq<Page>, i: nat)
    requires i < |pages|
    ensures Pairs(pages[..i + 1]) == Pairs(pages[..i]) + pages[i].pairs
    ensures VisitedCount(pages[i..]) == 1 + (if Truthy(pages[i].nextStartingKey) then VisitedCount(pages[i + 1..]) else 0)
  {
    assert pages[..i + 1][..i] == pages[..i];
    assert pages[i..][1..] == pages[i + 1..];
  }

  /** One more listed pair: a stale one adds its key to the deleted keys
      and cancels its pending event once more. */
  lemma SweepStep(w: World, done: seq<Pair>, pair: Pair, threshold: int)
    ensures var after := done + [pair];
      && StaleKeys(after, threshold)
         == StaleKeys(done, threshold) + (if IsStale(pair.value, threshold) then {pair.key} else {})
      && w.store - StaleKeys(after, threshold)
         == (var s := w.store - StaleKeys(done, threshold);
             if IsStale(pair.value, threshold) then s - {pair.key} else s)
      && CancelAll(w.pending, StalePendingIds(after, threshold), TrackingTimedOut)
         == (var p := CancelAll(w.pending, StalePendingIds(done, threshold), TrackingTimedOut);
             if IsStale(pair.value, threshold) then WithCancelled(p, pair.value.value.pendingEventId, TrackingTimedOut) else p)
  {
    var after := done + [pair];
    assert forall p :: p in after <==> p in done || p == pair;
    var ids := StalePendingIds(done, threshold);
    if IsStale(pair.value, threshold) {
      assert StalePendingIds(after, threshold) == ids + {pair.value.value.pendingEventId};
    } else {
      assert StalePendingIds(after, threshold) == ids;
    }
  }
}
