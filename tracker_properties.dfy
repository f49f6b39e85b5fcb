/** What the tracker promises, stated over the worlds `Started`, `Polled`
    and `Cleaned` that the operations of `BlockRuntime` are proved to
    reach (utils/executionPoller.ts). */
module TrackerProperties {
  import opened Wrappers
  import opened ExecutionStatuses
  import opened ExecutionMapping
  import opened ExecutionPoller

  // ---------------------------------------------------------------------
  // startTracking

  /** An execution that is already terminal is reported once, on the
      given output and linked to the parent event; nothing is stored, no
      pending event is created and no timer is set. */
  lemma StartOnTerminalEmitsOnce(w: World, exec: RundeckExecution, parentEventId: string, outputKey: string,
                                 pollInterval: Option<int>, now: int, newPendingId: string)
    requires IsTerminalStatus(exec.status)
    ensures var w' := Started(w, exec, parentEventId, outputKey, pollInterval, now, newPendingId);
      && w'.emitted == w.emitted + [Emission(MapExecution(exec), Some(outputKey), Some(parentEventId), None)]
      && w'.store == w.store && w'.pending == w.pending && w'.timers == w.timers
  {
  }

  /** A running execution gets one open pending event, one record under
      its tracking key and one timer carrying that key and the pending
      id; nothing is emitted and no other key changes. */
  lemma StartOnRunningTracks(w: World, exec: RundeckExecution, parentEventId: string, outputKey: string,
                             pollInterval: Option<int>, now: int, newPendingId: string)
    requires !IsTerminalStatus(exec.status)
    ensures var w' := Started(w, exec, parentEventId, outputKey, pollInterval, now, newPendingId);
      var key := TrackingKey(parentEventId);
      && Record(w', key) == Some(TrackingState(exec.id, newPendingId, exec.status, parentEventId, now, Some(0)))
      && (forall k :: k != key ==> Record(w', k) == Record(w, k))
      && w'.pending == w.pending[newPendingId := PendingEvent(MapExecution(exec), outputKey, ExecutionIs(exec.id, exec.status), Open)]
      && w'.timers == w.timers + [Timer(pollInterval, key, newPendingId, PollingExecution(exec.id))]
      && w'.emitted == w.emitted
  {
  }

  /** Starting has exactly one of the two effects: one emission, or one
      new timer (with its record) — never both, never neither. */
  lemma StartEitherEmitsOrSchedules(w: World, exec: RundeckExecution, parentEventId: string, outputKey: string,
                                    pollInterval: Option<int>, now: int, newPendingId: string)
    ensures var w' := Started(w, exec, parentEventId, outputKey, pollInterval, now, newPendingId);
      && |w'.emitted| + |w'.timers| == |w.emitted| + |w.timers| + 1
      && (|w'.emitted| > |w.emitted| <==> IsTerminalStatus(exec.status))
      && (|w'.timers| > |w.timers| ==> Record(w', TrackingKey(parentEventId)).Some?)
  {
  }

  // ---------------------------------------------------------------------
  // pollExecution

  /** A wake whose record is gone (resolved, given up or evicted) changes
      nothing. */
  lemma PollWithoutRecordIsNoOp(w: World, trackingKey: string, pendingEventId: string, fetched: FetchResult,
                                pollInterval: Option<int>, maxRetries: Option<int>, outputKey: string)
    requires Record(w, trackingKey).None?
    ensures Polled(w, trackingKey, pendingEventId, fetched, pollInterval, maxRetries, outputKey) == w
  {
  }

  /** Once a poll has ended a tracker, any later or duplicate wake for the
      same key, whatever it fetches, leaves the world as that poll left it. */
  lemma LateWakeIsHarmless(w: World, trackingKey: string, pendingEventId: string, fetched: FetchResult,
                           pollInterval: Option<int>, maxRetries: Option<int>, outputKey: string,
                           pendingEventId2: string, fetched2: FetchResult,
                           pollInterval2: Option<int>, maxRetries2: Option<int>, outputKey2: string)
    requires Record(Polled(w, trackingKey, pendingEventId, fetched, pollInterval, maxRetries, outputKey), trackingKey).None?
    ensures var w' := Polled(w, trackingKey, pendingEventId, fetched, pollInterval, maxRetries, outputKey);
      Polled(w', trackingKey, pendingEventId2, fetched2, pollInterval2, maxRetries2, outputKey2) == w'
  {
  }

  /** An unchanged status is silent: nothing is emitted, stored or
      updated (so the error count is not reset), and exactly one timer
      with the same key, pending id and interval is set. */
  lemma PollUnchangedStatus(w: World, trackingKey: string, pendingEventId: string, exec: RundeckExecution,
                            pollInterval: Option<int>, maxRetries: Option<int>, outputKey: string)
    requires Record(w, trackingKey).Some? && exec.status == Record(w, trackingKey).value.lastStatus
    ensures var w' := Polled(w, trackingKey, pendingEventId, Fetched(exec), pollInterval, maxRetries, outputKey);
      && w'.store == w.store && w'.emitted == w.emitted && w'.pending == w.pending
      && w'.timers == w.timers + [Timer(pollInterval, trackingKey, pendingEventId,
                                        PollingExecution(Record(w, trackingKey).value.executionId))]
  {
  }

  /** A change to a terminal status emits one event that completes the
      pending event and is linked to the record's parent; the record is
      deleted and no timer is set. */
  lemma PollTerminalChange(w: World, trackingKey: string, pendingEventId: string, exec: RundeckExecution,
                           pollInterval: Option<int>, maxRetries: Option<int>, outputKey: string)
    requires Record(w, trackingKey).Some? && exec.status != Record(w, trackingKey).value.lastStatus
    requires IsTerminalStatus(exec.status)
    ensures var w' := Polled(w, trackingKey, pendingEventId, Fetched(exec), pollInterval, maxRetries, outputKey);
      var t := Record(w, trackingKey).value;
      && w'.emitted == w.emitted + [Emission(MapExecution(exec), Some(outputKey), Some(t.parentEventId), Some(pendingEventId))]
      && Record(w', trackingKey).None? && trackingKey !in w'.store
      && w'.store == w.store - {trackingKey}
      && w'.timers == w.timers
      && w'.pending.Keys == w.pending.Keys
      && (pendingEventId in w.pending ==> w'.pending[pendingEventId] == w.pending[pendingEventId].(state := Completed))
      && (forall id :: id in w.pending && id != pendingEventId ==> w'.pending[id] == w.pending[id])
  {
  }

  /** A change to a non-terminal status stores it with a zero error count,
      emits one non-completing event, describes the new status on the
      pending event and sets exactly one timer. */
  lemma PollNonTerminalChange(w: World, trackingKey: string, pendingEventId: string, exec: RundeckExecution,
                              pollInterval: Option<int>, maxRetries: Option<int>, outputKey: string)
    requires Record(w, trackingKey).Some? && exec.status != Record(w, trackingKey).value.lastStatus
    requires !IsTerminalStatus(exec.status)
    ensures var w' := Polled(w, trackingKey, pendingEventId, Fetched(exec), pollInterval, maxRetries, outputKey);
      var t := Record(w, trackingKey).value;
      && Record(w', trackingKey) == Some(t.(lastStatus := exec.status, errorCount := Some(0)))
      && w'.emitted == w.emitted + [Emission(MapExecution(exec), Some(outputKey), Some(t.parentEventId), None)]
      && w'.pending.Keys == w.pending.Keys
      && (pendingEventId in w.pending ==>
            w'.pending[pendingEventId]
              == w.pending[pendingEventId].(event := MapExecution(exec), statusDescription := ExecutionIs(t.executionId, exec.status)))
      && (forall id :: id in w.pending && id != pendingEventId ==> w'.pending[id] == w.pending[id])
      && w'.timers == w.timers + [Timer(pollInterval, trackingKey, pendingEventId, PollingExecution(t.executionId))]
  {
  }

  /** A failed fetch raises the error count by one (a missing count is 0).
      Reaching `maxRetries` cancels the pending event and deletes the
      record without a timer; below it, only the count changes in the
      record, the description shows the progress and one timer with the
      same interval is set. */
  lemma PollFetchFailure(w: World, trackingKey: string, pendingEventId: string,
                         pollInterval: Option<int>, maxRetries: Option<int>, outputKey: string)
    requires Record(w, trackingKey).Some?
    ensures var w' := Polled(w, trackingKey, pendingEventId, FetchFailed, pollInterval, maxRetries, outputKey);
      var t := Record(w, trackingKey).value;
      var errorCount := t.errorCount.GetOr(0) + 1;
      && w'.emitted == w.emitted
      && w'.pending.Keys == w.pending.Keys
      && (forall id :: id in w.pending && id != pendingEventId ==> w'.pending[id] == w.pending[id])
      && (GivesUp(errorCount, maxRetries) ==>
            && w'.store == w.store - {trackingKey}
            && w'.timers == w.timers
            && (pendingEventId in w.pending ==>
                  w'.pending[pendingEventId] == w.pending[pendingEventId].(state := Cancelled(PollingFailed(maxRetries)))))
      && (!GivesUp(errorCount, maxRetries) ==>
            && w'.store == w.store[trackingKey := Some(t.(errorCount := Some(errorCount)))]
            && (pendingEventId in w.pending ==>
                  w'.pending[pendingEventId]
                    == w.pending[pendingEventId].(statusDescription := RetryingAfterError(t.executionId, errorCount, maxRetries)))
            && w'.timers == w.timers + [Timer(pollInterval, trackingKey, pendingEventId, RetryingPoll(t.executionId))])
  {
  }

  /** A record survives a poll exactly when the poll sets the next timer,
      which then carries the record's key, the wake's pending id and the
      interval; records under other keys are untouched. */
  lemma PollKeepsRecordIffRescheduled(w: World, trackingKey: string, pendingEventId: string, fetched: FetchResult,
                                      pollInterval: Option<int>, maxRetries: Option<int>, outputKey: string)
    requires Record(w, trackingKey).Some?
    ensures var w' := Polled(w, trackingKey, pendingEventId, fetched, pollInterval, maxRetries, outputKey);
      && (Record(w', trackingKey).Some? <==> |w'.timers| == |w.timers| + 1)
      && w'.timers[..|w.timers|] == w.timers
      && |w'.timers| <= |w.timers| + 1
      && (|w'.timers| == |w.timers| + 1 ==>
            w'.timers[|w.timers|].inputPayload == trackingKey
            && w'.timers[|w.timers|].pendingEventId == pendingEventId
            && w'.timers[|w.timers|].delay == pollInterval)
      && (forall k :: k != trackingKey ==> Record(w', k) == Record(w, k))
  {
  }

  /** A wake delivered by a timer the tracker set acts on the record's own
      pending event, which the platform knows: a poll that ends the
      tracker completes it (on a terminal status) or cancels it (when the
      retries are used up). */
  lemma DeliveredWakeResolvesOwnPending(w: World, trackingKey: string, pendingEventId: string, fetched: FetchResult,
                                        pollInterval: Option<int>, maxRetries: Option<int>, outputKey: string)
    requires Consistent(w) && TimersAgree(w) && Scheduled(w.timers, trackingKey, pendingEventId)
    requires Record(w, trackingKey).Some?
    ensures pendingEventId == Record(w, trackingKey).value.pendingEventId && pendingEventId in w.pending
    ensures var w' := Polled(w, trackingKey, pendingEventId, fetched, pollInterval, maxRetries, outputKey);
      Record(w', trackingKey).None? ==>
        w'.pending[pendingEventId].state == (if fetched.Fetched? then Completed else Cancelled(PollingFailed(maxRetries)))
  {
    var t :| t in w.timers && t.inputPayload == trackingKey && t.pendingEventId == pendingEventId;
    assert Record(w, t.inputPayload).Some?;
  }

  /** A duplicate wake is harmless only once the record is gone: two
      deliveries of the same wake of a live tracker whose status is
      unchanged each set a timer, so the timer chain forks in two. */
  lemma DuplicateWakeForksChain(w: World, trackingKey: string, pendingEventId: string, exec: RundeckExecution,
                                pollInterval: Option<int>, maxRetries: Option<int>, outputKey: string)
    requires Record(w, trackingKey).Some? && exec.status == Record(w, trackingKey).value.lastStatus
    ensures var w1 := Polled(w, trackingKey, pendingEventId, Fetched(exec), pollInterval, maxRetries, outputKey);
      var w2 := Polled(w1, trackingKey, pendingEventId, Fetched(exec), pollInterval, maxRetries, outputKey);
      var next := Timer(pollInterval, trackingKey, pendingEventId, PollingExecution(Record(w, trackingKey).value.executionId));
      && w1.timers == w.timers + [next]
      && w2.timers == w.timers + [next, next]
      && w2.store == w.store && w2.emitted == w.emitted && w2.pending == w.pending
  {
    PollUnchangedStatus(w, trackingKey, pendingEventId, exec, pollInterval, maxRetries, outputKey);
  }

  /** Two deliveries of one failing wake count as two failures: with two
      retries left, a single delivery keeps the record while a duplicated
      one ends the tracker. */
  lemma DuplicateFailingWakeCountsTwice(w: World, trackingKey: string, pendingEventId: string,
                                        pollInterval: Option<int>, maxRetries: int, outputKey: string)
    requires maxRetries >= 2
    requires Record(w, trackingKey).Some? && Record(w, trackingKey).value.errorCount == Some(maxRetries - 2)
    ensures var w1 := Polled(w, trackingKey, pendingEventId, FetchFailed, pollInterval, Some(maxRetries), outputKey);
      var w2 := Polled(w1, trackingKey, pendingEventId, FetchFailed, pollInterval, Some(maxRetries), outputKey);
      && Record(w1, trackingKey) == Some(Record(w, trackingKey).value.(errorCount := Some(maxRetries - 1)))
      && Record(w2, trackingKey).None?
      && |w2.timers| == |w.timers| + 1
  {
  }

  /** The error count is reset only by a status change: a failure, a
      successful poll that sees the same status, and another failure leave
      the record with two more errors, as two failures in a row would,
      although the retry budget speaks of consecutive failures. */
  lemma FailuresAcrossUnchangedPollAddUp(w: World, trackingKey: string, pendingEventId: string, exec: RundeckExecution,
                                         pollInterval: Option<int>, maxRetries: Option<int>, outputKey: string)
    requires Record(w, trackingKey).Some? && exec.status == Record(w, trackingKey).value.lastStatus
    requires !GivesUp(Record(w, trackingKey).value.errorCount.GetOr(0) + 2, maxRetries)
    ensures var t := Record(w, trackingKey).value;
      var w1 := Polled(w, trackingKey, pendingEventId, FetchFailed, pollInterval, maxRetries, outputKey);
      var w2 := Polled(w1, trackingKey, pendingEventId, Fetched(exec), pollInterval, maxRetries, outputKey);
      var w3 := Polled(w2, trackingKey, pendingEventId, FetchFailed, pollInterval, maxRetries, outputKey);
      Record(w3, trackingKey) == Some(t.(errorCount := Some(t.errorCount.GetOr(0) + 2)))
  {
  }

  /** With a retry budget, a record that survives a failed fetch has an
      error count below the budget. */
  lemma RetryCounterBounded(w: World, trackingKey: string, pendingEventId: string,
                            pollInterval: Option<int>, maxRetries: int, outputKey: string)
    requires Record(w, trackingKey).Some?
    ensures var w' := Polled(w, trackingKey, pendingEventId, FetchFailed, pollInterval, Some(maxRetries), outputKey);
      Record(w', trackingKey).Some? ==>
        Record(w', trackingKey).value.errorCount == Some(Record(w, trackingKey).value.errorCount.GetOr(0) + 1)
        && Record(w', trackingKey).value.errorCount.value < maxRetries
  {
  }

  /** `n` wakes in a row whose fetches all fail. */
  function FailedPolls(w: World, trackingKey: string, pendingEventId: string, n: nat,
                       pollInterval: Option<int>, maxRetries: Option<int>, outputKey: string): World
  {
    if n == 0 then w
    else Polled(FailedPolls(w, trackingKey, pendingEventId, n - 1, pollInterval, maxRetries, outputKey),
                trackingKey, pendingEventId, FetchFailed, pollInterval, maxRetries, outputKey)
  }

  /** The retry budget, counted from a fresh record: fewer than
      `maxRetries` consecutive failures keep the record with that many
      errors and one timer per failure; the failure that reaches
      `maxRetries` removes it. */
  lemma {:induction false} ConsecutiveFailures(w: World, trackingKey: string, pendingEventId: string, n: nat,
                                               pollInterval: Option<int>, maxRetries: nat, outputKey: string)
    requires Record(w, trackingKey).Some? && Record(w, trackingKey).value.errorCount == Some(0)
    requires n <= maxRetries
    ensures var w' := FailedPolls(w, trackingKey, pendingEventId, n, pollInterval, Some(maxRetries), outputKey);
      && (n < maxRetries ==>
            Record(w', trackingKey) == Some(Record(w, trackingKey).value.(errorCount := Some(n)))
            && |w'.timers| == |w.timers| + n)
      && (0 < n == maxRetries ==> Record(w', trackingKey).None? && |w'.timers| == |w.timers| + n - 1)
      && w'.emitted == w.emitted
  {
    if n > 0 {
      ConsecutiveFailures(w, trackingKey, pendingEventId, n - 1, pollInterval, maxRetries, outputKey);
      var t := Record(w, trackingKey).value;
      assert t.(errorCount := Some(0)) == t;
    }
  }

  /** Execution 42 starts `running`; a poll that sees `running` is silent
      and sets one timer; a poll that sees `succeeded` emits one completing
      event for execution 42, resolves the pending event, deletes the
      record and sets no further timer. */
  lemma RunningThenSucceeded(w: World, exec: RundeckExecution, parentEventId: string, now: int, newPendingId: string)
    requires exec.id == 42 && exec.status == "running"
    requires newPendingId !in w.pending
    ensures var key := TrackingKey(parentEventId);
      var w1 := Started(w, exec, parentEventId, "default", Some(5), now, newPendingId);
      var w2 := Polled(w1, key, newPendingId, Fetched(exec), Some(5), Some(3), "default");
      var w3 := Polled(w2, key, newPendingId, Fetched(exec.(status := "succeeded")), Some(5), Some(3), "default");
      && w2.emitted == w1.emitted == w.emitted && |w2.timers| == |w1.timers| + 1
      && |w3.emitted| == |w.emitted| + 1
      && w3.emitted[|w.emitted|].event.id == 42 && w3.emitted[|w.emitted|].event.status == "succeeded"
      && w3.emitted[|w.emitted|].complete == Some(newPendingId)
      && w3.pending[newPendingId].state == Completed
      && Record(w3, key).None? && w3.timers == w2.timers
  {
    NonTerminalStatuses();
    assert IsTerminalStatus("succeeded");
  }

  // ---------------------------------------------------------------------
  // cleanupStaleTracking

  /** The pages are a complete listing of the store's tracking keys: every
      page but the last names a next starting key, the last does not, and
      the listed pairs are exactly the stored tracking entries. */
  ghost predicate IsListingOf(pages: seq<Page>, store: map<string, Option<TrackingState>>) {
    && |pages| > 0
    && (forall i :: 0 <= i < |pages| - 1 ==> Text.Truthy(pages[i].nextStartingKey))
    && !Text.Truthy(pages[|pages| - 1].nextStartingKey)
    && (forall p :: p in Pairs(pages) ==> TrackingPrefix <= p.key && p.key in store && store[p.key] == p.value)
    && (forall k :: k in store && TrackingPrefix <= k ==> exists p :: p in Pairs(pages) && p.key == k)
  }

  /** The tracking keys whose records are older than `threshold`. */
  function StaleRecordKeys(store: map<string, Option<TrackingState>>, threshold: int): set<string> {
    set k | k in store && TrackingPrefix <= k && IsStale(store[k], threshold)
  }

  /** On a complete listing the loop requests every page. */
  lemma {:induction false} ListingIsVisitedToTheEnd(pages: seq<Page>, store: map<string, Option<TrackingState>>)
    requires IsListingOf(pages, store)
    ensures VisitedCount(pages) == |pages|
  {
    VisitedToTheEnd(pages);
  }

  lemma {:induction false} VisitedToTheEnd(pages: seq<Page>)
    requires |pages| > 0
    requires forall i :: 0 <= i < |pages| - 1 ==> Text.Truthy(pages[i].nextStartingKey)
    requires !Text.Truthy(pages[|pages| - 1].nextStartingKey)
    ensures VisitedCount(pages) == |pages|
  {
    if |pages| > 1 {
      assert Text.Truthy(pages[0].nextStartingKey);
      VisitedToTheEnd(pages[1..]);
    }
  }

  /** When the listing reports the stored values, records at or above the
      threshold and keys without a value keep their values; nothing is
      emitted and no timer is set. */
  lemma CleanupKeepsFresh(w: World, pages: seq<Page>, now: int)
    requires forall p :: p in Listed(pages) && p.key in w.store ==> w.store[p.key] == p.value
    ensures var w' := Cleaned(w, pages, now);
      && w'.store.Keys <= w.store.Keys
      && (forall k :: k in w'.store ==> w'.store[k] == w.store[k])
      && (forall k :: k in w.store && !IsStale(w.store[k], now - StaleAfterMillis) ==> k in w'.store)
      && w'.pending.Keys == w.pending.Keys
      && w'.emitted == w.emitted && w'.timers == w.timers
  {
  }

  /** The listing asks only for the tracking prefix, so a record stored
      under any other key is never inspected and survives, stale or not. */
  lemma {:induction false} CleanupSkipsUntrackedKeys(w: World, pages: seq<Page>, now: int, k: string)
    requires IsListingOf(pages, w.store)
    requires k in w.store && !(TrackingPrefix <= k)
    ensures k in Cleaned(w, pages, now).store && Cleaned(w, pages, now).store[k] == w.store[k]
  {
    ListingIsVisitedToTheEnd(pages, w.store);
    assert pages[..VisitedCount(pages)] == pages;
  }

  /** On a complete listing of a consistent store (every key is a
      tracking key), the scavenger deletes
      exactly the records created more than 24 hours before `now` and
      cancels exactly their pending events. */
  lemma {:induction false} CleanupRemovesExactlyStale(w: World, pages: seq<Page>, now: int)
    requires Consistent(w) && IsListingOf(pages, w.store)
    ensures var w' := Cleaned(w, pages, now);
      var threshold := now - StaleAfterMillis;
      && w'.store == w.store - StaleRecordKeys(w.store, threshold)
      && (forall k :: k in w'.store ==> !IsStale(w'.store[k], threshold))
      && w'.pending == CancelAll(w.pending,
                                 set k | k in StaleRecordKeys(w.store, threshold) :: w.store[k].value.pendingEventId,
                                 TrackingTimedOut)
  {
    var threshold := now - StaleAfterMillis;
    ListingIsVisitedToTheEnd(pages, w.store);
    assert pages[..VisitedCount(pages)] == pages;
    var listed := Listed(pages);
    assert listed == Pairs(pages);
    forall k | k in StaleKeys(listed, threshold) ensures k in StaleRecordKeys(w.store, threshold) {
      var p :| p in listed && IsStale(p.value, threshold) && p.key == k;
    }
    forall k | k in StaleRecordKeys(w.store, threshold) ensures k in StaleKeys(listed, threshold) {
      var p :| p in Pairs(pages) && p.key == k;
    }
    var ids := set k | k in StaleRecordKeys(w.store, threshold) :: w.store[k].value.pendingEventId;
    forall id | id in StalePendingIds(listed, threshold) ensures id in ids {
      var p :| p in listed && IsStale(p.value, threshold) && p.value.value.pendingEventId == id;
      assert p.key in StaleRecordKeys(w.store, threshold);
    }
    forall id | id in ids ensures id in StalePendingIds(listed, threshold) {
      var k :| k in StaleRecordKeys(w.store, threshold) && w.store[k].value.pendingEventId == id;
      var p :| p in Pairs(pages) && p.key == k;
    }
  }
}
