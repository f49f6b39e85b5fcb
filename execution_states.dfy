/** A second copy of the terminal-status classifier kept in the repository
    (utils/executionStates.ts), proved to agree with the first. */
module ExecutionStates {
  import opened Wrappers
  import ExecutionStatuses

  /** The `TerminalState` string-literal union. */
  datatype TerminalState = Succeeded | Failed | FailedWithRetry | Aborted | TimedOut

  function StateName(t: TerminalState): string {
    match t
    case Succeeded => "succeeded"
    case Failed => "failed"
    case FailedWithRetry => "failed-with-retry"
    case Aborted => "aborted"
    case TimedOut => "timedout"
  }

  /** The keys of the `terminalStates` record. */
  const TerminalStates: set<string> :=
    {"succeeded", "failed", "failed-with-retry", "aborted", "timedout"}

  /** `status in terminalStates`, over the closed five-key record. */
  predicate IsTerminalState(status: string) {
    status in TerminalStates
  }

  /** The type guard `status is TerminalState`. */
  function AsTerminalState(status: string): (r: Option<TerminalState>)
    ensures r.Some? <==> IsTerminalState(status)
    ensures r.Some? ==> StateName(r.value) == status
  {
    if status == "succeeded" then Some(Succeeded)
    else if status == "failed" then Some(Failed)
    else if status == "failed-with-retry" then Some(FailedWithRetry)
    else if status == "aborted" then Some(Aborted)
    else if status == "timedout" then Some(TimedOut)
    else None
  }

  /** The member of the other union that carries the same literal. */
  function ToStatus(t: TerminalState): (u: ExecutionStatuses.TerminalStatus)
    ensures ExecutionStatuses.StatusName(u) == StateName(t)
  {
    match t
    case Succeeded => ExecutionStatuses.Succeeded
    case Failed => ExecutionStatuses.Failed
    case FailedWithRetry => ExecutionStatuses.FailedWithRetry
    case Aborted => ExecutionStatuses.Aborted
    case TimedOut => ExecutionStatuses.TimedOut
  }

  /** The two copies classify every string alike, and their type guards
      pick the same literal. */
  lemma StatesAgreeWithStatuses(status: string)
    ensures IsTerminalState(status) == ExecutionStatuses.IsTerminalStatus(status)
    ensures AsTerminalState(status).Some? ==>
      ExecutionStatuses.AsTerminalStatus(status) == Some(ToStatus(AsTerminalState(status).value))
  {
  }

  /** Same five members, and the non-terminal enumeration values stay
      non-terminal. */
  lemma TerminalStateFacts()
    ensures TerminalStates == ExecutionStatuses.TerminalStatuses
    ensures |TerminalStates| == 5
    ensures !IsTerminalState("running") && !IsTerminalState("scheduled") && !IsTerminalState("other")
  {
    ExecutionStatuses.TerminalStatusCount();
  }
}
