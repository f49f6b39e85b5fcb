/** The closed set of Rundeck execution statuses after which an execution
    no longer changes (utils/executionStatuses.ts). */
module ExecutionStatuses {
  import opened Wrappers

  /** The `TerminalStatus` string-literal union. */
  datatype TerminalStatus = Succeeded | Failed | FailedWithRetry | Aborted | TimedOut

  /** The literal each member of the union stands for. */
  function StatusName(t: TerminalStatus): string {
    match t
    case Succeeded => "succeeded"
    case Failed => "failed"
    case FailedWithRetry => "failed-with-retry"
    case Aborted => "aborted"
    case TimedOut => "timedout"
  }

  /** The keys of the `terminalStatuses` record. */
  const TerminalStatuses: set<string> :=
    {"succeeded", "failed", "failed-with-retry", "aborted", "timedout"}

  /** `status in terminalStatuses`, over the closed five-key record. */
  predicate IsTerminalStatus(status: string) {
    status in TerminalStatuses
  }

  /** The type guard `status is TerminalStatus`: a terminal status is
      exactly the name of one member of the union, and that member is
      returned. */
  function AsTerminalStatus(status: string): (r: Option<TerminalStatus>)
    ensures r.Some? <==> IsTerminalStatus(status)
    ensures r.Some? ==> StatusName(r.value) == status
  {
    if status == "succeeded" then Some(Succeeded)
    else if status == "failed" then Some(Failed)
    else if status == "failed-with-retry" then Some(FailedWithRetry)
    else if status == "aborted" then Some(Aborted)
    else if status == "timedout" then Some(TimedOut)
    else None
  }

  /** Every member of the union is classified terminal, and distinct
      members have distinct names. */
  lemma StatusNamesAreTerminal(t: TerminalStatus, u: TerminalStatus)
    ensures IsTerminalStatus(StatusName(t))
    ensures StatusName(t) == StatusName(u) ==> t == u
  {
  }

  /** The record has exactly five keys. */
  lemma TerminalStatusCount()
    ensures |TerminalStatuses| == 5
  {
    var s1: set<string> := {"succeeded"};
    var s2 := s1 + {"failed"};
    var s3 := s2 + {"failed-with-retry"};
    var s4 := s3 + {"aborted"};
    assert "failed" !in s1;
    assert "failed-with-retry" !in s2;
    assert "aborted" !in s3;
    assert "timedout" !in s4;
    assert TerminalStatuses == s4 + {"timedout"};
  }

  /** The non-terminal values of the status enumeration (and any other
      string, such as a custom status) are classified non-terminal. */
  lemma NonTerminalStatuses()
    ensures !IsTerminalStatus("running")
    ensures !IsTerminalStatus("scheduled")
    ensures !IsTerminalStatus("other")
    ensures !IsTerminalStatus("")
  {
  }
}
