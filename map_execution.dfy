/** The projection of a Rundeck execution onto the record every emitted
    event carries (utils/mapExecution.ts); the input shape follows
    `RundeckExecution` in rundeck/types.ts. */
module ExecutionMapping {
  import opened Wrappers

  /** `{ unixtime, date }` timestamps of the Rundeck API. */
  datatype Timestamp = Timestamp(unixtime: int, date: string)

  datatype ExecutionJob = ExecutionJob(
    id: string,
    name: string,
    group: string,
    project: string,
    description: Option<string>,
    href: Option<string>,
    permalink: Option<string>,
    averageDuration: Option<int>)

  /** `RundeckExecution` as the API returns it. */
  datatype RundeckExecution = RundeckExecution(
    id: int,
    href: string,
    permalink: string,
    status: string,
    customStatus: Option<string>,
    project: string,
    user: string,
    serverUUID: Option<string>,
    dateStarted: Timestamp,
    dateEnded: Option<Timestamp>,
    job: ExecutionJob,
    description: string,
    argstring: Option<string>,
    successfulNodes: Option<seq<string>>,
    failedNodes: Option<seq<string>>)

  datatype MappedJob = MappedJob(
    id: string,
    name: string,
    group: string,
    project: string,
    description: Option<string>,
    averageDuration: Option<int>)

  /** The event payload; it has no field for the server UUID, the Unix
      times or the job's links. */
  datatype MappedExecution = MappedExecution(
    id: int,
    href: string,
    permalink: string,
    status: string,
    customStatus: Option<string>,
    project: string,
    user: string,
    dateStarted: string,
    dateEnded: Option<string>,
    job: MappedJob,
    description: string,
    argstring: Option<string>,
    successfulNodes: Option<seq<string>>,
    failedNodes: Option<seq<string>>)

  /** `mapExecution`: copy the identifying and descriptive fields, keep
      only the ISO dates, and drop the job's links. */
  function MapExecution(exec: RundeckExecution): (m: MappedExecution)
    ensures m.id == exec.id && m.href == exec.href && m.permalink == exec.permalink
    ensures m.status == exec.status && m.project == exec.project && m.user == exec.user
    ensures m.description == exec.description
    ensures m.dateStarted == exec.dateStarted.date
    ensures m.dateEnded.None? <==> exec.dateEnded.None?
    ensures exec.dateEnded.Some? ==> m.dateEnded == Some(exec.dateEnded.value.date)
    ensures m.job.id == exec.job.id && m.job.name == exec.job.name && m.job.group == exec.job.group
    ensures m.job.project == exec.job.project && m.job.description == exec.job.description
    ensures m.job.averageDuration == exec.job.averageDuration
    ensures m.customStatus == exec.customStatus && m.argstring == exec.argstring
    ensures m.successfulNodes == exec.successfulNodes && m.failedNodes == exec.failedNodes
  {
    MappedExecution(
      exec.id, exec.href, exec.permalink, exec.status, exec.customStatus,
      exec.project, exec.user, exec.dateStarted.date,
      match exec.dateEnded case Some(t) => Some(t.date) case None => None,
      MappedJob(exec.job.id, exec.job.name, exec.job.group, exec.job.project,
                exec.job.description, exec.job.averageDuration),
      exec.description, exec.argstring, exec.successfulNodes, exec.failedNodes)
  }

  /** What the projection drops. */
  datatype Dropped = Dropped(
    serverUUID: Option<string>,
    startedUnixtime: int,
    endedUnixtime: int,
    jobHref: Option<string>,
    jobPermalink: Option<string>)

  function DroppedOf(exec: RundeckExecution): Dropped {
    Dropped(exec.serverUUID, exec.dateStarted.unixtime,
            match exec.dateEnded case Some(t) => t.unixtime case None => 0,
            exec.job.href, exec.job.permalink)
  }

  /** Rebuild an execution from an event payload and the dropped fields. */
  function Restore(m: MappedExecution, d: Dropped): RundeckExecution {
    RundeckExecution(
      m.id, m.href, m.permalink, m.status, m.customStatus, m.project, m.user,
      d.serverUUID, Timestamp(d.startedUnixtime, m.dateStarted),
      match m.dateEnded case Some(date) => Some(Timestamp(d.endedUnixtime, date)) case None => None,
      ExecutionJob(m.job.id, m.job.name, m.job.group, m.job.project, m.job.description,
                   d.jobHref, d.jobPermalink, m.job.averageDuration),
      m.description, m.argstring, m.successfulNodes, m.failedNodes)
  }

  /** The projection loses exactly the dropped fields: together with them
      it gives back the execution, so every other field is carried over
      unchanged. */
  lemma MapExecutionRoundTrip(exec: RundeckExecution)
    ensures Restore(MapExecution(exec), DroppedOf(exec)) == exec
  {
  }

  /** Executions that differ only in the dropped fields produce the same
      event, and executions with the same event differ only there. */
  lemma MapExecutionIgnoresOnlyDropped(a: RundeckExecution, b: RundeckExecution)
    ensures MapExecution(a) == MapExecution(b) <==> a == Restore(MapExecution(b), DroppedOf(a))
  {
    MapExecutionRoundTrip(a);
    MapExecutionRoundTrip(b);
  }
}
