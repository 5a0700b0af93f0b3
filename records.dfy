/**
 * The records the dashboard receives from its data-fetch layer, restricted to
 * the fields that the modelled logic reads. Timestamps are the millisecond
 * values that `new Date(timestamp)` yields; percentages and values are reals.
 */
module Records {
  import opened Wrappers

  /** One row of the SQL CPU feed (`sqlQueryCPU`). */
  datatype SqlQuery = SqlQuery(sqlId: string, timestamp: int, cpuPercent: real)

  /** One row of the session CPU feed (`sessionCPU`); `cpuTime` may be null. */
  datatype SessionSample = SessionSample(
    sid: int, username: string, program: string,
    timestamp: int, cpuPercent: real, cpuTime: Option<int>)

  /** One row of the incident feed. */
  datatype Incident = Incident(
    id: int, sid: int, role: string, waitClass: string,
    elapsedTime: int, impactedSessions: int, blockingSid: Option<int>)

  /** One slice of the wait-class pie chart (`value` is a percentage). */
  datatype WaitClassItem = WaitClassItem(name: string, value: real)

  /** A tablespace of the storage feed. */
  datatype Tablespace = Tablespace(name: string, usedMB: int, freeMB: int)

  /** A node of the blocking-sessions feed. */
  datatype BlockingNode = BlockingNode(sid: int, blockedBy: Option<int>)
}
