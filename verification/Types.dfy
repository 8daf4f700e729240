/** Records shared by the engine, the two databases and the dispatcher. */
module Types {

  type JobId = int
  /** A UUID v4; only equality of dispatch ids is ever used. */
  type DispatchId = int
  type QueueName = string
  type Millis = int

  newtype Byte = x: int | 0 <= x < 0x100
  type Bytes = seq<Byte>

  const U32_MAX: nat := 0xFFFF_FFFF
  const ROWS_PER_STATEMENT: nat := 256
  const MAX_CLAIM_BATCH_SIZE: nat := 1_048_576

  /** The next element of an unordered collection: any of them. */
  method Pick<T>(s: set<T>) returns (x: T)
    requires s != {}
    ensures x in s
  {
    x :| x in s;
  }

  datatype Option<+T> = None | Some(value: T)

  datatype Result<+T> = Ok(value: T) | Err(error: StoreError)

  datatype StoreError =
    | NotFound(jobId: JobId)
    | QueueNotFound(name: QueueName)
    | Internal(reason: string)

  datatype Status = Pending | Running | Completed | Failed

  datatype Outcome = Succeeded(payload: Bytes) | Crashed(message: string)

  datatype JobQueue = JobQueue(name: QueueName, maxRetries: nat, timeoutSecs: nat)

  /** A row of `accepted_jobs`; the row id is the key of the table. */
  datatype AcceptedJob = AcceptedJob(
    queueName: QueueName,
    payload: Bytes,
    dispatchId: Option<DispatchId>,
    createdAt: Millis)

  /** A row of `executions`; the table is keyed by `job_id`, which is unique. */
  datatype Execution = Execution(
    queueName: QueueName,
    status: Status,
    executionCount: nat,
    leaseExpiresAt: Option<Millis>,
    dispatchId: DispatchId,
    resultPayload: Option<Bytes>,
    resultError: Option<string>)

  datatype Job = Job(
    id: JobId,
    name: QueueName,
    status: Status,
    payload: Bytes,
    executionCount: nat,
    leaseExpiresAt: Option<Millis>,
    dispatchId: Option<DispatchId>,
    resultPayload: Option<Bytes>,
    resultError: Option<string>,
    createdAt: Millis)

  /** The job a client sees: an accepted row overlaid with its execution, if any. */
  function FromAccepted(id: JobId, accepted: AcceptedJob, execution: Option<Execution>): (job: Job)
    ensures job.id == id && job.payload == accepted.payload
    ensures job.status == Completed <==> execution.Some? && execution.value.status == Completed
    ensures job.status == Failed ==> accepted.dispatchId.Some?
  {
    match execution
    case None =>
      Job(id, accepted.queueName, Pending, accepted.payload, 0, None, accepted.dispatchId, None, None,
          accepted.createdAt)
    case Some(e) =>
      var status := if e.status == Failed && accepted.dispatchId.None? then Pending else e.status;
      Job(id, accepted.queueName, status, accepted.payload, e.executionCount, e.leaseExpiresAt,
          Some(e.dispatchId), e.resultPayload, e.resultError, accepted.createdAt)
  }
}
