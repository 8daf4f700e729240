/** The attempt protocol: one job's state split over two databases that share no transaction.
    Every event is one atomic transaction, one read, or the loss of the process; the operations of
    the store are sequences of events, and what is left of an operation between two of its events
    sits in `pending`. */
module AttemptProtocol {
  import opened Types
  import R = ResultsTable
  import I = IngestTable

  datatype Cause = Retry | Release | Rollback

  /** The rest of an operation that has already committed its first step. */
  datatype Op =
    | AfterClaim(rows: seq<R.DispatchInsert>)
    | AbandonNext(job: JobId, id: DispatchId)
    | RependNext(job: JobId, id: DispatchId, cause: Cause)
    | UpsertNext(queue: JobQueue)
    | ReadNext(job: JobId, accepted: AcceptedJob)

  /** Which job and which claim a dispatch id was generated for. */
  datatype Origin = Origin(job: JobId, claim: Op)

  /** The two databases and the operations in flight, followed by history that no code reads. */
  datatype State = State(
    up: bool,
    accepted: I.Accepted,
    last: nat,
    policies: R.Queues,
    executions: R.Executions,
    queues: R.Queues,
    pending: set<Op>,
    issued: map<DispatchId, Origin>,
    handed: set<DispatchId>,
    reported: set<DispatchId>,
    released: set<DispatchId>,
    exhausted: set<DispatchId>,
    stranded: set<DispatchId>,
    releases: map<JobId, nat>)

  /** `keep` leaves the operation in flight, as when the same call was made more than once. */
  datatype Event =
    | Enqueue(newJobs: seq<I.NewJob>, table: I.Accepted)
    | UpsertIngest(queue: JobQueue)
    | UpsertResults(op: Op, keep: bool)
    | Claim(name: QueueName, limit: nat, rows: seq<R.DispatchInsert>, table: I.Accepted)
    | Dispatch(op: Op, fails: bool)
    | Complete(batch: seq<R.Completion>, after: R.Executions, disp: seq<R.Disposition>)
    | StartRelease(job: JobId, id: DispatchId)
    | Abandon(op: Op, keep: bool)
    | Repend(op: Op, keep: bool)
    | RecoverStale(now: Millis)
    | StartRead(job: JobId)
    | FinishRead(op: Op, keep: bool)
    | Crash(healed: set<JobId>)
    | Reopen

  function Jobs(rows: seq<R.DispatchInsert>): seq<JobId> {
    seq(|rows|, i requires 0 <= i < |rows| => rows[i].jobId)
  }

  function Ids(rows: seq<R.DispatchInsert>): seq<DispatchId> {
    seq(|rows|, i requires 0 <= i < |rows| => rows[i].dispatchId)
  }

  ghost predicate DistinctIds(rows: seq<R.DispatchInsert>) {
    forall i, k :: 0 <= i < k < |rows| ==> rows[i].dispatchId != rows[k].dispatchId
  }

  /** Repends issued for a whole claim whose dispatch was refused. */
  ghost function RependAll(rows: seq<R.DispatchInsert>): set<Op> {
    set i | 0 <= i < |rows| :: RependNext(rows[i].jobId, rows[i].dispatchId, Rollback)
  }

  ghost function RependsOf(batch: seq<R.Completion>, disp: seq<R.Disposition>): set<Op>
    requires |disp| == |batch|
  {
    set i | 0 <= i < |batch| && disp[i] == R.Repend :: RependNext(batch[i].jobId, batch[i].dispatchId, Retry)
  }

  ghost function FinalFailures(batch: seq<R.Completion>, disp: seq<R.Disposition>): set<DispatchId>
    requires |disp| == |batch|
  {
    set i | 0 <= i < |batch| && disp[i] == R.Finished && batch[i].outcome.Crashed? :: batch[i].dispatchId
  }

  ghost function BatchIds(batch: seq<R.Completion>): set<DispatchId> {
    set i | 0 <= i < |batch| :: batch[i].dispatchId
  }

  ghost function RecoveryRepends(t: R.Executions, queues: R.Queues, now: Millis): set<Op> {
    set j | j in t && R.Stale(t[j], now) && R.Retryable(queues, t[j]) :: RependNext(j, t[j].dispatchId, Retry)
  }

  ghost function RecoveryFinal(t: R.Executions, queues: R.Queues, now: Millis): set<DispatchId> {
    set j | j in t && R.Stale(t[j], now) && !R.Retryable(queues, t[j]) :: t[j].dispatchId
  }

  ghost function LostRepends(pending: set<Op>): set<DispatchId> {
    set op | op in pending && op.RependNext? :: op.id
  }

  ghost function Issue(issued: map<DispatchId, Origin>, rows: seq<R.DispatchInsert>, n: nat)
    : (r: map<DispatchId, Origin>)
    requires n <= |rows|
  {
    if n == 0 then issued
    else Issue(issued, rows, n - 1)[rows[n - 1].dispatchId := Origin(rows[n - 1].jobId, AfterClaim(rows))]
  }

  /** What the code, the databases and the delivery layer let happen next. Dispatch ids are fresh;
      a claim is released only if it was handed out and never reported on, and a worker reports
      only on attempts that were not released. */
  ghost predicate Enabled(s: State, e: Event) {
    match e
    case Enqueue(newJobs, table) =>
      && s.up && I.InsertTx(s.accepted, s.last, newJobs, table)
      && (forall i :: 0 <= i < |newJobs| ==> newJobs[i].queueName in s.policies)
    case UpsertIngest(queue) =>
      s.up
    case UpsertResults(op, _) =>
      op in s.pending && op.UpsertNext?
    case Claim(name, limit, rows, table) =>
      && s.up && rows != []
      && I.Selection(s.accepted, name, limit, Jobs(rows)) && I.ClaimTx(s.accepted, Jobs(rows), Ids(rows), table)
      && DistinctIds(rows) && (forall i :: 0 <= i < |rows| ==> rows[i].dispatchId !in s.issued)
      && (forall i :: 0 <= i < |rows| ==> rows[i].queueName == name)
    case Dispatch(op, _) =>
      op in s.pending && op.AfterClaim?
    case Complete(batch, after, disp) =>
      && s.up && R.CompleteTx(s.executions, s.queues, batch, after, disp)
      && BatchIds(batch) !! s.released
    case StartRelease(job, id) =>
      s.up && id in s.handed && id !in s.reported
    case Abandon(op, _) =>
      op in s.pending && op.AbandonNext?
    case Repend(op, _) =>
      op in s.pending && op.RependNext?
    case RecoverStale(now) =>
      s.up
    case StartRead(job) =>
      s.up && job in s.accepted
    case FinishRead(op, _) =>
      op in s.pending && op.ReadNext?
    case Crash(_) =>
      true
    case Reopen =>
      !s.up
  }

  ghost function Left(s: State, op: Op, keep: bool): set<Op> {
    if keep then s.pending else s.pending - {op}
  }

  ghost function Releases(s: State, j: JobId): nat {
    if j in s.releases then s.releases[j] else 0
  }

  /** A dispatch settles: refused, committed and answered, or committed but answered with an error. */
  ghost function Settled(s: State, op: Op, tx: Option<R.Executions>, answered: bool): State
    requires op.AfterClaim?
  {
    if tx.None? then
      s.(pending := s.pending - {op} + RependAll(op.rows))
    else if answered then
      s.(executions := tx.value, pending := s.pending - {op}, handed := s.handed + RowIds(op.rows))
    else
      s.(executions := tx.value, pending := s.pending - {op} + RependAll(op.rows))
  }

  ghost function RowIds(rows: seq<R.DispatchInsert>): set<DispatchId> {
    set i | 0 <= i < |rows| :: rows[i].dispatchId
  }

  ghost function AfterDispatch(s: State, op: Op, fails: bool): State
    requires op.AfterClaim?
  {
    var tx := if fails then None else R.DispatchTx(s.executions, s.queues, op.rows);
    Settled(s, op, tx, R.AllDispatchable(s.executions, op.rows))
  }

  ghost function AfterRepend(s: State, op: Op, keep: bool): State
    requires op.RependNext?
  {
    var counts := op.cause == Release && op.job in s.accepted && s.accepted[op.job].dispatchId == Some(op.id);
    s.(accepted := I.Repend(s.accepted, op.job, op.id), pending := Left(s, op, keep),
       releases := if counts then s.releases[op.job := Releases(s, op.job) + 1] else s.releases)
  }

  ghost function AfterRelease(s: State, job: JobId, id: DispatchId): State {
    var bound := job in s.accepted && s.accepted[job].dispatchId == Some(id);
    s.(released := s.released + {id}, pending := if bound then s.pending + {AbandonNext(job, id)} else s.pending)
  }

  ghost function After(s: State, e: Event): State
    requires Enabled(s, e)
  {
    match e
    case Enqueue(newJobs, table) =>
      s.(accepted := table, last := s.last + |newJobs|)
    case UpsertIngest(queue) =>
      s.(policies := s.policies[queue.name := queue], pending := s.pending + {UpsertNext(queue)})
    case UpsertResults(op, keep) =>
      s.(queues := s.queues[op.queue.name := op.queue], pending := Left(s, op, keep))
    case Claim(name, limit, rows, table) =>
      s.(accepted := table, pending := s.pending + {AfterClaim(rows)}, issued := Issue(s.issued, rows, |rows|))
    case Dispatch(op, fails) =>
      AfterDispatch(s, op, fails)
    case Complete(batch, after, disp) =>
      s.(executions := after, pending := s.pending + RependsOf(batch, disp),
         reported := s.reported + BatchIds(batch), exhausted := s.exhausted + FinalFailures(batch, disp))
    case StartRelease(job, id) =>
      AfterRelease(s, job, id)
    case Abandon(op, keep) =>
      s.(executions := R.Abandon(s.executions, op.job, op.id),
         pending := Left(s, op, keep) + {RependNext(op.job, op.id, Release)})
    case Repend(op, keep) =>
      AfterRepend(s, op, keep)
    case RecoverStale(now) =>
      s.(executions := R.Recover(s.executions, now),
         pending := s.pending + RecoveryRepends(s.executions, s.queues, now),
         exhausted := s.exhausted + RecoveryFinal(s.executions, s.queues, now))
    case StartRead(job) =>
      s.(pending := s.pending + {ReadNext(job, s.accepted[job])})
    case FinishRead(op, keep) =>
      s.(pending := Left(s, op, keep))
    case Crash(healed) =>
      s.(up := false, accepted := I.Heal(s.accepted, s.executions, healed), pending := {},
         stranded := s.stranded + LostRepends(s.pending))
    case Reopen =>
      s.(up := true, accepted := I.Heal(s.accepted, s.executions, s.accepted.Keys))
  }

  ghost predicate Init(s: State) {
    s == State(true, map[], 0, map[], map[], map[], {}, map[], {}, {}, {}, {}, {}, map[])
  }

  /** A run: any interleaving, of any length, of any operations. */
  ghost predicate IsRun(states: seq<State>, events: seq<Event>) {
    && |states| == |events| + 1
    && Init(states[0])
    && (forall i :: 0 <= i < |events| ==> Enabled(states[i], events[i]) && states[i + 1] == After(states[i], events[i]))
  }
}
