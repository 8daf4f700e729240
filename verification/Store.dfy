/** The store over both databases, one call at a time. Each call is a few transactions in a fixed order;
    what other calls may do between two of them is the subject of `AttemptProtocol`. */
module Store {
  import opened Types
  import opened ResultsTable
  import opened IngestTable
  import opened BatchOrder
  import ResultsConn
  import IngestConn

  const I64_MAX: int := 0x7FFF_FFFF_FFFF_FFFF

  function SaturatingMillis(x: int): Millis {
    if x > I64_MAX then I64_MAX else x
  }

  function LeaseDeadline(claimedAt: Millis, timeoutSecs: nat): Millis {
    SaturatingMillis(claimedAt + SaturatingMillis(timeoutSecs * 1000))
  }

  /** A lease lasts for the queue's timeout in milliseconds, up to the end of time. */
  lemma LeaseLasts(claimedAt: Millis, timeoutSecs: nat)
    requires claimedAt >= 0
    ensures LeaseDeadline(claimedAt, timeoutSecs)
      == if claimedAt + 1000 * timeoutSecs <= 0x7FFF_FFFF_FFFF_FFFF then claimedAt + 1000 * timeoutSecs
         else 0x7FFF_FFFF_FFFF_FFFF
  {
  }

  /** An execution that is running or completed under an id has its job bound to that id. */
  ghost predicate Phases(accepted: Accepted, executions: Executions) {
    forall j :: j in executions && executions[j].status in {Running, Completed} ==>
      j in accepted && accepted[j].dispatchId == Some(executions[j].dispatchId)
  }

  /** Every execution belongs to an accepted job. */
  ghost predicate Owned(accepted: Accepted, executions: Executions) {
    forall j :: j in executions ==> j in accepted
  }

  /** The job handed to the scheduler shows the same attempt in both databases. */
  ghost predicate Shows(job: Job, accepted: Accepted, executions: Executions) {
    && job.id in accepted && job.id in executions
    && job.dispatchId.Some? && accepted[job.id].dispatchId == job.dispatchId
    && executions[job.id].dispatchId == job.dispatchId.value && executions[job.id].status == Running
    && job == FromAccepted(job.id, accepted[job.id], Some(executions[job.id]))
  }

  function Lookup(t: Executions, j: JobId): Option<Execution> {
    if j in t then Some(t[j]) else None
  }

  function CountOf(t: Executions, j: JobId): nat {
    if j in t then t[j].executionCount else 0
  }

  function Ids(rows: seq<IngestConn.Claimed>): seq<JobId> {
    seq(|rows|, i requires 0 <= i < |rows| => rows[i].id)
  }

  ghost predicate WereFree(before: Accepted, rows: seq<IngestConn.Claimed>) {
    forall i :: 0 <= i < |rows| ==> rows[i].id in before && before[rows[i].id].dispatchId.None?
  }

  function InsertOf(c: IngestConn.Claimed, claimedAt: Millis): DispatchInsert {
    DispatchInsert(c.id, c.name, c.dispatchId, LeaseDeadline(claimedAt, c.timeoutSecs))
  }

  function DispatchedOf(u: Executions, row: DispatchInsert): Dispatched
    requires row.jobId in u
  {
    Dispatched(row.jobId, u[row.jobId].executionCount, row.dispatchId, row.leaseExpiresAt)
  }

  function Inserts(rows: seq<IngestConn.Claimed>, claimedAt: Millis): seq<DispatchInsert> {
    seq(|rows|, i requires 0 <= i < |rows| => InsertOf(rows[i], claimedAt))
  }

  function JobOf(c: IngestConn.Claimed, d: Dispatched): Job {
    Job(c.id, c.name, Running, c.payload, d.executionCount, Some(d.leaseExpiresAt), Some(d.dispatchId), None, None,
        c.createdAt)
  }

  lemma SelectedWereFree(t: Accepted, queue: QueueName, limit: nat, rows: seq<IngestConn.Claimed>)
    requires Selection(t, queue, limit, Ids(rows))
    ensures WereFree(t, rows)
  {
    forall i | 0 <= i < |rows| ensures rows[i].id in t && t[rows[i].id].dispatchId.None? {
      assert Free(t, queue, Ids(rows)[i]);
    }
  }

  /** Rows chosen while free can all be dispatched. */
  lemma FreeRowsDispatch(t: Accepted, executions: Executions, queue: QueueName, limit: nat, jobs: seq<JobId>,
                         rows: seq<DispatchInsert>)
    requires Phases(t, executions) && Selection(t, queue, limit, jobs)
    requires |rows| == |jobs| && forall i :: 0 <= i < |rows| ==> rows[i].jobId == jobs[i]
    ensures AllDispatchable(executions, rows)
  {
    forall i | 0 <= i < |rows| ensures Upserts(executions, rows[i]) {
      assert Free(t, queue, jobs[i]);
      if jobs[i] in executions {
        var status := executions[jobs[i]].status;
        assert status.Pending? || status.Running? || status.Completed? || status.Failed?;
      }
    }
    forall i, k | 0 <= i < k < |rows| ensures rows[i].jobId != rows[k].jobId {
      assert Before(t, jobs[i], jobs[k]);
    }
  }

  /** Claimed rows, described as they now stand. */
  ghost predicate Describe(accepted: Accepted, rows: seq<IngestConn.Claimed>, timeoutSecs: nat) {
    forall i :: 0 <= i < |rows| ==> IngestConn.DescribesRow(accepted, rows[i], timeoutSecs)
  }

  /** A new attempt: one more than before, and leased for the queue's timeout from the claim on. */
  ghost predicate NewAttempt(job: Job, t: Executions, deadline: Millis) {
    job.executionCount == CountOf(t, job.id) + 1 && job.leaseExpiresAt == Some(deadline)
  }

  lemma ClaimShows(t: Executions, u: Executions, accepted: Accepted, rows: seq<IngestConn.Claimed>, claimedAt: Millis,
                   timeoutSecs: nat, i: nat)
    requires Dispatches(t, Inserts(rows, claimedAt), u) && Describe(accepted, rows, timeoutSecs) && i < |rows|
    ensures rows[i].id in u
    ensures var job := JobOf(rows[i], DispatchedOf(u, InsertOf(rows[i], claimedAt)));
      Shows(job, accepted, u) && NewAttempt(job, t, LeaseDeadline(claimedAt, timeoutSecs))
  {
    var inserts := Inserts(rows, claimedAt);
    assert inserts[i] == InsertOf(rows[i], claimedAt);
    assert u[inserts[i].jobId] == UpsertedRow(t, inserts[i]);
    assert IngestConn.DescribesRow(accepted, rows[i], timeoutSecs);
  }

  lemma ClaimKeepsPhases(before: Accepted, accepted: Accepted, ids: seq<DispatchId>, t: Executions, u: Executions,
                         rows: seq<IngestConn.Claimed>, claimedAt: Millis, timeoutSecs: nat)
    requires Phases(before, t) && Owned(before, t) && ClaimTx(before, Ids(rows), ids, accepted)
    requires Dispatches(t, Inserts(rows, claimedAt), u)
    requires Describe(accepted, rows, timeoutSecs)
    ensures Phases(accepted, u) && Owned(accepted, u)
  {
    var inserts := Inserts(rows, claimedAt);
    forall j | j in u
      ensures j in accepted && (u[j].status in {Running, Completed} ==> accepted[j].dispatchId == Some(u[j].dispatchId))
    {
      if i :| 0 <= i < |inserts| && inserts[i].jobId == j {
        assert u[inserts[i].jobId] == UpsertedRow(t, inserts[i]);
      } else {
        assert j !in JobsOf(inserts);
        forall i | 0 <= i < |rows| ensures Ids(rows)[i] != j {
          assert inserts[i].jobId == rows[i].id;
        }
      }
    }
  }

  /** After `n` repends of a claim the first `n` rows are as they were before it. */
  ghost predicate Undone(t: Accepted, u: Accepted, jobs: seq<JobId>, n: nat, v: Accepted)
    requires n <= |jobs|
  {
    && t.Keys == u.Keys == v.Keys
    && (forall j :: j in t ==> v[j] == if j in jobs[..n] then t[j] else u[j])
  }

  class SqliteStore {
    const ingest: IngestConn.Conn
    const results: ResultsConn.Conn

    ghost predicate Valid()
      reads this, ingest, results
    {
      && ingest.Valid() && results.Valid()
      && Phases(ingest.accepted, results.executions) && Owned(ingest.accepted, results.executions)
    }

    /** Opens a pair of databases as a stopped process left them. */
    constructor (ingest: IngestConn.Conn, results: ResultsConn.Conn)
      requires ingest.Valid() && results.Valid()
      requires Phases(ingest.accepted, results.executions) && Owned(ingest.accepted, results.executions)
      modifies ingest
      ensures this.ingest == ingest && this.results == results && Valid()
      ensures ingest.accepted == Heal(old(ingest.accepted), results.executions, old(ingest.accepted).Keys)
      ensures forall j :: j in ingest.accepted ==> !Orphan(ingest.accepted[j], results.executions)
    {
      this.ingest, this.results := ingest, results;
      new;
      ingest.HealOrphanClaims(results.executions);
    }

    method ComposedJob(id: JobId) returns (r: Result<Job>)
      ensures id !in ingest.accepted ==> r == Err(NotFound(id))
      ensures id in ingest.accepted && id !in results.executions ==>
        var a := ingest.accepted[id];
        r == Ok(Job(id, a.queueName, Pending, a.payload, 0, None, a.dispatchId, None, None, a.createdAt))
      ensures id in ingest.accepted ==> r == Ok(FromAccepted(id, ingest.accepted[id], Lookup(results.executions, id)))
    {
      if id !in ingest.accepted {
        return Err(NotFound(id));
      }
      return Ok(FromAccepted(id, ingest.accepted[id], Lookup(results.executions, id)));
    }

    /** Gives back a whole claim. */
    method RependAll(rows: seq<IngestConn.Claimed>, ghost before: Accepted, ghost ids: seq<DispatchId>)
      requires Distinct(Ids(rows)) && ingest.Valid()
      requires ClaimTx(before, Ids(rows), ids, ingest.accepted)
      requires forall i :: 0 <= i < |rows| ==> rows[i].dispatchId == ids[i]
      requires WereFree(before, rows)
      modifies ingest`accepted
      ensures ingest.Valid() && ingest.accepted == before
    {
      ghost var u := ingest.accepted;
      ghost var jobs := Ids(rows);
      for n := 0 to |rows|
        invariant ingest.Valid() && Undone(before, u, jobs, n, ingest.accepted)
      {
        assert jobs[..n + 1] == jobs[..n] + [jobs[n]] && jobs[n] == rows[n].id;
        assert jobs[n] !in jobs[..n];
        assert u[jobs[n]] == before[jobs[n]].(dispatchId := Some(ids[n]));
        ingest.RependClaim(rows[n].id, rows[n].dispatchId);
      }
      assert jobs[..|rows|] == jobs;
      forall j | j in before ensures ingest.accepted[j] == before[j] {
      }
    }

    /** A claim takes the oldest free jobs and hands out each with the attempt recorded in both databases;
        a claim that fails leaves both databases as they were. `newIds` are the ids the generator yields. */
    method ClaimBatch(queue: QueueName, limit: nat, claimedAt: Millis, newIds: seq<DispatchId>)
      returns (r: Result<seq<Job>>)
      requires Valid()
      requires |newIds| == IngestConn.ClampClaim(limit)
      modifies ingest`accepted, results`executions
      ensures r.Err? ==> ingest.accepted == old(ingest.accepted) && results.executions == old(results.executions)
      ensures r.Ok? ==>
        && Selection(old(ingest.accepted), queue, IngestConn.ClampClaim(limit), JobIds(r.value))
        && ClaimTx(old(ingest.accepted), JobIds(r.value), newIds[..|r.value|], ingest.accepted)
        && queue in ingest.queues
        && var deadline := LeaseDeadline(claimedAt, ingest.queues[queue].timeoutSecs);
           forall i :: 0 <= i < |r.value| ==>
             && Shows(r.value[i], ingest.accepted, results.executions)
             && NewAttempt(r.value[i], old(results.executions), deadline)
      ensures Valid()
    {
      var claimed := ingest.ClaimBatch(queue, limit, newIds);
      if claimed.Err? {
        return Err(claimed.error);
      }
      var rows := claimed.value;
      if rows == [] {
        return Ok([]);
      }
      SelectedWereFree(old(ingest.accepted), queue, |newIds|, rows);
      FreeRowsDispatch(old(ingest.accepted), results.executions, queue, |newIds|, Ids(rows), Inserts(rows, claimedAt));
      ghost var timeoutSecs := ingest.queues[queue].timeoutSecs;
      var jobs := DispatchClaim(rows, claimedAt, old(ingest.accepted), newIds[..|rows|], timeoutSecs);
      if jobs.Err? {
        return Err(jobs.error);
      }
      assert JobIds(jobs.value) == Ids(rows);
      return Ok(jobs.value);
    }

    /** The second step of a claim, and its compensation when that step is refused. */
    method DispatchClaim(rows: seq<IngestConn.Claimed>, claimedAt: Millis, ghost before: Accepted,
                         ghost ids: seq<DispatchId>, ghost timeoutSecs: nat)
      returns (r: Result<seq<Job>>)
      requires ingest.Valid() && results.Valid() && Phases(before, results.executions)
      requires Owned(before, results.executions)
      requires ClaimTx(before, Ids(rows), ids, ingest.accepted)
      requires AllDispatchable(results.executions, Inserts(rows, claimedAt))
      requires WereFree(before, rows) && Describe(ingest.accepted, rows, timeoutSecs)
      modifies ingest`accepted, results`executions
      ensures r.Err? ==> ingest.accepted == before && results.executions == old(results.executions)
      ensures r.Ok? ==> ingest.accepted == old(ingest.accepted) && |r.value| == |rows|
      ensures r.Ok? ==> forall i :: 0 <= i < |rows| ==>
        && r.value[i].id == rows[i].id && Shows(r.value[i], ingest.accepted, results.executions)
        && NewAttempt(r.value[i], old(results.executions), LeaseDeadline(claimedAt, timeoutSecs))
      ensures Valid()
    {
      var inserts := Inserts(rows, claimedAt);
      var dispatched := results.DispatchBatch(inserts);
      if dispatched.Err? {
        forall i, k | 0 <= i < k < |rows| ensures Ids(rows)[i] != Ids(rows)[k] {
          assert inserts[i].jobId != inserts[k].jobId;
        }
        RependAll(rows, before, ids);
        return Err(dispatched.error);
      }
      DispatchTxPointwise(old(results.executions), results.queues, inserts);
      var answers := dispatched.value;
      var jobs := seq(|rows|, i requires 0 <= i < |rows| && i < |answers| => JobOf(rows[i], answers[i]));
      forall i | 0 <= i < |rows|
        ensures rows[i].id in results.executions
        ensures jobs[i] == JobOf(rows[i], DispatchedOf(results.executions, InsertOf(rows[i], claimedAt)))
        ensures Shows(jobs[i], ingest.accepted, results.executions)
        ensures NewAttempt(jobs[i], old(results.executions), LeaseDeadline(claimedAt, timeoutSecs))
      {
        assert inserts[i] == InsertOf(rows[i], claimedAt);
        ClaimShows(old(results.executions), results.executions, ingest.accepted, rows, claimedAt, timeoutSecs, i);
      }
      ClaimKeepsPhases(before, ingest.accepted, ids, old(results.executions), results.executions, rows, claimedAt,
                       timeoutSecs);
      return Ok(jobs);
    }

    /** A result goes to the results database first; only then is the claim given back for a retry. */
    method Report(jobId: JobId, id: DispatchId, outcome: Outcome) returns (disposition: Disposition)
      requires Valid()
      modifies ingest`accepted, results`executions
      ensures (results.executions, disposition)
        == CompleteOne(old(results.executions), results.queues, Completion(jobId, id, outcome))
      ensures disposition.Repend? ==> ingest.accepted == IngestTable.Repend(old(ingest.accepted), jobId, id)
      ensures !disposition.Repend? ==> ingest.accepted == old(ingest.accepted)
      ensures Valid()
    {
      var c := Completion(jobId, id, outcome);
      var dispositions := results.CompleteBatch([c]);
      SingleCompletion(old(results.executions), results.queues, c, results.executions, dispositions);
      disposition := dispositions[0];
      if disposition.Repend? {
        ingest.RependClaim(jobId, id);
      }
    }

    /** A report under the current attempt moves the job to completed, back to pending or to failed, with
        its payload or its error message; any other report changes nothing. */
    method Complete(jobId: JobId, id: DispatchId, outcome: Outcome) returns (r: Result<Option<Job>>)
      requires Valid()
      modifies ingest`accepted, results`executions
      ensures !Current(old(results.executions), jobId, id) ==>
        r == Ok(None) && ingest.accepted == old(ingest.accepted) && results.executions == old(results.executions)
      ensures Current(old(results.executions), jobId, id) ==>
        var e, a := old(results.executions)[jobId], old(ingest.accepted)[jobId];
        var again := e.executionCount <= results.queues[e.queueName].maxRetries;
        match outcome
        case Succeeded(payload) =>
          r == Ok(Some(Ended(jobId, a, e, Completed, Some(payload), None)))
        case Crashed(message) =>
          r == Ok(Some(Ended(jobId, a, e, if again then Pending else Failed, e.resultPayload, Some(message))))
      ensures Valid()
    {
      var disposition := Report(jobId, id, outcome);
      if disposition.Ignored? {
        return Ok(None);
      }
      var job := ComposedJob(jobId);
      assert job.Ok?;
      return Ok(Some(job.value));
    }

    /** Says whether the job is free for another attempt. */
    method CompleteWorkerResult(jobId: JobId, id: DispatchId, outcome: Outcome) returns (again: bool)
      requires Valid()
      modifies ingest`accepted, results`executions
      ensures again ==> jobId in ingest.accepted && ingest.accepted[jobId].dispatchId.None?
      ensures again <==>
        && Current(old(results.executions), jobId, id) && outcome.Crashed?
        && var e := old(results.executions)[jobId];
           e.executionCount <= results.queues[e.queueName].maxRetries
      ensures Valid()
    {
      var disposition := Report(jobId, id, outcome);
      return disposition.Repend?;
    }

    /** Gives back an attempt: its execution is failed before its claim is freed. An unknown job is an
        error, and a job bound to another attempt, or to none, is left alone. Releasing an attempt that
        had completed would free a completed job, and nothing else breaks the phases. */
    method ReleaseClaim(jobId: JobId, id: DispatchId) returns (r: Result<bool>)
      requires Valid()
      modifies ingest`accepted, results`executions
      ensures r.Err? <==> jobId !in old(ingest.accepted)
      ensures r == Ok(true) <==> jobId in old(ingest.accepted) && old(ingest.accepted)[jobId].dispatchId == Some(id)
      ensures r != Ok(true) ==> ingest.accepted == old(ingest.accepted) && results.executions == old(results.executions)
      ensures r == Ok(true) ==>
        && ingest.accepted == old(ingest.accepted)[jobId := old(ingest.accepted)[jobId].(dispatchId := None)]
        && results.executions.Keys == old(results.executions).Keys
        && forall j :: j in results.executions ==>
             var e := old(results.executions)[j];
             results.executions[j]
               == if j == jobId && Current(old(results.executions), jobId, id)
                  then e.(status := Failed, leaseExpiresAt := None, resultError := Some("abandoned")) else e
      ensures ingest.Valid() && results.Valid() && Owned(ingest.accepted, results.executions)
      ensures Phases(ingest.accepted, results.executions) <==>
        !(r == Ok(true) && CompletedUnder(old(results.executions), jobId, id))
    {
      if jobId !in ingest.accepted {
        return Err(NotFound(jobId));
      }
      if ingest.accepted[jobId].dispatchId != Some(id) {
        return Ok(false);
      }
      results.AbandonAttempt(jobId, id);
      ingest.RependClaim(jobId, id);
      ReleasePhases(old(ingest.accepted), old(results.executions), jobId, id);
      return Ok(true);
    }

    /** Expired attempts fail; those with retries left free their jobs; each of these jobs is returned once. */
    method RecoverStaleLeases(now: Millis) returns (r: Result<seq<Job>>)
      requires Valid()
      modifies ingest`accepted, results`executions
      ensures results.executions.Keys == old(results.executions).Keys
      ensures ingest.accepted.Keys == old(ingest.accepted).Keys
      ensures forall j :: j in results.executions ==>
        var e := old(results.executions)[j];
        results.executions[j]
          == if Lapsed(e, now)
             then e.(status := Failed, leaseExpiresAt := None, resultError := Some("lease expired")) else e
      ensures forall j :: j in ingest.accepted ==>
        var a := old(ingest.accepted)[j];
        ingest.accepted[j]
          == if HasRetry(old(results.executions), results.queues, now, j) then a.(dispatchId := None) else a
      ensures r.Ok? && Recovery(old(ingest.accepted), old(results.executions), results.queues, now, r.value)
      ensures Valid()
    {
      var recovered := results.RecoverStale(now);
      var jobs := ReclaimAll(recovered, old(results.executions), now);
      RecoveryIsComplete(old(ingest.accepted), old(results.executions), results.queues, now, recovered, ingest.accepted,
                         jobs);
      return Ok(jobs);
    }

    /** The second step of a recovery, one expired attempt at a time. */
    method ReclaimAll(recovered: seq<Recovered>, ghost t: Executions, ghost now: Millis) returns (jobs: seq<Job>)
      requires ingest.Valid() && Phases(ingest.accepted, t) && results.executions == Recover(t, now)
      requires ResultsConn.RecoveryReport(t, results.queues, now, recovered)
      modifies ingest`accepted
      ensures ingest.Valid() && ReclaimedUpTo(old(ingest.accepted), recovered, |recovered|, ingest.accepted)
      ensures ReportedUpTo(old(ingest.accepted), t, jobs, recovered, |recovered|)
    {
      jobs := [];
      for i := 0 to |recovered|
        invariant ingest.Valid() && ReclaimedUpTo(old(ingest.accepted), recovered, i, ingest.accepted)
        invariant ReportedUpTo(old(ingest.accepted), t, jobs, recovered, i)
      {
        ghost var was := ingest.accepted;
        NotYetReclaimed(old(ingest.accepted), recovered, i, was, t, results.queues, now);
        var job := RecoverOne(recovered[i], was[recovered[i].jobId], t[recovered[i].jobId]);
        jobs := jobs + [job];
        OneMoreReclaimed(old(ingest.accepted), recovered, i, was, ingest.accepted);
      }
    }

    /** One expired attempt, already failed in the results database. The job was read in the same
        databases a moment ago, so reading it again cannot miss it. */
    method RecoverOne(item: Recovered, ghost a: AcceptedJob, ghost e: Execution) returns (job: Job)
      requires ingest.Valid() && item.jobId in ingest.accepted && ingest.accepted[item.jobId] == a
      requires a.dispatchId == Some(item.dispatchId) && item.jobId in results.executions
      requires results.executions[item.jobId]
        == e.(status := Failed, leaseExpiresAt := None, resultError := Some("lease expired"))
      modifies ingest`accepted
      ensures ingest.Valid() && job == RecoveredJob(item, a, e)
      ensures ingest.accepted == AfterItem(old(ingest.accepted), item)
    {
      if item.shouldRepend {
        ingest.RependClaim(item.jobId, item.dispatchId);
      }
      var read := ComposedJob(item.jobId);
      assert read.Ok?;
      return read.value;
    }
  }

  /** The job runs under this attempt. */
  ghost predicate Current(t: Executions, j: JobId, d: DispatchId) {
    j in t && t[j].dispatchId == d && t[j].status == Running
  }

  /** A running attempt whose lease has ended. */
  ghost predicate Lapsed(e: Execution, now: Millis) {
    e.status == Running && e.leaseExpiresAt.Some? && e.leaseExpiresAt.value < now
  }

  ghost predicate HasRetry(t: Executions, queues: Queues, now: Millis, j: JobId) {
    && j in t && Lapsed(t[j], now)
    && t[j].queueName in queues && t[j].executionCount <= queues[t[j].queueName].maxRetries
  }

  /** What a client reads of a job whose attempt has ended. */
  ghost function Ended(j: JobId, a: AcceptedJob, e: Execution, status: Status, payload: Option<Bytes>,
                       error: Option<string>): Job
  {
    Job(j, a.queueName, status, a.payload, e.executionCount, None, Some(e.dispatchId), payload, error, a.createdAt)
  }

  ghost function RecoveredJob(item: Recovered, a: AcceptedJob, e: Execution): Job {
    Ended(item.jobId, a, e, if item.shouldRepend then Pending else Failed, e.resultPayload, Some("lease expired"))
  }

  function AfterItem(t: Accepted, item: Recovered): Accepted {
    if item.shouldRepend then IngestTable.Repend(t, item.jobId, item.dispatchId) else t
  }

  ghost function RependedJobs(recovered: seq<Recovered>, n: nat): set<JobId>
    requires n <= |recovered|
  {
    set k | 0 <= k < n && recovered[k].shouldRepend :: recovered[k].jobId
  }

  ghost predicate ReclaimedUpTo(before: Accepted, recovered: seq<Recovered>, n: nat, now: Accepted)
    requires n <= |recovered|
  {
    && now.Keys == before.Keys
    && (forall j :: j in before && j in RependedJobs(recovered, n) ==> now[j] == before[j].(dispatchId := None))
    && (forall j :: j in before && j !in RependedJobs(recovered, n) ==> now[j] == before[j])
  }

  ghost predicate ReportedUpTo(before: Accepted, t: Executions, jobs: seq<Job>, recovered: seq<Recovered>, n: nat)
    requires n <= |recovered|
  {
    |jobs| == n && forall k :: 0 <= k < n ==> Reports(before, t, jobs[k], recovered[k])
  }

  ghost predicate Reports(before: Accepted, t: Executions, job: Job, item: Recovered) {
    item.jobId in before && item.jobId in t && job == RecoveredJob(item, before[item.jobId], t[item.jobId])
  }

  lemma NotYetReclaimed(before: Accepted, recovered: seq<Recovered>, n: nat, accepted: Accepted, t: Executions,
                        queues: Queues, now: Millis)
    requires n < |recovered| && ReclaimedUpTo(before, recovered, n, accepted) && Phases(before, t)
    requires ResultsConn.RecoveryReport(t, queues, now, recovered)
    ensures var item := recovered[n];
            && item.jobId in before && item.jobId in accepted && accepted[item.jobId] == before[item.jobId]
            && accepted[item.jobId].dispatchId == Some(item.dispatchId) && item.jobId in t
            && Recover(t, now)[item.jobId]
               == t[item.jobId].(status := Failed, leaseExpiresAt := None, resultError := Some("lease expired"))
  {
    var item := recovered[n];
    assert item.jobId in t && item == ResultsConn.RecoveredOf(t, queues, item.jobId);
    assert item.jobId !in RependedJobs(recovered, n);
  }

  lemma OneMoreReclaimed(before: Accepted, recovered: seq<Recovered>, n: nat, was: Accepted, accepted: Accepted)
    requires n < |recovered| && ReclaimedUpTo(before, recovered, n, was)
    requires recovered[n].jobId in was && was[recovered[n].jobId].dispatchId == Some(recovered[n].dispatchId)
    requires accepted == AfterItem(was, recovered[n])
    ensures ReclaimedUpTo(before, recovered, n + 1, accepted)
  {
    var item := recovered[n];
    var more := if item.shouldRepend then {item.jobId} else {};
    assert RependedJobs(recovered, n + 1) == RependedJobs(recovered, n) + more;
  }

  /** Every expired attempt was reported and no other, and the reports say what became of the jobs. */
  ghost predicate Recovery(before: Accepted, t: Executions, queues: Queues, now: Millis, jobs: seq<Job>) {
    && (forall j :: j in t && Lapsed(t[j], now) ==> exists k :: 0 <= k < |jobs| && jobs[k].id == j)
    && (forall i, k :: 0 <= i < k < |jobs| ==> jobs[i].id != jobs[k].id)
    && (forall k :: 0 <= k < |jobs| ==> RecoveredAs(before, t, queues, now, jobs[k]))
  }

  ghost predicate RecoveredAs(before: Accepted, t: Executions, queues: Queues, now: Millis, job: Job) {
    && job.id in before && job.id in t && Lapsed(t[job.id], now)
    && var e := t[job.id];
       var status := if HasRetry(t, queues, now, job.id) then Pending else Failed;
       job == Ended(job.id, before[job.id], e, status, e.resultPayload, Some("lease expired"))
  }

  lemma RecoveryIsComplete(before: Accepted, t: Executions, queues: Queues, now: Millis, recovered: seq<Recovered>,
                           accepted: Accepted, jobs: seq<Job>)
    requires ResultsConn.RecoveryReport(t, queues, now, recovered) && Phases(before, t) && Owned(before, t)
    requires ReclaimedUpTo(before, recovered, |recovered|, accepted)
    requires ReportedUpTo(before, t, jobs, recovered, |recovered|)
    ensures Recovery(before, t, queues, now, jobs)
    ensures forall j :: j in before ==>
      accepted[j] == if HasRetry(t, queues, now, j) then before[j].(dispatchId := None) else before[j]
    ensures Phases(accepted, Recover(t, now)) && Owned(accepted, Recover(t, now))
  {
    forall j | j in t && Lapsed(t[j], now) ensures exists k :: 0 <= k < |jobs| && jobs[k].id == j {
      assert ResultsConn.RecoveredOf(t, queues, j) in recovered;
      var k :| 0 <= k < |recovered| && recovered[k] == ResultsConn.RecoveredOf(t, queues, j);
      assert Reports(before, t, jobs[k], recovered[k]);
    }
    forall k | 0 <= k < |jobs|
      ensures jobs[k].id == recovered[k].jobId && RecoveredAs(before, t, queues, now, jobs[k])
    {
      assert Reports(before, t, jobs[k], recovered[k]);
      assert recovered[k] == ResultsConn.RecoveredOf(t, queues, recovered[k].jobId);
    }
    RetriesAreFreed(t, queues, now, recovered);
  }

  /** The jobs a recovery frees are those with a retry left. */
  lemma RetriesAreFreed(t: Executions, queues: Queues, now: Millis, recovered: seq<Recovered>)
    requires ResultsConn.RecoveryReport(t, queues, now, recovered)
    ensures forall j :: j in RependedJobs(recovered, |recovered|) <==> HasRetry(t, queues, now, j)
  {
    var freed := RependedJobs(recovered, |recovered|);
    forall j | j in freed ensures HasRetry(t, queues, now, j) {
      var k :| 0 <= k < |recovered| && recovered[k].shouldRepend && recovered[k].jobId == j;
      assert recovered[k] == ResultsConn.RecoveredOf(t, queues, j);
    }
    forall j | HasRetry(t, queues, now, j) ensures j in freed {
      assert ResultsConn.RecoveredOf(t, queues, j) in recovered;
    }
  }

  predicate CompletedUnder(t: Executions, j: JobId, d: DispatchId) {
    j in t && t[j].dispatchId == d && t[j].status == Completed
  }

  lemma ReleasePhases(accepted: Accepted, t: Executions, j: JobId, d: DispatchId)
    requires Phases(accepted, t) && j in accepted && accepted[j].dispatchId == Some(d)
    ensures Phases(IngestTable.Repend(accepted, j, d), Abandon(t, j, d)) <==> !CompletedUnder(t, j, d)
  {
    var u := Abandon(t, j, d);
    if CompletedUnder(t, j, d) {
      assert u[j].status in {Running, Completed};
    }
  }

  lemma SingleCompletion(t: Executions, queues: Queues, c: Completion, u: Executions, disp: seq<Disposition>)
    requires CompleteTx(t, queues, [c], u, disp)
    ensures |disp| == 1 && (u, disp[0]) == CompleteOne(t, queues, c)
  {
    BatchIsOneByOne(t, queues, [c], u, disp);
    OneAlone(t, queues, c);
  }

  function JobIds(jobs: seq<Job>): seq<JobId> {
    seq(|jobs|, i requires 0 <= i < |jobs| => jobs[i].id)
  }

  ghost predicate Distinct(jobs: seq<JobId>) {
    forall i, k :: 0 <= i < k < |jobs| ==> jobs[i] != jobs[k]
  }
}
