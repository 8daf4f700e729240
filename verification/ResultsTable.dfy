/** What each results-database transaction does to the `executions` table, as values. */
module ResultsTable {
  import opened Types

  type Executions = map<JobId, Execution>
  type Queues = map<QueueName, JobQueue>

  /** Both statements that move a row to a final state require it to be running. */
  function Complete(e: Execution, payload: Bytes): Execution {
    e.(status := Completed, leaseExpiresAt := None, resultPayload := Some(payload), resultError := None)
  }

  function Fail(e: Execution, message: string): Execution {
    e.(status := Failed, leaseExpiresAt := None, resultError := Some(message))
  }

  /** Retry policy, read from the queue's current row. */
  predicate Retryable(queues: Queues, e: Execution) {
    e.queueName in queues && e.executionCount <= queues[e.queueName].maxRetries
  }

  /** The foreign key from `executions.queue_name`. */
  ghost predicate QueuesKnown(t: Executions, queues: Queues) {
    forall j :: j in t ==> t[j].queueName in queues
  }

  // ---------------------------------------------------------------- dispatch

  datatype DispatchInsert = DispatchInsert(
    jobId: JobId, queueName: QueueName, dispatchId: DispatchId, leaseExpiresAt: Millis)

  datatype Dispatched = Dispatched(
    jobId: JobId, executionCount: nat, dispatchId: DispatchId, leaseExpiresAt: Millis)

  /** The upsert's `WHERE executions.status IN ('failed', 'pending')`, or no conflict at all. */
  predicate Upserts(t: Executions, row: DispatchInsert) {
    row.jobId !in t || t[row.jobId].status in {Failed, Pending}
  }

  /** A constraint or conversion failure: the whole transaction rolls back. The unique index on
      `dispatch_id` is not the conflict target, so any row already holding the id aborts. */
  predicate Aborts(t: Executions, queues: Queues, row: DispatchInsert) {
    || (row.jobId !in t && row.queueName !in queues)
    || (exists j :: j in t && t[j].dispatchId == row.dispatchId)
    || (row.jobId in t && Upserts(t, row) && t[row.jobId].executionCount + 1 > U32_MAX)
  }

  function UpsertedRow(t: Executions, row: DispatchInsert): Execution
    requires Upserts(t, row)
  {
    if row.jobId !in t then
      Execution(row.queueName, Running, 1, Some(row.leaseExpiresAt), row.dispatchId, None, None)
    else
      t[row.jobId].(status := Running, executionCount := t[row.jobId].executionCount + 1,
                    dispatchId := row.dispatchId, leaseExpiresAt := Some(row.leaseExpiresAt),
                    resultPayload := None, resultError := None)
  }

  function Upsert(t: Executions, row: DispatchInsert): Executions {
    if Upserts(t, row) then t[row.jobId := UpsertedRow(t, row)] else t
  }

  /** The transaction of `dispatch_batch`, row by row; None is a rollback. */
  function DispatchTx(t: Executions, queues: Queues, rows: seq<DispatchInsert>): (r: Option<Executions>)
    decreases |rows|
  {
    if rows == [] then Some(t)
    else
      var last := |rows| - 1;
      match DispatchTx(t, queues, rows[..last])
      case None => None
      case Some(u) => if Aborts(u, queues, rows[last]) then None else Some(Upsert(u, rows[last]))
  }

  lemma {:induction false} DispatchKeepsQueuesKnown(t: Executions, queues: Queues, rows: seq<DispatchInsert>)
    requires QueuesKnown(t, queues) && DispatchTx(t, queues, rows).Some?
    ensures QueuesKnown(DispatchTx(t, queues, rows).value, queues)
    decreases |rows|
  {
    if rows != [] {
      DispatchKeepsQueuesKnown(t, queues, rows[..|rows| - 1]);
    }
  }

  ghost predicate DistinctJobs(rows: seq<DispatchInsert>) {
    forall i, k :: 0 <= i < k < |rows| ==> rows[i].jobId != rows[k].jobId
  }

  /** Every row of the batch meets a job with no execution or a failed one. */
  ghost predicate AllDispatchable(t: Executions, rows: seq<DispatchInsert>) {
    DistinctJobs(rows) && forall i :: 0 <= i < |rows| ==> Upserts(t, rows[i])
  }

  ghost function JobsOf(rows: seq<DispatchInsert>): set<JobId> {
    set i | 0 <= i < |rows| :: rows[i].jobId
  }

  /** Pointwise effect of a committed dispatch over distinct dispatchable jobs. */
  ghost predicate Dispatches(t: Executions, rows: seq<DispatchInsert>, u: Executions) {
    && u.Keys == t.Keys + JobsOf(rows)
    && (forall i :: 0 <= i < |rows| ==>
          rows[i].jobId in u && Upserts(t, rows[i]) && u[rows[i].jobId] == UpsertedRow(t, rows[i]))
    && (forall j :: j in t && j !in JobsOf(rows) ==> u[j] == t[j])
  }

  lemma {:induction false} DispatchTxPointwise(t: Executions, queues: Queues, rows: seq<DispatchInsert>)
    requires AllDispatchable(t, rows)
    requires DispatchTx(t, queues, rows).Some?
    ensures Dispatches(t, rows, DispatchTx(t, queues, rows).value)
    decreases |rows|
  {
    if rows == [] {
    } else {
      var last := |rows| - 1;
      var init := rows[..last];
      assert forall i :: 0 <= i < last ==> init[i] == rows[i];
      DispatchTxPointwise(t, queues, init);
      DispatchesOneMore(t, rows, DispatchTx(t, queues, init).value);
    }
  }

  lemma DispatchesOneMore(t: Executions, rows: seq<DispatchInsert>, v: Executions)
    requires rows != [] && AllDispatchable(t, rows) && Dispatches(t, rows[..|rows| - 1], v)
    ensures Dispatches(t, rows, Upsert(v, rows[|rows| - 1]))
  {
    var last := |rows| - 1;
    var init, row := rows[..last], rows[last];
    assert forall i :: 0 <= i < last ==> init[i] == rows[i];
    JobsOneMore(rows);
    assert row.jobId !in JobsOf(init);
    assert Upserts(v, row) && UpsertedRow(v, row) == UpsertedRow(t, row);
  }

  lemma JobsOneMore(rows: seq<DispatchInsert>)
    requires rows != []
    ensures JobsOf(rows) == JobsOf(rows[..|rows| - 1]) + {rows[|rows| - 1].jobId}
  {
    var last := |rows| - 1;
    var init := rows[..last];
    forall i | 0 <= i < |rows| ensures rows[i].jobId == rows[last].jobId || rows[i].jobId in JobsOf(init) {
      assert i < last ==> rows[i].jobId == init[i].jobId;
    }
    forall j | j in JobsOf(init) ensures j in JobsOf(rows) {
      var i :| 0 <= i < last && init[i].jobId == j;
      assert rows[i].jobId == j;
    }
  }

  /** A new execution needs its queue, a repeated one needs room in its counter. */
  ghost predicate RowsAccepted(t: Executions, queues: Queues, rows: seq<DispatchInsert>) {
    forall i :: 0 <= i < |rows| ==> RowAccepted(t, queues, rows[i])
  }

  /** No two rows share an id, and an id found in the table belongs to a job that an earlier row of the
      batch has moved on to another id. */
  ghost predicate IdsUnused(t: Executions, rows: seq<DispatchInsert>) {
    && (forall i, k :: 0 <= i < k < |rows| ==> rows[i].dispatchId != rows[k].dispatchId)
    && (forall i, j :: 0 <= i < |rows| && j in t && t[j].dispatchId == rows[i].dispatchId ==> Replaced(rows, i, j))
  }

  ghost predicate Replaced(rows: seq<DispatchInsert>, n: nat, j: JobId)
    requires n <= |rows|
  {
    exists m :: 0 <= m < n && rows[m].jobId == j
  }

  ghost predicate RowAccepted(t: Executions, queues: Queues, row: DispatchInsert) {
    if row.jobId in t then t[row.jobId].executionCount < U32_MAX else row.queueName in queues
  }

  /** The id of row `n` is in nobody's hands once the rows before it are in. */
  ghost predicate IdUnused(t: Executions, rows: seq<DispatchInsert>, n: nat)
    requires n < |rows|
  {
    && (forall i :: 0 <= i < n ==> rows[i].dispatchId != rows[n].dispatchId)
    && (forall j :: j in t && t[j].dispatchId == rows[n].dispatchId ==> Replaced(rows, n, j))
  }

  lemma LastRowAborts(t: Executions, queues: Queues, rows: seq<DispatchInsert>, v: Executions)
    requires rows != [] && AllDispatchable(t, rows) && Dispatches(t, rows[..|rows| - 1], v)
    ensures var row := rows[|rows| - 1];
      Aborts(v, queues, row) <==> !(RowAccepted(t, queues, row) && IdUnused(t, rows, |rows| - 1))
  {
    var last := |rows| - 1;
    var init, row := rows[..last], rows[last];
    assert forall i :: 0 <= i < last ==> init[i] == rows[i];
    forall j ensures j in JobsOf(init) <==> Replaced(rows, last, j) {
      if Replaced(rows, last, j) {
        var m :| 0 <= m < last && rows[m].jobId == j;
        assert init[m].jobId == j;
      }
    }
    assert !Replaced(rows, last, row.jobId);
    assert row.jobId in v <==> row.jobId in t;
    IdHeldIff(t, rows, v);
  }

  /** Once the first rows are in, the last row's id is held exactly if one of them brought it or a job
      they left alone had it. */
  lemma IdHeldIff(t: Executions, rows: seq<DispatchInsert>, v: Executions)
    requires rows != [] && Dispatches(t, rows[..|rows| - 1], v)
    ensures (exists j :: j in v && v[j].dispatchId == rows[|rows| - 1].dispatchId) <==> !IdUnused(t, rows, |rows| - 1)
  {
    var last := |rows| - 1;
    var init, d := rows[..last], rows[last].dispatchId;
    assert forall i :: 0 <= i < last ==> init[i] == rows[i];
    forall j | j in v && v[j].dispatchId == d ensures !IdUnused(t, rows, last) {
      if j in JobsOf(init) {
        var i :| 0 <= i < last && init[i].jobId == j;
        assert v[init[i].jobId] == UpsertedRow(t, init[i]);
        assert rows[i].dispatchId == d;
      } else {
        assert !Replaced(rows, last, j);
      }
    }
    forall i | 0 <= i < last && rows[i].dispatchId == d ensures exists j :: j in v && v[j].dispatchId == d {
      assert v[init[i].jobId] == UpsertedRow(t, init[i]);
    }
    forall j | j in t && t[j].dispatchId == d && !Replaced(rows, last, j) ensures j in v && v[j].dispatchId == d {
      assert j !in JobsOf(init);
    }
  }

  /** A dispatch of distinct dispatchable jobs commits if and only if every new job's queue is known,
      every counter has room and every id is unused when its row comes. */
  lemma {:induction false} DispatchCommitsIff(t: Executions, queues: Queues, rows: seq<DispatchInsert>)
    requires AllDispatchable(t, rows)
    ensures DispatchTx(t, queues, rows).Some? <==> RowsAccepted(t, queues, rows) && IdsUnused(t, rows)
    decreases |rows|
  {
    if rows != [] {
      var last := |rows| - 1;
      var init := rows[..last];
      assert forall i :: 0 <= i < last ==> init[i] == rows[i];
      DispatchCommitsIff(t, queues, init);
      AcceptedOneMore(t, queues, rows);
      if DispatchTx(t, queues, init).Some? {
        DispatchTxPointwise(t, queues, init);
        LastRowAborts(t, queues, rows, DispatchTx(t, queues, init).value);
      }
    }
  }

  lemma AcceptedOneMore(t: Executions, queues: Queues, rows: seq<DispatchInsert>)
    requires rows != []
    ensures var last := |rows| - 1;
      && (RowsAccepted(t, queues, rows) <==>
            RowsAccepted(t, queues, rows[..last]) && RowAccepted(t, queues, rows[last]))
      && (IdsUnused(t, rows) <==> IdsUnused(t, rows[..last]) && IdUnused(t, rows, last))
  {
    var last := |rows| - 1;
    var init := rows[..last];
    assert forall i :: 0 <= i < last ==> init[i] == rows[i];
    forall i, j | 0 <= i < last ensures Replaced(init, i, j) <==> Replaced(rows, i, j) {
      if Replaced(rows, i, j) {
        var m :| 0 <= m < i && rows[m].jobId == j;
        assert init[m].jobId == j;
      }
    }
  }

  // -------------------------------------------------------------- completion

  datatype Completion = Completion(jobId: JobId, dispatchId: DispatchId, outcome: Outcome)

  datatype Disposition = Ignored | Finished | Repend

  /** The fence of both completion statements. */
  predicate Fenced(t: Executions, c: Completion) {
    c.jobId in t && t[c.jobId].dispatchId == c.dispatchId && t[c.jobId].status == Running
  }

  predicate SameKey(a: Completion, b: Completion) {
    a.jobId == b.jobId && a.dispatchId == b.dispatchId
  }

  /** Position of item `i` among the items of its own kind: the index it has in its partition. */
  function Rank(batch: seq<Completion>, i: nat): (r: nat)
    requires i < |batch|
    ensures r <= i
  {
    RankUpTo(batch, i, batch[i].outcome.Succeeded?)
  }

  function RankUpTo(batch: seq<Completion>, i: nat, succeeded: bool): (r: nat)
    requires i <= |batch|
    ensures r <= i
  {
    if i == 0 then 0
    else RankUpTo(batch, i - 1, succeeded) + (if batch[i - 1].outcome.Succeeded? == succeeded then 1 else 0)
  }

  ghost predicate HasSuccess(batch: seq<Completion>, c: Completion) {
    exists k :: 0 <= k < |batch| && batch[k].outcome.Succeeded? && SameKey(batch[k], c)
  }

  /** An item of the same kind and key sits in an earlier statement than item `i`. */
  ghost predicate BeatenByEarlierChunk(batch: seq<Completion>, i: nat)
    requires i < |batch|
  {
    exists k :: 0 <= k < |batch| && SameKey(batch[k], batch[i])
      && batch[k].outcome.Succeeded? == batch[i].outcome.Succeeded?
      && Rank(batch, k) / ROWS_PER_STATEMENT < Rank(batch, i) / ROWS_PER_STATEMENT
  }

  /** What item `i` of a batch is answered. */
  ghost function DispositionOf(t: Executions, queues: Queues, batch: seq<Completion>, i: nat): Disposition
    requires i < |batch|
  {
    var c := batch[i];
    if !Fenced(t, c) || BeatenByEarlierChunk(batch, i) then Ignored
    else if c.outcome.Succeeded? then Finished
    else if HasSuccess(batch, c) then Ignored
    else if Retryable(queues, t[c.jobId]) then Repend
    else Finished
  }

  /** The row of `j` after the batch: when several items of one statement match, the database may
      use any of them. */
  ghost predicate RowAfter(t: Executions, batch: seq<Completion>, disp: seq<Disposition>, j: JobId, after: Execution)
    requires j in t && |disp| == |batch|
  {
    if exists k :: 0 <= k < |batch| && batch[k].jobId == j && Fenced(t, batch[k]) && batch[k].outcome.Succeeded? then
      exists k :: 0 <= k < |batch| && batch[k].jobId == j && Fenced(t, batch[k]) && batch[k].outcome.Succeeded?
        && disp[k] != Ignored && after == Complete(t[j], batch[k].outcome.payload)
    else if exists k :: 0 <= k < |batch| && batch[k].jobId == j && Fenced(t, batch[k]) then
      exists k :: 0 <= k < |batch| && batch[k].jobId == j && Fenced(t, batch[k]) && batch[k].outcome.Crashed?
        && disp[k] != Ignored && after == Fail(t[j], batch[k].outcome.message)
    else
      after == t[j]
  }

  /** The transaction of `complete_batch`. */
  ghost predicate CompleteTx(t: Executions, queues: Queues, batch: seq<Completion>, u: Executions,
                             disp: seq<Disposition>)
  {
    && |disp| == |batch|
    && u.Keys == t.Keys
    && (forall i :: 0 <= i < |batch| ==> disp[i] == DispositionOf(t, queues, batch, i))
    && (forall j :: j in t ==> RowAfter(t, batch, disp, j, u[j]))
  }

  /** Reference semantics: one completion on its own. */
  function CompleteOne(t: Executions, queues: Queues, c: Completion): (Executions, Disposition) {
    if !Fenced(t, c) then (t, Ignored)
    else match c.outcome
      case Succeeded(payload) => (t[c.jobId := Complete(t[c.jobId], payload)], Finished)
      case Crashed(message) =>
        (t[c.jobId := Fail(t[c.jobId], message)], if Retryable(queues, t[c.jobId]) then Repend else Finished)
  }

  /** Reference semantics: a batch completed one by one in arrival order. */
  function CompleteOneByOne(t: Executions, queues: Queues, batch: seq<Completion>): (r: (Executions, seq<Disposition>))
    ensures |r.1| == |batch| && r.0.Keys == t.Keys
    decreases |batch|
  {
    if batch == [] then (t, [])
    else
      var (u, disp) := CompleteOneByOne(t, queues, batch[..|batch| - 1]);
      var (v, d) := CompleteOne(u, queues, batch[|batch| - 1]);
      (v, disp + [d])
  }

  ghost predicate Touches(t: Executions, batch: seq<Completion>, j: JobId) {
    exists i :: 0 <= i < |batch| && batch[i].jobId == j && Fenced(t, batch[i])
  }

  /** In any batch at all, a row leaves `running` only through an answered item of its own key, and a
      success beats every failure of that key. */
  lemma SuccessBeatsFailure(t: Executions, queues: Queues, batch: seq<Completion>, u: Executions,
                            disp: seq<Disposition>, i: nat)
    requires CompleteTx(t, queues, batch, u, disp)
    requires i < |batch| && Fenced(t, batch[i])
    ensures u[batch[i].jobId].status == if HasSuccess(batch, batch[i]) then Completed else Failed
    ensures HasSuccess(batch, batch[i]) && batch[i].outcome.Crashed? ==> disp[i] == Ignored
    ensures exists k :: 0 <= k < |batch| && SameKey(batch[k], batch[i]) && disp[k] != Ignored
  {
    var j := batch[i].jobId;
    assert RowAfter(t, batch, disp, j, u[j]);
    assert disp[i] == DispositionOf(t, queues, batch, i);
    if HasSuccess(batch, batch[i]) {
      var k :| 0 <= k < |batch| && batch[k].outcome.Succeeded? && SameKey(batch[k], batch[i]);
      assert Fenced(t, batch[k]);
    } else {
      forall k | 0 <= k < |batch| && batch[k].jobId == j && Fenced(t, batch[k]) ensures !batch[k].outcome.Succeeded? {
        assert SameKey(batch[k], batch[i]);
      }
    }
  }

  /** An item answered as a final failure belongs to a running row with no retry left. */
  lemma FinalRow(t: Executions, queues: Queues, batch: seq<Completion>, u: Executions, disp: seq<Disposition>, i: nat)
    requires CompleteTx(t, queues, batch, u, disp) && QueuesKnown(t, queues)
    requires i < |batch| && disp[i] == Finished && batch[i].outcome.Crashed?
    ensures Fenced(t, batch[i])
    ensures var e := t[batch[i].jobId]; e.queueName in queues && e.executionCount > queues[e.queueName].maxRetries
  {
    assert disp[i] == DispositionOf(t, queues, batch, i);
  }

  /** If the row failed, the item says so and its answer is the retry decision. */
  predicate Decides(t: Executions, queues: Queues, c: Completion, after: Execution, answer: Disposition)
    requires c.jobId in t
  {
    after.status == Failed ==>
      c.outcome.Crashed? && answer == if Retryable(queues, t[c.jobId]) then Repend else Finished
  }

  /** A row the batch changes was running, ends under its own id, and if it failed some item of the
      batch carries the retry decision. */
  lemma CompletedRow(t: Executions, queues: Queues, batch: seq<Completion>, u: Executions, disp: seq<Disposition>,
                     j: JobId)
    requires CompleteTx(t, queues, batch, u, disp) && j in t
    ensures u[j].dispatchId == t[j].dispatchId && u[j].executionCount == t[j].executionCount
    ensures u[j].queueName == t[j].queueName
    ensures u[j] != t[j] ==> t[j].status == Running && u[j].status in {Completed, Failed}
    ensures u[j] != t[j] ==>
      exists k :: 0 <= k < |batch| && batch[k].jobId == j && batch[k].dispatchId == t[j].dispatchId
        && Decides(t, queues, batch[k], u[j], disp[k])
  {
    assert RowAfter(t, batch, disp, j, u[j]);
    if u[j] != t[j] {
      var k :| 0 <= k < |batch| && batch[k].jobId == j && Fenced(t, batch[k]) && disp[k] != Ignored
        && (u[j].status == Failed ==> batch[k].outcome.Crashed?);
      assert disp[k] == DispositionOf(t, queues, batch, k);
    }
  }

  /** Only a row that the batch failed, with retries left, is answered `Repend`. */
  lemma RependedRow(t: Executions, queues: Queues, batch: seq<Completion>, u: Executions, disp: seq<Disposition>,
                    i: nat)
    requires CompleteTx(t, queues, batch, u, disp) && i < |batch|
    requires disp[i] == Repend
    ensures Fenced(t, batch[i]) && u[batch[i].jobId].status == Failed
    ensures var e := t[batch[i].jobId]; e.queueName in queues && e.executionCount <= queues[e.queueName].maxRetries
  {
    assert disp[i] == DispositionOf(t, queues, batch, i);
    SuccessBeatsFailure(t, queues, batch, u, disp, i);
  }

  // -------------------------------------------------------- abandon, recover

  function Abandon(t: Executions, j: JobId, d: DispatchId): (u: Executions)
    ensures u.Keys == t.Keys
  {
    if j in t && t[j].dispatchId == d && t[j].status == Running then t[j := Fail(t[j], "abandoned")] else t
  }

  predicate Stale(e: Execution, now: Millis) {
    e.status == Running && e.leaseExpiresAt.Some? && e.leaseExpiresAt.value < now
  }

  function RecoverRow(e: Execution, now: Millis): Execution {
    if Stale(e, now) then Fail(e, "lease expired") else e
  }

  function Recover(t: Executions, now: Millis): (u: Executions)
    ensures u.Keys == t.Keys
  {
    map j | j in t :: RecoverRow(t[j], now)
  }

  datatype Recovered = Recovered(jobId: JobId, dispatchId: DispatchId, shouldRepend: bool)
}
