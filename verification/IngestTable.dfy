/** What each ingest-database transaction does to the `accepted_jobs` table, as values. */
module IngestTable {
  import opened Types
  import ResultsTable

  type Accepted = map<JobId, AcceptedJob>

  predicate Free(t: Accepted, queue: QueueName, j: JobId) {
    j in t && t[j].queueName == queue && t[j].dispatchId.None?
  }

  /** `ORDER BY created_at ASC, id ASC`. */
  predicate Before(t: Accepted, a: JobId, b: JobId)
    requires a in t && b in t
  {
    t[a].createdAt < t[b].createdAt || (t[a].createdAt == t[b].createdAt && a < b)
  }

  /** The first `limit` free rows of a queue, oldest first: nothing free is passed over for a later row. */
  ghost predicate Selection(t: Accepted, queue: QueueName, limit: nat, jobs: seq<JobId>) {
    && |jobs| <= limit
    && (forall i :: 0 <= i < |jobs| ==> Free(t, queue, jobs[i]))
    && (forall i, k :: 0 <= i < k < |jobs| ==> jobs[i] in t && jobs[k] in t && Before(t, jobs[i], jobs[k]))
    && (forall j :: Free(t, queue, j) && j !in jobs ==> |jobs| == limit)
    && (forall i, j :: 0 <= i < |jobs| && Free(t, queue, j) && j !in jobs ==> jobs[i] in t && Before(t, jobs[i], j))
  }

  /** What a selection takes: free rows of the queue, from the earliest creation time on and ties by id; it
      leaves a free row behind only when it is full, and only rows that come after all of its own. */
  lemma OldestFirst(t: Accepted, queue: QueueName, limit: nat, jobs: seq<JobId>)
    requires Selection(t, queue, limit, jobs)
    ensures forall i :: 0 <= i < |jobs| ==>
      jobs[i] in t && t[jobs[i]].queueName == queue && t[jobs[i]].dispatchId == None
    ensures forall i, k :: 0 <= i < k < |jobs| ==>
      var a, b := t[jobs[i]], t[jobs[k]];
      a.createdAt < b.createdAt || (a.createdAt == b.createdAt && jobs[i] < jobs[k])
    ensures forall j :: j in t && t[j].queueName == queue && t[j].dispatchId == None && j !in jobs ==>
      && |jobs| == limit
      && forall i :: 0 <= i < |jobs| ==>
           var a, b := t[jobs[i]], t[j];
           a.createdAt < b.createdAt || (a.createdAt == b.createdAt && jobs[i] < j)
  {
    forall i | 0 <= i < |jobs| ensures jobs[i] in t && t[jobs[i]].queueName == queue && t[jobs[i]].dispatchId == None {
      assert Free(t, queue, jobs[i]);
    }
    forall i, k | 0 <= i < k < |jobs| ensures Before(t, jobs[i], jobs[k]) {
    }
    forall j | j in t && t[j].queueName == queue && t[j].dispatchId == None && j !in jobs
      ensures |jobs| == limit && forall i :: 0 <= i < |jobs| ==> Before(t, jobs[i], j)
    {
      assert Free(t, queue, j);
    }
  }

  /** A queue has one selection: claims are first in, first out. */
  lemma {:induction false} SelectionIsUnique(t: Accepted, queue: QueueName, limit: nat, a: seq<JobId>, b: seq<JobId>,
                                             n: nat)
    requires Selection(t, queue, limit, a) && Selection(t, queue, limit, b)
    requires n <= |a|
    ensures n <= |b| && a[..n] == b[..n]
  {
    if n > 0 {
      SelectionIsUnique(t, queue, limit, a, b, n - 1);
      var j := a[n - 1];
      forall i | 0 <= i < n - 1 ensures b[i] != j {
        assert a[i] == a[..n - 1][i] == b[..n - 1][i];
        assert Before(t, a[i], a[n - 1]);
      }
      if |b| == n - 1 {
        assert false;
      }
      if b[n - 1] != j {
        FirstDifference(t, queue, limit, a, b, n - 1);
      }
    }
  }

  lemma FirstDifference(t: Accepted, queue: QueueName, limit: nat, a: seq<JobId>, b: seq<JobId>, n: nat)
    requires Selection(t, queue, limit, a) && Selection(t, queue, limit, b)
    requires n < |a| && n < |b| && a[..n] == b[..n]
    ensures a[n] == b[n]
  {
    NotEarlier(t, queue, limit, a, b, n);
    NotEarlier(t, queue, limit, b, a, n);
  }

  lemma NotEarlier(t: Accepted, queue: QueueName, limit: nat, a: seq<JobId>, b: seq<JobId>, n: nat)
    requires Selection(t, queue, limit, a) && Selection(t, queue, limit, b)
    requires n < |a| && n < |b| && a[..n] == b[..n]
    ensures a[n] == b[n] || Before(t, b[n], a[n])
  {
    forall k | 0 <= k < n ensures b[k] != a[n] {
      assert a[k] == a[..n][k] == b[..n][k];
      assert Before(t, a[k], a[n]);
    }
  }

  /** The rows of `jobs` now carry the fresh ids; nothing else changed. */
  ghost predicate ClaimTx(t: Accepted, jobs: seq<JobId>, ids: seq<DispatchId>, u: Accepted) {
    && |ids| == |jobs| && u.Keys == t.Keys
    && (forall i :: 0 <= i < |jobs| ==> jobs[i] in t && u[jobs[i]] == t[jobs[i]].(dispatchId := Some(ids[i])))
    && (forall j :: j in t && j !in jobs ==> u[j] == t[j])
  }

  function Repend(t: Accepted, j: JobId, d: DispatchId): (u: Accepted)
    ensures u.Keys == t.Keys
  {
    if j in t && t[j].dispatchId == Some(d) then t[j := t[j].(dispatchId := None)] else t
  }

  /** `last` is the largest row id, 0 for an empty table; a new row gets `last + 1`. */
  ghost predicate LastRowid(t: Accepted, last: nat) {
    (forall j :: j in t ==> 1 <= j <= last) && (last == 0 || last in t)
  }

  datatype NewJob = NewJob(queueName: QueueName, payload: Bytes, createdAt: Millis)

  function Row(job: NewJob): AcceptedJob {
    AcceptedJob(job.queueName, job.payload, None, job.createdAt)
  }

  /** `rows` appended with consecutive ids. */
  ghost predicate InsertTx(t: Accepted, last: nat, rows: seq<NewJob>, u: Accepted) {
    && (forall j :: j in u <==> j in t || last < j <= last + |rows|)
    && (forall j :: j in t && j in u ==> u[j] == t[j])
    && (forall j :: j in u && last < j <= last + |rows| ==> u[j] == Row(rows[j - last - 1]))
  }

  /** A claim no execution records. */
  predicate Orphan(row: AcceptedJob, executions: ResultsTable.Executions) {
    row.dispatchId.Some? && forall k :: k in executions ==> executions[k].dispatchId != row.dispatchId.value
  }

  /** The repair made when the store opens, here for any part `done` of the rows. */
  function Heal(t: Accepted, executions: ResultsTable.Executions, done: set<JobId>): (u: Accepted)
    ensures u.Keys == t.Keys
  {
    map j | j in t :: if j in done && Orphan(t[j], executions) then t[j].(dispatchId := None) else t[j]
  }
}

/** The ingest writer's connection. */
module IngestConn {
  import opened Types
  import opened IngestTable
  import ResultsTable

  datatype Claimed = Claimed(
    id: JobId, name: QueueName, payload: Bytes, timeoutSecs: nat, dispatchId: DispatchId, createdAt: Millis)

  /** The earliest free row not yet taken, if any. */
  method EarliestFree(t: Accepted, queue: QueueName, taken: set<JobId>) returns (best: Option<JobId>)
    ensures best.None? <==> forall j :: Free(t, queue, j) ==> j in taken
    ensures best.Some? ==> Free(t, queue, best.value) && best.value !in taken
    ensures best.Some? ==> forall j :: Free(t, queue, j) && j !in taken && j != best.value ==> Before(t, best.value, j)
  {
    best := None;
    var todo := t.Keys;
    while todo != {}
      invariant todo <= t.Keys
      invariant best.None? <==> forall j :: Free(t, queue, j) && j !in todo ==> j in taken
      invariant best.Some? ==> Free(t, queue, best.value) && best.value !in taken && best.value !in todo
      invariant best.Some? ==>
        forall j :: Free(t, queue, j) && j !in todo && j !in taken && j != best.value ==> Before(t, best.value, j)
      decreases |todo|
    {
      var j := Pick(todo);
      todo := todo - {j};
      if Free(t, queue, j) && j !in taken && (best.None? || Before(t, j, best.value)) {
        best := Some(j);
      }
    }
  }

  method SelectFree(t: Accepted, queue: QueueName, limit: nat) returns (jobs: seq<JobId>)
    ensures Selection(t, queue, limit, jobs)
  {
    jobs := [];
    var taken: set<JobId> := {};
    while |jobs| < limit
      invariant |jobs| <= limit && forall j :: j in taken <==> j in jobs
      invariant forall i :: 0 <= i < |jobs| ==> Free(t, queue, jobs[i])
      invariant forall i, k :: 0 <= i < k < |jobs| ==> jobs[i] in t && jobs[k] in t && Before(t, jobs[i], jobs[k])
      invariant forall i, j :: 0 <= i < |jobs| && Free(t, queue, j) && j !in jobs ==>
        jobs[i] in t && Before(t, jobs[i], j)
    {
      var next := EarliestFree(t, queue, taken);
      if next.None? {
        return;
      }
      jobs := jobs + [next.value];
      taken := taken + {next.value};
    }
  }

  /** The first `n` of these rows carry their new ids and are described. */
  ghost predicate ClaimedUpTo(t: Accepted, jobs: seq<JobId>, ids: seq<DispatchId>, timeoutSecs: nat, n: nat,
                              u: Accepted, claimed: seq<Claimed>)
    requires n <= |jobs| && n <= |ids|
  {
    && |claimed| == n && ClaimTx(t, jobs[..n], ids[..n], u)
    && (forall i :: 0 <= i < n ==> claimed[i].id == jobs[i] && DescribesRow(u, claimed[i], timeoutSecs))
  }

  function Bind(t: Accepted, j: JobId, d: DispatchId): Accepted
    requires j in t
  {
    t[j := t[j].(dispatchId := Some(d))]
  }

  function Describe(t: Accepted, j: JobId, d: DispatchId, timeoutSecs: nat): Claimed
    requires j in t
  {
    Claimed(j, t[j].queueName, t[j].payload, timeoutSecs, d, t[j].createdAt)
  }

  lemma ClaimOneMore(t: Accepted, jobs: seq<JobId>, ids: seq<DispatchId>, n: nat, u: Accepted)
    requires n < |jobs| && n < |ids| && jobs[n] in t && jobs[n] !in jobs[..n] && ClaimTx(t, jobs[..n], ids[..n], u)
    ensures ClaimTx(t, jobs[..n + 1], ids[..n + 1], Bind(u, jobs[n], ids[n]))
  {
    assert jobs[..n + 1] == jobs[..n] + [jobs[n]] && ids[..n + 1] == ids[..n] + [ids[n]];
  }

  /** One row gets its id. */
  method ClaimRow(ghost t: Accepted, jobs: seq<JobId>, ids: seq<DispatchId>, timeoutSecs: nat, n: nat, uIn: Accepted,
                  claimedIn: seq<Claimed>)
    returns (u: Accepted, claimed: seq<Claimed>)
    requires n < |jobs| <= |ids| && jobs[n] in t && jobs[n] !in jobs[..n]
    requires ClaimedUpTo(t, jobs, ids, timeoutSecs, n, uIn, claimedIn)
    ensures ClaimedUpTo(t, jobs, ids, timeoutSecs, n + 1, u, claimed)
  {
    ClaimOneMore(t, jobs, ids, n, uIn);
    u := Bind(uIn, jobs[n], ids[n]);
    claimed := claimedIn + [Describe(uIn, jobs[n], ids[n], timeoutSecs)];
    forall i | 0 <= i < n ensures DescribesRow(u, claimed[i], timeoutSecs) {
      assert claimed[i] == claimedIn[i] && jobs[i] in jobs[..n];
    }
  }

  /** Fresh ids written 256 rows to a statement. */
  method ClaimRows(t: Accepted, jobs: seq<JobId>, ids: seq<DispatchId>, timeoutSecs: nat)
    returns (u: Accepted, claimed: seq<Claimed>)
    requires forall i :: 0 <= i < |jobs| ==> jobs[i] in t
    requires forall i, k :: 0 <= i < k < |jobs| ==> jobs[i] != jobs[k]
    requires |jobs| <= |ids|
    ensures |claimed| == |jobs| && ClaimTx(t, jobs, ids[..|jobs|], u)
    ensures forall i :: 0 <= i < |jobs| ==> claimed[i].id == jobs[i] && DescribesRow(u, claimed[i], timeoutSecs)
  {
    u, claimed := t, [];
    var p := 0;
    while p < |jobs|
      invariant 0 <= p <= |jobs| && ClaimedUpTo(t, jobs, ids, timeoutSecs, p, u, claimed)
    {
      var q := if p + ROWS_PER_STATEMENT < |jobs| then p + ROWS_PER_STATEMENT else |jobs|;
      for i := p to q
        invariant ClaimedUpTo(t, jobs, ids, timeoutSecs, i, u, claimed)
      {
        assert forall k :: 0 <= k < i ==> jobs[..i][k] == jobs[k];
        u, claimed := ClaimRow(t, jobs, ids, timeoutSecs, i, u, claimed);
      }
      p := q;
    }
    assert jobs[..p] == jobs;
  }

  /** The id of each inserted row goes to the request it came from. */
  method Answer(batch: seq<NewJob>, chosen: seq<nat>, ids: seq<JobId>, was: seq<Result<JobId>>)
    returns (replies: seq<Result<JobId>>)
    requires |was| == |batch| && |ids| == |chosen|
    requires forall k :: 0 <= k < |chosen| ==> chosen[k] < |batch|
    requires forall k, m :: 0 <= k < m < |chosen| ==> chosen[k] < chosen[m]
    ensures |replies| == |batch|
    ensures forall k :: 0 <= k < |chosen| ==> replies[chosen[k]] == Ok(ids[k])
    ensures forall i :: 0 <= i < |batch| && i !in chosen ==> replies[i] == was[i]
  {
    replies := was;
    for k := 0 to |chosen|
      invariant |replies| == |batch|
      invariant forall m :: 0 <= m < k ==> replies[chosen[m]] == Ok(ids[m])
      invariant forall i :: 0 <= i < |batch| && i !in chosen ==> replies[i] == was[i]
    {
      replies := replies[chosen[k] := Ok(ids[k])];
    }
  }

  /** A committed batch: every request for a known queue is answered with the id of a new row that
      holds that very job, ids grow in arrival order, and the table gains exactly the answered ids. */
  ghost predicate Enqueued(batch: seq<NewJob>, names: set<QueueName>, t: Accepted, last0: nat, u: Accepted, last: nat,
                           replies: seq<Result<JobId>>)
  {
    && |replies| == |batch|
    && (forall i :: 0 <= i < |batch| && batch[i].queueName in names ==> replies[i].Ok? && replies[i].value in u)
    && (forall i :: 0 <= i < |batch| && replies[i].Ok? && replies[i].value in u ==>
          replies[i].value !in t && u[replies[i].value]
            == AcceptedJob(batch[i].queueName, batch[i].payload, None, batch[i].createdAt))
    && (forall i, k :: 0 <= i < k < |batch| && replies[i].Ok? && replies[k].Ok? ==> replies[i].value < replies[k].value)
    && (forall j :: j in u <==> j in t || last0 < j <= last)
    && (forall j :: j in t && j in u ==> u[j] == t[j])
    && (forall j :: last0 < j <= last ==> Ok(j) in replies)
  }

  /** Positions of the requests whose queue exists, in arrival order. */
  ghost predicate KnownOf(batch: seq<NewJob>, names: set<QueueName>, chosen: seq<nat>) {
    && (forall k :: 0 <= k < |chosen| ==> chosen[k] < |batch| && batch[chosen[k]].queueName in names)
    && (forall i :: 0 <= i < |batch| && batch[i].queueName in names ==> i in chosen)
    && (forall k, m :: 0 <= k < m < |chosen| ==> chosen[k] < chosen[m])
  }

  lemma EveryCallerGetsItsRow(batch: seq<NewJob>, names: set<QueueName>, chosen: seq<nat>, rows: seq<NewJob>,
                              t: Accepted, last0: nat, u: Accepted, last: nat, replies: seq<Result<JobId>>)
    requires KnownOf(batch, names, chosen)
    requires |rows| == |chosen| && forall k :: 0 <= k < |rows| ==> rows[k] == batch[chosen[k]]
    requires LastRowid(t, last0) && last == last0 + |rows| && InsertTx(t, last0, rows, u)
    requires |replies| == |batch| && forall k :: 0 <= k < |chosen| ==> replies[chosen[k]] == Ok(last0 + 1 + k)
    requires forall i :: 0 <= i < |batch| && i !in chosen ==> replies[i].Err?
    ensures Enqueued(batch, names, t, last0, u, last, replies)
  {
    forall i, k | 0 <= i < k < |batch| && replies[i].Ok? && replies[k].Ok? ensures replies[i].value < replies[k].value {
      var a :| 0 <= a < |chosen| && chosen[a] == i;
      var b :| 0 <= b < |chosen| && chosen[b] == k;
      assert a < b;
    }
    forall i | 0 <= i < |batch| && replies[i].Ok?
      ensures replies[i].value !in t && replies[i].value in u && u[replies[i].value] == Row(batch[i])
    {
      var k :| 0 <= k < |chosen| && chosen[k] == i;
      assert rows[k] == batch[i];
    }
    forall j | last0 < j <= last ensures Ok(j) in replies {
      assert replies[chosen[j - last0 - 1]] == Ok(j);
    }
  }

  lemma InsertOneMore(t: Accepted, last: nat, rows: seq<NewJob>, n: nat, u: Accepted)
    requires n < |rows| && LastRowid(u, last + n) && InsertTx(t, last, rows[..n], u)
    ensures InsertTx(t, last, rows[..n + 1], u[last + n + 1 := Row(rows[n])])
    ensures LastRowid(u[last + n + 1 := Row(rows[n])], last + n + 1)
  {
    assert rows[..n + 1] == rows[..n] + [rows[n]];
  }

  lemma HealOneMore(t: Accepted, executions: ResultsTable.Executions, done: set<JobId>, j: JobId)
    requires j in t && j !in done
    ensures var h := Heal(t, executions, done);
      && h[j] == t[j]
      && Heal(t, executions, done + {j}) == if Orphan(t[j], executions) then h[j := t[j].(dispatchId := None)] else h
  {
  }

  /** Some execution carries the id the row is claimed under. */
  ghost predicate Recorded(a: AcceptedJob, executions: ResultsTable.Executions) {
    exists k :: k in executions && a.dispatchId == Some(executions[k].dispatchId)
  }

  lemma OrphanIffUnrecorded(a: AcceptedJob, executions: ResultsTable.Executions)
    ensures Orphan(a, executions) <==> a.dispatchId.Some? && !Recorded(a, executions)
  {
    if a.dispatchId.Some? {
      var d := a.dispatchId.value;
      if k :| k in executions && executions[k].dispatchId == d {
        assert a.dispatchId == Some(executions[k].dispatchId);
      }
    }
  }

  /** After the repair a row is free, or carries an id some execution records. */
  lemma HealedRows(t: Accepted, executions: ResultsTable.Executions)
    ensures forall j :: j in t ==>
      var a := t[j];
      Heal(t, executions, t.Keys)[j] == if a.dispatchId == None || Recorded(a, executions) then a
                                        else a.(dispatchId := None)
  {
    forall j | j in t
      ensures var a := t[j];
        Heal(t, executions, t.Keys)[j] == if a.dispatchId == None || Recorded(a, executions) then a
                                          else a.(dispatchId := None)
    {
      OrphanIffUnrecorded(t[j], executions);
    }
  }

  class Conn {
    var accepted: Accepted
    var queues: map<QueueName, JobQueue>
    /** `last_insert_rowid`, as far as this table is concerned. */
    var last: nat

    ghost predicate Valid()
      reads this
    {
      LastRowid(accepted, last) && forall j :: j in accepted ==> accepted[j].queueName in queues
    }

    constructor ()
      ensures Valid() && accepted == map[] && queues == map[]
    {
      accepted, queues, last := map[], map[], 0;
    }

    method UpsertQueue(queue: JobQueue)
      requires Valid()
      modifies this`queues
      ensures Valid() && queues == old(queues)[queue.name := queue]
    {
      queues := queues[queue.name := queue];
    }

    /** One reply per request. Each accepted caller gets the id of the row holding its own job, ids
        grow in arrival order, and nothing but those rows is added. `commits` is whether the
        transaction went through. */
    method EnqueueBatch(batch: seq<NewJob>, commits: bool) returns (replies: seq<Result<JobId>>)
      requires Valid()
      modifies this`accepted, this`last
      ensures Valid() && |replies| == |batch|
      ensures forall i :: 0 <= i < |batch| && batch[i].queueName !in queues ==>
        replies[i] == Err(QueueNotFound(batch[i].queueName))
      ensures !commits ==> accepted == old(accepted) && forall i :: 0 <= i < |batch| ==> replies[i].Err?
      ensures commits ==> Enqueued(batch, queues.Keys, old(accepted), old(last), accepted, last, replies)
    {
      var chosen := KnownQueue(batch, queues.Keys);
      replies := seq(|batch|, i requires 0 <= i < |batch| => Err(QueueNotFound(batch[i].queueName)));
      if chosen == [] {
        return;
      }
      if !commits {
        var names := queues.Keys;
        replies := seq(|batch|, i requires 0 <= i < |batch| =>
          if batch[i].queueName in names then Err(Internal("transaction failed"))
          else Err(QueueNotFound(batch[i].queueName)));
        return;
      }
      replies := EnqueueKnown(batch, chosen, replies);
    }

    /** The committed part: the requests whose queue exists. */
    method EnqueueKnown(batch: seq<NewJob>, chosen: seq<nat>, refused: seq<Result<JobId>>)
      returns (replies: seq<Result<JobId>>)
      requires Valid() && |refused| == |batch|
      requires forall i :: 0 <= i < |batch| ==> refused[i] == Err(QueueNotFound(batch[i].queueName))
      requires KnownOf(batch, queues.Keys, chosen)
      modifies this`accepted, this`last
      ensures Valid() && |replies| == |batch|
      ensures forall i :: 0 <= i < |batch| && batch[i].queueName !in queues ==> replies[i] == refused[i]
      ensures Enqueued(batch, queues.Keys, old(accepted), old(last), accepted, last, replies)
    {
      var rows := seq(|chosen|, k requires 0 <= k < |chosen| => batch[chosen[k]]);
      var ids := InsertRows(rows);
      replies := Answer(batch, chosen, ids, refused);
      EveryCallerGetsItsRow(batch, queues.Keys, chosen, rows, old(accepted), old(last), accepted, last, replies);
    }

    /** One multi-row insert. */
    method InsertStatement(rows: seq<NewJob>, from: nat, to: nat, ghost before: Accepted, ghost last0: nat)
      requires Valid() && from <= to <= |rows| && last == last0 + from
      requires InsertTx(before, last0, rows[..from], accepted)
      requires forall i :: 0 <= i < |rows| ==> rows[i].queueName in queues
      modifies this`accepted, this`last
      ensures Valid() && last == last0 + to && InsertTx(before, last0, rows[..to], accepted)
    {
      for i := from to to
        invariant Valid() && last == last0 + i && InsertTx(before, last0, rows[..i], accepted)
      {
        InsertRow(rows, i, before, last0);
      }
    }

    method InsertRow(rows: seq<NewJob>, i: nat, ghost before: Accepted, ghost last0: nat)
      requires Valid() && i < |rows| && rows[i].queueName in queues
      requires last == last0 + i && InsertTx(before, last0, rows[..i], accepted)
      modifies this`accepted, this`last
      ensures Valid() && last == last0 + i + 1 && InsertTx(before, last0, rows[..i + 1], accepted)
    {
      InsertOneMore(before, last0, rows, i, accepted);
      last := last + 1;
      accepted := accepted[last := Row(rows[i])];
    }

    /** Multi-row inserts of 256, ids worked back from the last row id of each statement. */
    method InsertRows(rows: seq<NewJob>) returns (ids: seq<JobId>)
      requires Valid()
      requires forall i :: 0 <= i < |rows| ==> rows[i].queueName in queues
      modifies this`accepted, this`last
      ensures Valid() && last == old(last) + |rows|
      ensures |ids| == |rows| && forall i :: 0 <= i < |ids| ==> ids[i] == old(last) + 1 + i
      ensures InsertTx(old(accepted), old(last), rows, accepted)
    {
      ids := [];
      var p := 0;
      while p < |rows|
        invariant 0 <= p <= |rows| && Valid() && last == old(last) + p
        invariant |ids| == p && forall i :: 0 <= i < p ==> ids[i] == old(last) + 1 + i
        invariant InsertTx(old(accepted), old(last), rows[..p], accepted)
      {
        var q := if p + ROWS_PER_STATEMENT < |rows| then p + ROWS_PER_STATEMENT else |rows|;
        InsertStatement(rows, p, q, old(accepted), old(last));
        var first := last - (q - p) + 1;
        ids := ids + seq(q - p, offset => first + offset);
        p := q;
      }
      assert rows[..p] == rows;
    }

    /** Claims the oldest free rows of a known queue; `ids` are the ids the generator yields. */
    method ClaimBatch(queue: QueueName, limit: nat, ids: seq<DispatchId>) returns (r: Result<seq<Claimed>>)
      requires Valid() && |ids| == ClampClaim(limit)
      modifies this`accepted
      ensures Valid()
      ensures r.Err? <==> queue !in queues
      ensures r.Err? ==> r.error == QueueNotFound(queue) && accepted == old(accepted)
      ensures r.Ok? ==>
        var jobs := seq(|r.value|, i requires 0 <= i < |r.value| => r.value[i].id);
        && Selection(old(accepted), queue, ClampClaim(limit), jobs)
        && ClaimTx(old(accepted), jobs, ids[..|jobs|], accepted)
        && forall i :: 0 <= i < |r.value| ==> DescribesRow(accepted, r.value[i], queues[queue].timeoutSecs)
    {
      if queue !in queues {
        return Err(QueueNotFound(queue));
      }
      var jobs := SelectFree(accepted, queue, ClampClaim(limit));
      var t, claimed := ClaimRows(accepted, jobs, ids, queues[queue].timeoutSecs);
      assert jobs == seq(|claimed|, i requires 0 <= i < |claimed| => claimed[i].id);
      accepted := t;
      return Ok(claimed);
    }

    method RependClaim(j: JobId, d: DispatchId)
      requires Valid()
      modifies this`accepted
      ensures Valid() && accepted == Repend(old(accepted), j, d) && accepted.Keys == old(accepted).Keys
      ensures forall k :: k in accepted ==>
        var a := old(accepted)[k];
        accepted[k] == if k == j && a.dispatchId == Some(d) then a.(dispatchId := None) else a
    {
      if j in accepted && accepted[j].dispatchId == Some(d) {
        accepted := accepted[j := accepted[j].(dispatchId := None)];
      }
    }

    /** Repairs every claim that no execution records, one row at a time. */
    method HealOrphanClaims(executions: ResultsTable.Executions)
      requires Valid()
      modifies this`accepted
      ensures Valid() && accepted == Heal(old(accepted), executions, old(accepted).Keys)
    {
      var todo := accepted.Keys;
      ghost var before := accepted;
      assert Heal(before, executions, before.Keys - todo) == before;
      while todo != {}
        invariant Valid() && todo <= before.Keys && accepted == Heal(before, executions, before.Keys - todo)
        decreases |todo|
      {
        var j := Pick(todo);
        HealOneMore(before, executions, before.Keys - todo, j);
        assert before.Keys - (todo - {j}) == (before.Keys - todo) + {j};
        todo := todo - {j};
        if Orphan(accepted[j], executions) {
          accepted := accepted[j := accepted[j].(dispatchId := None)];
        }
      }
      assert before.Keys - {} == before.Keys;
    }
  }

  function Distance(a: nat, b: nat): nat {
    if a < b then b - a else a - b
  }

  /** The allowed batch size nearest to the limit asked for. */
  function ClampClaim(limit: nat): (n: nat)
    ensures 1 <= n <= 1_048_576
    ensures forall m :: 1 <= m <= 1_048_576 ==> Distance(n, limit) <= Distance(m, limit)
    ensures 1 <= limit <= 1_048_576 ==> n == limit
  {
    if limit < 1 then 1 else if limit > MAX_CLAIM_BATCH_SIZE then MAX_CLAIM_BATCH_SIZE else limit
  }

  /** What a claim reports about a row: the row as it now stands, and its queue's timeout. */
  ghost predicate DescribesRow(t: Accepted, c: Claimed, timeoutSecs: nat) {
    && c.timeoutSecs == timeoutSecs
    && c.id in t && t[c.id].dispatchId == Some(c.dispatchId)
    && c.name == t[c.id].queueName && c.payload == t[c.id].payload && c.createdAt == t[c.id].createdAt
  }

  /** Positions of the requests whose queue exists, in arrival order. */
  method KnownQueue(batch: seq<NewJob>, names: set<QueueName>) returns (chosen: seq<nat>)
    ensures KnownOf(batch, names, chosen)
  {
    chosen := [];
    for i := 0 to |batch|
      invariant forall k :: 0 <= k < |chosen| ==> chosen[k] < i && batch[chosen[k]].queueName in names
      invariant forall m :: 0 <= m < i && batch[m].queueName in names ==> m in chosen
      invariant forall k, m :: 0 <= k < m < |chosen| ==> chosen[k] < chosen[m]
    {
      if batch[i].queueName in names {
        chosen := chosen + [i];
      }
    }
  }
}
