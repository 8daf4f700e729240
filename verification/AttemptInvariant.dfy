/** The phase invariant of the attempt protocol, and that every event keeps it. */
module AttemptInvariant {
  import opened Types
  import opened AttemptProtocol
  import R = ResultsTable
  import I = IngestTable

  /** The claim that generated `d` has not been dispatched yet. */
  ghost predicate Awaiting(s: State, d: DispatchId) {
    d in s.issued && s.issued[d].claim in s.pending
  }

  ghost predicate Owns(s: State, j: JobId, d: DispatchId) {
    d in s.issued && s.issued[d].job == j
  }

  ghost predicate HasId(rows: seq<R.DispatchInsert>, d: DispatchId) {
    exists i :: 0 <= i < |rows| && rows[i].dispatchId == d
  }

  /** Every dispatch id found anywhere belongs to the job it was generated for; an id recorded in
      results is past its dispatch. */
  ghost predicate Identity(s: State) {
    && I.LastRowid(s.accepted, s.last)
    && s.executions.Keys <= s.accepted.Keys
    && (forall d :: d in s.issued ==> s.issued[d].claim.AfterClaim? && HasId(s.issued[d].claim.rows, d))
    && (forall j :: j in s.accepted && s.accepted[j].dispatchId.Some? ==> Owns(s, j, s.accepted[j].dispatchId.value))
    && (forall j :: j in s.executions ==>
          Owns(s, j, s.executions[j].dispatchId) && !Awaiting(s, s.executions[j].dispatchId))
    && (forall d :: d in s.handed ==> d in s.issued && !Awaiting(s, d))
  }

  /** A claim in flight: its rows are distinct, carry its own ids, and the jobs are still bound to them. */
  ghost predicate ClaimHeld(s: State, op: Op) {
    op.AfterClaim? ==>
      && R.DistinctJobs(op.rows) && DistinctIds(op.rows)
      && (forall i :: 0 <= i < |op.rows| ==>
            op.rows[i].dispatchId in s.issued && s.issued[op.rows[i].dispatchId] == Origin(op.rows[i].jobId, op))
      && (forall i :: 0 <= i < |op.rows| ==>
            op.rows[i].jobId in s.accepted && s.accepted[op.rows[i].jobId].dispatchId == Some(op.rows[i].dispatchId))
  }

  /** A repend in flight is for an attempt that is over: dispatched or refused, and not live. */
  ghost predicate RependSafe(s: State, op: Op) {
    op.RependNext? ==>
      && Owns(s, op.job, op.id) && !Awaiting(s, op.id)
      && (op.job in s.executions && s.executions[op.job].dispatchId == op.id ==> s.executions[op.job].status == Failed)
  }

  /** An abandon in flight is for an attempt that was dispatched and that no worker reports on. */
  ghost predicate AbandonSafe(s: State, op: Op) {
    op.AbandonNext? ==> Owns(s, op.job, op.id) && !Awaiting(s, op.id) && op.id in s.released
  }

  ghost predicate OpSafe(s: State, op: Op) {
    ClaimHeld(s, op) && RependSafe(s, op) && AbandonSafe(s, op)
  }

  ghost predicate Operations(s: State) {
    (forall op :: op in s.pending ==> OpSafe(s, op)) && (!s.up ==> s.pending == {})
  }

  /** A running or completed execution has its job still bound to its id. */
  ghost predicate LiveIsBound(s: State) {
    && (forall j :: j in s.executions && j in s.accepted && s.executions[j].status in {Running, Completed} ==>
          s.accepted[j].dispatchId == Some(s.executions[j].dispatchId))
    && (forall j :: j in s.executions ==> s.executions[j].status != Pending)
  }

  /** Nothing is both reported and released; whatever completed was reported. */
  ghost predicate Fences(s: State) {
    && s.reported !! s.released
    && (forall j :: j in s.executions && s.executions[j].status == Completed ==>
          s.executions[j].dispatchId in s.reported)
  }

  /** While the store is open, a claim not recorded in results has its dispatch or its repend in flight. */
  ghost predicate Recorded(s: State, j: JobId, d: DispatchId) {
    || (j in s.executions && s.executions[j].dispatchId == d)
    || Awaiting(s, d)
    || RependNext(j, d, Rollback) in s.pending
  }

  ghost predicate NoOrphan(s: State) {
    s.up ==>
      forall j :: j in s.accepted && s.accepted[j].dispatchId.Some? ==> Recorded(s, j, s.accepted[j].dispatchId.value)
  }

  ghost predicate Inv(s: State) {
    Identity(s) && Operations(s) && LiveIsBound(s) && Fences(s) && NoOrphan(s)
  }

  // ------------------------------------------------------------- preservation

  lemma KeepsEnqueue(s: State, e: Event)
    requires Inv(s) && Enabled(s, e) && e.Enqueue?
    ensures Inv(After(s, e))
  {
    InsertedRows(s.accepted, s.last, e.newJobs, e.table);
    InsertKeeps(s, e.table, s.last + |e.newJobs|, After(s, e));
  }

  ghost predicate FreeRowsAdded(t: I.Accepted, u: I.Accepted) {
    && (forall j :: j in t ==> j in u && u[j] == t[j])
    && (forall j :: j in u && j !in t ==> u[j].dispatchId.None?)
  }

  lemma InsertedRows(t: I.Accepted, last: nat, rows: seq<I.NewJob>, u: I.Accepted)
    requires I.LastRowid(t, last) && I.InsertTx(t, last, rows, u)
    ensures I.LastRowid(u, last + |rows|) && FreeRowsAdded(t, u)
  {
  }

  /** New rows are free, so they disturb nothing. */
  lemma InsertKeeps(s: State, table: I.Accepted, last: nat, s': State)
    requires Inv(s) && I.LastRowid(table, last) && FreeRowsAdded(s.accepted, table)
    requires s' == s.(accepted := table, last := last)
    ensures Inv(s')
  {
    SameClaims(s, s');
    forall j | j in s.executions ensures j in table {
      assert j in s.executions.Keys && j in s.accepted.Keys;
    }
    forall op | op in s.pending ensures OpSafe(s', op) {
      assert OpSafe(s, op);
    }
    forall j | s.up && j in table && table[j].dispatchId.Some? ensures Recorded(s', j, table[j].dispatchId.value) {
      assert Recorded(s, j, s.accepted[j].dispatchId.value);
    }
  }

  /** Events that leave the claims in flight alone leave every id awaiting exactly when it was. */
  lemma SameClaims(s: State, s': State)
    requires Identity(s) && s'.issued == s.issued
    requires forall op: Op :: op.AfterClaim? ==> (op in s'.pending <==> op in s.pending)
    ensures forall d :: Awaiting(s, d) <==> Awaiting(s', d)
  {
  }

  lemma KeepsQuiet(s: State, e: Event)
    requires Inv(s) && Enabled(s, e)
    requires e.UpsertIngest? || e.UpsertResults? || e.StartRead? || e.FinishRead?
    ensures Inv(After(s, e))
  {
    match e
    case UpsertIngest(queue) =>
      PoliciesAreFree(s, s.policies[queue.name := queue], s.queues);
      KeepsStart(s.(policies := s.policies[queue.name := queue]), UpsertNext(queue));
    case UpsertResults(op, keep) =>
      PoliciesAreFree(s, s.policies, s.queues[op.queue.name := op.queue]);
      KeepsDrop(s.(queues := s.queues[op.queue.name := op.queue]), op, keep);
    case StartRead(job) => KeepsStart(s, ReadNext(job, s.accepted[job]));
    case FinishRead(op, keep) => KeepsDrop(s, op, keep);
  }

  /** Neither database says anything about the retry policies. */
  lemma PoliciesAreFree(s: State, policies: R.Queues, queues: R.Queues)
    requires Inv(s)
    ensures Inv(s.(policies := policies, queues := queues))
  {
    var s' := s.(policies := policies, queues := queues);
    SameClaims(s, s');
    forall op | op in s.pending ensures OpSafe(s', op) {
      assert OpSafe(s, op);
    }
    forall j | s.up && j in s.accepted && s.accepted[j].dispatchId.Some?
      ensures Recorded(s', j, s.accepted[j].dispatchId.value)
    {
      assert Recorded(s, j, s.accepted[j].dispatchId.value);
    }
  }

  /** An operation that neither claims nor repends may end at any time. */
  lemma KeepsDrop(s: State, op: Op, keep: bool)
    requires Inv(s) && !op.AfterClaim? && !op.RependNext?
    ensures Inv(s.(pending := Left(s, op, keep)))
  {
    var s' := s.(pending := Left(s, op, keep));
    SameClaims(s, s');
    forall x | x in s'.pending ensures OpSafe(s', x) {
      assert OpSafe(s, x);
    }
    forall j | s.up && j in s.accepted && s.accepted[j].dispatchId.Some?
      ensures Recorded(s', j, s.accepted[j].dispatchId.value)
    {
      assert Recorded(s, j, s.accepted[j].dispatchId.value);
    }
  }

  lemma {:induction false} IssueFacts(issued: map<DispatchId, Origin>, rows: seq<R.DispatchInsert>, n: nat)
    requires n <= |rows| && DistinctIds(rows)
    ensures forall i :: 0 <= i < n ==> rows[i].dispatchId in Issue(issued, rows, n)
    ensures forall i :: 0 <= i < n && rows[i].dispatchId in Issue(issued, rows, n) ==>
      Issue(issued, rows, n)[rows[i].dispatchId] == Origin(rows[i].jobId, AfterClaim(rows))
    ensures forall d :: d in issued ==> d in Issue(issued, rows, n)
    ensures forall d :: d in Issue(issued, rows, n) ==>
      HasId(rows, d) || (d in issued && Issue(issued, rows, n)[d] == issued[d])
    ensures forall d :: d in issued && !HasId(rows, d) ==> Issue(issued, rows, n)[d] == issued[d]
  {
    if n > 0 {
      IssueFacts(issued, rows, n - 1);
      assert HasId(rows, rows[n - 1].dispatchId);
    }
  }

  /** A claim adds its own fresh ids, all awaiting, and disturbs no other id. */
  lemma ClaimIssues(s: State, e: Event)
    requires Inv(s) && Enabled(s, e) && e.Claim?
    ensures var s' := After(s, e);
      && (forall d :: d in s.issued ==>
            d in s'.issued && s'.issued[d] == s.issued[d] && (Awaiting(s', d) <==> Awaiting(s, d)))
      && (forall d :: d in s'.issued && d !in s.issued ==> HasId(e.rows, d))
      && (forall i :: 0 <= i < |e.rows| ==> e.rows[i].dispatchId in s'.issued)
      && (forall i :: 0 <= i < |e.rows| ==>
            s'.issued[e.rows[i].dispatchId] == Origin(e.rows[i].jobId, AfterClaim(e.rows)))
  {
    var s' := After(s, e);
    var claim := AfterClaim(e.rows);
    IssueFacts(s.issued, e.rows, |e.rows|);
    forall d | d in s.issued ensures s'.issued[d] == s.issued[d] && s.issued[d].claim != claim {
      assert !HasId(e.rows, d);
    }
  }

  lemma KeepsClaim(s: State, e: Event)
    requires Inv(s) && Enabled(s, e) && e.Claim?
    ensures Inv(After(s, e))
  {
    var s' := After(s, e);
    ClaimedRows(s, e);
    ClaimKeepsIdentity(s, e);
    forall op | op in s'.pending ensures OpSafe(s', op) {
      if op == AfterClaim(e.rows) {
        ClaimIssues(s, e);
        assert ClaimHeld(s', op);
      } else {
        assert OpSafe(s, op);
        KeepsOpAcrossClaim(s, e, op);
      }
    }
    forall j | j in s'.accepted && s'.accepted[j].dispatchId.Some?
      ensures Recorded(s', j, s'.accepted[j].dispatchId.value)
    {
      ClaimIsRecorded(s, e, j);
    }
  }

  lemma ClaimIsRecorded(s: State, e: Event, j: JobId)
    requires Inv(s) && Enabled(s, e) && e.Claim? && j in s.accepted && After(s, e).accepted[j].dispatchId.Some?
    ensures var d := After(s, e).accepted[j].dispatchId.value;
      Owns(After(s, e), j, d) && Recorded(After(s, e), j, d)
  {
    ClaimIssues(s, e);
    ClaimedRows(s, e);
    var s' := After(s, e);
    if s'.accepted[j] == s.accepted[j] {
      assert Recorded(s, j, s.accepted[j].dispatchId.value);
    } else {
      var i :| 0 <= i < |e.rows| && e.rows[i].jobId == j;
      assert s'.issued[e.rows[i].dispatchId] == Origin(j, AfterClaim(e.rows));
    }
  }

  lemma ClaimKeepsIdentity(s: State, e: Event)
    requires Inv(s) && Enabled(s, e) && e.Claim?
    ensures Identity(After(s, e))
  {
    var s' := After(s, e);
    ClaimIssues(s, e);
    forall j | j in s'.accepted && s'.accepted[j].dispatchId.Some?
      ensures Owns(s', j, s'.accepted[j].dispatchId.value)
    {
      ClaimIsRecorded(s, e, j);
    }
    forall d | d in s'.issued ensures s'.issued[d].claim.AfterClaim? && HasId(s'.issued[d].claim.rows, d) {
      if d !in s.issued {
        var i :| 0 <= i < |e.rows| && e.rows[i].dispatchId == d;
      }
    }
  }

  lemma KeepsOpAcrossClaim(s: State, e: Event, op: Op)
    requires Inv(s) && Enabled(s, e) && e.Claim? && op in s.pending && OpSafe(s, op)
    ensures OpSafe(After(s, e), op)
  {
    ClaimIssues(s, e);
    ClaimedRows(s, e);
  }

  /** A claim touches free rows only, and each of them once. */
  lemma ClaimedRows(s: State, e: Event)
    requires Inv(s) && Enabled(s, e) && e.Claim?
    ensures R.DistinctJobs(e.rows)
    ensures forall i :: 0 <= i < |e.rows| ==>
      e.rows[i].jobId in s.accepted && s.accepted[e.rows[i].jobId].dispatchId.None?
    ensures forall i :: 0 <= i < |e.rows| ==>
      e.table[e.rows[i].jobId] == s.accepted[e.rows[i].jobId].(dispatchId := Some(e.rows[i].dispatchId))
    ensures forall j :: j in s.accepted && s.accepted[j].dispatchId.Some? ==> e.table[j] == s.accepted[j]
    ensures forall j :: j in s.accepted && e.table[j] != s.accepted[j] ==>
      exists i :: 0 <= i < |e.rows| && e.rows[i].jobId == j
  {
    var jobs := Jobs(e.rows);
    assert forall i :: 0 <= i < |e.rows| ==> jobs[i] == e.rows[i].jobId && Ids(e.rows)[i] == e.rows[i].dispatchId;
    forall i, k | 0 <= i < k < |e.rows| ensures e.rows[i].jobId != e.rows[k].jobId {
      assert I.Before(s.accepted, jobs[i], jobs[k]);
    }
    forall i | 0 <= i < |e.rows| ensures I.Free(s.accepted, e.name, e.rows[i].jobId) {
      assert I.Free(s.accepted, e.name, jobs[i]);
    }
    forall j | j in jobs ensures exists i :: 0 <= i < |e.rows| && e.rows[i].jobId == j {
      var i :| 0 <= i < |jobs| && jobs[i] == j;
      assert e.rows[i].jobId == j;
    }
  }

  /** Every row of a claim in flight meets a job without a live execution. */
  lemma ClaimIsDispatchable(s: State, op: Op)
    requires Inv(s) && op in s.pending && op.AfterClaim?
    ensures R.AllDispatchable(s.executions, op.rows)
    ensures forall i, j :: 0 <= i < |op.rows| && j in s.executions ==>
      s.executions[j].dispatchId != op.rows[i].dispatchId
  {
    assert OpSafe(s, op);
    forall i | 0 <= i < |op.rows| ensures Awaiting(s, op.rows[i].dispatchId) && R.Upserts(s.executions, op.rows[i]) {
      var j := op.rows[i].jobId;
      assert s.accepted[j].dispatchId == Some(op.rows[i].dispatchId);
    }
  }

  /** A refused dispatch: its ids stop awaiting, and a repend of each row is in flight instead. */
  lemma RefusedRows(s: State, op: Op)
    requires Inv(s) && op in s.pending && op.AfterClaim?
    ensures var s' := s.(pending := s.pending - {op} + RependAll(op.rows));
      forall d :: Awaiting(s', d) <==> Awaiting(s, d) && s.issued[d].claim != op
  {
  }

  lemma RefusedOp(s: State, op: Op, x: Op)
    requires Inv(s) && op in s.pending && op.AfterClaim? && x in s.pending - {op} + RependAll(op.rows)
    ensures OpSafe(s.(pending := s.pending - {op} + RependAll(op.rows)), x)
  {
    var s' := s.(pending := s.pending - {op} + RependAll(op.rows));
    RefusedRows(s, op);
    if x in RependAll(op.rows) {
      ClaimIsDispatchable(s, op);
      var i :| 0 <= i < |op.rows| && x == RependNext(op.rows[i].jobId, op.rows[i].dispatchId, Rollback);
      assert OpSafe(s, op);
      assert s.issued[op.rows[i].dispatchId] == Origin(op.rows[i].jobId, op);
    } else {
      assert OpSafe(s, x);
    }
  }

  lemma RefusedIsRecorded(s: State, op: Op, j: JobId)
    requires Inv(s) && s.up && op in s.pending && op.AfterClaim? && j in s.accepted && s.accepted[j].dispatchId.Some?
    ensures Recorded(s.(pending := s.pending - {op} + RependAll(op.rows)), j, s.accepted[j].dispatchId.value)
  {
    var s' := s.(pending := s.pending - {op} + RependAll(op.rows));
    var d := s.accepted[j].dispatchId.value;
    assert Recorded(s, j, d) && OpSafe(s, op);
    if Awaiting(s, d) && s.issued[d].claim == op {
      var i :| 0 <= i < |op.rows| && op.rows[i].dispatchId == d;
      assert s.issued[d] == Origin(op.rows[i].jobId, op);
      assert RependNext(op.rows[i].jobId, op.rows[i].dispatchId, Rollback) in RependAll(op.rows);
    }
  }

  lemma KeepsRefusedDispatch(s: State, op: Op)
    requires Inv(s) && op in s.pending && op.AfterClaim?
    ensures Inv(s.(pending := s.pending - {op} + RependAll(op.rows)))
  {
    var s' := s.(pending := s.pending - {op} + RependAll(op.rows));
    RefusedRows(s, op);
    forall x | x in s'.pending ensures OpSafe(s', x) {
      RefusedOp(s, op, x);
    }
    forall j | s.up && j in s.accepted && s.accepted[j].dispatchId.Some?
      ensures Recorded(s', j, s.accepted[j].dispatchId.value)
    {
      RefusedIsRecorded(s, op, j);
    }
  }

  lemma KeepsDispatch(s: State, e: Event)
    requires Inv(s) && Enabled(s, e) && e.Dispatch?
    ensures Inv(After(s, e))
  {
    var op := e.op;
    ClaimIsDispatchable(s, op);
    var tx := R.DispatchTx(s.executions, s.queues, op.rows);
    if e.fails || tx.None? {
      KeepsRefusedDispatch(s, op);
    } else {
      R.DispatchTxPointwise(s.executions, s.queues, op.rows);
      KeepsCommittedDispatch(s, op, After(s, e));
    }
  }

  /** A committed dispatch: its ids stop awaiting, and each row is new or as it was. */
  lemma CommittedRows(s: State, op: Op, s': State)
    requires Inv(s) && op in s.pending && op.AfterClaim?
    requires R.Dispatches(s.executions, op.rows, s'.executions)
    requires s'.issued == s.issued && s'.pending == s.pending - {op}
    ensures forall d :: Awaiting(s', d) <==> Awaiting(s, d) && s.issued[d].claim != op
    ensures forall j :: j in s'.executions && !(j in s.executions && s'.executions[j] == s.executions[j]) ==>
      exists i :: 0 <= i < |op.rows| && op.rows[i].jobId == j
    ensures forall i :: 0 <= i < |op.rows| ==> NewAttempt(s, op, s', i)
  {
    assert OpSafe(s, op);
    forall j | j in s'.executions && !(j in s.executions && s'.executions[j] == s.executions[j])
      ensures exists i :: 0 <= i < |op.rows| && op.rows[i].jobId == j
    {
      assert j in R.JobsOf(op.rows);
    }
  }

  /** Row `i` of a dispatched claim: running under its id, which its job is bound to. */
  ghost predicate NewAttempt(s: State, op: Op, s': State, i: nat)
    requires op.AfterClaim? && i < |op.rows|
  {
    var j, d := op.rows[i].jobId, op.rows[i].dispatchId;
    && j in s'.executions && s'.executions[j].status == Running && s'.executions[j].dispatchId == d
    && j in s.accepted && s.accepted[j].dispatchId == Some(d)
    && d in s.issued && s.issued[d] == Origin(j, op)
  }

  lemma KeepsCommittedDispatch(s: State, op: Op, s': State)
    requires Inv(s) && op in s.pending && op.AfterClaim?
    requires R.Dispatches(s.executions, op.rows, s'.executions)
    requires s' == s.(executions := s'.executions, pending := s.pending - {op},
                      handed := s.handed + RowIds(op.rows))
    ensures Inv(s')
  {
    forall j | j in s'.executions ensures RowInPlace(s', j) {
      CommittedRowInPlace(s, op, s', j);
    }
    forall x | x in s'.pending ensures OpSafe(s', x) {
      assert OpSafe(s, x);
      KeepsOpAcrossDispatch(s, op, s', x);
    }
    forall j | s.up && j in s.accepted && s.accepted[j].dispatchId.Some?
      ensures Recorded(s', j, s.accepted[j].dispatchId.value)
    {
      RecordedAcrossDispatch(s, op, s', j);
    }
    forall d | d in s'.handed ensures d in s'.issued && !Awaiting(s', d) {
      HandedIsDispatched(s, op, s', d);
    }
  }

  /** What the invariant says about one execution. */
  ghost predicate RowInPlace(s: State, j: JobId)
    requires j in s.executions
  {
    var e := s.executions[j];
    && j in s.accepted && Owns(s, j, e.dispatchId) && !Awaiting(s, e.dispatchId) && e.status != Pending
    && (e.status in {Running, Completed} ==> s.accepted[j].dispatchId == Some(e.dispatchId))
    && (e.status == Completed ==> e.dispatchId in s.reported)
  }

  lemma CommittedRowInPlace(s: State, op: Op, s': State, j: JobId)
    requires Inv(s) && op in s.pending && op.AfterClaim? && j in s'.executions
    requires R.Dispatches(s.executions, op.rows, s'.executions)
    requires s' == s.(executions := s'.executions, pending := s.pending - {op}, handed := s'.handed)
    ensures RowInPlace(s', j)
  {
    CommittedRows(s, op, s');
    if !(j in s.executions && s'.executions[j] == s.executions[j]) {
      var i :| 0 <= i < |op.rows| && op.rows[i].jobId == j;
      assert NewAttempt(s, op, s', i);
    }
  }

  lemma HandedIsDispatched(s: State, op: Op, s': State, d: DispatchId)
    requires Inv(s) && op in s.pending && op.AfterClaim?
    requires R.Dispatches(s.executions, op.rows, s'.executions)
    requires s' == s.(executions := s'.executions, pending := s.pending - {op}, handed := s'.handed)
    requires d in s.handed || exists i :: 0 <= i < |op.rows| && op.rows[i].dispatchId == d
    ensures d in s'.issued && !Awaiting(s', d)
  {
    CommittedRows(s, op, s');
    if d !in s.handed {
      var i :| 0 <= i < |op.rows| && op.rows[i].dispatchId == d;
      assert NewAttempt(s, op, s', i);
    }
  }

  lemma KeepsOpAcrossDispatch(s: State, op: Op, s': State, x: Op)
    requires Inv(s) && op in s.pending && op.AfterClaim? && x in s.pending && x != op && OpSafe(s, x)
    requires R.Dispatches(s.executions, op.rows, s'.executions)
    requires s'.issued == s.issued && s'.pending == s.pending - {op} && s'.accepted == s.accepted
    requires s'.released == s.released
    ensures OpSafe(s', x)
  {
    CommittedRows(s, op, s');
    forall i | 0 <= i < |op.rows| ensures Awaiting(s, op.rows[i].dispatchId) {
      assert NewAttempt(s, op, s', i);
    }
  }

  lemma RecordedAcrossDispatch(s: State, op: Op, s': State, j: JobId)
    requires Inv(s) && op in s.pending && op.AfterClaim? && s.up
    requires R.Dispatches(s.executions, op.rows, s'.executions)
    requires s'.issued == s.issued && s'.pending == s.pending - {op}
    requires j in s.accepted && s.accepted[j].dispatchId.Some?
    ensures Recorded(s', j, s.accepted[j].dispatchId.value)
  {
    CommittedRows(s, op, s');
    var d := s.accepted[j].dispatchId.value;
    assert Recorded(s, j, d);
    if Awaiting(s, d) && s.issued[d].claim == op {
      var i :| 0 <= i < |op.rows| && op.rows[i].dispatchId == d;
      assert NewAttempt(s, op, s', i);
    } else if j in s.executions && s.executions[j].dispatchId == d {
      forall i | 0 <= i < |op.rows| ensures op.rows[i].jobId != j {
        assert NewAttempt(s, op, s', i) && Awaiting(s, op.rows[i].dispatchId);
      }
    }
  }

  /** The executions may move on: each row is as it was, or a running row that ended under its own id. */
  ghost predicate Ends(t: R.Executions, u: R.Executions) {
    && u.Keys == t.Keys
    && (forall j :: j in t ==> u[j].dispatchId == t[j].dispatchId)
    && (forall j :: j in t ==> u[j] == t[j] || (t[j].status == Running && u[j].status in {Completed, Failed}))
  }

  ghost predicate RependOfFailed(s: State, s': State, op: Op) {
    && op.RependNext? && op.job in s.executions && s.executions[op.job].dispatchId == op.id
    && op.job in s'.executions && s'.executions[op.job].status == Failed
  }

  /** What ending attempts keeps, whatever ended them, as long as the new operations are repends of
      failed attempts. */
  lemma KeepsEndings(s: State, s': State, more: set<Op>)
    requires Inv(s) && s.up && Ends(s.executions, s'.executions)
    requires s' == s.(executions := s'.executions, pending := s'.pending, reported := s'.reported,
                      exhausted := s'.exhausted)
    requires s.pending <= s'.pending && s'.pending <= s.pending + more
    requires forall op :: op in more ==> RependOfFailed(s, s', op)
    requires s.reported <= s'.reported && s'.reported !! s.released
    requires forall j :: j in s.executions && s'.executions[j].status == Completed ==>
      s'.executions[j].dispatchId in s'.reported
    ensures Inv(s')
  {
    SameClaims(s, s');
    forall op | op in s'.pending ensures OpSafe(s', op) {
      if op in s.pending {
        assert OpSafe(s, op);
      }
    }
    forall j | j in s.accepted && s.accepted[j].dispatchId.Some?
      ensures Recorded(s', j, s.accepted[j].dispatchId.value)
    {
      assert Recorded(s, j, s.accepted[j].dispatchId.value);
    }
  }

  lemma KeepsComplete(s: State, e: Event)
    requires Inv(s) && Enabled(s, e) && e.Complete?
    ensures Inv(After(s, e)) && Ends(s.executions, e.after)
  {
    var s' := After(s, e);
    forall j | j in s.executions
      ensures e.after[j].dispatchId == s.executions[j].dispatchId
      ensures e.after[j] != s.executions[j] ==>
        s.executions[j].status == Running && e.after[j].status in {Completed, Failed}
      ensures e.after[j].status == Completed ==> e.after[j].dispatchId in s'.reported
    {
      R.CompletedRow(s.executions, s.queues, e.batch, e.after, e.disp, j);
      if e.after[j] != s.executions[j] {
        var k :| 0 <= k < |e.batch| && e.batch[k].jobId == j && e.batch[k].dispatchId == s.executions[j].dispatchId;
        assert e.batch[k].dispatchId in BatchIds(e.batch);
      }
    }
    var more := RependsOf(e.batch, e.disp);
    forall op | op in more ensures RependOfFailed(s, s', op) {
      var i :| 0 <= i < |e.batch| && e.disp[i] == R.Repend
        && op == RependNext(e.batch[i].jobId, e.batch[i].dispatchId, Retry);
      R.RependedRow(s.executions, s.queues, e.batch, e.after, e.disp, i);
    }
    KeepsEndings(s, s', more);
  }

  lemma KeepsRecover(s: State, e: Event)
    requires Inv(s) && Enabled(s, e) && e.RecoverStale?
    ensures Inv(After(s, e)) && Ends(s.executions, R.Recover(s.executions, e.now))
  {
    var s' := After(s, e);
    KeepsEndings(s, s', RecoveryRepends(s.executions, s.queues, e.now));
  }

  lemma KeepsRelease(s: State, e: Event)
    requires Inv(s) && Enabled(s, e) && e.StartRelease?
    ensures Inv(After(s, e))
  {
    var marked := s.(released := s.released + {e.id});
    SameClaims(s, marked);
    forall op | op in s.pending ensures OpSafe(marked, op) {
      assert OpSafe(s, op);
    }
    assert NoOrphan(marked) by {
      forall j | s.up && j in s.accepted && s.accepted[j].dispatchId.Some?
        ensures Recorded(marked, j, s.accepted[j].dispatchId.value)
      {
        assert Recorded(s, j, s.accepted[j].dispatchId.value);
      }
    }
    assert Inv(marked);
    if e.job in s.accepted && s.accepted[e.job].dispatchId == Some(e.id) {
      assert AbandonSafe(marked, AbandonNext(e.job, e.id));
      KeepsStart(marked, AbandonNext(e.job, e.id));
    }
  }

  lemma KeepsStart(s: State, op: Op)
    requires Inv(s) && s.up && !op.AfterClaim? && OpSafe(s, op)
    ensures Inv(s.(pending := s.pending + {op}))
  {
    var s' := s.(pending := s.pending + {op});
    SameClaims(s, s');
    forall x | x in s'.pending ensures OpSafe(s', x) {
      assert OpSafe(s, x);
    }
    forall j | s.up && j in s.accepted && s.accepted[j].dispatchId.Some?
      ensures Recorded(s', j, s.accepted[j].dispatchId.value)
    {
      assert Recorded(s, j, s.accepted[j].dispatchId.value);
    }
  }

  /** The results half of a release: the attempt is failed, so its claim may be freed. */
  lemma AbandonedIsOver(s: State, op: Op)
    requires Inv(s) && op in s.pending && op.AbandonNext?
    ensures var ended := s.(executions := R.Abandon(s.executions, op.job, op.id));
      && s.up && Inv(ended) && Ends(s.executions, ended.executions)
      && OpSafe(ended, RependNext(op.job, op.id, Release))
  {
    assert OpSafe(s, op);
    var ended := s.(executions := R.Abandon(s.executions, op.job, op.id));
    KeepsEndings(s, ended, {});
    assert RependSafe(ended, RependNext(op.job, op.id, Release));
  }

  lemma KeepsAbandon(s: State, e: Event)
    requires Inv(s) && Enabled(s, e) && e.Abandon?
    ensures Inv(After(s, e)) && Ends(s.executions, After(s, e).executions)
  {
    var repend := RependNext(e.op.job, e.op.id, Release);
    var ended := s.(executions := R.Abandon(s.executions, e.op.job, e.op.id));
    AbandonedIsOver(s, e.op);
    KeepsStart(ended, repend);
    var started := ended.(pending := s.pending + {repend});
    KeepsDrop(started, e.op, e.keep);
    assert After(s, e) == started.(pending := Left(started, e.op, e.keep));
  }

  /** The row a repend frees belongs to an attempt that is over, so no other operation relies on it. */
  lemma OpAcrossRepend(s: State, op: Op, x: Op)
    requires Inv(s) && op in s.pending && op.RependNext? && x in s.pending
    ensures OpSafe(s.(accepted := I.Repend(s.accepted, op.job, op.id)), x)
  {
    assert OpSafe(s, op) && OpSafe(s, x);
    if x.AfterClaim? {
      assert forall i :: 0 <= i < |x.rows| ==> Awaiting(s, x.rows[i].dispatchId);
    }
  }

  lemma FreeingKeeps(s: State, op: Op)
    requires Inv(s) && op in s.pending && op.RependNext?
    ensures Inv(s.(accepted := I.Repend(s.accepted, op.job, op.id)))
  {
    var s' := s.(accepted := I.Repend(s.accepted, op.job, op.id));
    assert OpSafe(s, op);
    SameClaims(s, s');
    forall x | x in s.pending ensures OpSafe(s', x) {
      OpAcrossRepend(s, op, x);
    }
    forall k | k in s'.accepted && s'.accepted[k].dispatchId.Some? && s.up
      ensures Recorded(s', k, s'.accepted[k].dispatchId.value)
    {
      assert s'.accepted[k] == s.accepted[k] && Recorded(s, k, s.accepted[k].dispatchId.value);
    }
  }

  /** Once the row is freed, or carries another id, the repend may end. */
  lemma RependEnds(s: State, op: Op, releases: map<JobId, nat>, keep: bool)
    requires Inv(s) && op.RependNext?
    requires op.job in s.accepted ==> s.accepted[op.job].dispatchId != Some(op.id)
    ensures Inv(s.(pending := Left(s, op, keep), releases := releases))
  {
    var s' := s.(pending := Left(s, op, keep), releases := releases);
    SameClaims(s, s');
    forall x | x in s'.pending ensures OpSafe(s', x) {
      assert OpSafe(s, x);
    }
    forall j | s.up && j in s.accepted && s.accepted[j].dispatchId.Some?
      ensures Recorded(s', j, s.accepted[j].dispatchId.value)
    {
      assert Recorded(s, j, s.accepted[j].dispatchId.value);
    }
  }

  lemma KeepsRepend(s: State, e: Event)
    requires Inv(s) && Enabled(s, e) && e.Repend?
    ensures Inv(After(s, e))
  {
    FreeingKeeps(s, e.op);
    RependEnds(s.(accepted := I.Repend(s.accepted, e.op.job, e.op.id)), e.op, After(s, e).releases, e.keep);
  }

  /** Healing any part of the rows frees orphans only, so no live execution loses its job. */
  lemma KeepsHeal(s: State, s': State, healed: set<JobId>)
    requires Inv(s) && s'.accepted == I.Heal(s.accepted, s.executions, healed)
    requires s' == s.(up := s'.up, accepted := s'.accepted, pending := {}, stranded := s'.stranded)
    requires s'.up ==> healed == s.accepted.Keys
    ensures Inv(s')
  {
    forall j | j in s.executions && s.executions[j].status in {Running, Completed}
      ensures s'.accepted[j].dispatchId == Some(s.executions[j].dispatchId)
    {
      assert !I.Orphan(s.accepted[j], s.executions);
    }
    forall j | s'.up && j in s'.accepted && s'.accepted[j].dispatchId.Some?
      ensures Recorded(s', j, s'.accepted[j].dispatchId.value)
    {
      assert !I.Orphan(s.accepted[j], s.executions);
      var k :| k in s.executions && s.executions[k].dispatchId == s.accepted[j].dispatchId.value;
      assert Owns(s, k, s.executions[k].dispatchId);
    }
  }

  /** The phase invariant is inductive. */
  lemma Keeps(s: State, e: Event)
    requires Inv(s) && Enabled(s, e)
    ensures Inv(After(s, e))
  {
    match e
    case Enqueue(_, _) => KeepsEnqueue(s, e);
    case UpsertIngest(_) => KeepsQuiet(s, e);
    case UpsertResults(_, _) => KeepsQuiet(s, e);
    case Claim(_, _, _, _) => KeepsClaim(s, e);
    case Dispatch(_, _) => KeepsDispatch(s, e);
    case Complete(_, _, _) => KeepsComplete(s, e);
    case StartRelease(_, _) => KeepsRelease(s, e);
    case Abandon(_, _) => KeepsAbandon(s, e);
    case Repend(_, _) => KeepsRepend(s, e);
    case RecoverStale(_) => KeepsRecover(s, e);
    case StartRead(_) => KeepsQuiet(s, e);
    case FinishRead(_, _) => KeepsQuiet(s, e);
    case Crash(healed) => KeepsHeal(s, After(s, e), healed);
    case Reopen => KeepsHeal(s, After(s, e), s.accepted.Keys);
  }
}
