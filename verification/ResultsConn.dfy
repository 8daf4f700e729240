/** The results writer's connection: chunked statements inside transactions. */
module ResultsConn {
  import opened Types
  import opened ResultsTable

  /** Indices of the items of one kind, in arrival order, among the first `n` of the batch. */
  ghost predicate Partition(batch: seq<Completion>, idx: seq<nat>, n: nat, succeeded: bool)
    requires n <= |batch|
  {
    && |idx| == RankUpTo(batch, n, succeeded)
    && (forall p :: 0 <= p < |idx| ==>
          idx[p] < n && batch[idx[p]].outcome.Succeeded? == succeeded && Rank(batch, idx[p]) == p)
    && (forall i {:trigger Rank(batch, i)} :: 0 <= i < n && batch[i].outcome.Succeeded? == succeeded ==>
          Rank(batch, i) < |idx| && idx[Rank(batch, i)] == i)
  }

  function Finish(e: Execution, outcome: Outcome): Execution {
    match outcome
    case Succeeded(payload) => Complete(e, payload)
    case Crashed(message) => Fail(e, message)
  }

  /** The row of `j` after one UPDATE … FROM (VALUES …): any one of the matching items may be used. */
  ghost predicate RowAfterStatement(t: Executions, chunk: seq<Completion>, j: JobId, after: Execution)
    requires j in t
  {
    if Touches(t, chunk, j) then
      exists k :: 0 <= k < |chunk| && chunk[k].jobId == j && Fenced(t, chunk[k])
        && after == Finish(t[j], chunk[k].outcome)
    else after == t[j]
  }

  /** A statement that has gone through these items. */
  ghost predicate RowsDone(t: Executions, chunk: seq<Completion>, u: Executions) {
    u.Keys == t.Keys && forall j :: j in t ==> RowAfterStatement(t, chunk, j, u[j])
  }

  function Key(c: Completion): (JobId, DispatchId) {
    (c.jobId, c.dispatchId)
  }

  /** The keys a statement updates. */
  function UpdatedKeys(t: Executions, chunk: seq<Completion>): set<(JobId, DispatchId)> {
    if chunk == [] then {}
    else
      var c := chunk[|chunk| - 1];
      UpdatedKeys(t, chunk[..|chunk| - 1]) + if Fenced(t, c) then {Key(c)} else {}
  }

  lemma {:induction false} UpdatedIsFenced(t: Executions, chunk: seq<Completion>, c: Completion)
    requires Key(c) in UpdatedKeys(t, chunk)
    ensures Fenced(t, c) && Touches(t, chunk, c.jobId)
    decreases |chunk|
  {
    var n := |chunk| - 1;
    if Fenced(t, chunk[n]) && Key(chunk[n]) == Key(c) {
      assert chunk[n].jobId == c.jobId;
    } else {
      UpdatedIsFenced(t, chunk[..n], c);
      var i :| 0 <= i < n && chunk[..n][i].jobId == c.jobId && Fenced(t, chunk[..n][i]);
      assert chunk[i] == chunk[..n][i];
    }
  }

  lemma {:induction false} FencedIsUpdated(t: Executions, chunk: seq<Completion>, i: nat)
    requires i < |chunk| && Fenced(t, chunk[i])
    ensures Key(chunk[i]) in UpdatedKeys(t, chunk)
    decreases |chunk|
  {
    var n := |chunk| - 1;
    if i < n {
      assert chunk[..n][i] == chunk[i];
      FencedIsUpdated(t, chunk[..n], i);
    }
  }

  /** Going through one more item: it takes effect, unless it is not fenced or another was used instead. */
  lemma StatementStep(t: Executions, chunk: seq<Completion>, u: Executions, c: Completion, takes: bool)
    requires RowsDone(t, chunk, u) && (takes || !Fenced(t, c) || Touches(t, chunk, c.jobId))
    ensures RowsDone(t, chunk + [c], if Fenced(t, c) && takes then u[c.jobId := Finish(t[c.jobId], c.outcome)] else u)
  {
    var u' := if Fenced(t, c) && takes then u[c.jobId := Finish(t[c.jobId], c.outcome)] else u;
    forall j | j in t ensures RowAfterStatement(t, chunk + [c], j, u'[j]) {
      assert RowAfterStatement(t, chunk, j, u[j]);
      StatementGrows(t, chunk, c, j, u[j], u'[j]);
    }
  }

  method UpdateStatement(t: Executions, chunk: seq<Completion>)
    returns (u: Executions, updated: set<(JobId, DispatchId)>)
    ensures RowsDone(t, chunk, u)
    ensures forall k :: 0 <= k < |chunk| ==> (Key(chunk[k]) in updated <==> Fenced(t, chunk[k]))
  {
    u, updated := t, {};
    for k := 0 to |chunk|
      invariant RowsDone(t, chunk[..k], u) && updated == UpdatedKeys(t, chunk[..k])
    {
      var c := chunk[k];
      assert chunk[..k + 1] == chunk[..k] + [c];
      var takes: bool := *;
      if Key(c) in updated {
        UpdatedIsFenced(t, chunk[..k], c);
      } else {
        takes := true;
      }
      StatementStep(t, chunk[..k], u, c, takes);
      if Fenced(t, c) {
        if takes {
          u := u[c.jobId := Finish(t[c.jobId], c.outcome)];
        }
        updated := updated + {Key(c)};
      }
    }
    assert chunk[..|chunk|] == chunk;
    forall k | 0 <= k < |chunk| ensures Key(chunk[k]) in updated <==> Fenced(t, chunk[k]) {
      if Fenced(t, chunk[k]) {
        FencedIsUpdated(t, chunk, k);
      } else if Key(chunk[k]) in updated {
        UpdatedIsFenced(t, chunk, chunk[k]);
      }
    }
  }

  lemma StatementGrows(t: Executions, chunk: seq<Completion>, c: Completion, j: JobId, before: Execution,
                       after: Execution)
    requires j in t && RowAfterStatement(t, chunk, j, before)
    requires after == before || (c.jobId == j && Fenced(t, c) && after == Finish(t[j], c.outcome))
    requires c.jobId == j && Fenced(t, c) && !Touches(t, chunk, j) ==> after == Finish(t[j], c.outcome)
    ensures RowAfterStatement(t, chunk + [c], j, after)
  {
    var all := chunk + [c];
    assert all[|chunk|] == c && forall k :: 0 <= k < |chunk| ==> all[k] == chunk[k];
    if Touches(t, chunk, j) && after == before {
      var k :| 0 <= k < |chunk| && chunk[k].jobId == j && Fenced(t, chunk[k])
        && before == Finish(t[j], chunk[k].outcome);
      assert all[k] == chunk[k];
    }
  }

  /** What an item of one pass is answered, given the table the pass starts from. */
  ghost function PassDisposition(t: Executions, queues: Queues, batch: seq<Completion>, i: nat): Disposition
    requires i < |batch|
  {
    var c := batch[i];
    if !Fenced(t, c) || BeatenByEarlierChunk(batch, i) then Ignored
    else if c.outcome.Succeeded? || !Retryable(queues, t[c.jobId]) then Finished
    else Repend
  }

  /** The row of `j` once the first `p` items of a pass are done. */
  ghost predicate RowAfterPass(t: Executions, batch: seq<Completion>, idx: seq<nat>, p: nat, disp: seq<Disposition>,
                               j: JobId, after: Execution)
    requires j in t && p <= |idx| && |disp| == |batch| && forall k :: 0 <= k < p ==> idx[k] < |batch|
  {
    if exists k :: 0 <= k < p && batch[idx[k]].jobId == j && Fenced(t, batch[idx[k]]) then
      exists k :: 0 <= k < p && batch[idx[k]].jobId == j && Fenced(t, batch[idx[k]])
        && disp[idx[k]] != Ignored && after == Finish(t[j], batch[idx[k]].outcome)
    else after == t[j]
  }

  lemma SameStatement(p: nat, k: nat, e: nat)
    requires p % 256 == 0 && p <= k < p + 256
    ensures e / 256 < k / 256 <==> e < p
  {
  }

  lemma BeatenIffEarlier(batch: seq<Completion>, idx: seq<nat>, succeeded: bool, p: nat, k: nat)
    requires Partition(batch, idx, |batch|, succeeded)
    requires p % ROWS_PER_STATEMENT == 0 && p <= k < |idx| && k < p + ROWS_PER_STATEMENT
    ensures BeatenByEarlierChunk(batch, idx[k]) <==> exists e :: 0 <= e < p && SameKey(batch[idx[e]], batch[idx[k]])
  {
    var i := idx[k];
    assert Rank(batch, i) == k;
    if BeatenByEarlierChunk(batch, i) {
      var b :| 0 <= b < |batch| && SameKey(batch[b], batch[i])
        && batch[b].outcome.Succeeded? == batch[i].outcome.Succeeded?
        && Rank(batch, b) / ROWS_PER_STATEMENT < Rank(batch, i) / ROWS_PER_STATEMENT;
      SameStatement(p, k, Rank(batch, b));
      assert idx[Rank(batch, b)] == b;
    }
    if e :| 0 <= e < p && SameKey(batch[idx[e]], batch[i]) {
      SameStatement(p, k, e);
      assert Rank(batch, idx[e]) == e;
    }
  }

  /** One pass done, statement by statement: which rows moved and what was answered. */
  ghost predicate PassDone(t: Executions, queues: Queues, batch: seq<Completion>, idx: seq<nat>, p: nat,
                           was: seq<Disposition>, disp: seq<Disposition>, u: Executions)
  {
    && |disp| == |was| == |batch| && u.Keys == t.Keys && p <= |idx|
    && (forall k :: 0 <= k < |idx| ==> idx[k] < |batch|)
    && (forall j :: j in t ==> RowAfterPass(t, batch, idx, p, disp, j, u[j]))
    && (forall k :: 0 <= k < p ==> disp[idx[k]] == PassDisposition(t, queues, batch, idx[k]))
    && (forall i :: 0 <= i < |batch| && (forall k :: 0 <= k < p ==> idx[k] != i) ==> disp[i] == was[i])
  }

  /** During a pass a key is still fenced exactly when no earlier item of the pass used it. */
  lemma StillFenced(t: Executions, queues: Queues, batch: seq<Completion>, idx: seq<nat>, p: nat,
                    was: seq<Disposition>, disp: seq<Disposition>, u: Executions, c: Completion)
    requires PassDone(t, queues, batch, idx, p, was, disp, u)
    ensures Fenced(u, c) <==> Fenced(t, c) && !exists e :: 0 <= e < p && SameKey(batch[idx[e]], c)
    ensures Fenced(u, c) ==> u[c.jobId] == t[c.jobId]
  {
    if c.jobId in t {
      assert RowAfterPass(t, batch, idx, p, disp, c.jobId, u[c.jobId]);
      if e :| 0 <= e < p && SameKey(batch[idx[e]], c) {
        if Fenced(t, c) {
          assert Fenced(t, batch[idx[e]]);
        }
      }
    }
  }

  lemma PassStep(t: Executions, queues: Queues, batch: seq<Completion>, idx: seq<nat>, succeeded: bool, p: nat, q: nat,
                 was: seq<Disposition>, disp: seq<Disposition>, u: Executions, chunk: seq<Completion>,
                 disp': seq<Disposition>, u': Executions)
    requires Partition(batch, idx, |batch|, succeeded)
    requires PassDone(t, queues, batch, idx, p, was, disp, u)
    requires p % ROWS_PER_STATEMENT == 0 && p <= q <= |idx| && q <= p + ROWS_PER_STATEMENT
    requires |chunk| == q - p && forall k :: 0 <= k < |chunk| ==> chunk[k] == batch[idx[p + k]]
    requires u'.Keys == u.Keys && forall j :: j in u ==> RowAfterStatement(u, chunk, j, u'[j])
    requires |disp'| == |disp|
    requires forall k :: p <= k < q ==> disp'[idx[k]] == Answer(u, queues, batch[idx[k]])
    requires forall i :: 0 <= i < |batch| && (forall k :: p <= k < q ==> idx[k] != i) ==> disp'[i] == disp[i]
    ensures PassDone(t, queues, batch, idx, q, was, disp', u')
  {
    forall k | p <= k < q ensures disp'[idx[k]] == PassDisposition(t, queues, batch, idx[k]) {
      BeatenIffEarlier(batch, idx, succeeded, p, k);
      StillFenced(t, queues, batch, idx, p, was, disp, u, batch[idx[k]]);
    }
    forall k | 0 <= k < p ensures disp'[idx[k]] == disp[idx[k]] {
      forall m | p <= m < q ensures idx[m] != idx[k] {
        assert Rank(batch, idx[m]) == m && Rank(batch, idx[k]) == k;
      }
    }
    forall j | j in t ensures RowAfterPass(t, batch, idx, q, disp', j, u'[j]) {
      PassStepRow(t, queues, batch, idx, p, q, was, disp, u, chunk, disp', j, u'[j]);
    }
  }

  /** One row across one statement of a pass. */
  lemma PassStepRow(t: Executions, queues: Queues, batch: seq<Completion>, idx: seq<nat>, p: nat, q: nat,
                    was: seq<Disposition>, disp: seq<Disposition>, u: Executions, chunk: seq<Completion>,
                    disp': seq<Disposition>, j: JobId, after: Execution)
    requires PassDone(t, queues, batch, idx, p, was, disp, u) && j in t && p <= q <= |idx|
    requires |chunk| == q - p && forall k :: 0 <= k < |chunk| ==> chunk[k] == batch[idx[p + k]]
    requires RowAfterStatement(u, chunk, j, after) && |disp'| == |disp|
    requires forall k :: p <= k < q ==> disp'[idx[k]] == Answer(u, queues, batch[idx[k]])
    requires forall k :: 0 <= k < p ==> disp'[idx[k]] == disp[idx[k]]
    ensures RowAfterPass(t, batch, idx, q, disp', j, after)
  {
    assert RowAfterPass(t, batch, idx, p, disp, j, u[j]);
    if Touches(u, chunk, j) {
      var m :| 0 <= m < |chunk| && chunk[m].jobId == j && Fenced(u, chunk[m])
        && after == Finish(u[j], chunk[m].outcome);
      StillFenced(t, queues, batch, idx, p, was, disp, u, chunk[m]);
      assert chunk[m] == batch[idx[p + m]] && disp'[idx[p + m]] != Ignored;
    } else if k :| p <= k < q && batch[idx[k]].jobId == j && Fenced(t, batch[idx[k]]) {
      assert chunk[k - p] == batch[idx[k]] && !Fenced(u, chunk[k - p]);
      StillFenced(t, queues, batch, idx, p, was, disp, u, batch[idx[k]]);
      var e :| 0 <= e < p && SameKey(batch[idx[e]], batch[idx[k]]);
      assert Fenced(t, batch[idx[e]]);
    }
  }

  lemma ProducedStep(t0: Executions, rows: seq<DispatchInsert>, i: nat, t: Executions, byJob: map<JobId, Dispatched>,
                     lease: Millis)
    requires i < |rows| && Produced(t0, rows, i, t, byJob)
    requires DistinctJobs(rows) ==> lease == rows[i].leaseExpiresAt
    requires Upserts(t, rows[i])
    ensures Produced(t0, rows, i + 1, Upsert(t, rows[i]), byJob[rows[i].jobId := Returned(t, rows[i], lease)])
  {
    var row := rows[i];
    assert row.jobId !in byJob && Upserts(t0, row);
  }

  lemma NothingProduced(t0: Executions, rows: seq<DispatchInsert>, i: nat, t: Executions, byJob: map<JobId, Dispatched>)
    requires i < |rows| && Produced(t0, rows, i, t, byJob) && !Upserts(t, rows[i])
    ensures Produced(t0, rows, i + 1, t, byJob)
  {
    assert rows[i].jobId !in byJob ==> !Upserts(t0, rows[i]);
  }

  /** What the upsert returns for a row it wrote. */
  function Returned(t: Executions, row: DispatchInsert, lease: Millis): Dispatched
    requires Upserts(t, row)
  {
    Dispatched(row.jobId, UpsertedRow(t, row).executionCount, row.dispatchId, lease)
  }

  lemma DispatchTxStep(t0: Executions, queues: Queues, rows: seq<DispatchInsert>, i: nat, t: Executions)
    requires i < |rows| && DispatchTx(t0, queues, rows[..i]) == Some(t)
    ensures DispatchTx(t0, queues, rows[..i + 1])
      == if Aborts(t, queues, rows[i]) then None else Some(Upsert(t, rows[i]))
  {
    assert rows[..i + 1][..i] == rows[..i] && rows[..i + 1][i] == rows[i];
  }

  method LeaseById(rows: seq<DispatchInsert>, start: nat, end: nat) returns (leaseById: map<JobId, Millis>)
    requires start <= end <= |rows|
    ensures forall k :: start <= k < end ==> rows[k].jobId in leaseById
    ensures DistinctJobs(rows) ==>
      forall k :: start <= k < end && rows[k].jobId in leaseById ==> leaseById[rows[k].jobId] == rows[k].leaseExpiresAt
  {
    leaseById := map[];
    for i := start to end
      invariant forall k :: start <= k < i ==> rows[k].jobId in leaseById
      invariant DistinctJobs(rows) ==>
        forall k :: start <= k < i && rows[k].jobId in leaseById ==> leaseById[rows[k].jobId] == rows[k].leaseExpiresAt
    {
      leaseById := leaseById[rows[i].jobId := rows[i].leaseExpiresAt];
    }
  }

  /** A dispatch that has gone through the first `n` rows. */
  ghost predicate Upserted(t0: Executions, queues: Queues, rows: seq<DispatchInsert>, n: nat, t: Executions,
                           byJob: map<JobId, Dispatched>)
    requires n <= |rows|
  {
    DispatchTx(t0, queues, rows[..n]) == Some(t) && Produced(t0, rows, n, t, byJob) && QueuesKnown(t, queues)
  }

  /** One upsert statement over rows[start..end], and the rows it returned gathered by job. */
  method UpsertStatement(t0: Executions, queues: Queues, rows: seq<DispatchInsert>, start: nat, end: nat,
                         tIn: Executions, byJobIn: map<JobId, Dispatched>)
    returns (ok: bool, t: Executions, byJob: map<JobId, Dispatched>)
    requires start <= end <= |rows| && Upserted(t0, queues, rows, start, tIn, byJobIn)
    ensures ok ==> Upserted(t0, queues, rows, end, t, byJob)
    ensures !ok ==> DispatchTx(t0, queues, rows[..end]).None?
  {
    ok, t, byJob := true, tIn, byJobIn;
    var leaseById := LeaseById(rows, start, end);
    for i := start to end
      invariant ok && Upserted(t0, queues, rows, i, t, byJob)
    {
      ok, t, byJob := UpsertRow(t0, queues, rows, i, t, byJob, leaseById[rows[i].jobId]);
      if !ok {
        assert rows[..end][..i + 1] == rows[..i + 1];
        PrefixAborts(t0, queues, rows[..end], i + 1);
        return;
      }
    }
  }

  /** One row of the statement: it aborts the transaction, or its conflict clause lets it through or not. */
  method UpsertRow(ghost t0: Executions, queues: Queues, rows: seq<DispatchInsert>, i: nat, tIn: Executions,
                   byJobIn: map<JobId, Dispatched>, lease: Millis)
    returns (ok: bool, t: Executions, byJob: map<JobId, Dispatched>)
    requires i < |rows| && Upserted(t0, queues, rows, i, tIn, byJobIn)
    requires DistinctJobs(rows) ==> lease == rows[i].leaseExpiresAt
    ensures ok ==> Upserted(t0, queues, rows, i + 1, t, byJob)
    ensures !ok ==> DispatchTx(t0, queues, rows[..i + 1]).None?
  {
    ok, t, byJob := !Aborts(tIn, queues, rows[i]), tIn, byJobIn;
    DispatchTxStep(t0, queues, rows, i, t);
    if ok && Upserts(t, rows[i]) {
      ProducedStep(t0, rows, i, t, byJob, lease);
      byJob := byJob[rows[i].jobId := Returned(t, rows[i], lease)];
      t := Upsert(t, rows[i]);
    } else if ok {
      NothingProduced(t0, rows, i, t, byJob);
    }
  }

  /** After the commit: one answer per row, each taken out of the map, or an error. */
  method AnswerRows(rows: seq<DispatchInsert>, byJob: map<JobId, Dispatched>) returns (r: Result<seq<Dispatched>>)
    ensures r.Ok? <==> DistinctJobs(rows) && forall i :: 0 <= i < |rows| ==> rows[i].jobId in byJob
    ensures r.Ok? ==> |r.value| == |rows| && forall i :: 0 <= i < |rows| ==> r.value[i] == byJob[rows[i].jobId]
  {
    var out: seq<Dispatched> := [];
    var left := byJob;
    for i := 0 to |rows|
      invariant |out| == i
      invariant forall j :: j in left <==> j in byJob && forall k :: 0 <= k < i ==> rows[k].jobId != j
      invariant forall j :: j in left ==> left[j] == byJob[j]
      invariant forall k :: 0 <= k < i ==> rows[k].jobId in byJob && out[k] == byJob[rows[k].jobId]
      invariant forall k, m :: 0 <= k < m < i ==> rows[k].jobId != rows[m].jobId
    {
      if rows[i].jobId !in left {
        return Err(Internal("dispatch did not produce an execution"));
      }
      out := out + [left[rows[i].jobId]];
      left := left - {rows[i].jobId};
    }
    return Ok(out);
  }

  /** The answer the code derives for one item of a statement run against `u`. */
  function Answer(u: Executions, queues: Queues, c: Completion): Disposition {
    if !Fenced(u, c) then Ignored
    else if c.outcome.Succeeded? || !Retryable(queues, u[c.jobId]) then Finished
    else Repend
  }

  method AnswerChunk(u: Executions, queues: Queues, batch: seq<Completion>, idx: seq<nat>, succeeded: bool, p: nat,
                     q: nat,
                     updated: set<(JobId, DispatchId)>, was: seq<Disposition>) returns (disp: seq<Disposition>)
    requires |was| == |batch| && Partition(batch, idx, |batch|, succeeded) && p <= q <= |idx|
    requires forall k :: p <= k < q ==>
      ((batch[idx[k]].jobId, batch[idx[k]].dispatchId) in updated <==> Fenced(u, batch[idx[k]]))
    ensures |disp| == |was|
    ensures forall k :: p <= k < q ==> disp[idx[k]] == Answer(u, queues, batch[idx[k]])
    ensures forall i :: 0 <= i < |batch| && (forall k :: p <= k < q ==> idx[k] != i) ==> disp[i] == was[i]
  {
    disp := was;
    for k := p to q
      invariant |disp| == |was|
      invariant forall m :: p <= m < k ==> disp[idx[m]] == Answer(u, queues, batch[idx[m]])
      invariant forall i :: 0 <= i < |batch| && (forall m :: p <= m < k ==> idx[m] != i) ==> disp[i] == was[i]
    {
      var c := batch[idx[k]];
      forall m | p <= m < k ensures idx[m] != idx[k] {
        assert Rank(batch, idx[m]) == m && Rank(batch, idx[k]) == k;
      }
      var hit := (c.jobId, c.dispatchId) in updated;
      var answer := if !hit then Ignored else if succeeded || !Retryable(queues, u[c.jobId]) then Finished else Repend;
      disp := disp[idx[k] := answer];
    }
  }

  method SplitBatch(batch: seq<Completion>) returns (successes: seq<nat>, failures: seq<nat>)
    ensures Partition(batch, successes, |batch|, true) && Partition(batch, failures, |batch|, false)
  {
    successes, failures := [], [];
    for i := 0 to |batch|
      invariant Partition(batch, successes, i, true) && Partition(batch, failures, i, false)
    {
      if batch[i].outcome.Succeeded? {
        successes := successes + [i];
      } else {
        failures := failures + [i];
      }
    }
  }

  method StaleJobs(t: Executions, now: Millis) returns (stale: seq<JobId>)
    ensures forall i, k :: 0 <= i < k < |stale| ==> stale[i] != stale[k]
    ensures forall j :: j in stale <==> j in t && Stale(t[j], now)
  {
    stale := [];
    var todo := t.Keys;
    while todo != {}
      invariant todo <= t.Keys
      invariant forall j :: j in stale <==> j in t && j !in todo && Stale(t[j], now)
      invariant forall i, k :: 0 <= i < k < |stale| ==> stale[i] != stale[k]
      decreases |todo|
    {
      var j := Pick(todo);
      if Stale(t[j], now) {
        stale := stale + [j];
      }
      todo := todo - {j};
    }
  }

  method RecoverRows(t: Executions, queues: Queues, now: Millis) returns (u: Executions, recovered: seq<Recovered>)
    ensures u == Recover(t, now)
    ensures RecoveryReport(t, queues, now, recovered)
  {
    recovered := [];
    u := t;
    var stale := StaleJobs(t, now);
    for i := 0 to |stale|
      invariant |recovered| == i
      invariant forall k :: 0 <= k < i ==> stale[k] in t && recovered[k] == RecoveredOf(t, queues, stale[k])
      invariant RecoveredUpTo(t, now, stale, i, u)
    {
      var j := stale[i];
      assert j in stale;
      recovered := recovered + [RecoveredOf(t, queues, j)];
      u := u[j := Fail(u[j], "lease expired")];
    }
    AllRecovered(t, now, stale, u);
    AllReported(t, queues, now, stale, recovered);
  }

  /** The first `n` stale rows are failed, and no others are touched. */
  ghost predicate RecoveredUpTo(t: Executions, now: Millis, stale: seq<JobId>, n: nat, u: Executions)
    requires n <= |stale|
  {
    && u.Keys == t.Keys
    && (forall k :: 0 <= k < n && stale[k] in t ==> u[stale[k]] == RecoverRow(t[stale[k]], now))
    && (forall j :: j in t && (forall k :: 0 <= k < n ==> stale[k] != j) ==> u[j] == t[j])
  }

  lemma AllRecovered(t: Executions, now: Millis, stale: seq<JobId>, u: Executions)
    requires RecoveredUpTo(t, now, stale, |stale|, u) && forall j :: j in stale <==> j in t && Stale(t[j], now)
    ensures u == Recover(t, now)
  {
    forall j | j in t ensures u[j] == Recover(t, now)[j] {
      if j in stale {
        var k :| 0 <= k < |stale| && stale[k] == j;
      }
    }
  }

  lemma AllReported(t: Executions, queues: Queues, now: Millis, stale: seq<JobId>, recovered: seq<Recovered>)
    requires forall i, k :: 0 <= i < k < |stale| ==> stale[i] != stale[k]
    requires forall j :: j in stale <==> j in t && Stale(t[j], now)
    requires |recovered| == |stale|
    requires forall k :: 0 <= k < |stale| ==> stale[k] in t && recovered[k] == RecoveredOf(t, queues, stale[k])
    ensures RecoveryReport(t, queues, now, recovered)
  {
    forall j | j in t && Stale(t[j], now) ensures RecoveredOf(t, queues, j) in recovered {
      assert j in stale;
      var k :| 0 <= k < |stale| && stale[k] == j;
      assert recovered[k] == RecoveredOf(t, queues, j);
    }
    forall i | 0 <= i < |recovered| ensures recovered[i].jobId in t && Stale(t[recovered[i].jobId], now) {
      assert stale[i] in stale;
    }
  }

  /** Each stale row is reported exactly once, with its dispatch id and its retry decision. */
  ghost predicate RecoveryReport(t: Executions, queues: Queues, now: Millis, recovered: seq<Recovered>) {
    && (forall i, k :: 0 <= i < k < |recovered| ==> recovered[i].jobId != recovered[k].jobId)
    && (forall i :: 0 <= i < |recovered| ==> recovered[i].jobId in t && Stale(t[recovered[i].jobId], now))
    && (forall i :: 0 <= i < |recovered| && recovered[i].jobId in t ==>
          recovered[i] == RecoveredOf(t, queues, recovered[i].jobId))
    && (forall j :: j in t && Stale(t[j], now) ==> RecoveredOf(t, queues, j) in recovered)
  }

  function RecoveredOf(t: Executions, queues: Queues, j: JobId): Recovered
    requires j in t
  {
    Recovered(j, t[j].dispatchId, Retryable(queues, t[j]))
  }

  class Conn {
    var executions: Executions
    var queues: Queues

    /** The foreign key from `executions.queue_name`. */
    ghost predicate Valid()
      reads this
    {
      forall j :: j in executions ==> executions[j].queueName in queues
    }

    constructor ()
      ensures Valid() && executions == map[] && queues == map[]
    {
      executions, queues := map[], map[];
    }

    method UpsertQueue(queue: JobQueue)
      requires Valid()
      modifies this
      ensures Valid()
      ensures executions == old(executions) && queues == old(queues)[queue.name := queue]
    {
      queues := queues[queue.name := queue];
    }

    /** Either the whole batch rolls back, or it commits; and once committed, the batch is answered
        row for row exactly when every row met a job it could dispatch. */
    method DispatchBatch(rows: seq<DispatchInsert>) returns (r: Result<seq<Dispatched>>)
      requires Valid()
      modifies this`executions
      ensures Valid()
      ensures match DispatchTx(old(executions), queues, rows)
        case None => r.Err? && executions == old(executions)
        case Some(t) => executions == t && (r.Ok? <==> AllDispatchable(old(executions), rows))
      ensures r.Ok? ==> |r.value| == |rows| && forall i :: 0 <= i < |rows| ==>
        && rows[i].jobId in executions
        && r.value[i] == Dispatched(rows[i].jobId, executions[rows[i].jobId].executionCount,
                                    rows[i].dispatchId, rows[i].leaseExpiresAt)
    {
      if rows == [] {
        return Ok([]);
      }
      var t := executions;
      var byJob: map<JobId, Dispatched> := map[];
      var start := 0;
      assert rows[..0] == [];
      while start < |rows|
        invariant 0 <= start <= |rows|
        invariant executions == old(executions) && Upserted(executions, queues, rows, start, t, byJob)
      {
        var end := if start + ROWS_PER_STATEMENT < |rows| then start + ROWS_PER_STATEMENT else |rows|;
        var ok;
        ok, t, byJob := UpsertStatement(executions, queues, rows, start, end, t, byJob);
        if !ok {
          PrefixAborts(executions, queues, rows, end);
          return Err(Internal("dispatch rolled back"));
        }
        start := end;
      }
      assert rows[..start] == rows;
      executions := t;
      r := AnswerRows(rows, byJob);
    }

    /** One pass over the items of one kind, 256 to a statement: the successes, or the failures. */
    method RunPass(t: Executions, batch: seq<Completion>, idx: seq<nat>, succeeded: bool, was: seq<Disposition>)
      returns (u: Executions, disp: seq<Disposition>)
      requires |was| == |batch| && Partition(batch, idx, |batch|, succeeded)
      ensures PassDone(t, queues, batch, idx, |idx|, was, disp, u)
    {
      u, disp := t, was;
      var p := 0;
      while p < |idx|
        invariant 0 <= p <= |idx| && (p % ROWS_PER_STATEMENT == 0 || p == |idx|)
        invariant PassDone(t, queues, batch, idx, p, was, disp, u)
      {
        var q := if p + ROWS_PER_STATEMENT < |idx| then p + ROWS_PER_STATEMENT else |idx|;
        var chunk := seq(q - p, k requires 0 <= k < q - p => batch[idx[p + k]]);
        var v, updated := UpdateStatement(u, chunk);
        assert forall k :: p <= k < q ==> chunk[k - p] == batch[idx[k]];
        var disp' := AnswerChunk(u, queues, batch, idx, succeeded, p, q, updated, disp);
        PassStep(t, queues, batch, idx, succeeded, p, q, was, disp, u, chunk, disp', v);
        u, disp, p := v, disp', q;
      }
    }

    method CompleteBatch(batch: seq<Completion>) returns (disp: seq<Disposition>)
      requires Valid()
      modifies this`executions
      ensures Valid()
      ensures CompleteTx(old(executions), queues, batch, executions, disp)
    {
      var none := seq(|batch|, i => Ignored);
      var successes, failures := SplitBatch(batch);
      var u, disp1 := RunPass(executions, batch, successes, true, none);
      var v, disp2 := RunPass(u, batch, failures, false, disp1);
      TwoPasses(executions, queues, batch, successes, failures, none, u, disp1, v, disp2);
      executions, disp := v, disp2;
      forall j | j in executions ensures executions[j].queueName in queues {
        CompletedRow(old(executions), queues, batch, executions, disp, j);
      }
    }

    method AbandonAttempt(j: JobId, d: DispatchId)
      requires Valid()
      modifies this`executions
      ensures Valid()
      ensures executions == Abandon(old(executions), j, d) && executions.Keys == old(executions).Keys
      ensures forall k :: k in executions ==>
        var e := old(executions)[k];
        executions[k]
          == if k == j && e.dispatchId == d && e.status == Running
             then e.(status := Failed, leaseExpiresAt := None, resultError := Some("abandoned")) else e
    {
      if j in executions && executions[j].dispatchId == d && executions[j].status == Running {
        executions := executions[j := Fail(executions[j], "abandoned")];
      }
    }

    /** Fails every running row whose lease has passed, and reports each of them once with its
        retry decision. */
    method RecoverStale(now: Millis) returns (recovered: seq<Recovered>)
      requires Valid()
      modifies this`executions
      ensures Valid()
      ensures executions == Recover(old(executions), now)
      ensures RecoveryReport(old(executions), queues, now, recovered)
      ensures forall i :: 0 <= i < |recovered| ==>
        var item := recovered[i];
        item.jobId in old(executions) &&
        var e := old(executions)[item.jobId];
        && e.status == Running && e.leaseExpiresAt.Some? && e.leaseExpiresAt.value < now
        && item.dispatchId == e.dispatchId
        && (item.shouldRepend <==> e.executionCount <= queues[e.queueName].maxRetries)
        && executions[item.jobId]
           == e.(status := Failed, leaseExpiresAt := None, resultError := Some("lease expired"))
    {
      var u;
      u, recovered := RecoverRows(executions, queues, now);
      executions := u;
    }
  }

  /** What `by_job` holds after the first `n` rows of a dispatch. */
  ghost predicate Produced(t0: Executions, rows: seq<DispatchInsert>, n: nat, t: Executions,
                           byJob: map<JobId, Dispatched>)
    requires n <= |rows|
  {
    && (forall j :: j in byJob ==> j in t && t[j].status == Running)
    && (forall j :: j in byJob && j in t ==> byJob[j].jobId == j && byJob[j].executionCount == t[j].executionCount)
    && (DistinctJobs(rows) ==> forall i :: n <= i < |rows| ==> rows[i].jobId !in byJob)
    && (forall j :: j in byJob ==> j !in t0 || t0[j].status in {Failed, Pending})
    && (forall i :: 0 <= i < n && Upserts(t0, rows[i]) ==> rows[i].jobId in byJob)
    && (forall j :: j !in byJob ==> (j in t <==> j in t0) && (j in t ==> t[j] == t0[j]))
    && (DistinctJobs(rows) ==> forall i :: 0 <= i < n && rows[i].jobId in byJob ==>
          && byJob[rows[i].jobId].dispatchId == rows[i].dispatchId
          && byJob[rows[i].jobId].leaseExpiresAt == rows[i].leaseExpiresAt)
  }

  lemma {:induction false} PrefixAborts(t: Executions, queues: Queues, rows: seq<DispatchInsert>, n: nat)
    requires n <= |rows| && DispatchTx(t, queues, rows[..n]).None?
    ensures DispatchTx(t, queues, rows).None?
    decreases |rows| - n
  {
    if n < |rows| {
      assert rows[..n + 1][..n] == rows[..n];
      PrefixAborts(t, queues, rows, n + 1);
    } else {
      assert rows[..n] == rows;
    }
  }

  /** Between the passes a key is still fenced exactly when no success of the batch used it. */
  lemma FencedBetween(t: Executions, queues: Queues, batch: seq<Completion>, successes: seq<nat>,
                      none: seq<Disposition>, u: Executions, disp1: seq<Disposition>, c: Completion)
    requires Partition(batch, successes, |batch|, true)
    requires PassDone(t, queues, batch, successes, |successes|, none, disp1, u)
    ensures Fenced(u, c) <==> Fenced(t, c) && !HasSuccess(batch, c)
    ensures Fenced(u, c) ==> u[c.jobId] == t[c.jobId]
  {
    StillFenced(t, queues, batch, successes, |successes|, none, disp1, u, c);
    if HasSuccess(batch, c) {
      var k :| 0 <= k < |batch| && batch[k].outcome.Succeeded? && SameKey(batch[k], c);
      assert successes[Rank(batch, k)] == k;
    }
  }

  /** A success pass followed by a failure pass is the whole completion transaction. */
  lemma TwoPasses(t: Executions, queues: Queues, batch: seq<Completion>, successes: seq<nat>, failures: seq<nat>,
                  none: seq<Disposition>, u: Executions, disp1: seq<Disposition>, v: Executions,
                  disp2: seq<Disposition>)
    requires Partition(batch, successes, |batch|, true) && Partition(batch, failures, |batch|, false)
    requires |none| == |batch| && forall i :: 0 <= i < |batch| ==> none[i] == Ignored
    requires PassDone(t, queues, batch, successes, |successes|, none, disp1, u)
    requires PassDone(u, queues, batch, failures, |failures|, disp1, disp2, v)
    ensures CompleteTx(t, queues, batch, v, disp2)
  {
    forall i | 0 <= i < |batch| ensures disp2[i] == DispositionOf(t, queues, batch, i) {
      if batch[i].outcome.Succeeded? {
        assert successes[Rank(batch, i)] == i;
        assert disp1[i] == PassDisposition(t, queues, batch, i);
        forall k | 0 <= k < |failures| ensures failures[k] != i {}
      } else {
        FencedBetween(t, queues, batch, successes, none, u, disp1, batch[i]);
        assert failures[Rank(batch, i)] == i;
        assert disp2[i] == PassDisposition(u, queues, batch, i);
      }
    }
    forall j | j in t ensures RowAfter(t, batch, disp2, j, v[j]) {
      if k :| 0 <= k < |batch| && batch[k].jobId == j && Fenced(t, batch[k]) && batch[k].outcome.Succeeded? {
        SucceededRow(t, queues, batch, successes, failures, none, u, disp1, v, disp2, k);
      } else {
        FailedRow(t, queues, batch, successes, failures, none, u, disp1, v, disp2, j);
      }
    }
  }

  lemma SucceededRow(t: Executions, queues: Queues, batch: seq<Completion>, successes: seq<nat>, failures: seq<nat>,
                     none: seq<Disposition>, u: Executions, disp1: seq<Disposition>, v: Executions,
                     disp2: seq<Disposition>, k: nat)
    requires Partition(batch, successes, |batch|, true) && Partition(batch, failures, |batch|, false)
    requires PassDone(t, queues, batch, successes, |successes|, none, disp1, u)
    requires PassDone(u, queues, batch, failures, |failures|, disp1, disp2, v)
    requires k < |batch| && Fenced(t, batch[k]) && batch[k].outcome.Succeeded?
    ensures RowAfter(t, batch, disp2, batch[k].jobId, v[batch[k].jobId])
  {
    var j := batch[k].jobId;
    assert RowAfterPass(t, batch, successes, |successes|, disp1, j, u[j]);
    assert RowAfterPass(u, batch, failures, |failures|, disp2, j, v[j]);
    assert successes[Rank(batch, k)] == k;
    var m :| 0 <= m < |successes| && batch[successes[m]].jobId == j && Fenced(t, batch[successes[m]])
      && disp1[successes[m]] != Ignored && u[j] == Finish(t[j], batch[successes[m]].outcome);
    var i := successes[m];
    forall p | 0 <= p < |failures| ensures failures[p] != i {}
    assert u[j].status == Completed;
    assert v[j] == u[j];
    assert batch[i].outcome.Succeeded? && disp2[i] != Ignored && v[j] == Complete(t[j], batch[i].outcome.payload);
  }

  lemma FailedRow(t: Executions, queues: Queues, batch: seq<Completion>, successes: seq<nat>, failures: seq<nat>,
                  none: seq<Disposition>, u: Executions, disp1: seq<Disposition>, v: Executions,
                  disp2: seq<Disposition>, j: JobId)
    requires Partition(batch, successes, |batch|, true) && Partition(batch, failures, |batch|, false)
    requires PassDone(t, queues, batch, successes, |successes|, none, disp1, u)
    requires PassDone(u, queues, batch, failures, |failures|, disp1, disp2, v)
    requires j in t
    requires forall k :: 0 <= k < |batch| && batch[k].jobId == j && Fenced(t, batch[k]) ==> !batch[k].outcome.Succeeded?
    ensures RowAfter(t, batch, disp2, j, v[j])
  {
    assert RowAfterPass(t, batch, successes, |successes|, disp1, j, u[j]);
    assert RowAfterPass(u, batch, failures, |failures|, disp2, j, v[j]);
    assert u[j] == t[j];
    if k :| 0 <= k < |batch| && batch[k].jobId == j && Fenced(t, batch[k]) {
      assert failures[Rank(batch, k)] == k && Fenced(u, batch[k]);
      var m :| 0 <= m < |failures| && batch[failures[m]].jobId == j && Fenced(u, batch[failures[m]])
        && disp2[failures[m]] != Ignored && v[j] == Finish(u[j], batch[failures[m]].outcome);
      var i := failures[m];
      assert Fenced(t, batch[i]) && batch[i].outcome.Crashed? && v[j] == Fail(t[j], batch[i].outcome.message);
    }
  }
}
