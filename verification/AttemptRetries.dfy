/** What giving up on a job means: its retries really are used up, and no other job is left behind. */
module AttemptRetries {
  import opened Types
  import opened AttemptProtocol
  import opened AttemptInvariant
  import opened AttemptRuns
  import R = ResultsTable

  ghost predicate PoliciesAtLeast(events: seq<Event>, m: nat) {
    forall i :: 0 <= i < |events| && events[i].UpsertIngest? ==> events[i].queue.maxRetries >= m
  }

  ghost predicate QueuesAtLeast(s: State, m: nat) {
    && (forall q :: q in s.queues ==> s.queues[q].maxRetries >= m)
    && (forall op :: op in s.pending && op.UpsertNext? ==> op.queue.maxRetries >= m)
  }

  /** An id given up on was dispatched, so it is never dispatched again. */
  ghost predicate ExhaustedIsOver(s: State) {
    forall d :: d in s.exhausted ==> d in s.issued && !Awaiting(s, d)
  }

  /** An execution given up on was attempted more often than `m` retries allow. */
  ghost predicate Tried(s: State, m: nat, j: JobId)
    requires j in s.executions
  {
    s.executions[j].dispatchId in s.exhausted ==> s.executions[j].executionCount > m
  }

  ghost predicate Patient(s: State, m: nat) {
    && QueuesAtLeast(s, m) && R.QueuesKnown(s.executions, s.queues) && ExhaustedIsOver(s)
    && (forall j :: j in s.executions ==> Tried(s, m, j))
  }

  // ------------------------------------------------------------- policies

  lemma SamePolicies(s: State, s': State, m: nat)
    requires QueuesAtLeast(s, m) && s'.queues == s.queues
    requires forall op :: op in s'.pending ==> op in s.pending || !op.UpsertNext?
    ensures QueuesAtLeast(s', m)
  {
  }

  lemma DispatchKeepsPolicies(s: State, op: Op, tx: Option<R.Executions>, answered: bool, m: nat)
    requires QueuesAtLeast(s, m) && op.AfterClaim?
    ensures QueuesAtLeast(Settled(s, op, tx, answered), m) && Settled(s, op, tx, answered).queues == s.queues
  {
    SamePolicies(s, Settled(s, op, tx, answered), m);
  }

  lemma EndingKeepsPolicies(s: State, e: Event, m: nat)
    requires Enabled(s, e) && QueuesAtLeast(s, m) && (e.Complete? || e.RecoverStale? || e.Abandon? || e.Repend?)
    ensures QueuesAtLeast(After(s, e), m) && After(s, e).queues == s.queues
  {
    SamePolicies(s, After(s, e), m);
  }

  lemma UpsertKeepsPolicies(s: State, e: Event, m: nat)
    requires Enabled(s, e) && QueuesAtLeast(s, m) && (e.UpsertIngest? || e.UpsertResults?)
    requires e.UpsertIngest? ==> e.queue.maxRetries >= m
    ensures QueuesAtLeast(After(s, e), m) && forall q :: q in s.queues ==> q in After(s, e).queues
  {
  }

  lemma RestKeepsPolicies(s: State, e: Event, m: nat)
    requires Enabled(s, e) && QueuesAtLeast(s, m)
    requires e.Enqueue? || e.Claim? || e.StartRelease? || e.StartRead? || e.FinishRead? || e.Crash? || e.Reopen?
    ensures QueuesAtLeast(After(s, e), m) && After(s, e).queues == s.queues
  {
    SamePolicies(s, After(s, e), m);
  }

  lemma KeepsPolicies(s: State, e: Event, m: nat)
    requires Enabled(s, e) && QueuesAtLeast(s, m) && (e.UpsertIngest? ==> e.queue.maxRetries >= m)
    ensures QueuesAtLeast(After(s, e), m) && forall q :: q in s.queues ==> q in After(s, e).queues
  {
    if e.Dispatch? {
      var tx := if e.fails then None else R.DispatchTx(s.executions, s.queues, e.op.rows);
      DispatchKeepsPolicies(s, e.op, tx, R.AllDispatchable(s.executions, e.op.rows), m);
    } else if e.Complete? || e.RecoverStale? || e.Abandon? || e.Repend? {
      EndingKeepsPolicies(s, e, m);
    } else if e.UpsertIngest? || e.UpsertResults? {
      UpsertKeepsPolicies(s, e, m);
    } else {
      RestKeepsPolicies(s, e, m);
    }
  }

  // ------------------------------------------------------------ executions

  lemma DispatchKeepsKnown(s: State, op: Op, fails: bool)
    requires op.AfterClaim? && R.QueuesKnown(s.executions, s.queues)
    ensures R.QueuesKnown(AfterDispatch(s, op, fails).executions, s.queues)
  {
    if R.DispatchTx(s.executions, s.queues, op.rows).Some? {
      R.DispatchKeepsQueuesKnown(s.executions, s.queues, op.rows);
    }
  }

  /** An ending changes neither the id, the count nor the queue of a row. */
  lemma EndingKeepsRow(s: State, e: Event, j: JobId)
    requires Enabled(s, e) && (e.Complete? || e.RecoverStale? || e.Abandon?) && j in After(s, e).executions
    ensures j in s.executions
    ensures var x, y := s.executions[j], After(s, e).executions[j];
      x.dispatchId == y.dispatchId && x.executionCount == y.executionCount && x.queueName == y.queueName
  {
    if e.Complete? {
      R.CompletedRow(s.executions, s.queues, e.batch, e.after, e.disp, j);
    }
  }

  lemma KeepsKnown(s: State, e: Event, m: nat)
    requires Enabled(s, e) && R.QueuesKnown(s.executions, s.queues) && QueuesAtLeast(s, m)
    requires e.UpsertIngest? ==> e.queue.maxRetries >= m
    ensures R.QueuesKnown(After(s, e).executions, After(s, e).queues)
  {
    KeepsPolicies(s, e, m);
    if e.Dispatch? {
      DispatchKeepsKnown(s, e.op, e.fails);
    } else if e.Complete? || e.RecoverStale? || e.Abandon? {
      forall j | j in After(s, e).executions ensures After(s, e).executions[j].queueName in s.queues {
        EndingKeepsRow(s, e, j);
      }
    } else {
      ExecutionsUntouched(s, e);
    }
  }

  // ------------------------------------------------------------- giving up

  /** Where a newly given up id comes from: a running execution whose retries are used up. */
  ghost predicate GivenUp(s: State, d: DispatchId, m: nat) {
    exists j :: j in s.executions && s.executions[j].dispatchId == d && s.executions[j].executionCount > m
  }

  lemma GivesUp(s: State, e: Event, d: DispatchId, m: nat)
    requires Enabled(s, e) && QueuesAtLeast(s, m) && R.QueuesKnown(s.executions, s.queues)
    requires (e.Complete? || e.RecoverStale?) && d in After(s, e).exhausted && d !in s.exhausted
    ensures GivenUp(s, d, m)
  {
    if e.Complete? {
      var i :| 0 <= i < |e.batch| && e.disp[i] == R.Finished && e.batch[i].outcome.Crashed?
        && e.batch[i].dispatchId == d;
      R.FinalRow(s.executions, s.queues, e.batch, e.after, e.disp, i);
      assert s.executions[e.batch[i].jobId].dispatchId == d;
    } else {
      var j :| j in s.executions && R.Stale(s.executions[j], e.now) && !R.Retryable(s.queues, s.executions[j])
        && s.executions[j].dispatchId == d;
      assert s.executions[j].queueName in s.queues;
    }
  }

  lemma OnlyEndingsGiveUp(s: State, e: Event)
    requires Enabled(s, e) && !e.Complete? && !e.RecoverStale? && !e.Dispatch?
    ensures After(s, e).exhausted == s.exhausted
  {
  }

  lemma DispatchGivesUpNothing(s: State, op: Op, tx: Option<R.Executions>, answered: bool)
    requires op.AfterClaim?
    ensures Settled(s, op, tx, answered).exhausted == s.exhausted
  {
  }

  lemma NewlyGivenUp(s: State, e: Event, d: DispatchId, m: nat)
    requires Enabled(s, e) && QueuesAtLeast(s, m) && R.QueuesKnown(s.executions, s.queues)
    requires d in After(s, e).exhausted && d !in s.exhausted
    ensures (e.Complete? || e.RecoverStale?) && GivenUp(s, d, m)
  {
    if e.Complete? || e.RecoverStale? {
      GivesUp(s, e, d, m);
    } else if e.Dispatch? {
      var tx := if e.fails then None else R.DispatchTx(s.executions, s.queues, e.op.rows);
      DispatchGivesUpNothing(s, e.op, tx, R.AllDispatchable(s.executions, e.op.rows));
    } else {
      OnlyEndingsGiveUp(s, e);
    }
  }

  lemma KeepsExhaustedOver(s: State, e: Event, d: DispatchId, m: nat)
    requires Inv(s) && Enabled(s, e) && Patient(s, m) && d in After(s, e).exhausted
    ensures d in After(s, e).issued && !Awaiting(After(s, e), d)
  {
    if d !in s.exhausted {
      NewlyGivenUp(s, e, d, m);
      var j :| j in s.executions && s.executions[j].dispatchId == d;
      assert Owns(s, j, d);
    }
    NotAwaitingAgain(s, e, d);
  }

  /** A row a dispatch has written carries an id nobody has given up on. */
  lemma NewAttemptIsNotGivenUp(s: State, op: Op, s': State, j: JobId)
    requires Inv(s) && op in s.pending && op.AfterClaim? && ExhaustedIsOver(s)
    requires R.Dispatches(s.executions, op.rows, s'.executions)
    requires s' == s.(executions := s'.executions, pending := s.pending - {op})
    requires j in s'.executions && !(j in s.executions && s'.executions[j] == s.executions[j])
    ensures s'.executions[j].dispatchId !in s.exhausted
  {
    CommittedRows(s, op, s');
    var i :| 0 <= i < |op.rows| && op.rows[i].jobId == j;
    assert NewAttempt(s, op, s', i) && Awaiting(s, op.rows[i].dispatchId);
  }

  lemma SettledKeepsTried(s: State, op: Op, tx: Option<R.Executions>, answered: bool, m: nat, j: JobId)
    requires op.AfterClaim? && j in s.executions && Tried(s, m, j)
    requires tx.Some? ==> j in tx.value && tx.value[j] == s.executions[j]
    ensures Tried(Settled(s, op, tx, answered), m, j)
  {
  }

  lemma CommitKeepsTried(s: State, op: Op, tx: Option<R.Executions>, m: nat, j: JobId)
    requires Inv(s) && op in s.pending && op.AfterClaim? && Patient(s, m)
    requires tx == R.DispatchTx(s.executions, s.queues, op.rows) && tx.Some?
    requires j in tx.value && !(j in s.executions && tx.value[j] == s.executions[j])
    ensures Tried(Settled(s, op, tx, R.AllDispatchable(s.executions, op.rows)), m, j)
  {
    ClaimIsDispatchable(s, op);
    R.DispatchTxPointwise(s.executions, s.queues, op.rows);
    NewAttemptIsNotGivenUp(s, op, s.(executions := tx.value, pending := s.pending - {op}), j);
    DispatchGivesUpNothing(s, op, tx, R.AllDispatchable(s.executions, op.rows));
  }

  lemma DispatchKeepsTried(s: State, op: Op, tx: Option<R.Executions>, m: nat, j: JobId)
    requires Inv(s) && op in s.pending && op.AfterClaim? && Patient(s, m)
    requires tx.None? || tx == R.DispatchTx(s.executions, s.queues, op.rows)
    requires j in Settled(s, op, tx, R.AllDispatchable(s.executions, op.rows)).executions
    ensures Tried(Settled(s, op, tx, R.AllDispatchable(s.executions, op.rows)), m, j)
  {
    if tx.None? || (j in s.executions && tx.value[j] == s.executions[j]) {
      SettledKeepsTried(s, op, tx, R.AllDispatchable(s.executions, op.rows), m, j);
    } else {
      CommitKeepsTried(s, op, tx, m, j);
    }
  }

  lemma EndingKeepsTried(s: State, e: Event, m: nat, j: JobId)
    requires Inv(s) && Enabled(s, e) && Patient(s, m) && (e.Complete? || e.RecoverStale? || e.Abandon?)
    requires j in After(s, e).executions
    ensures Tried(After(s, e), m, j)
  {
    EndingKeepsRow(s, e, j);
    assert Tried(s, m, j);
    var d := s.executions[j].dispatchId;
    if d in After(s, e).exhausted && d !in s.exhausted {
      NewlyGivenUp(s, e, d, m);
      var k :| k in s.executions && s.executions[k].dispatchId == d && s.executions[k].executionCount > m;
      assert Owns(s, j, d) && Owns(s, k, d);
    }
  }

  lemma KeepsTried(s: State, e: Event, m: nat, j: JobId)
    requires Inv(s) && Enabled(s, e) && Patient(s, m) && j in After(s, e).executions
    ensures Tried(After(s, e), m, j)
  {
    if e.Dispatch? {
      var tx := if e.fails then None else R.DispatchTx(s.executions, s.queues, e.op.rows);
      DispatchKeepsTried(s, e.op, tx, m, j);
    } else if e.Complete? || e.RecoverStale? || e.Abandon? {
      EndingKeepsTried(s, e, m, j);
    } else {
      ExecutionsUntouched(s, e);
      OnlyEndingsGiveUp(s, e);
      assert Tried(s, m, j);
    }
  }

  lemma KeepsPatient(s: State, e: Event, m: nat)
    requires Inv(s) && Enabled(s, e) && Patient(s, m) && (e.UpsertIngest? ==> e.queue.maxRetries >= m)
    ensures Patient(After(s, e), m)
  {
    var s' := After(s, e);
    KeepsPolicies(s, e, m);
    KeepsKnown(s, e, m);
    forall d | d in s'.exhausted ensures d in s'.issued && !Awaiting(s', d) {
      KeepsExhaustedOver(s, e, d, m);
    }
    forall j | j in s'.executions ensures Tried(s', m, j) {
      KeepsTried(s, e, m, j);
    }
  }

  lemma {:induction false} RunIsPatient(states: seq<State>, events: seq<Event>, m: nat, i: nat)
    requires IsRun(states, events) && PoliciesAtLeast(events, m) && i < |states|
    ensures Patient(states[i], m)
  {
    if i > 0 {
      RunIsPatient(states, events, m, i - 1);
      RunKeepsInvariant(states, events, i - 1);
      KeepsPatient(states[i - 1], events[i - 1], m);
    }
  }

  // -------------------------------------------------------------- no lost jobs

  /** A job given up on: its execution failed, and it was attempted more than `m` times. */
  ghost predicate UsedUp(e: Execution, m: nat) {
    e.status == Failed && e.executionCount > m
  }

  /** No accepted job is lost: in a run without crashes whose queues all allow `m` retries or more,
      whenever no operation is in flight, every job is free to be claimed, running, completed, or failed
      after more than `m` attempts. */
  lemma NoJobIsLost(states: seq<State>, events: seq<Event>, m: nat, i: nat, j: JobId)
    requires IsRun(states, events) && forall k :: 0 <= k < |events| ==> !events[k].Crash?
    requires PoliciesAtLeast(events, m)
    requires i < |states| && states[i].pending == {} && j in states[i].accepted
    ensures var s := states[i];
      match s.accepted[j].dispatchId
      case None => j !in s.executions || s.executions[j].status == Failed
      case Some(d) =>
        && j in s.executions && s.executions[j].dispatchId == d
        && (s.executions[j].status in {Running, Completed} || UsedUp(s.executions[j], m))
  {
    var s := states[i];
    RunKeepsInvariant(states, events, i);
    RunAccountsForFailures(states, events, i, j);
    NothingStrandedWithoutCrash(states, events, i);
    RunIsPatient(states, events, m, i);
    if s.accepted[j].dispatchId.Some? {
      assert Recorded(s, j, s.accepted[j].dispatchId.value);
      assert Tried(s, m, j);
    }
  }

  /** With crashes too: a job still bound to a failed attempt has its repend in flight, lost it to a crash,
      or was attempted more than `m` times. */
  lemma GivingUpTakesEveryRetry(states: seq<State>, events: seq<Event>, m: nat, i: nat, j: JobId)
    requires IsRun(states, events) && PoliciesAtLeast(events, m) && i < |states|
    requires j in states[i].accepted && j in states[i].executions
    requires RecordedInResults(states[i], j) && states[i].executions[j].status == Failed
    ensures var s, d := states[i], states[i].executions[j].dispatchId;
      RependPending(s, j, d) || d in s.stranded || s.executions[j].executionCount > m
  {
    RunAccountsForFailures(states, events, i, j);
    RunIsPatient(states, events, m, i);
    assert Tried(states[i], m, j);
  }
}
