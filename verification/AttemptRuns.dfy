/** What the attempt protocol guarantees over whole runs. */
module AttemptRuns {
  import opened Types
  import opened AttemptProtocol
  import opened AttemptInvariant
  import R = ResultsTable
  import I = IngestTable

  lemma {:induction false} RunKeepsInvariant(states: seq<State>, events: seq<Event>, i: nat)
    requires IsRun(states, events) && i < |states|
    ensures Inv(states[i])
  {
    if i > 0 {
      RunKeepsInvariant(states, events, i - 1);
      Keeps(states[i - 1], events[i - 1]);
    }
  }

  /** A job is free without a live execution, claimed without a live execution, or bound to the
      execution that carries its dispatch id. */
  ghost predicate InPhase(s: State, j: JobId)
    requires j in s.accepted
  {
    match s.accepted[j].dispatchId
    case None => j !in s.executions || s.executions[j].status == Failed
    case Some(d) => j !in s.executions || s.executions[j].status == Failed || s.executions[j].dispatchId == d
  }

  lemma EveryJobIsInPhase(states: seq<State>, events: seq<Event>, i: nat, j: JobId)
    requires IsRun(states, events) && i < |states| && j in states[i].accepted
    ensures InPhase(states[i], j)
    ensures states[i].accepted[j].dispatchId.None? && j in states[i].executions ==>
      states[i].executions[j].status == Failed
  {
    RunKeepsInvariant(states, events, i);
  }

  ghost predicate HoldsClaim(s: State, row: R.DispatchInsert) {
    row.jobId in s.accepted && s.accepted[row.jobId].dispatchId == Some(row.dispatchId)
  }

  /** The dispatch half of a claim, whenever it comes to run: it is refused as a whole exactly for an
      unknown queue or a full counter, it never fails after its commit, and the ids it answers with
      are the ones ingest holds. */
  lemma DispatchAnswersEveryRow(states: seq<State>, events: seq<Event>, i: nat, op: Op)
    requires IsRun(states, events) && i < |states| && op in states[i].pending && op.AfterClaim?
    ensures var s := states[i];
      && R.AllDispatchable(s.executions, op.rows)
      && (R.DispatchTx(s.executions, s.queues, op.rows).Some? <==> R.RowsAccepted(s.executions, s.queues, op.rows))
      && (forall k :: 0 <= k < |op.rows| ==> HoldsClaim(s, op.rows[k]))
  {
    var s := states[i];
    RunKeepsInvariant(states, events, i);
    ClaimIsDispatchable(s, op);
    assert OpSafe(s, op);
    R.DispatchCommitsIff(s.executions, s.queues, op.rows);
  }

  // ------------------------------------------------------------------- crashes

  /** The process dies again and again, each time after healing some of the rows. */
  ghost function CrashRepeatedly(s: State, healed: seq<set<JobId>>): State {
    if healed == [] then s
    else After(CrashRepeatedly(s, healed[..|healed| - 1]), Crash(healed[|healed| - 1]))
  }

  /** Some rows may have lost their claims, all of them orphans. */
  ghost predicate OnlyOrphansFreed(t: I.Accepted, executions: R.Executions, u: I.Accepted) {
    && u.Keys == t.Keys
    && forall j :: j in t && u[j] != t[j] ==> I.Orphan(t[j], executions) && u[j] == t[j].(dispatchId := None)
  }

  lemma HealFreesOrphans(t: I.Accepted, executions: R.Executions, u: I.Accepted, healed: set<JobId>)
    requires OnlyOrphansFreed(t, executions, u)
    ensures OnlyOrphansFreed(t, executions, I.Heal(u, executions, healed))
  {
  }

  lemma OneCrash(s: State, healed: set<JobId>)
    requires Inv(s)
    ensures var c := After(s, Crash(healed));
      Inv(c) && !c.up && c.executions == s.executions && c.accepted == I.Heal(s.accepted, s.executions, healed)
  {
    KeepsHeal(s, After(s, Crash(healed)), healed);
  }

  lemma {:induction false} CrashesFreeOrphansOnly(s: State, healed: seq<set<JobId>>)
    requires Inv(s) && healed != []
    ensures var c := CrashRepeatedly(s, healed);
      Inv(c) && !c.up && c.executions == s.executions && OnlyOrphansFreed(s.accepted, s.executions, c.accepted)
    decreases |healed|
  {
    var n := |healed| - 1;
    var c := CrashRepeatedly(s, healed[..n]);
    if n > 0 {
      CrashesFreeOrphansOnly(s, healed[..n]);
    }
    OneCrash(c, healed[n]);
    HealFreesOrphans(s.accepted, s.executions, c.accepted, healed[n]);
  }

  /** From a crash at any point of any run, however often healing itself is interrupted, reopening
      leaves each job free without a live execution or bound to its execution; a claim survives
      exactly when results recorded it, and no execution changes. */
  lemma ReopeningRestoresThePhases(states: seq<State>, events: seq<Event>, i: nat, healed: seq<set<JobId>>)
    requires IsRun(states, events) && i < |states| && healed != []
    ensures var s, c := states[i], CrashRepeatedly(states[i], healed);
      && Enabled(c, Reopen)
      && var r := After(c, Reopen);
      && Inv(r) && r.pending == {} && r.executions == s.executions && r.accepted.Keys == s.accepted.Keys
      && forall j :: j in s.accepted ==> r.accepted[j] == AfterReopen(s, j)
  {
    var s := states[i];
    RunKeepsInvariant(states, events, i);
    CrashesFreeOrphansOnly(s, healed);
    var c := CrashRepeatedly(s, healed);
    Keeps(c, Reopen);
    var r := After(c, Reopen);
    forall j | j in s.accepted ensures r.accepted[j] == AfterReopen(s, j) {
      if s.accepted[j].dispatchId.Some? {
        OrphanIffUnrecorded(s, j);
      }
    }
  }

  /** The accepted row of `j` after a reopen. */
  ghost function AfterReopen(s: State, j: JobId): AcceptedJob
    requires j in s.accepted
  {
    if RecordedInResults(s, j) then s.accepted[j] else s.accepted[j].(dispatchId := None)
  }

  ghost predicate RecordedInResults(s: State, j: JobId)
    requires j in s.accepted
  {
    j in s.executions && s.accepted[j].dispatchId == Some(s.executions[j].dispatchId)
  }

  lemma OrphanIffUnrecorded(s: State, j: JobId)
    requires Inv(s) && j in s.accepted && s.accepted[j].dispatchId.Some?
    ensures I.Orphan(s.accepted[j], s.executions) <==> !RecordedInResults(s, j)
  {
    if !I.Orphan(s.accepted[j], s.executions) {
      var k :| k in s.executions && s.executions[k].dispatchId == s.accepted[j].dispatchId.value;
      assert Owns(s, k, s.executions[k].dispatchId);
    }
  }

  // -------------------------------------------------------------- no lost jobs

  /** A failed attempt its job is still bound to: its repend is in flight, its retries are used up,
      or a crash cut its repend off. */
  ghost predicate Accounted(s: State, j: JobId) {
    j in s.accepted && j in s.executions && RecordedInResults(s, j) && s.executions[j].status == Failed ==>
      var d := s.executions[j].dispatchId;
      d in s.exhausted || d in s.stranded || RependPending(s, j, d)
  }

  ghost predicate RependPending(s: State, j: JobId, d: DispatchId) {
    exists cause :: RependNext(j, d, cause) in s.pending
  }

  /** While a failed row and its binding are untouched, its account stands if its repend does. */
  lemma StillAccounted(s: State, s': State, j: JobId)
    requires Accounted(s, j)
    requires j in s.accepted && j in s.executions && j in s'.accepted && j in s'.executions
    requires s'.executions[j] == s.executions[j] && s'.accepted[j] == s.accepted[j]
    requires s.exhausted <= s'.exhausted && s.stranded <= s'.stranded
    requires forall cause :: RependNext(j, s.executions[j].dispatchId, cause) in s.pending ==>
      RependNext(j, s.executions[j].dispatchId, cause) in s'.pending
    ensures Accounted(s', j)
  {
  }

  lemma EndingIsAccounted(s: State, e: Event, j: JobId)
    requires Inv(s) && Enabled(s, e) && (e.Complete? || e.RecoverStale? || e.Abandon?)
    requires j in s.executions && After(s, e).executions[j] != s.executions[j]
    ensures Accounted(After(s, e), j)
  {
    var d := s.executions[j].dispatchId;
    match e
    case Complete(batch, after, disp) =>
      R.CompletedRow(s.executions, s.queues, batch, after, disp, j);
      var k :| 0 <= k < |batch| && batch[k].jobId == j && batch[k].dispatchId == d
        && R.Decides(s.executions, s.queues, batch[k], after[j], disp[k]);
      assert disp[k] == R.Repend ==> RependNext(j, d, Retry) in RependsOf(batch, disp);
      assert disp[k] == R.Finished && batch[k].outcome.Crashed? ==> d in FinalFailures(batch, disp);
    case RecoverStale(now) =>
      assert R.Retryable(s.queues, s.executions[j]) ==>
        RependNext(j, d, Retry) in RecoveryRepends(s.executions, s.queues, now);
      assert !R.Retryable(s.queues, s.executions[j]) ==> d in RecoveryFinal(s.executions, s.queues, now);
    case Abandon(op, keep) =>
      assert RependNext(j, d, Release) in After(s, e).pending;
  }

  lemma EndingKeepsAccounts(s: State, e: Event, j: JobId)
    requires Inv(s) && Enabled(s, e) && Accounted(s, j) && (e.Complete? || e.RecoverStale? || e.Abandon?)
    ensures Accounted(After(s, e), j)
  {
    var s' := After(s, e);
    if j in s.executions {
      if s'.executions[j] != s.executions[j] {
        EndingIsAccounted(s, e, j);
      } else {
        StillAccounted(s, s', j);
      }
    }
  }

  lemma CrashKeepsAccounts(s: State, e: Event, j: JobId)
    requires Inv(s) && Enabled(s, e) && Accounted(s, j) && (e.Crash? || e.Reopen?)
    ensures Accounted(After(s, e), j)
  {
    if j in s.executions && RependPending(s, j, s.executions[j].dispatchId) {
      var cause :| RependNext(j, s.executions[j].dispatchId, cause) in s.pending;
      assert s.executions[j].dispatchId in LostRepends(s.pending);
    }
  }

  /** A claim or a repend moves a job's binding off its failed attempt, or leaves it alone. */
  lemma RebindingKeepsAccounts(s: State, e: Event, j: JobId)
    requires Inv(s) && Enabled(s, e) && Accounted(s, j) && (e.Claim? || e.Repend?)
    ensures Accounted(After(s, e), j)
  {
    var s' := After(s, e);
    if e.Claim? {
      ClaimedRows(s, e);
    }
    if j in s.executions && RecordedInResults(s, j) && s'.accepted[j] == s.accepted[j] {
      StillAccounted(s, s', j);
    }
  }

  lemma DispatchKeepsAccounts(s: State, op: Op, fails: bool, j: JobId)
    requires Inv(s) && op in s.pending && op.AfterClaim? && Accounted(s, j)
    ensures Accounted(AfterDispatch(s, op, fails), j)
  {
    var s' := AfterDispatch(s, op, fails);
    ClaimIsDispatchable(s, op);
    DispatchLeavesRest(s, op, fails, j);
    if j in s'.executions && j in s.executions && s'.executions[j] == s.executions[j] {
      StillAccounted(s, s', j);
    }
  }

  lemma EnqueueKeepsAccounts(s: State, e: Event, j: JobId)
    requires s.executions.Keys <= s.accepted.Keys && Enabled(s, e) && Accounted(s, j) && e.Enqueue?
    ensures Accounted(After(s, e), j)
  {
    if j in s.executions {
      StillAccounted(s, After(s, e), j);
    }
  }

  lemma ReleaseKeepsAccounts(s: State, job: JobId, id: DispatchId, j: JobId)
    requires s.executions.Keys <= s.accepted.Keys && Accounted(s, j)
    ensures Accounted(AfterRelease(s, job, id), j)
  {
    if j in s.executions {
      StillAccounted(s, AfterRelease(s, job, id), j);
    }
  }

  lemma QuietKeepsAccounts(s: State, e: Event, j: JobId)
    requires s.executions.Keys <= s.accepted.Keys && Enabled(s, e) && Accounted(s, j)
    requires e.UpsertIngest? || e.UpsertResults? || e.StartRead? || e.FinishRead?
    ensures Accounted(After(s, e), j)
  {
    if j in s.executions {
      StillAccounted(s, After(s, e), j);
    }
  }

  lemma KeepsAccounted(s: State, e: Event, j: JobId)
    requires Inv(s) && Enabled(s, e) && Accounted(s, j)
    ensures Accounted(After(s, e), j)
  {
    match e
    case Complete(_, _, _) => EndingKeepsAccounts(s, e, j);
    case RecoverStale(_) => EndingKeepsAccounts(s, e, j);
    case Abandon(_, _) => EndingKeepsAccounts(s, e, j);
    case Crash(_) => CrashKeepsAccounts(s, e, j);
    case Reopen => CrashKeepsAccounts(s, e, j);
    case Dispatch(op, fails) => DispatchKeepsAccounts(s, op, fails, j);
    case Claim(_, _, _, _) => RebindingKeepsAccounts(s, e, j);
    case Repend(_, _) => RebindingKeepsAccounts(s, e, j);
    case Enqueue(_, _) => EnqueueKeepsAccounts(s, e, j);
    case StartRelease(job, id) => ReleaseKeepsAccounts(s, job, id, j);
    case _ => QuietKeepsAccounts(s, e, j);
  }

  /** A dispatch turns rows to running; a row it leaves otherwise was so before it. */
  lemma DispatchedOrSame(t: R.Executions, queues: R.Queues, rows: seq<R.DispatchInsert>, j: JobId)
    requires R.AllDispatchable(t, rows) && R.DispatchTx(t, queues, rows).Some?
    ensures var u := R.DispatchTx(t, queues, rows).value;
      j in u && u[j].status != Running ==> j in t && u[j] == t[j]
  {
    R.DispatchTxPointwise(t, queues, rows);
    var u := R.DispatchTx(t, queues, rows).value;
    if j in R.JobsOf(rows) {
      var i :| 0 <= i < |rows| && rows[i].jobId == j;
      assert u[j] == R.UpsertedRow(t, rows[i]);
    }
  }

  lemma DispatchLeavesRest(s: State, op: Op, fails: bool, j: JobId)
    requires op.AfterClaim? && R.AllDispatchable(s.executions, op.rows)
    ensures var s' := AfterDispatch(s, op, fails);
      j in s'.executions && s'.executions[j].status != Running ==>
        j in s.executions && s'.executions[j] == s.executions[j]
  {
    if R.DispatchTx(s.executions, s.queues, op.rows).Some? {
      DispatchedOrSame(s.executions, s.queues, op.rows, j);
    }
  }

  lemma {:induction false} RunAccountsForFailures(states: seq<State>, events: seq<Event>, i: nat, j: JobId)
    requires IsRun(states, events) && i < |states|
    ensures Accounted(states[i], j)
  {
    if i > 0 {
      RunAccountsForFailures(states, events, i - 1, j);
      RunKeepsInvariant(states, events, i - 1);
      KeepsAccounted(states[i - 1], events[i - 1], j);
    }
  }

  lemma DispatchStrandsNothing(s: State, op: Op, tx: Option<R.Executions>, answered: bool)
    requires op.AfterClaim?
    ensures Settled(s, op, tx, answered).stranded == s.stranded && Settled(s, op, tx, answered).up == s.up
  {
  }

  lemma OnlyCrashesStrand(s: State, e: Event)
    requires Enabled(s, e) && !e.Crash? && s.up
    ensures After(s, e).stranded == s.stranded && After(s, e).up
  {
    if e.Dispatch? {
      var tx := if e.fails then None else R.DispatchTx(s.executions, s.queues, e.op.rows);
      DispatchStrandsNothing(s, e.op, tx, R.AllDispatchable(s.executions, e.op.rows));
    } else {
      OthersStrandNothing(s, e);
    }
  }

  lemma OthersStrandNothing(s: State, e: Event)
    requires Enabled(s, e) && !e.Crash? && !e.Dispatch? && s.up
    ensures After(s, e).stranded == s.stranded && After(s, e).up
  {
  }

  lemma {:induction false} NothingStrandedWithoutCrash(states: seq<State>, events: seq<Event>, i: nat)
    requires IsRun(states, events) && i < |states| && forall k :: 0 <= k < |events| ==> !events[k].Crash?
    ensures states[i].stranded == {} && states[i].up
  {
    if i > 0 {
      NothingStrandedWithoutCrash(states, events, i - 1);
      OnlyCrashesStrand(states[i - 1], events[i - 1]);
    }
  }

  // --------------------------------------------------------------- retry bound

  ghost predicate PoliciesWithin(events: seq<Event>, m: nat) {
    forall i :: 0 <= i < |events| && events[i].UpsertIngest? ==> events[i].queue.maxRetries <= m
  }

  ghost predicate QueuesWithin(s: State, m: nat) {
    && (forall q :: q in s.queues ==> s.queues[q].maxRetries <= m)
    && (forall op :: op in s.pending && op.UpsertNext? ==> op.queue.maxRetries <= m)
  }

  /** Attempts used by `j`: within the bound, and one below it whenever the job may be dispatched again. */
  ghost predicate CountWithin(s: State, m: nat, j: JobId) {
    j in s.accepted && j in s.executions ==>
      s.executions[j].executionCount <= m + Releases(s, j) + (if RecordedInResults(s, j) then 1 else 0)
  }

  /** A repend that may free `j`: after a retry decision the count is within the policy, after a
      refused dispatch the attempt was never counted. */
  ghost predicate RependWithin(s: State, m: nat, op: Op) {
    op.RependNext? && op.job in s.executions && s.executions[op.job].dispatchId == op.id ==>
      op.cause != Rollback && (op.cause == Retry ==> s.executions[op.job].executionCount <= m)
  }

  ghost predicate Bounded(s: State, m: nat) {
    && QueuesWithin(s, m)
    && (forall j :: CountWithin(s, m, j))
    && (forall op :: op in s.pending ==> RependWithin(s, m, op))
  }

  lemma KeepsBounded(s: State, e: Event, m: nat)
    requires Inv(s) && Enabled(s, e) && Bounded(s, m)
    requires e.UpsertIngest? ==> e.queue.maxRetries <= m
    ensures Bounded(After(s, e), m)
  {
    match e
    case Dispatch(_, _) => DispatchKeepsBounded(s, e, m);
    case Complete(_, _, _) => CompleteKeepsBounded(s, e, m);
    case RecoverStale(_) => RecoverKeepsBounded(s, e, m);
    case Claim(_, _, _, _) => ClaimKeepsBounded(s, e, m);
    case Repend(_, _) => RependKeepsBounded(s, e, m);
    case Abandon(_, _) => AbandonKeepsBounded(s, e, m);
    case Crash(_) => HealKeepsBounded(s, e, m);
    case Reopen => HealKeepsBounded(s, e, m);
    case Enqueue(_, _) => EnqueueKeepsBounded(s, e, m);
    case UpsertIngest(_) => PolicyKeepsBounded(s, e, m);
    case UpsertResults(_, _) => PolicyKeepsBounded(s, e, m);
    case StartRelease(job, id) => ReleaseKeepsBounded(s, job, id, m);
    case StartRead(_) => ReadKeepsBounded(s, e, m);
    case FinishRead(_, _) => ReadKeepsBounded(s, e, m);
  }

  /** Attempts are not counted anew while no execution, no binding and no repend changes. */
  lemma SameCounts(s: State, s': State, m: nat)
    requires Bounded(s, m) && QueuesWithin(s', m) && s'.executions == s.executions && s'.releases == s.releases
    requires forall j :: j in s.executions ==> j in s.accepted && j in s'.accepted && s'.accepted[j] == s.accepted[j]
    requires forall op :: op in s'.pending && op.RependNext? ==> op in s.pending
    ensures Bounded(s', m)
  {
    forall j ensures CountWithin(s', m, j) {
      assert CountWithin(s, m, j);
    }
    forall op | op in s'.pending ensures RependWithin(s', m, op) {
      assert op in s.pending ==> RependWithin(s, m, op);
    }
  }

  lemma EnqueueKeepsBounded(s: State, e: Event, m: nat)
    requires s.executions.Keys <= s.accepted.Keys && Enabled(s, e) && Bounded(s, m) && e.Enqueue?
    ensures Bounded(After(s, e), m)
  {
    SameCounts(s, After(s, e), m);
  }

  lemma PolicyKeepsBounded(s: State, e: Event, m: nat)
    requires s.executions.Keys <= s.accepted.Keys && Enabled(s, e) && Bounded(s, m)
    requires e.UpsertResults? || (e.UpsertIngest? && e.queue.maxRetries <= m)
    ensures Bounded(After(s, e), m)
  {
    SameCounts(s, After(s, e), m);
  }

  lemma ReleaseKeepsBounded(s: State, job: JobId, id: DispatchId, m: nat)
    requires s.executions.Keys <= s.accepted.Keys && Bounded(s, m)
    ensures Bounded(AfterRelease(s, job, id), m)
  {
    SameCounts(s, AfterRelease(s, job, id), m);
  }

  lemma ReadKeepsBounded(s: State, e: Event, m: nat)
    requires s.executions.Keys <= s.accepted.Keys && Enabled(s, e) && Bounded(s, m) && (e.StartRead? || e.FinishRead?)
    ensures Bounded(After(s, e), m)
  {
    SameCounts(s, After(s, e), m);
  }

  lemma DispatchKeepsBounded(s: State, e: Event, m: nat)
    requires Inv(s) && Enabled(s, e) && Bounded(s, m) && e.Dispatch?
    ensures Bounded(After(s, e), m)
  {
    ClaimIsDispatchable(s, e.op);
    if e.fails || R.DispatchTx(s.executions, s.queues, e.op.rows).None? {
      RefusalKeepsBounded(s, e.op, m);
    } else {
      R.DispatchTxPointwise(s.executions, s.queues, e.op.rows);
      CommitKeepsBounded(s, e.op, After(s, e), m);
    }
  }

  lemma RefusalKeepsBounded(s: State, op: Op, m: nat)
    requires Inv(s) && op in s.pending && op.AfterClaim? && Bounded(s, m)
    ensures Bounded(s.(pending := s.pending - {op} + RependAll(op.rows)), m)
  {
    var s' := s.(pending := s.pending - {op} + RependAll(op.rows));
    ClaimIsDispatchable(s, op);
    forall j ensures CountWithin(s', m, j) {
      assert CountWithin(s, m, j);
    }
    forall x | x in s'.pending ensures RependWithin(s', m, x) {
      if x in RependAll(op.rows) {
        var i :| 0 <= i < |op.rows| && x == RependNext(op.rows[i].jobId, op.rows[i].dispatchId, Rollback);
      } else {
        assert RependWithin(s, m, x);
      }
    }
  }

  lemma CommitKeepsBounded(s: State, op: Op, s': State, m: nat)
    requires Inv(s) && op in s.pending && op.AfterClaim? && Bounded(s, m)
    requires R.AllDispatchable(s.executions, op.rows) && R.Dispatches(s.executions, op.rows, s'.executions)
    requires s' == s.(executions := s'.executions, pending := s.pending - {op}, handed := s'.handed)
    ensures Bounded(s', m)
  {
    CommittedRows(s, op, s');
    forall j ensures CountWithin(s', m, j) {
      assert CountWithin(s, m, j);
      CountAcrossDispatch(s, op, s', m, j);
    }
    forall x | x in s'.pending ensures RependWithin(s', m, x) {
      assert RependWithin(s, m, x) && OpSafe(s, x);
      if x.RependNext? && x.job in s'.executions && s'.executions[x.job].dispatchId == x.id {
        forall i | 0 <= i < |op.rows| ensures op.rows[i].dispatchId != x.id {
          assert NewAttempt(s, op, s', i);
        }
        assert forall i :: 0 <= i < |op.rows| ==> NewAttempt(s, op, s', i);
      }
    }
  }

  lemma CountAcrossDispatch(s: State, op: Op, s': State, m: nat, j: JobId)
    requires Inv(s) && CountWithin(s, m, j) && op in s.pending && op.AfterClaim?
    requires R.AllDispatchable(s.executions, op.rows) && R.Dispatches(s.executions, op.rows, s'.executions)
    requires s'.issued == s.issued && s'.pending == s.pending - {op} && s'.accepted == s.accepted
    requires s'.releases == s.releases
    ensures CountWithin(s', m, j)
  {
    CommittedRows(s, op, s');
    if j in s'.executions && !(j in s.executions && s'.executions[j] == s.executions[j]) {
      var i :| 0 <= i < |op.rows| && op.rows[i].jobId == j;
      assert NewAttempt(s, op, s', i);
      assert s'.executions[j] == R.UpsertedRow(s.executions, op.rows[i]);
      assert Awaiting(s, op.rows[i].dispatchId);
    }
  }

  lemma CompleteKeepsBounded(s: State, e: Event, m: nat)
    requires Inv(s) && Enabled(s, e) && Bounded(s, m) && e.Complete?
    ensures Bounded(After(s, e), m)
  {
    var s' := After(s, e);
    forall j | j in s.executions
      ensures s'.executions[j].executionCount == s.executions[j].executionCount
      ensures s'.executions[j].dispatchId == s.executions[j].dispatchId
    {
      R.CompletedRow(s.executions, s.queues, e.batch, e.after, e.disp, j);
    }
    forall j ensures CountWithin(s', m, j) {
      assert CountWithin(s, m, j);
    }
    forall op | op in s'.pending ensures RependWithin(s', m, op) {
      if op in s.pending {
        assert RependWithin(s, m, op);
      } else {
        var i :| 0 <= i < |e.batch| && e.disp[i] == R.Repend
          && op == RependNext(e.batch[i].jobId, e.batch[i].dispatchId, Retry);
        R.RependedRow(s.executions, s.queues, e.batch, e.after, e.disp, i);
      }
    }
  }

  lemma RecoverKeepsBounded(s: State, e: Event, m: nat)
    requires Inv(s) && Enabled(s, e) && Bounded(s, m) && e.RecoverStale?
    ensures Bounded(After(s, e), m)
  {
    var s' := After(s, e);
    forall j ensures CountWithin(s', m, j) {
      assert CountWithin(s, m, j);
    }
    forall op | op in s'.pending ensures RependWithin(s', m, op) {
      assert op in s.pending ==> RependWithin(s, m, op);
    }
  }

  lemma ClaimKeepsBounded(s: State, e: Event, m: nat)
    requires Inv(s) && Enabled(s, e) && Bounded(s, m) && e.Claim?
    ensures Bounded(After(s, e), m)
  {
    var s' := After(s, e);
    ClaimedRows(s, e);
    forall j ensures CountWithin(s', m, j) {
      assert CountWithin(s, m, j);
    }
    forall op | op in s'.pending ensures RependWithin(s', m, op) {
      assert op in s.pending ==> RependWithin(s, m, op);
    }
  }

  lemma RependKeepsBounded(s: State, e: Event, m: nat)
    requires Inv(s) && Enabled(s, e) && Bounded(s, m) && e.Repend?
    ensures Bounded(After(s, e), m)
  {
    var s' := After(s, e);
    assert RependWithin(s, m, e.op);
    forall j ensures CountWithin(s', m, j) {
      assert CountWithin(s, m, j);
    }
    forall op | op in s'.pending ensures RependWithin(s', m, op) {
      assert RependWithin(s, m, op);
    }
  }

  lemma AbandonKeepsBounded(s: State, e: Event, m: nat)
    requires Inv(s) && Enabled(s, e) && Bounded(s, m) && e.Abandon?
    ensures Bounded(After(s, e), m)
  {
    var s' := After(s, e);
    forall j ensures CountWithin(s', m, j) {
      assert CountWithin(s, m, j);
    }
    forall op | op in s'.pending ensures RependWithin(s', m, op) {
      assert op in s.pending ==> RependWithin(s, m, op);
    }
  }

  lemma HealKeepsBounded(s: State, e: Event, m: nat)
    requires Inv(s) && Enabled(s, e) && Bounded(s, m) && (e.Crash? || e.Reopen?)
    ensures Bounded(After(s, e), m)
  {
    var s' := After(s, e);
    forall j ensures CountWithin(s', m, j) {
      assert CountWithin(s, m, j);
      if j in s.accepted && s.accepted[j].dispatchId.Some? {
        OrphanIffUnrecorded(s, j);
      }
    }
  }

  lemma {:induction false} RunKeepsBounded(states: seq<State>, events: seq<Event>, m: nat, i: nat)
    requires IsRun(states, events) && PoliciesWithin(events, m) && i < |states|
    ensures Bounded(states[i], m)
  {
    if i > 0 {
      RunKeepsBounded(states, events, m, i - 1);
      RunKeepsInvariant(states, events, i - 1);
      KeepsBounded(states[i - 1], events[i - 1], m);
    }
  }

  /** Retry bound: over every run, crashes included, a job is attempted at most once for its first
      try, once per retry its queue ever allowed, and once per claim handed back undelivered. */
  lemma AttemptsAreBounded(states: seq<State>, events: seq<Event>, m: nat, i: nat, j: JobId)
    requires IsRun(states, events) && PoliciesWithin(events, m) && i < |states|
    requires j in states[i].executions
    ensures states[i].executions[j].executionCount <= 1 + m + Releases(states[i], j)
  {
    RunKeepsInvariant(states, events, i);
    RunKeepsBounded(states, events, m, i);
    assert CountWithin(states[i], m, j);
  }

  // ------------------------------------------------------- an attempt ends once

  ghost predicate RunningUnder(s: State, d: DispatchId) {
    exists j :: j in s.executions && s.executions[j].status == Running && s.executions[j].dispatchId == d
  }

  ghost predicate Spent(s: State, d: DispatchId) {
    d in s.issued && !Awaiting(s, d) && !RunningUnder(s, d)
  }

  /** Only claims, dispatches and crashes touch the claims in flight. */
  lemma ClaimsUntouched(s: State, e: Event)
    requires Identity(s) && Enabled(s, e) && !e.Claim? && !e.Dispatch? && !e.Crash?
    ensures forall d :: Awaiting(After(s, e), d) <==> Awaiting(s, d)
    ensures After(s, e).issued == s.issued
  {
    var s' := After(s, e);
    assert forall op: Op :: op.AfterClaim? ==> (op in s'.pending <==> op in s.pending);
    SameClaims(s, s');
  }

  lemma SpentStays(s: State, e: Event, d: DispatchId)
    requires Inv(s) && Enabled(s, e) && Spent(s, d)
    ensures Spent(After(s, e), d)
  {
    var s' := After(s, e);
    NotAwaitingAgain(s, e, d);
    match e
    case Dispatch(_, _) => SpentAcrossDispatch(s, e, d);
    case Complete(_, _, _) => KeepsComplete(s, e);
    case RecoverStale(_) => KeepsRecover(s, e);
    case Abandon(_, _) => KeepsAbandon(s, e);
    case _ => ExecutionsUntouched(s, e);
  }

  lemma SpentAcrossDispatch(s: State, e: Event, d: DispatchId)
    requires Inv(s) && Enabled(s, e) && e.Dispatch? && Spent(s, d)
    ensures !RunningUnder(After(s, e), d)
  {
    var s', op := After(s, e), e.op;
    ClaimIsDispatchable(s, op);
    if s'.executions != s.executions {
      R.DispatchTxPointwise(s.executions, s.queues, op.rows);
      CommittedRows(s, op, s');
      forall i | 0 <= i < |op.rows| ensures op.rows[i].dispatchId != d {
        assert NewAttempt(s, op, s', i);
      }
      forall i | 0 <= i < |op.rows| ensures s'.executions[op.rows[i].jobId].dispatchId != d {
        assert NewAttempt(s, op, s', i);
      }
    }
  }

  lemma {:induction false} SpentForever(states: seq<State>, events: seq<Event>, d: DispatchId, i: nat, k: nat)
    requires IsRun(states, events) && i <= k < |states| && Spent(states[i], d)
    ensures Spent(states[k], d)
  {
    if i < k {
      SpentForever(states, events, d, i, k - 1);
      RunKeepsInvariant(states, events, k - 1);
      SpentStays(states[k - 1], events[k - 1], d);
    }
  }

  /** A dispatch id ends at most once among completion, abandonment and recovery: after it stops
      running, nothing ever runs under it again. */
  lemma AttemptEndsOnce(states: seq<State>, events: seq<Event>, d: DispatchId, i: nat, k: nat)
    requires IsRun(states, events) && i < k < |states|
    requires RunningUnder(states[i], d) && !RunningUnder(states[i + 1], d)
    ensures !RunningUnder(states[k], d)
  {
    RunKeepsInvariant(states, events, i);
    RunKeepsInvariant(states, events, i + 1);
    NotAwaitingAgain(states[i], events[i], d);
    SpentForever(states, events, d, i + 1, k);
  }

  lemma NotAwaitingAgain(s: State, e: Event, d: DispatchId)
    requires Inv(s) && Enabled(s, e) && d in s.issued && !Awaiting(s, d)
    ensures d in After(s, e).issued && !Awaiting(After(s, e), d)
  {
    match e
    case Claim(_, _, _, _) => ClaimIssues(s, e);
    case Dispatch(op, fails) => DispatchIssuesNothing(s, op, fails);
    case Crash(_) => assert After(s, e).pending == {};
    case _ => ClaimsUntouched(s, e);
  }

  lemma DispatchIssuesNothing(s: State, op: Op, fails: bool)
    requires op.AfterClaim? && Identity(s)
    ensures AfterDispatch(s, op, fails).issued == s.issued
    ensures forall d :: Awaiting(AfterDispatch(s, op, fails), d) ==> Awaiting(s, d)
  {
    var tx := if fails then None else R.DispatchTx(s.executions, s.queues, op.rows);
    DispatchAddsRepends(s, op, tx, R.AllDispatchable(s.executions, op.rows));
    FewerClaims(s, AfterDispatch(s, op, fails));
  }

  lemma DispatchAddsRepends(s: State, op: Op, tx: Option<R.Executions>, answered: bool)
    requires op.AfterClaim?
    ensures Settled(s, op, tx, answered).issued == s.issued
    ensures forall x :: x in Settled(s, op, tx, answered).pending ==> x in s.pending || x.RependNext?
  {
  }

  lemma FewerClaims(s: State, s': State)
    requires Identity(s) && s'.issued == s.issued
    requires forall x :: x in s'.pending ==> x in s.pending || x.RependNext?
    ensures forall d :: Awaiting(s', d) ==> Awaiting(s, d)
  {
  }

  // ------------------------------------------------------- completion and reads

  lemma ExecutionsUntouched(s: State, e: Event)
    requires Enabled(s, e) && !e.Complete? && !e.Dispatch? && !e.Abandon? && !e.RecoverStale?
    ensures After(s, e).executions == s.executions
  {
    if e.Repend? || e.StartRelease? || e.Crash? || e.Reopen? {
      FreeingTouchesNoExecution(s, e);
    } else {
      IngestTouchesNoExecution(s, e);
    }
  }

  lemma FreeingTouchesNoExecution(s: State, e: Event)
    requires Enabled(s, e) && (e.Repend? || e.StartRelease? || e.Crash? || e.Reopen?)
    ensures After(s, e).executions == s.executions
  {
  }

  lemma IngestTouchesNoExecution(s: State, e: Event)
    requires Enabled(s, e)
    requires e.Enqueue? || e.Claim? || e.UpsertIngest? || e.UpsertResults? || e.StartRead? || e.FinishRead?
    ensures After(s, e).executions == s.executions
  {
  }

  /** No dispatch touches a completed row, whatever rows it carries. */
  lemma {:induction false} DispatchSparesCompleted(t: R.Executions, queues: R.Queues, rows: seq<R.DispatchInsert>,
                                                   j: JobId)
    requires j in t && t[j].status == Completed && R.DispatchTx(t, queues, rows).Some?
    ensures var u := R.DispatchTx(t, queues, rows).value; j in u && u[j] == t[j]
    decreases |rows|
  {
    if rows != [] {
      DispatchSparesCompleted(t, queues, rows[..|rows| - 1], j);
    }
  }

  lemma CompletedAcrossDispatch(s: State, op: Op, fails: bool, j: JobId)
    requires op.AfterClaim? && j in s.executions && s.executions[j].status == Completed
    ensures var s' := AfterDispatch(s, op, fails); j in s'.executions && s'.executions[j] == s.executions[j]
  {
    if R.DispatchTx(s.executions, s.queues, op.rows).Some? {
      DispatchSparesCompleted(s.executions, s.queues, op.rows, j);
    }
  }

  /** No step of any operation touches a completed row, whatever state the databases are in. */
  lemma CompletedRowStays(s: State, e: Event, j: JobId)
    requires Enabled(s, e) && j in s.executions && s.executions[j].status == Completed
    ensures j in After(s, e).executions && After(s, e).executions[j] == s.executions[j]
  {
    match e
    case Complete(_, _, _) => R.CompletedRow(s.executions, s.queues, e.batch, e.after, e.disp, j);
    case Dispatch(op, fails) => CompletedAcrossDispatch(s, op, fails, j);
    case Abandon(_, _) =>
    case RecoverStale(_) =>
    case _ => ExecutionsUntouched(s, e);
  }

  /** A completed execution never changes again, and its job is never freed. */
  lemma CompletedStays(s: State, e: Event, j: JobId)
    requires Inv(s) && Enabled(s, e) && j in s.executions && s.executions[j].status == Completed
    ensures var s' := After(s, e);
      && j in s'.executions && s'.executions[j] == s.executions[j]
      && j in s'.accepted && s'.accepted[j].dispatchId == Some(s.executions[j].dispatchId)
  {
    CompletedRowStays(s, e, j);
    Keeps(s, e);
  }

  lemma {:induction false} CompletedForever(states: seq<State>, events: seq<Event>, j: JobId, i: nat, k: nat)
    requires IsRun(states, events) && i <= k < |states|
    requires j in states[i].executions && states[i].executions[j].status == Completed
    ensures j in states[k].executions && states[k].executions[j] == states[i].executions[j]
  {
    if i < k {
      CompletedForever(states, events, j, i, k - 1);
      RunKeepsInvariant(states, events, k - 1);
      CompletedStays(states[k - 1], events[k - 1], j);
    }
  }

  /** What `get_job` returns: the accepted row it read first, the execution it reads now. */
  function View(s: State, op: Op): Job
    requires op.ReadNext?
  {
    FromAccepted(op.job, op.accepted, if op.job in s.executions then Some(s.executions[op.job]) else None)
  }

  /** Once any read of a job shows it completed, every read that finishes later does too, with the
      same payload, although no read sees both databases at once. */
  lemma CompletedReadsStay(states: seq<State>, events: seq<Event>, i: nat, k: nat)
    requires IsRun(states, events) && i <= k < |events|
    requires events[i].FinishRead? && events[k].FinishRead? && events[i].op.job == events[k].op.job
    requires View(states[i], events[i].op).status == Completed
    ensures View(states[k], events[k].op).status == Completed
    ensures View(states[k], events[k].op).resultPayload == View(states[i], events[i].op).resultPayload
  {
    CompletedForever(states, events, events[i].op.job, i, k);
  }

  // ------------------------------------------------------ the delivery assumption

  /** Why a release must not meet a report: run to its end on a bound job, a release frees a job whose
      execution is live exactly when that execution had completed. */
  lemma ReleaseFreesLiveJobIffCompleted(t: I.Accepted, x: R.Executions, j: JobId, d: DispatchId)
    requires j in t && t[j].dispatchId == Some(d) && j in x && x[j].dispatchId == d && x[j].status != Pending
    ensures var u, y := I.Repend(t, j, d), R.Abandon(x, j, d);
      u[j].dispatchId.None? && y[j].status in {Running, Completed} <==> x[j].status == Completed
  {
    assert I.Repend(t, j, d)[j].dispatchId.None?;
  }

  /** Steps from any state, reachable or not. */
  ghost predicate Follows(states: seq<State>, events: seq<Event>) {
    && |states| == |events| + 1
    && (forall i :: 0 <= i < |events| ==> Enabled(states[i], events[i]) && states[i + 1] == After(states[i], events[i]))
  }

  /** A job freed after it completed is stuck: from such a state on, however it goes on, every claim that
      takes the job meets its completed row and fails after its commit. */
  lemma {:induction false} FreedCompletedJobIsStuck(states: seq<State>, events: seq<Event>, j: JobId, k: nat,
                                                    rows: seq<R.DispatchInsert>)
    requires Follows(states, events) && k < |states|
    requires j in states[0].executions && states[0].executions[j].status == Completed
    ensures j in states[k].executions && states[k].executions[j] == states[0].executions[j]
    ensures j in R.JobsOf(rows) ==> !R.AllDispatchable(states[k].executions, rows)
  {
    if k > 0 {
      FreedCompletedJobIsStuck(states, events, j, k - 1, rows);
      CompletedRowStays(states[k - 1], events[k - 1], j);
    }
    if j in R.JobsOf(rows) {
      var i :| 0 <= i < |rows| && rows[i].jobId == j;
      assert !R.Upserts(states[k].executions, rows[i]);
    }
  }
}
