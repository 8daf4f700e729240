/** What a release comes to: the job is free again, and its attempt is over. */
module AttemptRelease {
  import opened Types
  import opened AttemptProtocol
  import opened AttemptInvariant
  import opened AttemptRuns
  import R = ResultsTable
  import I = IngestTable

  ghost predicate Bound(s: State, j: JobId, d: DispatchId) {
    j in s.accepted && s.accepted[j].dispatchId == Some(d)
  }

  /** A released job that is still bound has the next step of its release in flight. */
  ghost predicate Freeing(s: State, j: JobId, d: DispatchId) {
    Bound(s, j, d) ==> AbandonNext(j, d) in s.pending || RependPending(s, j, d)
  }

  lemma DispatchKeepsFreeing(s: State, op: Op, tx: Option<R.Executions>, answered: bool, j: JobId, d: DispatchId)
    requires op.AfterClaim? && Freeing(s, j, d)
    ensures Freeing(Settled(s, op, tx, answered), j, d)
  {
    StillPending(s, Settled(s, op, tx, answered), j, d);
  }

  lemma StillPending(s: State, s': State, j: JobId, d: DispatchId)
    requires Freeing(s, j, d) && (Bound(s', j, d) ==> Bound(s, j, d))
    requires forall op :: op in s.pending && (op.AbandonNext? || op.RependNext?) ==> op in s'.pending
    ensures Freeing(s', j, d)
  {
    if RependPending(s, j, d) {
      var cause :| RependNext(j, d, cause) in s.pending;
      assert RependNext(j, d, cause) in s'.pending;
    }
  }

  lemma ReleaseStepKeepsFreeing(s: State, e: Event, j: JobId, d: DispatchId)
    requires Enabled(s, e) && Freeing(s, j, d) && (e.Abandon? || e.Repend?)
    ensures Freeing(After(s, e), j, d)
  {
    var s' := After(s, e);
    if e.Abandon? && e.op == AbandonNext(j, d) {
      assert RependNext(j, d, Release) in s'.pending;
    } else if RependPending(s, j, d) {
      var cause :| RependNext(j, d, cause) in s.pending;
      assert e.op == RependNext(j, d, cause) || RependNext(j, d, cause) in s'.pending;
    }
  }

  /** An id is never bound again: claims bring new ones. */
  lemma NotBoundAgain(s: State, e: Event, j: JobId, d: DispatchId)
    requires Enabled(s, e) && !e.Dispatch? && d in s.issued && Bound(After(s, e), j, d)
    ensures Bound(s, j, d)
  {
    if e.Claim? {
      ClaimBindsNewIds(s, e, j, d);
    }
  }

  lemma ClaimBindsNewIds(s: State, e: Event, j: JobId, d: DispatchId)
    requires Enabled(s, e) && e.Claim? && d in s.issued && j in e.table && e.table[j].dispatchId == Some(d)
    ensures Bound(s, j, d)
  {
    forall i | 0 <= i < |e.rows| ensures Jobs(e.rows)[i] != j {
      assert Ids(e.rows)[i] == e.rows[i].dispatchId;
    }
  }

  lemma RestKeepsPending(s: State, e: Event)
    requires Enabled(s, e) && !e.Crash? && !e.Dispatch? && !e.Abandon? && !e.Repend?
    requires e.Reopen? ==> s.pending == {}
    ensures forall op :: op in s.pending && (op.AbandonNext? || op.RependNext?) ==> op in After(s, e).pending
  {
  }

  lemma KeepsFreeing(s: State, e: Event, j: JobId, d: DispatchId)
    requires Inv(s) && Enabled(s, e) && !e.Crash? && d in s.issued && Freeing(s, j, d)
    ensures Freeing(After(s, e), j, d)
  {
    if e.Dispatch? {
      var tx := if e.fails then None else R.DispatchTx(s.executions, s.queues, e.op.rows);
      DispatchKeepsFreeing(s, e.op, tx, R.AllDispatchable(s.executions, e.op.rows), j, d);
    } else if e.Abandon? || e.Repend? {
      ReleaseStepKeepsFreeing(s, e, j, d);
    } else {
      RestKeepsPending(s, e);
      if Bound(After(s, e), j, d) {
        NotBoundAgain(s, e, j, d);
      }
      StillPending(s, After(s, e), j, d);
    }
  }

  lemma {:induction false} StaysFreeing(states: seq<State>, events: seq<Event>, n: nat, i: nat, j: JobId, d: DispatchId)
    requires IsRun(states, events) && n < i < |states| && events[n] == StartRelease(j, d)
    requires forall k :: n <= k < i ==> !events[k].Crash?
    ensures d in states[i].issued && !Awaiting(states[i], d) && Freeing(states[i], j, d)
  {
    RunKeepsInvariant(states, events, i - 1);
    if n < i - 1 {
      StaysFreeing(states, events, n, i - 1, j, d);
      KeepsFreeing(states[i - 1], events[i - 1], j, d);
    }
    NotAwaitingAgain(states[i - 1], events[i - 1], d);
  }

  /** A release that is run to its end, without a crash on the way, frees its job: no operation being in flight,
      the job is not bound to the released attempt, and that attempt neither runs nor has completed. */
  lemma ReleaseEndsTheAttempt(states: seq<State>, events: seq<Event>, n: nat, i: nat, j: JobId, d: DispatchId)
    requires IsRun(states, events) && n < i < |states| && events[n] == StartRelease(j, d)
    requires forall k :: n <= k < i ==> !events[k].Crash?
    requires states[i].pending == {}
    ensures var s := states[i];
      && (j in s.accepted ==> s.accepted[j].dispatchId != Some(d))
      && (j in s.executions && s.executions[j].dispatchId == d ==> s.executions[j].status == Failed)
  {
    RunKeepsInvariant(states, events, i);
    StaysFreeing(states, events, n, i, j, d);
    var s := states[i];
    assert !Bound(s, j, d);
    if j in s.executions {
      var status := s.executions[j].status;
      assert status.Pending? || status.Running? || status.Completed? || status.Failed?;
    }
  }
}
