/** What can always come next: the oldest free job of a queue can be claimed, dispatched and completed. */
module AttemptProgress {
  import opened Types
  import opened AttemptProtocol
  import opened AttemptInvariant
  import opened AttemptRuns
  import R = ResultsTable
  import I = IngestTable

  lemma SomeMember<T>(s: set<T>) returns (x: T)
    requires s != {}
    ensures x in s
  {
    x :| x in s;
  }

  lemma {:induction false} UpperBound(ids: set<DispatchId>) returns (m: DispatchId)
    ensures forall d :: d in ids ==> d < m
    decreases |ids|
  {
    if ids == {} {
      m := 0;
    } else {
      var d := SomeMember(ids);
      var rest := UpperBound(ids - {d});
      m := if rest <= d then d + 1 else rest;
      forall x | x in ids ensures x < m {
        assert x == d || x in ids - {d};
      }
    }
  }

  ghost predicate OldestFree(s: State, q: QueueName, j: JobId) {
    I.Free(s.accepted, q, j) && forall k :: I.Free(s.accepted, q, k) && k != j ==> I.Before(s.accepted, j, k)
  }

  lemma CanClaim(s: State, row: R.DispatchInsert) returns (table: I.Accepted)
    requires s.up && OldestFree(s, row.queueName, row.jobId) && row.dispatchId !in s.issued
    ensures Enabled(s, Claim(row.queueName, 1, [row], table))
    ensures row.jobId in table && table[row.jobId] == s.accepted[row.jobId].(dispatchId := Some(row.dispatchId))
  {
    var j := row.jobId;
    table := s.accepted[j := s.accepted[j].(dispatchId := Some(row.dispatchId))];
    assert Jobs([row]) == [j] && Ids([row]) == [row.dispatchId];
  }

  lemma CanDispatch(s: State, row: R.DispatchInsert)
    requires Inv(s) && AfterClaim([row]) in s.pending && R.RowAccepted(s.executions, s.queues, row)
    ensures var s' := AfterDispatch(s, AfterClaim([row]), false);
      && row.jobId in s'.executions && s'.executions[row.jobId].status == Running
      && s'.executions[row.jobId].dispatchId == row.dispatchId && row.dispatchId in s'.handed
      && s'.up == s.up && s'.reported == s.reported && s'.released == s.released && s'.queues == s.queues
  {
    var op := AfterClaim([row]);
    ClaimIsDispatchable(s, op);
    assert R.RowsAccepted(s.executions, s.queues, op.rows) && R.IdsUnused(s.executions, op.rows);
    R.DispatchCommitsIff(s.executions, s.queues, op.rows);
    R.DispatchTxPointwise(s.executions, s.queues, op.rows);
    assert op.rows[0] == row;
    assert row.dispatchId in RowIds(op.rows);
  }

  lemma CanComplete(t: R.Executions, queues: R.Queues, c: R.Completion) returns (after: R.Executions)
    requires R.Fenced(t, c) && c.outcome.Succeeded?
    ensures R.CompleteTx(t, queues, [c], after, [R.Finished])
    ensures c.jobId in after && after[c.jobId].status == Completed
    ensures after[c.jobId].resultPayload == Some(c.outcome.payload)
  {
    var batch, disp := [c], [R.Finished];
    after := t[c.jobId := R.Complete(t[c.jobId], c.outcome.payload)];
    assert batch[0] == c && R.Rank(batch, 0) == 0;
    assert R.DispositionOf(t, queues, batch, 0) == R.Finished;
    forall j | j in t ensures R.RowAfter(t, batch, disp, j, after[j]) {
      if j == c.jobId {
        assert batch[0].jobId == j && R.Fenced(t, batch[0]);
      }
    }
  }

  /** The two halves of a claim. */
  lemma CanRun(s: State, row: R.DispatchInsert) returns (claim: Event, claimed: State, dispatch: Event, running: State)
    requires Inv(s) && s.up && OldestFree(s, row.queueName, row.jobId) && row.dispatchId !in s.issued
    requires R.RowAccepted(s.executions, s.queues, row)
    ensures claim.Claim? && Enabled(s, claim) && claimed == After(s, claim)
    ensures dispatch.Dispatch? && Enabled(claimed, dispatch) && running == After(claimed, dispatch)
    ensures running.up && running.reported == s.reported && running.released == s.released
    ensures row.dispatchId in running.handed && row.jobId in running.executions
    ensures running.executions[row.jobId].status == Running
    ensures running.executions[row.jobId].dispatchId == row.dispatchId
  {
    var table := CanClaim(s, row);
    claim := Claim(row.queueName, 1, [row], table);
    Keeps(s, claim);
    claimed := After(s, claim);
    CanDispatch(claimed, row);
    dispatch := Dispatch(AfterClaim([row]), false);
    running := AfterDispatch(claimed, AfterClaim([row]), false);
  }

  lemma CanReport(s: State, c: R.Completion) returns (report: Event, done: State)
    requires s.up && R.Fenced(s.executions, c) && c.outcome.Succeeded? && c.dispatchId !in s.released
    ensures report.Complete? && report.batch == [c] && Enabled(s, report) && done == After(s, report)
    ensures c.jobId in done.executions && done.executions[c.jobId].status == Completed
    ensures done.executions[c.jobId].resultPayload == Some(c.outcome.payload)
  {
    var after := CanComplete(s.executions, s.queues, c);
    assert BatchIds([c]) == {c.dispatchId};
    report := Complete([c], after, [R.Finished]);
    done := After(s, report);
  }

  lemma ThreeSteps(s0: State, s1: State, s2: State, s3: State, e0: Event, e1: Event, e2: Event)
    requires Enabled(s0, e0) && s1 == After(s0, e0)
    requires Enabled(s1, e1) && s2 == After(s1, e1)
    requires Enabled(s2, e2) && s3 == After(s2, e2)
    ensures Follows([s0, s1, s2, s3], [e0, e1, e2])
  {
  }

  /** From every reachable state with the store open, the oldest free job of its queue can be brought to its end:
      claimed under a new id, dispatched, and then either released or reported with any payload, which completes
      it; unless its queue is unknown to results or its attempt counter is full. */
  lemma OldestJobCanComplete(states: seq<State>, events: seq<Event>, i: nat, row: R.DispatchInsert, payload: Bytes)
    returns (steps: seq<State>, moves: seq<Event>, id: DispatchId)
    requires IsRun(states, events) && i < |states| && states[i].up
    requires OldestFree(states[i], row.queueName, row.jobId)
    requires R.RowAccepted(states[i].executions, states[i].queues, row)
    ensures Follows(steps, moves) && |moves| == 3 && steps[0] == states[i]
    ensures moves[0].Claim? && moves[1].Dispatch? && Enabled(steps[2], StartRelease(row.jobId, id))
    ensures moves[2].Complete? && moves[2].batch == [R.Completion(row.jobId, id, Succeeded(payload))]
    ensures var j, t := row.jobId, steps[3].executions;
      j in t && t[j].status == Completed && t[j].resultPayload == Some(payload)
  {
    var s := states[i];
    RunKeepsInvariant(states, events, i);
    id := UpperBound(s.issued.Keys + s.reported + s.released);
    var claim, claimed, dispatch, running := CanRun(s, row.(dispatchId := id));
    var report, done := CanReport(running, R.Completion(row.jobId, id, Succeeded(payload)));
    ThreeSteps(s, claimed, running, done, claim, dispatch, report);
    steps, moves := [s, claimed, running, done], [claim, dispatch, report];
  }
}
