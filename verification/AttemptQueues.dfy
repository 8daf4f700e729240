/** Queues reach the results database after ingest: what a dispatch can be refused for. */
module AttemptQueues {
  import opened Types
  import opened AttemptProtocol
  import opened AttemptInvariant
  import opened AttemptRuns
  import R = ResultsTable

  /** Results knows the queue, or the write that tells it is in flight. */
  ghost predicate Arrives(s: State, q: QueueName) {
    q in s.queues || exists op :: op in s.pending && op.UpsertNext? && op.queue.name == q
  }

  ghost predicate Known(s: State, op: Op) {
    op.AfterClaim? ==> forall i :: 0 <= i < |op.rows| ==> op.rows[i].queueName in s.policies
  }

  ghost predicate QueuesArrive(s: State) {
    && (forall q :: q in s.policies ==> Arrives(s, q))
    && (forall j :: j in s.accepted ==> s.accepted[j].queueName in s.policies)
    && (forall op :: op in s.pending ==> Known(s, op))
  }

  lemma SamePending(s: State, s': State)
    requires QueuesArrive(s) && s'.policies == s.policies && s'.queues == s.queues
    requires forall op :: op in s.pending && op.UpsertNext? ==> op in s'.pending
    requires forall op :: op in s'.pending && op.AfterClaim? ==> op in s.pending
    requires forall j :: j in s'.accepted ==> j in s.accepted && s'.accepted[j].queueName == s.accepted[j].queueName
    ensures QueuesArrive(s')
  {
    forall q | q in s'.policies ensures Arrives(s', q) {
      assert Arrives(s, q);
    }
    forall op | op in s'.pending ensures Known(s', op) {
      if op.AfterClaim? {
        assert Known(s, op);
      }
    }
  }

  lemma DispatchKeepsQueues(s: State, op: Op, tx: Option<R.Executions>, answered: bool)
    requires QueuesArrive(s) && op.AfterClaim?
    ensures QueuesArrive(Settled(s, op, tx, answered))
  {
    SamePending(s, Settled(s, op, tx, answered));
  }

  lemma UpsertKeepsQueues(s: State, e: Event)
    requires Enabled(s, e) && QueuesArrive(s) && (e.UpsertIngest? || e.UpsertResults?)
    ensures QueuesArrive(After(s, e))
  {
    var s' := After(s, e);
    forall q | q in s'.policies ensures Arrives(s', q) {
      if e.UpsertIngest? && q == e.queue.name {
        assert UpsertNext(e.queue) in s'.pending;
      } else {
        assert Arrives(s, q);
      }
    }
    forall op | op in s'.pending ensures Known(s', op) {
      assert op in s.pending || op.UpsertNext?;
      assert op in s.pending ==> Known(s, op);
    }
  }

  lemma ClaimKeepsQueues(s: State, e: Event)
    requires Enabled(s, e) && QueuesArrive(s) && e.Claim?
    ensures QueuesArrive(After(s, e))
  {
    var s' := After(s, e);
    var claim := AfterClaim(e.rows);
    forall q | q in s'.policies ensures Arrives(s', q) {
      assert Arrives(s, q);
    }
    forall j | j in s'.accepted ensures s'.accepted[j].queueName in s'.policies {
      if j in Jobs(e.rows) {
        var i :| 0 <= i < |e.rows| && Jobs(e.rows)[i] == j;
      }
    }
    assert Jobs(e.rows)[0] == e.rows[0].jobId && s.accepted[e.rows[0].jobId].queueName == e.name;
    forall op | op in s'.pending ensures Known(s', op) {
      assert op == claim || op in s.pending;
      assert op in s.pending ==> Known(s, op);
    }
  }

  lemma EnqueueKeepsQueues(s: State, e: Event)
    requires Enabled(s, e) && QueuesArrive(s) && e.Enqueue?
    ensures QueuesArrive(After(s, e))
  {
    var s' := After(s, e);
    forall q | q in s'.policies ensures Arrives(s', q) {
      assert Arrives(s, q);
    }
    forall op | op in s'.pending ensures Known(s', op) {
      assert Known(s, op);
    }
  }

  lemma RestKeepsQueues(s: State, e: Event)
    requires Enabled(s, e) && QueuesArrive(s)
    requires e.Complete? || e.StartRelease? || e.Abandon? || e.Repend? || e.RecoverStale? || e.StartRead?
      || e.FinishRead? || e.Reopen?
    ensures QueuesArrive(After(s, e))
  {
    SamePending(s, After(s, e));
  }

  lemma KeepsQueues(s: State, e: Event)
    requires Enabled(s, e) && QueuesArrive(s) && !e.Crash?
    ensures QueuesArrive(After(s, e))
  {
    if e.Dispatch? {
      var tx := if e.fails then None else R.DispatchTx(s.executions, s.queues, e.op.rows);
      DispatchKeepsQueues(s, e.op, tx, R.AllDispatchable(s.executions, e.op.rows));
    } else if e.UpsertIngest? || e.UpsertResults? {
      UpsertKeepsQueues(s, e);
    } else if e.Claim? {
      ClaimKeepsQueues(s, e);
    } else if e.Enqueue? {
      EnqueueKeepsQueues(s, e);
    } else {
      RestKeepsQueues(s, e);
    }
  }

  lemma {:induction false} RunKeepsQueues(states: seq<State>, events: seq<Event>, i: nat)
    requires IsRun(states, events) && i < |states| && forall k :: 0 <= k < |events| ==> !events[k].Crash?
    ensures QueuesArrive(states[i])
  {
    if i > 0 {
      RunKeepsQueues(states, events, i - 1);
      KeepsQueues(states[i - 1], events[i - 1]);
    }
  }

  /** In a run without crashes every queue ingest knows is known to results, unless its second write is still in
      flight. */
  lemma QueuesReachResults(states: seq<State>, events: seq<Event>, i: nat)
    requires IsRun(states, events) && i < |states| && forall k :: 0 <= k < |events| ==> !events[k].Crash?
    ensures var s := states[i];
      forall q :: q in s.policies ==>
        q in s.queues || exists op :: op in s.pending && op.UpsertNext? && op.queue.name == q
    ensures forall j :: j in states[i].accepted ==> states[i].accepted[j].queueName in states[i].policies
  {
    RunKeepsQueues(states, events, i);
    var s := states[i];
    forall q | q in s.policies
      ensures q in s.queues || exists op :: op in s.pending && op.UpsertNext? && op.queue.name == q
    {
      assert Arrives(s, q);
    }
  }

  /** So when no such write is in flight, the databases refuse a dispatch exactly for a full attempt counter. */
  lemma OnlyFullCountersRefuse(states: seq<State>, events: seq<Event>, i: nat, op: Op)
    requires IsRun(states, events) && i < |states| && forall k :: 0 <= k < |events| ==> !events[k].Crash?
    requires op in states[i].pending && op.AfterClaim? && forall o :: o in states[i].pending ==> !o.UpsertNext?
    ensures var s := states[i];
      R.DispatchTx(s.executions, s.queues, op.rows).Some? <==>
        forall k :: 0 <= k < |op.rows| && op.rows[k].jobId in s.executions ==>
          s.executions[op.rows[k].jobId].executionCount < U32_MAX
  {
    var s := states[i];
    RunKeepsQueues(states, events, i);
    DispatchAnswersEveryRow(states, events, i, op);
    assert Known(s, op);
    forall k | 0 <= k < |op.rows| ensures op.rows[k].queueName in s.queues {
      assert Arrives(s, op.rows[k].queueName);
    }
    forall k | 0 <= k < |op.rows|
      ensures R.RowAccepted(s.executions, s.queues, op.rows[k]) <==>
        (op.rows[k].jobId in s.executions ==> s.executions[op.rows[k].jobId].executionCount < U32_MAX)
    {
    }
  }

  /** A crash between the two writes of an upsert leaves a queue that takes jobs and dispatches none: every
      claim with a job of that queue is refused until results knows it. */
  lemma UnknownQueueRefuses(states: seq<State>, events: seq<Event>, i: nat, op: Op, k: nat)
    requires IsRun(states, events) && i < |states| && op in states[i].pending && op.AfterClaim?
    requires k < |op.rows| && op.rows[k].jobId !in states[i].executions
    requires op.rows[k].queueName !in states[i].queues
    ensures R.DispatchTx(states[i].executions, states[i].queues, op.rows).None?
  {
    DispatchAnswersEveryRow(states, events, i, op);
    assert !R.RowAccepted(states[i].executions, states[i].queues, op.rows[k]);
  }
}
