/** The drain of a session ends: while both connections stand, the handshake never gets stuck, and the steps
    that lead to the return of `serve` are bounded. */
module SessionDrain {
  import opened Types
  import opened Session

  /** What the handshake owes: a request is written before the SDK goes on, and one that was read is acknowledged. */
  ghost predicate Owed(s: State) {
    OwedByServer(s.server, s.out) && OwedBySdk(s.back, s.sdk)
  }

  predicate OwedByServer(server: ServerEnd, out: ServerLink) {
    server.worker.draining && server.writerAlive ==> out.drainingAt.Some?
  }

  predicate OwedBySdk(back: WorkerLink, sdk: SdkEnd) {
    && (sdk.drainWritten <==> back.drainAt.Some? && back.drainAt.value < back.wrote)
    && (sdk.phase == SendingDrain || sdk.phase == AwaitingDrain ==> back.drainAt.Some?)
  }

  lemma KeepsOwedByServer(s: State, e: Event)
    requires Ordered(s) && Enabled(s, e) && OwedByServer(s.server, s.out)
    ensures OwedByServer(After(s, e).server, After(s, e).out)
  {
  }

  lemma WritingKeepsOwed(s: State)
    requires Ordered(s) && BackIndexed(s.back) && Enabled(s, SdkWrite) && OwedBySdk(s.back, s.sdk)
    ensures OwedBySdk(After(s, SdkWrite).back, After(s, SdkWrite).sdk)
  {
  }

  lemma RestKeepsOwed(s: State, e: Event)
    requires Ordered(s) && Enabled(s, e) && OwedBySdk(s.back, s.sdk) && !e.SdkWrite?
    requires s.sdk.phase == Serving ==> s.back.drainAt.None?
    ensures OwedBySdk(After(s, e).back, After(s, e).sdk)
  {
  }

  lemma KeepsOwed(s: State, e: Event)
    requires Ordered(s) && BackIndexed(s.back) && Handshake(s.server, s.out, s.back, s.sdk)
    requires Enabled(s, e) && Owed(s)
    ensures Owed(After(s, e))
  {
    KeepsOwedByServer(s, e);
    if e.SdkWrite? {
      WritingKeepsOwed(s);
    } else {
      RestKeepsOwed(s, e);
    }
  }

  lemma StepKeepsOwed(states: seq<State>, events: seq<Event>, k: nat)
    requires IsRun(states, events) && k < |events| && Owed(states[k])
    ensures Owed(states[k + 1])
  {
    RunKeepsInvariant(states, events, k);
    KeepsOwed(states[k], events[k]);
  }

  lemma {:induction false} RunKeepsOwed(states: seq<State>, events: seq<Event>, n: nat)
    requires IsRun(states, events) && n < |states|
    ensures Owed(states[n])
  {
    if n > 0 {
      RunKeepsOwed(states, events, n - 1);
      StepKeepsOwed(states, events, n - 1);
    }
  }

  /** A shutdown was asked for, and neither end has failed. */
  predicate ShuttingDown(s: State) {
    && s.server.connected && s.server.writerAlive
    && s.sdk.phase != Serving && s.sdk.phase != Broken
  }

  predicate Failure(e: Event) {
    e.ServerWriteFails? || e.Disconnect? || e.SdkFails?
  }

  /** The steps of a session that carry on with what was begun. */
  predicate Carries(e: Event) {
    e.SendRegistered? || e.ServerWrite? || e.ServerReads? || e.SdkReads? || e.RejectPayload? || e.Acquire? || e.Handle?
    || e.TakeSnapshot? || e.QueueReport? || e.SdkWrite? || e.ResumeServing? || e.Join? || e.Return?
  }

  // --------------------------------------------------------------- what is left

  /** Steps a task still needs, and those its report needs. */
  function TaskSteps(t: Task): nat {
    match t
    case Spawned => 8
    case Holding => 7
    case Handled => 6
    case Snapshot(_) => 5
    case Reporting => 2
    case Written => 1
  }

  ghost function AllTaskSteps<D>(jobs: map<D, Task>, ids: set<D>): nat
    requires ids <= jobs.Keys
  {
    if ids == {} then 0
    else
      var d :| d in ids;
      TaskSteps(jobs[d]) + AllTaskSteps(jobs, ids - {d})
  }

  lemma {:induction false} TaskStepsSplit<D>(jobs: map<D, Task>, ids: set<D>, d: D)
    requires ids <= jobs.Keys && d in ids
    ensures AllTaskSteps(jobs, ids) == TaskSteps(jobs[d]) + AllTaskSteps(jobs, ids - {d})
    decreases |ids|
  {
    var x :| x in ids && AllTaskSteps(jobs, ids) == TaskSteps(jobs[x]) + AllTaskSteps(jobs, ids - {x});
    if x != d {
      TaskStepsSplit(jobs, ids - {x}, d);
      TaskStepsSplit(jobs, ids - {d}, x);
      assert ids - {x} - {d} == ids - {d} - {x};
    }
  }

  lemma {:induction false} TaskStepsFrame<D>(a: map<D, Task>, b: map<D, Task>, ids: set<D>)
    requires ids <= a.Keys && ids <= b.Keys && forall d :: d in ids ==> a[d] == b[d]
    ensures AllTaskSteps(a, ids) == AllTaskSteps(b, ids)
    decreases |ids|
  {
    if ids != {} {
      var d :| d in ids && AllTaskSteps(a, ids) == TaskSteps(a[d]) + AllTaskSteps(a, ids - {d});
      TaskStepsFrame(a, b, ids - {d});
      TaskStepsSplit(b, ids, d);
    }
  }

  ghost function TasksLeft(s: State): nat {
    AllTaskSteps(s.sdk.jobs, s.sdk.jobs.Keys)
  }

  /** One task more or one step further. */
  lemma TaskMoves(jobs: map<DispatchId, Task>, d: DispatchId, t: Task)
    ensures AllTaskSteps(jobs[d := t], jobs[d := t].Keys)
      == AllTaskSteps(jobs, jobs.Keys) + TaskSteps(t) - (if d in jobs then TaskSteps(jobs[d]) else 0)
  {
    var after := jobs[d := t];
    TaskStepsSplit(after, after.Keys, d);
    assert after.Keys - {d} == jobs.Keys - {d};
    TaskStepsFrame(jobs, after, jobs.Keys - {d});
    if d in jobs {
      TaskStepsSplit(jobs, jobs.Keys, d);
    } else {
      assert jobs.Keys - {d} == jobs.Keys;
    }
  }

  lemma TaskJoins(jobs: map<DispatchId, Task>, d: DispatchId)
    requires d in jobs
    ensures AllTaskSteps(jobs - {d}, (jobs - {d}).Keys) == AllTaskSteps(jobs, jobs.Keys) - TaskSteps(jobs[d])
  {
    TaskStepsSplit(jobs, jobs.Keys, d);
    assert (jobs - {d}).Keys == jobs.Keys - {d};
    TaskStepsFrame(jobs, jobs - {d}, jobs.Keys - {d});
  }

  function PhaseSteps(phase: Phase): nat {
    match phase
    case SendingDrain => 3
    case AwaitingDrain => 2
    case DrainingJobs => 1
    case _ => 0
  }

  /** An upper bound of the steps still to come; a frame counts for those it will cause. */
  ghost function StepsLeft(s: State): int {
    10 * (|s.out.log| - s.out.wrote) + 9 * (s.out.wrote - s.out.read) + TasksLeft(s)
    + 2 * (|s.back.log| - s.back.wrote) + (s.back.wrote - s.back.read) + PhaseSteps(s.sdk.phase)
    + (if s.server.registered then 0 else 11) + (if s.server.worker.draining then 0 else 10)
  }

  lemma SomeStepsLeft(s: State)
    requires Ordered(s)
    ensures StepsLeft(s) >= 0
  {
  }

  /** What the surroundings add: a dispatch causes at most ten steps more, a heartbeat two. */
  function Adds(e: Event): nat {
    if e.DispatchJob? then 10 else if e.SendHeartbeat? then 2 else 0
  }

  function Counts(e: Event): nat {
    if Carries(e) then 1 else 0
  }

  lemma SdkStepCounts(s: State, e: Event)
    requires Ordered(s) && ShuttingDown(s) && Enabled(s, e)
    requires e.RejectPayload? || e.Acquire? || e.Handle? || e.TakeSnapshot? || e.QueueReport? || e.Join?
    ensures StepsLeft(After(s, e)) < StepsLeft(s)
  {
    if e.Join? {
      TaskJoins(s.sdk.jobs, e.id);
    } else {
      TaskMoves(s.sdk.jobs, e.id, After(s, e).sdk.jobs[e.id]);
    }
  }

  lemma SdkReadCounts(s: State)
    requires Ordered(s) && OutIndexed(s.out) && DrainingIsLast(s.out) && Handshake(s.server, s.out, s.back, s.sdk)
    requires Tasks(s.out, s.back, s.sdk) && ShuttingDown(s) && Enabled(s, SdkReads)
    ensures StepsLeft(After(s, SdkReads)) < StepsLeft(s) && ShuttingDown(After(s, SdkReads))
  {
    ReadingKeepsHandshake(s);
    var frame := s.out.log[s.out.read];
    if frame.JobDispatch? {
      TaskMoves(s.sdk.jobs, frame.id, Spawned);
    }
  }

  lemma SdkWriteCounts(s: State)
    requires Ordered(s) && BackIndexed(s.back) && Tasks(s.out, s.back, s.sdk)
    requires ShuttingDown(s) && Enabled(s, SdkWrite)
    ensures StepsLeft(After(s, SdkWrite)) < StepsLeft(s)
  {
    var frame := s.back.log[s.back.wrote];
    if frame.JobResult? && frame.id in s.sdk.jobs {
      assert Placed(s.out, s.back, frame.id, s.sdk.jobs[frame.id]);
      TaskMoves(s.sdk.jobs, frame.id, Written);
    }
  }

  lemma ServerReadCounts(s: State)
    requires Ordered(s) && BackIndexed(s.back) && Handshake(s.server, s.out, s.back, s.sdk)
    requires ShuttingDown(s) && Enabled(s, ServerReads)
    ensures StepsLeft(After(s, ServerReads)) < StepsLeft(s) && ShuttingDown(After(s, ServerReads))
  {
    if s.back.log[s.back.read].DrainRequest? {
      DrainIsReadOnce(s);
    }
  }

  lemma RestCounts(s: State, e: Event)
    requires Ordered(s) && ShuttingDown(s) && Enabled(s, e) && !Failure(e) && After(s, e).sdk.jobs == s.sdk.jobs
    requires !e.SdkReads? && !e.SdkWrite? && !e.ServerReads?
    ensures StepsLeft(After(s, e)) + Counts(e) <= StepsLeft(s) + Adds(e) && ShuttingDown(After(s, e))
  {
  }

  /** Every step that carries on uses up one of the steps left. */
  lemma StepCounts(s: State, e: Event)
    requires Inv(s) && ShuttingDown(s) && Enabled(s, e) && !Failure(e)
    ensures StepsLeft(After(s, e)) + Counts(e) <= StepsLeft(s) + Adds(e) && ShuttingDown(After(s, e))
  {
    if e.SdkReads? {
      SdkReadCounts(s);
    } else if e.SdkWrite? {
      SdkWriteCounts(s);
    } else if e.ServerReads? {
      ServerReadCounts(s);
    } else if e.RejectPayload? || e.Acquire? || e.Handle? || e.TakeSnapshot? || e.QueueReport? || e.Join? {
      SdkStepCounts(s, e);
    } else {
      RestCounts(s, e);
    }
  }

  // --------------------------------------------------------------- never stuck

  /** The next step of a task; one that waits for a slot finds one. */
  lemma TaskGoesOn(s: State, d: DispatchId) returns (e: Event)
    requires Inv(s) && ShuttingDown(s) && MayRead(s.sdk) && d in s.sdk.jobs
    ensures Carries(e) && Enabled(s, e)
  {
    assert Placed(s.out, s.back, d, s.sdk.jobs[d]);
    if s.sdk.jobs[d] != Holding && !s.sdk.jobs[d].Written? {
      SlotsNeverRunOut(s, d);
    }
    match s.sdk.jobs[d]
    case Spawned => e := Acquire(d);
    case Holding => e := Handle(d);
    case Handled => e := TakeSnapshot(d);
    case Snapshot(_) => e := QueueReport(d);
    case Reporting => e := SdkWrite;
    case Written => e := Join(d);
  }

  lemma SomeTask<D>(jobs: map<D, Task>) returns (d: D)
    requires jobs != map[]
    ensures d in jobs
  {
    d :| d in jobs;
  }

  /** Until `serve` returns there is always a step to take. */
  lemma NeverStuck(s: State) returns (e: Event)
    requires Inv(s) && Owed(s) && ShuttingDown(s) && s.sdk.phase != Finished
    ensures Carries(e) && Enabled(s, e)
  {
    if !s.server.registered {
      e := SendRegistered;
    } else if s.out.wrote < |s.out.log| {
      e := ServerWrite;
    } else if MayRead(s.sdk) && s.out.read < s.out.wrote {
      e := SdkReads;
    } else if s.sdk.phase == SendingDrain {
      e := if s.back.wrote < |s.back.log| then SdkWrite else ResumeServing;
    } else if s.sdk.jobs != map[] {
      var d := SomeTask(s.sdk.jobs);
      e := TaskGoesOn(s, d);
    } else if s.back.wrote < |s.back.log| {
      e := SdkWrite;
    } else if s.back.read < s.back.wrote {
      e := ServerReads;
    } else {
      e := Return;
    }
  }

  function Total(events: seq<Event>, n: nat, m: nat, each: Event -> nat): nat
    requires n <= m <= |events|
  {
    if n == m then 0 else Total(events, n, m - 1, each) + each(events[m - 1])
  }

  lemma StepInRunCounts(states: seq<State>, events: seq<Event>, k: nat)
    requires IsRun(states, events) && k < |events| && ShuttingDown(states[k]) && !Failure(events[k])
    ensures ShuttingDown(states[k + 1])
    ensures StepsLeft(states[k + 1]) + Counts(events[k]) <= StepsLeft(states[k]) + Adds(events[k])
  {
    RunKeepsInvariant(states, events, k);
    StepCounts(states[k], events[k]);
  }

  lemma {:induction false} StaysShuttingDown(states: seq<State>, events: seq<Event>, n: nat, m: nat)
    requires IsRun(states, events) && n <= m < |states| && ShuttingDown(states[n])
    requires forall k :: n <= k < m ==> !Failure(events[k])
    ensures ShuttingDown(states[m])
  {
    if n < m {
      StaysShuttingDown(states, events, n, m - 1);
      StepInRunCounts(states, events, m - 1);
    }
  }

  lemma {:induction false} CountsAddUp(left: seq<int>, events: seq<Event>, n: nat, m: nat)
    requires n <= m <= |events| && |left| == |events| + 1
    requires forall k :: n <= k < m ==> left[k + 1] + Counts(events[k]) <= left[k] + Adds(events[k])
    ensures Total(events, n, m, Counts) + left[m] <= left[n] + Total(events, n, m, Adds)
  {
    if n < m {
      CountsAddUp(left, events, n, m - 1);
      assert left[(m - 1) + 1] + Counts(events[m - 1]) <= left[m - 1] + Adds(events[m - 1]);
    }
  }

  lemma StepsAreUsedUp(states: seq<State>, events: seq<Event>, n: nat, m: nat)
    requires IsRun(states, events) && n <= m < |states| && ShuttingDown(states[n])
    requires forall k :: n <= k < m ==> !Failure(events[k])
    ensures ShuttingDown(states[m])
    ensures Total(events, n, m, Counts) + StepsLeft(states[m]) <= StepsLeft(states[n]) + Total(events, n, m, Adds)
  {
    var left := seq(|states|, i requires 0 <= i < |states| => StepsLeft(states[i]));
    forall k | n <= k < m ensures left[k + 1] + Counts(events[k]) <= left[k] + Adds(events[k]) {
      StaysShuttingDown(states, events, n, k);
      StepInRunCounts(states, events, k);
    }
    StaysShuttingDown(states, events, n, m);
    CountsAddUp(left, events, n, m);
  }

  /** A shutdown comes to its end. As long as neither end fails, the steps that carry the session on are at most
      those left when it began, ten more for each dispatch that still comes in and two for each heartbeat; and
      until `serve` has returned one of them can always be taken. */
  lemma ShutdownFinishes(states: seq<State>, events: seq<Event>, n: nat, m: nat)
    requires IsRun(states, events) && n <= m < |states| && ShuttingDown(states[n])
    requires forall k :: n <= k < m ==> !Failure(events[k])
    ensures Total(events, n, m, Counts) <= StepsLeft(states[n]) + Total(events, n, m, Adds)
    ensures states[m].sdk.phase == Finished || exists e :: Carries(e) && Enabled(states[m], e)
  {
    StepsAreUsedUp(states, events, n, m);
    RunKeepsInvariant(states, events, m);
    RunKeepsOwed(states, events, m);
    SomeStepsLeft(states[m]);
    if states[m].sdk.phase != Finished {
      var e := NeverStuck(states[m]);
    }
  }
}
