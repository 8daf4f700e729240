/** The scheduler with everything that runs beside it: callers of `schedule_queue`, the loop with its
    passes and probes, and retry timers. Each event is one section under the scheduler's lock, or one
    send or receive on the token channel. */
module SchedulerRuns {
  import opened Types
  import opened Scheduler

  datatype State = State(
    core: Core,
    // where tokens are
    sends: multiset<QueueName>,
    channel: seq<QueueName>,
    pass: set<QueueName>,
    timers: multiset<QueueName>,
    // queues a probe has popped and not scheduled yet
    hand: seq<QueueName>,
    // history: queues the scheduler has heard of, and deque entries popped so far
    known: set<QueueName>,
    pops: nat)

  datatype Event =
    | ScheduleQueue(queue: QueueName)
    | Send(queue: QueueName)
    | StartPass(taken: nat)
    | Finish(queue: QueueName, outcome: PassOutcome)
    | FireTimer(queue: QueueName)
    | Seed(queues: seq<QueueName>)
    | Probe(batch: nat)
    | ProbeNext

  /** The loop runs one pass or one probe at a time. A pass takes what the channel holds when it stops
      receiving, so any non-empty prefix. */
  ghost predicate Enabled(s: State, e: Event) {
    match e
    case ScheduleQueue(_) => true
    case Send(q) => q in s.sends
    case StartPass(taken) => s.pass == {} && s.hand == [] && 0 < taken <= |s.channel|
    case Finish(q, _) => q in s.pass
    case FireTimer(q) => q in s.timers
    case Seed(_) => true
    case Probe(batch) => batch > 0 && s.pass == {} && s.hand == []
    case ProbeNext => s.hand != []
  }

  function AfterSchedule(s: State, q: QueueName): State {
    s.(core := Enter(s.core, q), known := s.known + {q},
       sends := if q in s.core.scheduled then s.sends else s.sends + multiset{q})
  }

  function AfterFinish(s: State, q: QueueName, outcome: PassOutcome): State {
    var (core, next) := Leave(s.core, q, outcome);
    s.(core := core, pass := s.pass - {q},
       sends := if next == SendToken then s.sends + multiset{q} else s.sends,
       timers := if next.StartTimer? then s.timers + multiset{q} else s.timers)
  }

  ghost function After(s: State, e: Event): State
    requires Enabled(s, e)
  {
    match e
    case ScheduleQueue(q) => AfterSchedule(s, q)
    case Send(q) => s.(sends := s.sends - multiset{q}, channel := s.channel + [q])
    case StartPass(taken) => s.(pass := EntrySet(s.channel[..taken]), channel := s.channel[taken..])
    case Finish(q, outcome) => AfterFinish(s, q, outcome)
    case FireTimer(q) =>
      s.(timers := s.timers - multiset{q}, sends := if q in s.core.scheduled then s.sends + multiset{q} else s.sends)
    case Seed(queues) => s.(core := AddAllIdle(s.core, queues), known := s.known + EntrySet(queues))
    case Probe(batch) =>
      s.(core := Probed(s.core, batch), hand := Found(s.core, batch),
         pops := s.pops + Reach(s.core.scheduled.Keys, s.core.idle, batch))
    case ProbeNext => AfterSchedule(s, s.hand[0]).(hand := s.hand[1..])
  }

  ghost predicate Init(s: State) {
    s == State(Core(map[], [], {}), multiset{}, [], {}, multiset{}, [], {}, 0)
  }

  ghost predicate IsRun(states: seq<State>, events: seq<Event>) {
    && |states| == |events| + 1
    && Init(states[0])
    && (forall i :: 0 <= i < |events| ==> Enabled(states[i], events[i]) && states[i + 1] == After(states[i], events[i]))
  }

  // ---------------------------------------------------------------- invariant

  /** Tokens of a queue: sends under way, the channel, the current pass and retry timers. */
  function Tokens(s: State, q: QueueName): nat {
    s.sends[q] + multiset(s.channel)[q] + (if q in s.pass then 1 else 0) + s.timers[q]
  }

  predicate OneToken(s: State, q: QueueName) {
    Tokens(s, q) == if q in s.core.scheduled then 1 else 0
  }

  /** One token for each scheduled queue and none for any other. */
  ghost predicate OneTokenEach(s: State) {
    forall q :: OneToken(s, q)
  }

  ghost predicate IdleWithinDeque(c: Core) {
    forall q :: q in c.idleSet ==> q in c.idle
  }

  ghost predicate Remembered(s: State) {
    forall q :: q in s.known ==> q in s.core.scheduled || q in s.core.idleSet || q in s.hand
  }

  ghost predicate CountsCapped(c: Core) {
    forall q :: q in c.scheduled ==> c.scheduled[q].retryCount <= MAX_RETRY_COUNT
  }

  ghost predicate Inv(s: State) {
    OneTokenEach(s) && IdleWithinDeque(s.core) && Remembered(s) && CountsCapped(s.core)
  }

  /** Seeding only adds: to the idle set, and at the back of the deque. */
  lemma AddAllIdleAdds(c: Core, queues: seq<QueueName>)
    requires IdleWithinDeque(c)
    ensures var r := AddAllIdle(c, queues);
            r.scheduled == c.scheduled && c.idleSet <= r.idleSet && IdleWithinDeque(r) && c.idle <= r.idle
    ensures forall q :: q in queues ==> q in AddAllIdle(c, queues).idleSet
    decreases |queues|
  {
    if queues != [] {
      var init, last := queues[..|queues| - 1], queues[|queues| - 1];
      AddAllIdleAdds(c, init);
      AddIdleAdds(AddAllIdle(c, init), last);
      assert queues == init + [last];
    }
  }

  lemma AddIdleAdds(c: Core, q: QueueName)
    requires IdleWithinDeque(c)
    ensures var r := AddIdle(c, q);
            r.scheduled == c.scheduled && r.idleSet == c.idleSet + {q} && IdleWithinDeque(r) && c.idle <= r.idle
  {
  }

  lemma ProbeKeepsDeque(c: Core, batch: nat)
    requires IdleWithinDeque(c)
    ensures IdleWithinDeque(Probed(c, batch))
    ensures forall q :: q in c.idleSet && q !in Probed(c, batch).idleSet ==> q in c.scheduled || q in Found(c, batch)
  {
    var n := Reach(c.scheduled.Keys, c.idle, batch);
    assert c.idle == c.idle[..n] + c.idle[n..];
  }

  /** The pass set merges no two tokens: the prefix it takes has no repetition. */
  lemma PassTakesEachTokenOnce(s: State, taken: nat, q: QueueName)
    requires OneToken(s, q) && taken <= |s.channel|
    ensures multiset(s.channel)[q] == multiset(s.channel[taken..])[q] + if q in s.channel[..taken] then 1 else 0
  {
    assert s.channel == s.channel[..taken] + s.channel[taken..];
    assert multiset(s.channel[..taken])[q] <= 1;
    assert q in s.channel[..taken] <==> q in multiset(s.channel[..taken]);
  }

  lemma FinishMovesToken(s: State, e: Event, q: QueueName)
    requires Enabled(s, e) && e.Finish? && OneToken(s, q)
    ensures OneToken(After(s, e), q)
  {
  }

  lemma MovesToken(s: State, e: Event, q: QueueName)
    requires Enabled(s, e) && !e.Finish? && !e.StartPass? && !e.Seed? && OneToken(s, q)
    ensures OneToken(After(s, e), q)
  {
  }

  lemma KeepsToken(s: State, e: Event, q: QueueName)
    requires Enabled(s, e) && OneToken(s, q) && IdleWithinDeque(s.core)
    ensures OneToken(After(s, e), q)
  {
    if e.StartPass? {
      PassTakesEachTokenOnce(s, e.taken, q);
    } else if e.Seed? {
      AddAllIdleAdds(s.core, e.queues);
    } else if e.Finish? {
      FinishMovesToken(s, e, q);
    } else {
      MovesToken(s, e, q);
    }
  }

  lemma KeepsIdle(s: State, e: Event)
    requires Enabled(s, e) && IdleWithinDeque(s.core) && Remembered(s)
    ensures IdleWithinDeque(After(s, e).core) && Remembered(After(s, e))
  {
    match e
    case Seed(queues) => AddAllIdleAdds(s.core, queues);
    case Probe(batch) => ProbeKeepsDeque(s.core, batch);
    case _ =>
  }

  lemma KeepsCounts(s: State, e: Event)
    requires Enabled(s, e) && IdleWithinDeque(s.core) && CountsCapped(s.core)
    ensures CountsCapped(After(s, e).core)
  {
    if e.Seed? {
      AddAllIdleAdds(s.core, e.queues);
    }
  }

  lemma Keeps(s: State, e: Event)
    requires Inv(s) && Enabled(s, e)
    ensures Inv(After(s, e))
  {
    forall q ensures OneToken(After(s, e), q) {
      KeepsToken(s, e, q);
    }
    KeepsIdle(s, e);
    KeepsCounts(s, e);
  }

  lemma {:induction false} RunKeepsInvariant(states: seq<State>, events: seq<Event>, n: nat)
    requires IsRun(states, events) && n < |states|
    ensures Inv(states[n])
  {
    if n > 0 {
      RunKeepsInvariant(states, events, n - 1);
      Keeps(states[n - 1], events[n - 1]);
    }
  }

  /** In every reachable state: a queue has exactly one token if it is scheduled and none otherwise, the
      idle set lies within the deque, and no queue ever heard of is forgotten. */
  lemma QueuesAreTracked(states: seq<State>, events: seq<Event>, n: nat, q: QueueName)
    requires IsRun(states, events) && n < |states|
    ensures Tokens(states[n], q) == if q in states[n].core.scheduled then 1 else 0
    ensures q in states[n].core.idleSet ==> q in states[n].core.idle
    ensures q in states[n].known ==>
      q in states[n].core.scheduled || q in states[n].core.idleSet || q in states[n].hand
    ensures q in states[n].known && states[n].hand == [] ==>
      q in states[n].core.scheduled || q in states[n].core.idleSet
  {
    RunKeepsInvariant(states, events, n);
    assert OneToken(states[n], q);
  }

  ghost predicate OnlyInHand(s: State, q: QueueName) {
    q in s.known && q in s.hand && q !in s.core.scheduled && q !in s.core.idleSet
  }

  /** The hand is needed: seeding a queue and probing it reaches a state in which the queue is neither
      scheduled nor idle. */
  lemma ProbeHoldsQueue(q: QueueName) returns (states: seq<State>, events: seq<Event>)
    ensures IsRun(states, events) && events == [Seed([q]), Probe(1)] && OnlyInHand(states[2], q)
  {
    events := [Seed([q]), Probe(1)];
    var s0 := State(Core(map[], [], {}), multiset{}, [], {}, multiset{}, [], {}, 0);
    var s1 := After(s0, events[0]);
    SeedOne(q);
    states := [s0, s1, After(s1, events[1])];
    ProbeOne(s1.core, q);
  }

  lemma SeedOne(q: QueueName)
    ensures AddAllIdle(Core(map[], [], {}), [q]) == Core(map[], [q], {q})
  {
    var first := [q][..0];
    assert first == [] && AddAllIdle(Core(map[], [], {}), first) == Core(map[], [], {});
  }

  lemma ProbeOne(c: Core, q: QueueName)
    requires c == Core(map[], [q], {q})
    ensures Found(c, 1) == [q] && Probed(c, 1) == Core(map[], [], {})
  {
    assert Reach(c.scheduled.Keys, [q][1..], 0) == 0;
    assert Reach(c.scheduled.Keys, [q], 1) == 1 && [q][..1] == [q] && [q][1..] == [];
    assert Unscheduled(c.scheduled.Keys, [q][1..]) == [];
    assert EntrySet([q]) == {q};
  }

  // ---------------------------------------------------------------- wake-ups

  /** A later pass will see this queue: its token is on the way, or its current pass will run again. */
  predicate WillRun(s: State, q: QueueName) {
    || s.sends[q] + multiset(s.channel)[q] + s.timers[q] > 0
    || (q in s.pass && q in s.core.scheduled && s.core.scheduled[q].rerun)
  }

  predicate Schedules(s: State, e: Event, q: QueueName) {
    e == ScheduleQueue(q) || (e == ProbeNext && s.hand != [] && s.hand[0] == q)
  }

  predicate StartsPassOf(s: State, e: Event, q: QueueName) {
    e.StartPass? && e.taken <= |s.channel| && q in s.channel[..e.taken]
  }

  lemma SchedulingWakes(s: State, e: Event, q: QueueName)
    requires OneToken(s, q) && Enabled(s, e) && Schedules(s, e, q)
    ensures WillRun(After(s, e), q)
  {
  }

  lemma WakeUpStays(s: State, e: Event, q: QueueName)
    requires Enabled(s, e) && OneToken(s, q) && IdleWithinDeque(s.core) && WillRun(s, q)
    ensures WillRun(After(s, e), q) || StartsPassOf(s, e, q)
  {
    if e.Seed? {
      AddAllIdleAdds(s.core, e.queues);
    } else if e.Finish? {
      FinishWakes(s, e, q);
    } else {
      TokenStays(s, e, q);
    }
  }

  lemma FinishWakes(s: State, e: Event, q: QueueName)
    requires Enabled(s, e) && OneToken(s, q) && WillRun(s, q) && e.Finish?
    ensures WillRun(After(s, e), q)
  {
  }

  lemma TokenStays(s: State, e: Event, q: QueueName)
    requires Enabled(s, e) && OneToken(s, q) && WillRun(s, q) && !e.Seed? && !e.Finish?
    ensures WillRun(After(s, e), q) || StartsPassOf(s, e, q)
  {
  }

  lemma WakeUpStaysAt(states: seq<State>, events: seq<Event>, n: nat, q: QueueName)
    requires IsRun(states, events) && n < |events| && WillRun(states[n], q)
    ensures WillRun(states[n + 1], q) || StartsPassOf(states[n], events[n], q)
  {
    RunKeepsInvariant(states, events, n);
    assert OneToken(states[n], q);
    WakeUpStays(states[n], events[n], q);
  }

  lemma ScheduleWakesAt(states: seq<State>, events: seq<Event>, n: nat, q: QueueName)
    requires IsRun(states, events) && n < |events| && Schedules(states[n], events[n], q)
    ensures WillRun(states[n + 1], q)
  {
    RunKeepsInvariant(states, events, n);
    assert OneToken(states[n], q);
    SchedulingWakes(states[n], events[n], q);
  }

  ghost predicate PassStartedBetween(states: seq<State>, events: seq<Event>, n: nat, m: nat, q: QueueName)
    requires m <= |events| < |states|
  {
    exists i :: n <= i < m && StartsPassOf(states[i], events[i], q)
  }

  predicate StaysUntilPass(s: State, e: Event, s': State, q: QueueName) {
    WillRun(s, q) ==> WillRun(s', q) || StartsPassOf(s, e, q)
  }

  lemma {:induction false} WakeUpPersists(states: seq<State>, events: seq<Event>, n: nat, m: nat, q: QueueName)
    requires n <= m <= |events| < |states| && WillRun(states[n], q)
    requires forall i :: n <= i < m ==> StaysUntilPass(states[i], events[i], states[i + 1], q)
    ensures WillRun(states[m], q) || PassStartedBetween(states, events, n, m, q)
    decreases m - n
  {
    if n < m {
      assert StaysUntilPass(states[n], events[n], states[n + 1], q);
      if !StartsPassOf(states[n], events[n], q) {
        WakeUpPersists(states, events, n + 1, m, q);
      }
    }
  }

  /** No wake-up is lost: whatever happens after a `schedule_queue` call, a token outside the current
      pass or a set rerun flag remains until a pass of that queue starts. */
  lemma NoWakeUpIsLost(states: seq<State>, events: seq<Event>, n: nat, m: nat, q: QueueName)
    requires IsRun(states, events) && n < m <= |events|
    requires Schedules(states[n], events[n], q)
    ensures WillRun(states[m], q) || PassStartedBetween(states, events, n + 1, m, q)
  {
    ScheduleWakesAt(states, events, n, q);
    forall i | n + 1 <= i < m ensures StaysUntilPass(states[i], events[i], states[i + 1], q) {
      if WillRun(states[i], q) {
        WakeUpStaysAt(states, events, i, q);
      }
    }
    WakeUpPersists(states, events, n + 1, m, q);
  }

  lemma ActiveWakes(s: State, q: QueueName)
    requires OneToken(s, q) && q in s.pass
    ensures WillRun(After(s, Finish(q, Active)), q)
  {
  }

  /** A pass that found as many jobs as it had slots for is followed by another: a wake-up remains until a
      later pass of the queue starts, and the queue leaves the schedule only after that. */
  lemma ActivePassRunsAgain(states: seq<State>, events: seq<Event>, n: nat, m: nat, q: QueueName)
    requires IsRun(states, events) && n < m <= |events| && events[n] == Finish(q, Active)
    ensures WillRun(states[n + 1], q)
    ensures WillRun(states[m], q) || PassStartedBetween(states, events, n + 1, m, q)
    ensures q !in states[m].core.scheduled ==> PassStartedBetween(states, events, n + 1, m, q)
  {
    RunKeepsInvariant(states, events, n);
    assert OneToken(states[n], q);
    ActiveWakes(states[n], q);
    forall i | n + 1 <= i < m ensures StaysUntilPass(states[i], events[i], states[i + 1], q) {
      if WillRun(states[i], q) {
        WakeUpStaysAt(states, events, i, q);
      }
    }
    WakeUpPersists(states, events, n + 1, m, q);
    RunKeepsInvariant(states, events, m);
    assert OneToken(states[m], q);
  }

  lemma QuietParks(s: State, q: QueueName, outcome: PassOutcome)
    requires OneToken(s, q) && q in s.pass && (outcome == Idle || outcome == CapacityBlocked) && !WillRun(s, q)
    ensures var s' := After(s, Finish(q, outcome));
      q !in s'.core.scheduled && q in s'.core.idleSet && Tokens(s', q) == 0
  {
  }

  /** A pass that found fewer jobs, or no slot, and during which nothing asked for another, parks its queue. */
  lemma QuietPassParks(states: seq<State>, events: seq<Event>, n: nat, q: QueueName, outcome: PassOutcome)
    requires IsRun(states, events) && n < |events| && events[n] == Finish(q, outcome)
    requires (outcome == Idle || outcome == CapacityBlocked) && !WillRun(states[n], q)
    ensures q !in states[n + 1].core.scheduled && q in states[n + 1].core.idleSet && Tokens(states[n + 1], q) == 0
  {
    RunKeepsInvariant(states, events, n);
    assert OneToken(states[n], q);
    QuietParks(states[n], q, outcome);
  }

  /** So a queue goes idle only after a pass that started after the last call to schedule it. */
  lemma IdleOnlyAfterALaterPass(states: seq<State>, events: seq<Event>, n: nat, m: nat, q: QueueName)
    requires IsRun(states, events) && n < m <= |events|
    requires Schedules(states[n], events[n], q) && q !in states[m].core.scheduled
    ensures PassStartedBetween(states, events, n + 1, m, q)
  {
    NoWakeUpIsLost(states, events, n, m, q);
    RunKeepsInvariant(states, events, m);
    assert OneToken(states[m], q);
  }

  // ------------------------------------------------------------------ probes

  ghost function Probes(events: seq<Event>, n: nat, m: nat): nat
    requires n <= m <= |events|
  {
    if n == m then 0 else Probes(events, n, m - 1) + if events[m - 1].Probe? then 1 else 0
  }

  ghost predicate ProbesWith(events: seq<Event>, batch: nat) {
    forall i :: 0 <= i < |events| && events[i].Probe? ==> events[i].batch == batch
  }

  /** What one step does to entry k of the deque: it stays in the deque, nearer the front by what was
      popped, or a probe took it. A probe that does not reach it pops at least a batch. */
  predicate EntryMoves(s: State, e: Event, s': State, k: nat)
    requires k < |s.core.idle|
  {
    var q := s.core.idle[k];
    var popped := s'.pops - s.pops;
    if popped > k then e.Probe? && (q in s'.core.scheduled || q in s'.hand)
    else
      && 0 <= popped && (e.Probe? ==> popped >= e.batch)
      && k - popped < |s'.core.idle| && s'.core.idle[k - popped] == q
  }

  lemma ProbeShifts(s: State, e: Event, k: nat)
    requires Enabled(s, e) && e.Probe? && k < |s.core.idle|
    ensures EntryMoves(s, e, After(s, e), k)
  {
    ReachFindsBatch(s.core.scheduled.Keys, s.core.idle, e.batch);
  }

  ghost predicate DequeMoves(s: State, e: Event, s': State) {
    forall k :: 0 <= k < |s.core.idle| ==> EntryMoves(s, e, s', k)
  }

  lemma DequeOnlyGrows(s: State, e: Event)
    requires Enabled(s, e) && !e.Seed? && !e.Probe?
    ensures s.core.idle <= After(s, e).core.idle && After(s, e).pops == s.pops
  {
  }

  lemma DequeShifts(s: State, e: Event)
    requires IdleWithinDeque(s.core) && Enabled(s, e)
    ensures DequeMoves(s, e, After(s, e))
  {
    var s' := After(s, e);
    forall k | 0 <= k < |s.core.idle| ensures EntryMoves(s, e, s', k) {
      if e.Seed? {
        AddAllIdleAdds(s.core, e.queues);
      } else if e.Probe? {
        ProbeShifts(s, e, k);
      } else {
        DequeOnlyGrows(s, e);
      }
    }
  }

  ghost predicate AllMove(states: seq<State>, events: seq<Event>) {
    && |states| == |events| + 1
    && forall i :: 0 <= i < |events| ==> DequeMoves(states[i], events[i], states[i + 1])
  }

  lemma RunMoves(states: seq<State>, events: seq<Event>)
    requires IsRun(states, events)
    ensures AllMove(states, events)
  {
    forall i | 0 <= i < |events| ensures DequeMoves(states[i], events[i], states[i + 1]) {
      RunKeepsInvariant(states, events, i);
      DequeShifts(states[i], events[i]);
    }
  }

  /** After p probes an entry is at least p batches nearer the front, or probe i has taken it. */
  lemma {:induction false} EntryAdvances(states: seq<State>, events: seq<Event>, n: nat, m: nat, k: nat, batch: nat)
    returns (i: nat)
    requires AllMove(states, events) && n <= m <= |events| && ProbesWith(events, batch)
    requires k < |states[n].core.idle|
    ensures n <= i <= m
    ensures i < m ==> (var q := states[n].core.idle[k];
                       events[i].Probe? && (q in states[i + 1].core.scheduled || q in states[i + 1].hand))
    ensures i == m ==> Probes(events, n, m) * batch <= k
    decreases m - n
  {
    i := n;
    if n < m {
      assert DequeMoves(states[n], events[n], states[n + 1]);
      assert EntryMoves(states[n], events[n], states[n + 1], k);
      var popped := states[n + 1].pops - states[n].pops;
      if popped <= k {
        i := EntryAdvances(states, events, n + 1, m, k - popped, batch);
        ProbesFromFront(events, n, m);
      }
    }
  }

  lemma {:induction false} ProbesFromFront(events: seq<Event>, n: nat, m: nat)
    requires n < m <= |events|
    ensures Probes(events, n, m) == Probes(events, n + 1, m) + if events[n].Probe? then 1 else 0
    decreases m
  {
    if n + 1 < m {
      ProbesFromFront(events, n, m - 1);
    }
  }

  /** What a probe holds in hand is scheduled before the probe ends. */
  lemma {:induction false} HandIsScheduled(states: seq<State>, events: seq<Event>, n: nat, m: nat, q: QueueName)
    returns (t: nat)
    requires IsRun(states, events) && n <= m <= |events|
    requires q in states[n].core.scheduled || q in states[n].hand
    ensures n <= t <= m && (q in states[t].core.scheduled || (t == m && q in states[m].hand))
    decreases m
  {
    if m == n {
      t := m;
    } else {
      t := HandIsScheduled(states, events, n, m - 1, q);
      if q !in states[t].core.scheduled {
        t := m;
        HandShrinks(states[m - 1], events[m - 1], q);
      }
    }
  }

  lemma HandShrinks(s: State, e: Event, q: QueueName)
    requires Enabled(s, e) && q in s.hand
    ensures q in After(s, e).core.scheduled || q in After(s, e).hand
  {
  }

  /** An entry k places behind the front of the idle deque is scheduled within ⌊k / batch⌋ + 1 probes,
      however many stale and repeated entries stand before it. */
  lemma IdleEntryIsProbed(states: seq<State>, events: seq<Event>, n: nat, m: nat, k: nat, batch: nat)
    returns (t: nat)
    requires IsRun(states, events) && n <= m <= |events| && batch > 0 && ProbesWith(events, batch)
    requires k < |states[n].core.idle| && Probes(events, n, m) >= k / batch + 1 && states[m].hand == []
    ensures n < t <= m && states[n].core.idle[k] in states[t].core.scheduled
  {
    RunMoves(states, events);
    var i := EntryAdvances(states, events, n, m, k, batch);
    if i == m {
      ProbesPass(k, batch, Probes(events, n, m));
    }
    t := HandIsScheduled(states, events, i + 1, m, states[n].core.idle[k]);
  }

  lemma ProbesPass(k: nat, batch: nat, probes: nat)
    requires batch > 0 && probes >= k / batch + 1
    ensures probes * batch > k
  {
    assert (k / batch + 1) * batch > k;
    assert probes * batch >= (k / batch + 1) * batch;
  }
}
