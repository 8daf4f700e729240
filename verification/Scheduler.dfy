/** The engine's coalescing scheduler: the state under its lock. */
module Scheduler {
  import opened Types

  datatype Schedule = Schedule(rerun: bool, retryCount: nat)

  datatype PassOutcome = Active | Idle | CapacityBlocked | Retry

  /** `SchedulerState`. `idle` is cleaned lazily: it may hold stale and repeated entries. */
  datatype Core = Core(scheduled: map<QueueName, Schedule>, idle: seq<QueueName>, idleSet: set<QueueName>)

  /** What a pass leaves to be done once the lock is released. */
  datatype Next = Nothing | SendToken | StartTimer(delay: nat)

  const MAX_RETRY_COUNT: nat := 7
  const MAX_RETRY_DELAY: nat := 1_000

  function Min(a: nat, b: nat): nat {
    if a < b then a else b
  }

  function Pow2(n: nat): nat {
    if n == 0 then 1 else 2 * Pow2(n - 1)
  }

  function RetryDelay(retryCount: nat): nat {
    Min(10 * Pow2(retryCount), MAX_RETRY_DELAY)
  }

  function Enter(c: Core, q: QueueName): Core {
    if q in c.scheduled then c.(scheduled := c.scheduled[q := c.scheduled[q].(rerun := true)])
    else c.(scheduled := c.scheduled[q := Schedule(false, 0)], idleSet := c.idleSet - {q})
  }

  function AddIdle(c: Core, q: QueueName): Core {
    if q in c.idleSet then c else c.(idleSet := c.idleSet + {q}, idle := c.idle + [q])
  }

  function Leave(c: Core, q: QueueName, outcome: PassOutcome): (Core, Next) {
    if q !in c.scheduled then (c, Nothing)
    else if outcome == Retry then
      var count := Min(c.scheduled[q].retryCount + 1, MAX_RETRY_COUNT);
      (c.(scheduled := c.scheduled[q := Schedule(false, count)]), StartTimer(RetryDelay(count)))
    else if outcome == Active || c.scheduled[q].rerun then
      (c.(scheduled := c.scheduled[q := Schedule(false, 0)]), SendToken)
    else
      (AddIdle(c.(scheduled := c.scheduled - {q}), q), Nothing)
  }

  function AddAllIdle(c: Core, queues: seq<QueueName>): Core
    decreases |queues|
  {
    if queues == [] then c else AddIdle(AddAllIdle(c, queues[..|queues| - 1]), queues[|queues| - 1])
  }

  /** Each of the queues that was not there is here, once. */
  ghost predicate Fresh(there: set<QueueName>, queues: seq<QueueName>, added: seq<QueueName>) {
    && (forall i, k :: 0 <= i < k < |added| ==> added[i] != added[k])
    && (forall q :: q in added <==> q in queues && q !in there)
  }

  /** Seeding adds to the set, and at the back of the deque what the set did not have. */
  lemma {:induction false} SeedAdds(c: Core, queues: seq<QueueName>)
    ensures var r := AddAllIdle(c, queues);
      && r.scheduled == c.scheduled && r.idleSet == c.idleSet + (set q | q in queues)
      && c.idle <= r.idle && Fresh(c.idleSet, queues, r.idle[|c.idle|..])
    decreases |queues|
  {
    if queues != [] {
      var init, last := queues[..|queues| - 1], queues[|queues| - 1];
      SeedAdds(c, init);
      assert queues == init + [last];
      SeedOneMore(c.idleSet, AddAllIdle(c, init), init, last, |c.idle|);
      assert (set q | q in queues) == (set q | q in init) + {last};
    }
  }

  lemma SeedOneMore(there: set<QueueName>, c: Core, queues: seq<QueueName>, q: QueueName, n: nat)
    requires n <= |c.idle| && Fresh(there, queues, c.idle[n..]) && c.idleSet == there + set x | x in queues
    ensures var r := AddIdle(c, q); c.idle <= r.idle && Fresh(there, queues + [q], r.idle[n..])
  {
    var r := AddIdle(c, q);
    if q !in c.idleSet {
      assert r.idle[n..] == c.idle[n..] + [q];
    }
  }

  // ------------------------------------------------------------------- probe

  /** How many entries a probe takes off the front so as to find `batch` queues that are not scheduled. */
  function Reach(scheduled: set<QueueName>, idle: seq<QueueName>, batch: nat): (n: nat)
    ensures n <= |idle|
    decreases |idle|
  {
    if batch == 0 || idle == [] then 0
    else if idle[0] in scheduled then 1 + Reach(scheduled, idle[1..], batch)
    else 1 + Reach(scheduled, idle[1..], batch - 1)
  }

  function Unscheduled(scheduled: set<QueueName>, entries: seq<QueueName>): (r: seq<QueueName>)
    ensures forall q :: q in r <==> q in entries && q !in scheduled
  {
    if entries == [] then []
    else if entries[0] in scheduled then Unscheduled(scheduled, entries[1..])
    else [entries[0]] + Unscheduled(scheduled, entries[1..])
  }

  ghost function EntrySet(entries: seq<QueueName>): set<QueueName> {
    set q | q in entries
  }

  ghost function Probed(c: Core, batch: nat): Core {
    var n := Reach(c.scheduled.Keys, c.idle, batch);
    c.(idle := c.idle[n..], idleSet := c.idleSet - EntrySet(c.idle[..n]))
  }

  ghost function Found(c: Core, batch: nat): seq<QueueName> {
    Unscheduled(c.scheduled.Keys, c.idle[..Reach(c.scheduled.Keys, c.idle, batch)])
  }

  lemma UnscheduledSplits(scheduled: set<QueueName>, a: seq<QueueName>, b: seq<QueueName>)
    ensures Unscheduled(scheduled, a + b) == Unscheduled(scheduled, a) + Unscheduled(scheduled, b)
  {
    if a == [] {
      assert a + b == b;
    } else {
      assert (a + b)[1..] == a[1..] + b;
      UnscheduledSplits(scheduled, a[1..], b);
    }
  }

  lemma OneMoreEntry(scheduled: set<QueueName>, all: seq<QueueName>, n: nat)
    requires n < |all|
    ensures Unscheduled(scheduled, all[..n + 1])
      == Unscheduled(scheduled, all[..n]) + if all[n] in scheduled then [] else [all[n]]
    ensures EntrySet(all[..n + 1]) == EntrySet(all[..n]) + {all[n]}
  {
    assert all[..n + 1] == all[..n] + [all[n]];
    UnscheduledSplits(scheduled, all[..n], [all[n]]);
    assert [all[n]][1..] == [];
  }

  /** A probe stops exactly when it has its batch or the deque is empty, so it takes at least a batch of entries off. */
  lemma {:induction false} ReachFindsBatch(scheduled: set<QueueName>, idle: seq<QueueName>, batch: nat)
    ensures var n := Reach(scheduled, idle, batch);
            var found := Unscheduled(scheduled, idle[..n]);
            && |found| <= batch && n >= Min(batch, |idle|)
            && (|found| == batch || n == |idle|)
            && (forall m :: 0 <= m < n ==> |Unscheduled(scheduled, idle[..m])| < batch)
    decreases |idle|
  {
    var n := Reach(scheduled, idle, batch);
    if n > 0 {
      var rest := if idle[0] in scheduled then batch else batch - 1;
      ReachFindsBatch(scheduled, idle[1..], rest);
      assert idle[..n][1..] == idle[1..][..n - 1];
      forall m | 0 <= m < n ensures |Unscheduled(scheduled, idle[..m])| < batch {
        if m > 0 {
          assert idle[..m][1..] == idle[1..][..m - 1];
        }
      }
    }
  }

  /** A count that satisfies that description is the number of entries a probe takes. */
  lemma ReachIsOnly(scheduled: set<QueueName>, idle: seq<QueueName>, batch: nat, n: nat)
    requires n <= |idle|
    requires |Unscheduled(scheduled, idle[..n])| == batch || n == |idle|
    requires forall m :: 0 <= m < n ==> |Unscheduled(scheduled, idle[..m])| < batch
    ensures n == Reach(scheduled, idle, batch)
  {
    ReachFindsBatch(scheduled, idle, batch);
  }

  /** A probe that has taken `n` entries off the front. */
  ghost predicate Probing(before: Core, batch: nat, n: nat, queues: seq<QueueName>, now: Core) {
    && n <= |before.idle| && |queues| <= batch && queues == Unscheduled(before.scheduled.Keys, before.idle[..n])
    && now == before.(idle := before.idle[n..], idleSet := before.idleSet - EntrySet(before.idle[..n]))
    && (forall m :: 0 <= m < n ==> |Unscheduled(before.scheduled.Keys, before.idle[..m])| < batch)
  }

  lemma StartProbe(c: Core, batch: nat)
    ensures Probing(c, batch, 0, [], c)
  {
    assert c.idle[..0] == [] && EntrySet(c.idle[..0]) == {};
  }

  lemma ProbeOneMore(before: Core, batch: nat, n: nat, queues: seq<QueueName>, now: Core)
    requires Probing(before, batch, n, queues, now) && |queues| < batch && now.idle != []
    ensures var q := now.idle[0];
      Probing(before, batch, n + 1, if q in now.scheduled then queues else queues + [q],
              now.(idle := now.idle[1..], idleSet := now.idleSet - {q}))
  {
    OneMoreEntry(before.scheduled.Keys, before.idle, n);
    assert now.idle[0] == before.idle[n] && now.idle[1..] == before.idle[n + 1..];
    var q, done := before.idle[n], EntrySet(before.idle[..n]);
    assert before.idleSet - done - {q} == before.idleSet - (done + {q});
  }

  lemma ProbeEnds(before: Core, batch: nat, n: nat, queues: seq<QueueName>, now: Core)
    requires Probing(before, batch, n, queues, now) && (|queues| >= batch || now.idle == [])
    ensures queues == Found(before, batch) && now == Probed(before, batch)
  {
    ReachIsOnly(before.scheduled.Keys, before.idle, batch, n);
  }

  function EnterAll(c: Core, queues: seq<QueueName>): Core
    decreases |queues|
  {
    if queues == [] then c else Enter(EnterAll(c, queues[..|queues| - 1]), queues[|queues| - 1])
  }

  /** First occurrences, in order: repeated deque entries send one token. */
  function Distinct(queues: seq<QueueName>): (r: seq<QueueName>)
    ensures forall q :: q in r <==> q in queues
    ensures forall i, k :: 0 <= i < k < |r| ==> r[i] != r[k]
    decreases |queues|
  {
    if queues == [] then []
    else
      var init := queues[..|queues| - 1];
      var last := queues[|queues| - 1];
      assert queues == init + [last];
      if last in init then Distinct(init) else Distinct(init) + [last]
  }

  lemma EnterAllKeys(c: Core, queues: seq<QueueName>)
    ensures EnterAll(c, queues).scheduled.Keys == c.scheduled.Keys + EntrySet(queues)
    decreases |queues|
  {
    if queues != [] {
      var init := queues[..|queues| - 1];
      EnterAllKeys(c, init);
      assert queues == init + [queues[|queues| - 1]];
    }
  }

  lemma EnterOneMore(c: Core, queues: seq<QueueName>, i: nat)
    requires i < |queues| && queues[i] !in c.scheduled
    ensures EnterAll(c, queues[..i + 1]) == Enter(EnterAll(c, queues[..i]), queues[i])
    ensures queues[i] in EnterAll(c, queues[..i]).scheduled <==> queues[i] in queues[..i]
    ensures Distinct(queues[..i + 1]) == Distinct(queues[..i]) + if queues[i] in queues[..i] then [] else [queues[i]]
  {
    assert queues[..i + 1][..i] == queues[..i];
    EnterAllKeys(c, queues[..i]);
  }

  // ------------------------------------------------------------ retry delays

  lemma Pow2Grows(k: nat)
    requires k >= 7
    ensures Pow2(k) >= 128
  {
    assert Pow2(7) == 128;
    if k > 7 {
      Pow2Grows(k - 1);
    }
  }

  /** The delays themselves, in milliseconds. */
  lemma Delays()
    ensures RetryDelay(1) == 20 && RetryDelay(2) == 40 && RetryDelay(3) == 80 && RetryDelay(4) == 160
    ensures RetryDelay(5) == 320 && RetryDelay(6) == 640 && RetryDelay(7) == 1000
  {
    assert Pow2(4) == 16 && Pow2(7) == 128;
  }

  function Retries(c: Core, q: QueueName, k: nat): Core {
    if k == 0 then c else Leave(Retries(c, q, k - 1), q, Retry).0
  }

  /** The k-th retry in a row waits min(10 * 2^k, 1000) milliseconds: capping the count never shortens the wait. */
  lemma {:induction false} BackoffDoubles(c: Core, q: QueueName, k: nat)
    requires q in c.scheduled && c.scheduled[q].retryCount == 0 && k > 0
    ensures q in Retries(c, q, k - 1).scheduled
    ensures Leave(Retries(c, q, k - 1), q, Retry).1 == StartTimer(Min(10 * Pow2(k), 1_000))
    ensures q in Retries(c, q, k).scheduled && Retries(c, q, k).scheduled[q].retryCount == Min(k, 7)
  {
    if k > 1 {
      BackoffDoubles(c, q, k - 1);
    }
    assert Pow2(7) == 128;
    if k >= 7 {
      Pow2Grows(k);
    }
  }

  // ------------------------------------------------------------ in place

  class QueueScheduler {
    var scheduled: map<QueueName, Schedule>
    var idle: seq<QueueName>
    var idleSet: set<QueueName>
    /** Wake-up tokens in the channel, oldest first. */
    var channel: seq<QueueName>

    ghost function State(): Core
      reads this
    {
      Core(scheduled, idle, idleSet)
    }

    constructor ()
      ensures State() == Core(map[], [], {}) && channel == []
    {
      scheduled, idle, idleSet, channel := map[], [], {}, [];
    }

    method ScheduleQueue(queue: QueueName)
      modifies this
      ensures State() == Enter(old(State()), queue)
      ensures queue in old(scheduled) ==>
        && scheduled == old(scheduled)[queue := old(scheduled)[queue].(rerun := true)]
        && idle == old(idle) && idleSet == old(idleSet) && channel == old(channel)
      ensures queue !in old(scheduled) ==>
        && scheduled == old(scheduled)[queue := Schedule(false, 0)]
        && idle == old(idle) && idleSet == old(idleSet) - {queue} && channel == old(channel) + [queue]
    {
      var shouldSend := queue !in scheduled;
      if !shouldSend {
        scheduled := scheduled[queue := scheduled[queue].(rerun := true)];
      } else {
        idleSet := idleSet - {queue};
        scheduled := scheduled[queue := Schedule(false, 0)];
      }
      if shouldSend {
        channel := channel + [queue];
      }
    }

    /** Returns the delay of the timer to start, if any. */
    method FinishPass(queue: QueueName, outcome: PassOutcome) returns (retry: Option<nat>)
      modifies this
      ensures State() == Leave(old(State()), queue, outcome).0
      ensures channel == old(channel) + if Leave(old(State()), queue, outcome).1 == SendToken then [queue] else []
      ensures retry.Some? <==> outcome == Retry && queue in old(scheduled)
      ensures retry.Some? ==> Leave(old(State()), queue, outcome).1 == StartTimer(retry.value)
      ensures queue !in old(scheduled) ==> State() == old(State()) && channel == old(channel)
      ensures queue in old(scheduled) ==>
        var runsAgain := outcome == Active || (outcome != Retry && old(scheduled)[queue].rerun);
        var retries := if old(scheduled)[queue].retryCount < 7 then old(scheduled)[queue].retryCount + 1 else 7;
        if runsAgain then
          && scheduled == old(scheduled)[queue := Schedule(false, 0)]
          && channel == old(channel) + [queue] && idle == old(idle) && idleSet == old(idleSet)
        else if outcome == Retry then
          && scheduled == old(scheduled)[queue := Schedule(false, retries)]
          && channel == old(channel) && idle == old(idle) && idleSet == old(idleSet)
        else
          && scheduled == old(scheduled) - {queue} && channel == old(channel)
          && idleSet == old(idleSet) + {queue}
          && idle == if queue in old(idleSet) then old(idle) else old(idle) + [queue]
    {
      retry := None;
      if queue !in scheduled {
        return;
      }
      var schedule := scheduled[queue];
      var shouldSend := false;
      match outcome {
        case Active =>
          scheduled := scheduled[queue := Schedule(false, 0)];
          shouldSend := true;
        case Idle =>
          shouldSend := RerunOrPark(queue);
        case CapacityBlocked =>
          shouldSend := RerunOrPark(queue);
        case Retry =>
          var count := Min(schedule.retryCount + 1, 7);
          scheduled := scheduled[queue := Schedule(false, count)];
          retry := Some(Min(10 * Pow2(count), 1_000));
      }
      if shouldSend {
        channel := channel + [queue];
      }
    }

    method RerunOrPark(queue: QueueName) returns (shouldSend: bool)
      requires queue in scheduled
      modifies this
      ensures channel == old(channel)
      ensures State() == Leave(old(State()), queue, Idle).0
      ensures shouldSend <==> old(scheduled[queue].rerun)
    {
      if scheduled[queue].rerun {
        scheduled := scheduled[queue := Schedule(false, 0)];
        return true;
      }
      scheduled := scheduled - {queue};
      if queue !in idleSet {
        idleSet := idleSet + {queue};
        idle := idle + [queue];
      }
      return false;
    }

    method ResumeRetry(queue: QueueName)
      modifies this
      ensures State() == old(State())
      ensures channel == old(channel) + if queue in scheduled then [queue] else []
    {
      if queue in scheduled {
        channel := channel + [queue];
      }
    }

    method SeedIdleQueues(queues: seq<QueueName>)
      modifies this
      ensures channel == old(channel)
      ensures State() == AddAllIdle(old(State()), queues)
      ensures scheduled == old(scheduled) && idleSet == old(idleSet) + set q | q in queues
      ensures old(idle) <= idle && Fresh(old(idleSet), queues, idle[|old(idle)|..])
    {
      SeedAdds(State(), queues);
      var i := 0;
      while i < |queues|
        invariant i <= |queues| && channel == old(channel)
        invariant State() == AddAllIdle(old(State()), queues[..i])
      {
        assert queues[..i + 1][..i] == queues[..i];
        if queues[i] !in idleSet {
          idleSet := idleSet + {queues[i]};
          idle := idle + [queues[i]];
        }
        i := i + 1;
      }
      assert queues[..i] == queues;
    }

    method PopOne(ghost before: Core, batch: nat, ghost n: nat, found: seq<QueueName>) returns (queues: seq<QueueName>)
      requires Probing(before, batch, n, found, State()) && |found| < batch && idle != []
      modifies this`idle, this`idleSet
      ensures Probing(before, batch, n + 1, queues, State()) && |idle| < |old(idle)|
    {
      ProbeOneMore(before, batch, n, found, State());
      var queue := idle[0];
      idle, idleSet := idle[1..], idleSet - {queue};
      queues := if queue in scheduled then found else found + [queue];
    }

    /** The locked part of a probe. */
    method PopIdle(batch: nat) returns (queues: seq<QueueName>)
      modifies this
      ensures channel == old(channel)
      ensures queues == Found(old(State()), batch) && State() == Probed(old(State()), batch)
    {
      ghost var n := 0;
      queues := [];
      StartProbe(State(), batch);
      while |queues| < batch && idle != []
        invariant channel == old(channel) && Probing(old(State()), batch, n, queues, State())
        decreases |idle|
      {
        queues := PopOne(old(State()), batch, n, queues);
        n := n + 1;
      }
      ProbeEnds(old(State()), batch, n, queues, State());
    }

    method ProbeIdleQueues(batch: nat)
      modifies this
      ensures var found := Found(old(State()), batch);
              && State() == EnterAll(Probed(old(State()), batch), found)
              && channel == old(channel) + Distinct(found)
              && scheduled.Keys == old(scheduled).Keys + EntrySet(found)
    {
      var queues := PopIdle(batch);
      ghost var probed := State();
      var i := 0;
      assert queues[..0] == [];
      while i < |queues|
        invariant i <= |queues|
        invariant State() == EnterAll(probed, queues[..i])
        invariant channel == old(channel) + Distinct(queues[..i])
      {
        EnterOneMore(probed, queues, i);
        ScheduleQueue(queues[i]);
        i := i + 1;
      }
      assert queues[..i] == queues;
      EnterAllKeys(probed, queues);
    }
  }
}
