/** The dispatcher's worker registry: slot accounting and the choice of a worker. */
module Registry {
  import opened Types

  /** Instance UUIDs, compared as numbers. */
  type WorkerId = nat

  type U32 = x: int | 0 <= x <= 0xFFFF_FFFF

  datatype WorkerState = WorkerState(
    queueName: QueueName,
    capacity: U32,
    running: U32,
    freeSlots: U32,
    reserved: U32,
    inFlight: set<DispatchId>,
    draining: bool)

  type Workers = map<WorkerId, WorkerState>

  function SaturatingAdd(a: U32, b: U32): U32 {
    if a + b > U32_MAX then U32_MAX else a + b
  }

  function SaturatingSub(a: U32, b: U32): U32 {
    if a < b then 0 else a - b
  }

  function InFlightCount(s: WorkerState): U32 {
    if |s.inFlight| > U32_MAX then U32_MAX else |s.inFlight|
  }

  function UsedSlots(s: WorkerState): U32 {
    SaturatingAdd(s.reserved, if s.running > InFlightCount(s) then s.running else InFlightCount(s))
  }

  function AvailableSlots(s: WorkerState): U32 {
    SaturatingSub(s.capacity, UsedSlots(s))
  }

  predicate Eligible(s: WorkerState, queue: QueueName) {
    !s.draining && s.queueName == queue && AvailableSlots(s) > 0
  }

  // ----------------------------------------------------------- in plain numbers

  /** Slots taken: reservations, and whichever is larger of what runs and what is in flight. */
  ghost function Busy(s: WorkerState): int {
    s.reserved + if s.running > |s.inFlight| then s.running else |s.inFlight|
  }

  /** The share of its capacity a worker has taken. */
  ghost function Load(s: WorkerState): real {
    Busy(s) as real / (if s.capacity > 1 then s.capacity else 1) as real
  }

  /** Takes another job of this queue. */
  ghost predicate HasRoom(s: WorkerState, queue: QueueName) {
    !s.draining && s.queueName == queue && Busy(s) < s.capacity
  }

  /** Saturating 32-bit arithmetic gives the true number of free slots, however large the worker's claims. */
  lemma FreeSlotsAreExact(s: WorkerState)
    ensures AvailableSlots(s) == if Busy(s) < s.capacity then s.capacity - Busy(s) else 0
    ensures forall queue :: Eligible(s, queue) <==> HasRoom(s, queue)
  {
  }

  lemma RatioOrder(x: int, a: int, y: int, b: int)
    requires a > 0 && b > 0
    ensures x as real / a as real <= y as real / b as real <==> x * b <= y * a
  {
    var p, q := x as real / a as real, y as real / b as real;
    var ra, rb := a as real, b as real;
    assert p * ra == x as real && q * rb == y as real;
    assert ra * rb > 0.0;
    assert (p <= q) <==> p * (ra * rb) <= q * (ra * rb);
    assert p * (ra * rb) == x as real * rb && q * (ra * rb) == y as real * ra;
    assert x as real * rb == (x * b) as real && y as real * ra == (y * a) as real;
  }

  /** Cross-multiplying compares the loads themselves. */
  lemma LoadsCompare(a: WorkerState, b: WorkerState)
    requires Busy(a) <= U32_MAX && Busy(b) <= U32_MAX
    ensures LoadAtMost(a, b) <==> Load(a) <= Load(b)
  {
    RatioOrder(Busy(a), Scale(a), Busy(b), Scale(b));
  }

  // ------------------------------------------------------------- load order

  function Scale(s: WorkerState): (n: nat)
    ensures n > 0
  {
    if s.capacity > 1 then s.capacity else 1
  }

  /** `compare_load`: used/capacity ratios, compared by cross-multiplication. */
  predicate LoadAtMost(a: WorkerState, b: WorkerState) {
    UsedSlots(a) * Scale(b) <= UsedSlots(b) * Scale(a)
  }

  /** Both products fit the 64-bit words they are computed in. */
  lemma ProductsFit(a: WorkerState, b: WorkerState)
    ensures 0 <= UsedSlots(a) * Scale(b) <= 0xFFFF_FFFF_FFFF_FFFF
  {
    assert UsedSlots(a) * Scale(b) <= U32_MAX * Scale(b) <= U32_MAX * U32_MAX;
  }

  lemma Scaled(x: nat, y: nat, z: nat)
    requires x <= y
    ensures x * z <= y * z
    ensures x < y && z > 0 ==> x * z < y * z
  {
    assert (y - x) * z == y * z - x * z;
  }

  lemma Unscaled(x: nat, y: nat, z: nat)
    requires z > 0
    ensures x * z <= y * z ==> x <= y
    ensures x * z < y * z ==> x < y
  {
    if y <= x {
      Scaled(y, x, z);
    }
  }

  lemma Regroup(x: nat, y: nat, z: nat)
    ensures (x * y) * z == (x * z) * y
  {
    assert (x * y) * z == x * (y * z) && (x * z) * y == x * (z * y);
  }

  lemma RatioTransitive(a: nat, ca: nat, b: nat, cb: nat, c: nat, cc: nat)
    requires cb > 0 && a * cb <= b * ca && b * cc <= c * cb
    ensures a * cc <= c * ca
    ensures (a * cb < b * ca && cc > 0) || (b * cc < c * cb && ca > 0) ==> a * cc < c * ca
  {
    Scaled(a * cb, b * ca, cc);
    Scaled(b * cc, c * cb, ca);
    Regroup(a, cb, cc);
    Regroup(b, ca, cc);
    Regroup(c, cb, ca);
    Unscaled(a * cc, c * ca, cb);
  }

  /** Strictly before in the order the registry picks by: lower load first, then lower id. */
  predicate Precedes(workers: Workers, a: WorkerId, b: WorkerId)
    requires a in workers && b in workers
  {
    LoadAtMost(workers[a], workers[b]) && (!LoadAtMost(workers[b], workers[a]) || a < b)
  }

  lemma PrecedesTransitive(workers: Workers, a: WorkerId, b: WorkerId, c: WorkerId)
    requires a in workers && b in workers && c in workers
    requires Precedes(workers, a, b) && Precedes(workers, b, c)
    ensures Precedes(workers, a, c)
  {
    var x, y, z := workers[a], workers[b], workers[c];
    RatioTransitive(UsedSlots(x), Scale(x), UsedSlots(y), Scale(y), UsedSlots(z), Scale(z));
  }

  /** The order is by load, then by id. */
  lemma PrecedesByLoad(workers: Workers, queue: QueueName, a: WorkerId, b: WorkerId)
    requires a in workers && b in workers && HasRoom(workers[a], queue) && HasRoom(workers[b], queue)
    ensures Precedes(workers, a, b) <==>
      Load(workers[a]) < Load(workers[b]) || (Load(workers[a]) == Load(workers[b]) && a < b)
  {
    LoadsCompare(workers[a], workers[b]);
    LoadsCompare(workers[b], workers[a]);
  }

  /** The worker with the least load of those with room, and of those the one with the least id. */
  ghost predicate LeastLoaded(workers: Workers, queue: QueueName, id: WorkerId) {
    && id in workers && HasRoom(workers[id], queue)
    && forall other :: other in workers && other != id && HasRoom(workers[other], queue) ==>
         Load(workers[id]) < Load(workers[other]) || (Load(workers[id]) == Load(workers[other]) && id < other)
  }

  lemma IdealIsLeastLoaded(workers: Workers, queue: QueueName, id: WorkerId)
    ensures Ideal(workers, queue, id) <==> LeastLoaded(workers, queue, id)
  {
    forall w | w in workers ensures Eligible(workers[w], queue) <==> HasRoom(workers[w], queue) {
      FreeSlotsAreExact(workers[w]);
    }
    if id in workers && HasRoom(workers[id], queue) {
      forall other | other in workers && other != id && HasRoom(workers[other], queue)
        ensures Precedes(workers, id, other) <==>
          Load(workers[id]) < Load(workers[other]) || (Load(workers[id]) == Load(workers[other]) && id < other)
      {
        PrecedesByLoad(workers, queue, id, other);
      }
    }
  }

  /** The worker every eligible other comes after. */
  ghost predicate Ideal(workers: Workers, queue: QueueName, id: WorkerId) {
    && id in workers && Eligible(workers[id], queue)
    && forall other :: other in workers && other != id && Eligible(workers[other], queue) ==>
         Precedes(workers, id, other)
  }

  /** There is only one, so the order in which the map is scanned does not matter. */
  lemma IdealIsUnique(workers: Workers, queue: QueueName, a: WorkerId, b: WorkerId)
    requires Ideal(workers, queue, a) && Ideal(workers, queue, b)
    ensures a == b
  {
    if a != b {
      assert false;
    }
  }

  method FindIdealWorker(workers: Workers, queue: QueueName) returns (ideal: Option<WorkerId>)
    ensures ideal.None? ==> forall id :: id in workers ==> !Eligible(workers[id], queue)
    ensures ideal.Some? ==> Ideal(workers, queue, ideal.value) && LeastLoaded(workers, queue, ideal.value)
    ensures ideal.None? ==> forall id :: id in workers ==> !HasRoom(workers[id], queue)
  {
    ideal := None;
    var todo := workers.Keys;
    while todo != {}
      invariant todo <= workers.Keys
      invariant ideal.None? ==> forall id :: id in workers && id !in todo ==> !Eligible(workers[id], queue)
      invariant ideal.Some? ==> ideal.value in workers && ideal.value !in todo && Eligible(workers[ideal.value], queue)
      invariant ideal.Some? ==>
        forall id :: id in workers && id !in todo && id != ideal.value && Eligible(workers[id], queue) ==>
        Precedes(workers, ideal.value, id)
      decreases |todo|
    {
      var id := Pick(todo);
      todo := todo - {id};
      if Eligible(workers[id], queue) {
        if ideal.None? {
          ideal := Some(id);
        } else if Precedes(workers, id, ideal.value) {
          forall other | other in workers && other !in todo && other != id && other != ideal.value
              && Eligible(workers[other], queue)
            ensures Precedes(workers, id, other)
          {
            PrecedesTransitive(workers, id, ideal.value, other);
          }
          ideal := Some(id);
        }
      }
    }
    forall id | id in workers ensures Eligible(workers[id], queue) <==> HasRoom(workers[id], queue) {
      FreeSlotsAreExact(workers[id]);
    }
    if ideal.Some? {
      IdealIsLeastLoaded(workers, queue, ideal.value);
    }
  }

  // ---------------------------------------------------------- total capacity

  function Slots(s: WorkerState, queue: QueueName): nat {
    if Eligible(s, queue) then AvailableSlots(s) else 0
  }

  ghost function TotalSlots(workers: Workers, ids: set<WorkerId>, queue: QueueName): nat
    requires ids <= workers.Keys
  {
    if ids == {} then 0
    else
      var id :| id in ids;
      Slots(workers[id], queue) + TotalSlots(workers, ids - {id}, queue)
  }

  lemma {:induction false} TotalSlotsSplit(workers: Workers, ids: set<WorkerId>, queue: QueueName, id: WorkerId)
    requires ids <= workers.Keys && id in ids
    ensures TotalSlots(workers, ids, queue) == Slots(workers[id], queue) + TotalSlots(workers, ids - {id}, queue)
    decreases |ids|
  {
    var x :| x in ids
      && TotalSlots(workers, ids, queue) == Slots(workers[x], queue) + TotalSlots(workers, ids - {x}, queue);
    if x != id {
      TotalSlotsSplit(workers, ids - {x}, queue, id);
      TotalSlotsSplit(workers, ids - {id}, queue, x);
      assert ids - {x} - {id} == ids - {id} - {x};
    }
  }

  lemma {:induction false} TotalSlotsFrame(a: Workers, b: Workers, ids: set<WorkerId>, queue: QueueName)
    requires ids <= a.Keys && ids <= b.Keys && forall id :: id in ids ==> Slots(a[id], queue) == Slots(b[id], queue)
    ensures TotalSlots(a, ids, queue) == TotalSlots(b, ids, queue)
    decreases |ids|
  {
    if ids != {} {
      var id :| id in ids && TotalSlots(a, ids, queue) == Slots(a[id], queue) + TotalSlots(a, ids - {id}, queue);
      TotalSlotsFrame(a, b, ids - {id}, queue);
      TotalSlotsSplit(b, ids, queue, id);
    }
  }

  ghost function Available(workers: Workers, queue: QueueName): nat {
    TotalSlots(workers, workers.Keys, queue)
  }

  lemma {:induction false} NothingAvailable(workers: Workers, ids: set<WorkerId>, queue: QueueName)
    requires ids <= workers.Keys && forall id :: id in ids ==> !Eligible(workers[id], queue)
    ensures TotalSlots(workers, ids, queue) == 0
    decreases |ids|
  {
    if ids == {} {
    } else {
      var id :| id in ids
        && TotalSlots(workers, ids, queue) == Slots(workers[id], queue) + TotalSlots(workers, ids - {id}, queue);
      assert Slots(workers[id], queue) == 0;
      NothingAvailable(workers, ids - {id}, queue);
    }
  }

  // ------------------------------------------------------------- reservation

  /** One more slot of `s` reserved. */
  function Reserve(s: WorkerState): WorkerState {
    s.(reserved := SaturatingAdd(s.reserved, 1))
  }

  lemma ReserveTakesOne(s: WorkerState)
    requires AvailableSlots(s) > 0
    ensures Reserve(s).reserved == s.reserved + 1
    ensures UsedSlots(Reserve(s)) == UsedSlots(s) + 1 && AvailableSlots(Reserve(s)) == AvailableSlots(s) - 1
  {
  }

  lemma GrantTakesOne(workers: Workers, queue: QueueName, id: WorkerId)
    requires id in workers && Eligible(workers[id], queue)
    ensures Available(workers[id := Reserve(workers[id])], queue) == Available(workers, queue) - 1
  {
    var after := workers[id := Reserve(workers[id])];
    ReserveTakesOne(workers[id]);
    assert after.Keys == workers.Keys;
    TotalSlotsSplit(workers, workers.Keys, queue, id);
    TotalSlotsSplit(after, workers.Keys, queue, id);
    TotalSlotsFrame(workers, after, workers.Keys - {id}, queue);
  }

  /** The registry after some grants: each worker has as many more reservations as it was granted slots. */
  ghost predicate Granted(before: Workers, granted: seq<WorkerId>, after: Workers) {
    && after.Keys == before.Keys
    && (forall id :: id in before ==> after[id] == before[id].(reserved := after[id].reserved))
    && (forall id :: id in before ==> after[id].reserved == before[id].reserved + multiset(granted)[id])
  }

  function FreeReservation(s: WorkerState): WorkerState {
    s.(reserved := SaturatingSub(s.reserved, 1))
  }

  /** No worker was given its last slot while a worker of the queue carried less load than it:
      before that slot its load was at most every final load. */
  ghost predicate Balanced(before: Workers, queue: QueueName, granted: seq<WorkerId>, after: Workers)
    requires after.Keys == before.Keys
  {
    forall w, v :: w in granted && w in before && v in before && Eligible(before[v], queue) ==>
      LoadAtMost(FreeReservation(after[w]), after[v])
  }

  lemma LoadGrows(a: WorkerState, b: WorkerState)
    requires LoadAtMost(a, b) && AvailableSlots(b) > 0
    ensures LoadAtMost(a, Reserve(b))
  {
    ReserveTakesOne(b);
    assert UsedSlots(Reserve(b)) * Scale(a) == UsedSlots(b) * Scale(a) + Scale(a);
  }

  /** A worker with a free slot carries less load than one that has none left. */
  lemma FullIsMoreLoaded(a: WorkerState, b: WorkerState)
    requires AvailableSlots(a) > 0 && AvailableSlots(b) == 0 && b.capacity > 0
    ensures LoadAtMost(a, b)
  {
    assert UsedSlots(a) <= Scale(a) && Scale(b) <= UsedSlots(b);
    BelowAndAboveOne(UsedSlots(a), Scale(a), UsedSlots(b), Scale(b));
  }

  lemma BelowAndAboveOne(ua: nat, ca: nat, ub: nat, cb: nat)
    requires ua <= ca && cb <= ub
    ensures ua * cb <= ub * ca
  {
    assert ua * cb <= ca * cb <= ca * ub;
  }

  /** Granting one more slot to the ideal worker keeps the balance. */
  lemma GrantKeepsBalance(before: Workers, queue: QueueName, granted: seq<WorkerId>, now: Workers, id: WorkerId)
    requires Granted(before, granted, now) && Balanced(before, queue, granted, now) && Ideal(now, queue, id)
    requires forall v :: v in granted ==> v in before && Eligible(before[v], queue)
    requires Eligible(before[id], queue)
    ensures Balanced(before, queue, granted + [id], now[id := Reserve(now[id])])
  {
    var after := now[id := Reserve(now[id])];
    ReserveTakesOne(now[id]);
    forall w, v | w in granted + [id] && v in before && Eligible(before[v], queue)
      ensures LoadAtMost(FreeReservation(after[w]), after[v])
    {
      if w == id {
        assert FreeReservation(after[w]) == now[id];
        if v == id {
          assert LoadAtMost(now[id], now[id]);
          LoadGrows(now[id], now[id]);
        } else if Eligible(now[v], queue) {
          assert Precedes(now, id, v);
        } else {
          FullIsMoreLoaded(now[id], now[v]);
        }
      } else if v == id {
        LoadGrows(FreeReservation(now[w]), now[id]);
      }
    }
  }

  /** What holds after some slots of a request have been granted. */
  ghost predicate Reserving(before: Workers, queue: QueueName, granted: seq<WorkerId>, now: Workers) {
    && Granted(before, granted, now) && Balanced(before, queue, granted, now)
    && |granted| + Available(now, queue) == Available(before, queue)
    && (forall w :: w in before && Eligible(now[w], queue) ==> Eligible(before[w], queue))
    && (forall w :: w in granted ==> w in before && Eligible(before[w], queue))
    && (forall w :: w in before && w in now && Eligible(before[w], queue) ==> Busy(now[w]) <= now[w].capacity)
  }

  /** The slots went round evenly: before its last one a chosen worker had no more load than any worker with
      room has in the end. */
  ghost predicate Evenly(before: Workers, queue: QueueName, granted: seq<WorkerId>, after: Workers) {
    forall w, v :: w in granted && v in before && HasRoom(before[v], queue) ==>
      && w in before && HasRoom(before[w], queue) && w in after && v in after && after[w].reserved >= 1
      && Load(after[w].(reserved := after[w].reserved - 1)) <= Load(after[v])
  }

  lemma BalanceIsEven(before: Workers, queue: QueueName, granted: seq<WorkerId>, after: Workers)
    requires Reserving(before, queue, granted, after)
    ensures Evenly(before, queue, granted, after)
  {
    forall w, v | w in granted && v in before && HasRoom(before[v], queue)
      ensures w in before && HasRoom(before[w], queue) && w in after && v in after && after[w].reserved >= 1
      ensures Load(after[w].(reserved := after[w].reserved - 1)) <= Load(after[v])
    {
      FreeSlotsAreExact(before[w]);
      FreeSlotsAreExact(before[v]);
      assert multiset(granted)[w] >= 1;
      LoadsCompare(FreeReservation(after[w]), after[v]);
    }
  }

  lemma ReservingStep(before: Workers, queue: QueueName, granted: seq<WorkerId>, now: Workers, id: WorkerId)
    requires Reserving(before, queue, granted, now) && Ideal(now, queue, id)
    ensures Reserving(before, queue, granted + [id], now[id := Reserve(now[id])])
  {
    GrantTakesOne(now, queue, id);
    GrantKeepsBalance(before, queue, granted, now, id);
    GrantStep(before, queue, granted, now, id);
  }

  lemma GrantStep(before: Workers, queue: QueueName, granted: seq<WorkerId>, now: Workers, id: WorkerId)
    requires Granted(before, granted, now) && id in now && Eligible(now[id], queue)
    ensures Granted(before, granted + [id], now[id := Reserve(now[id])])
    ensures Busy(Reserve(now[id])) <= now[id].capacity
    ensures Eligible(Reserve(now[id]), queue) ==> Eligible(now[id], queue)
  {
    ReserveTakesOne(now[id]);
  }

  /** One request of `reserve`: as many slots as asked for or as the queue has, from the least loaded
      workers, ending balanced. */
  method ReserveFor(workers: Workers, queue: QueueName, count: nat) returns (after: Workers, granted: seq<WorkerId>)
    ensures |granted| == if count <= Available(workers, queue) then count else Available(workers, queue)
    ensures Fair(workers, queue, granted, after)
  {
    after, granted := workers, [];
    NothingGranted(workers, queue);
    while |granted| < count
      invariant |granted| <= count
      invariant Reserving(workers, queue, granted, after)
    {
      var ideal := FindIdealWorker(after, queue);
      if ideal.None? {
        NothingAvailable(after, after.Keys, queue);
        BalanceIsEven(workers, queue, granted, after);
        return;
      }
      ReservingStep(workers, queue, granted, after, ideal.value);
      after, granted := after[ideal.value := Reserve(after[ideal.value])], granted + [ideal.value];
    }
    BalanceIsEven(workers, queue, granted, after);
  }

  lemma NothingGranted(workers: Workers, queue: QueueName)
    ensures Reserving(workers, queue, [], workers)
  {
    forall w | w in workers && Eligible(workers[w], queue) ensures Busy(workers[w]) <= workers[w].capacity {
      FreeSlotsAreExact(workers[w]);
    }
  }

  // -------------------------------------------------------------- accounting

  /** The registry, with the permits callers hold: one entry per reservation not yet used up. */
  datatype Ledger = Ledger(workers: Workers, permits: multiset<WorkerId>)

  datatype Event =
    | Register(id: WorkerId, queue: QueueName, running: U32, freeSlots: U32)
    | Grant(id: WorkerId, queue: QueueName)
    | Dispatch(id: WorkerId, dispatch: DispatchId, channelOpen: bool)
    | WriteFailed(id: WorkerId, dispatch: DispatchId)
    | ReleasePermit(id: WorkerId)
    | JobResult(id: WorkerId, dispatch: DispatchId, running: U32, freeSlots: U32)
    | Drain(id: WorkerId)
    | Disconnect(id: WorkerId)

  /** An instance id may register when no worker has it and no permit for it is still out; a permit
      can be used once. */
  predicate Enabled(r: Ledger, e: Event) {
    match e
    case Register(id, _, _, _) => id !in r.workers && id !in r.permits
    case Grant(id, queue) => id in r.workers && Eligible(r.workers[id], queue)
    case Dispatch(id, _, _) => id in r.permits
    case ReleasePermit(id) => id in r.permits
    case _ => true
  }

  /** The locked part of `dispatch`. */
  function QueueDispatch(s: WorkerState, d: DispatchId, channelOpen: bool): WorkerState {
    var freed := FreeReservation(s);
    if s.draining || d in s.inFlight || !channelOpen then freed
    else freed.(inFlight := s.inFlight + {d})
  }

  function RecordResult(s: WorkerState, d: DispatchId, running: U32, freeSlots: U32): WorkerState {
    s.(running := running, freeSlots := freeSlots, inFlight := s.inFlight - {d})
  }

  function NewWorker(queue: QueueName, running: U32, freeSlots: U32): WorkerState {
    WorkerState(queue, SaturatingAdd(running, freeSlots), running, freeSlots, 0, {}, false)
  }

  function Apply(r: Ledger, e: Event): Ledger {
    match e
    case Register(id, queue, running, freeSlots) =>
      r.(workers := r.workers[id := NewWorker(queue, running, freeSlots)])
    case Grant(id, _) =>
      if id in r.workers then Ledger(r.workers[id := Reserve(r.workers[id])], r.permits + multiset{id}) else r
    case Dispatch(id, d, channelOpen) =>
      Ledger(if id in r.workers then r.workers[id := QueueDispatch(r.workers[id], d, channelOpen)] else r.workers,
             r.permits - multiset{id})
    case WriteFailed(id, d) =>
      if id !in r.workers then r
      else r.(workers := r.workers[id := r.workers[id].(inFlight := r.workers[id].inFlight - {d})])
    case ReleasePermit(id) =>
      var workers := if id in r.workers then r.workers[id := FreeReservation(r.workers[id])] else r.workers;
      Ledger(workers, r.permits - multiset{id})
    case JobResult(id, d, running, freeSlots) =>
      if id in r.workers then r.(workers := r.workers[id := RecordResult(r.workers[id], d, running, freeSlots)]) else r
    case Drain(id) =>
      if id in r.workers then r.(workers := r.workers[id := r.workers[id].(draining := true, freeSlots := 0)]) else r
    case Disconnect(id) =>
      r.(workers := r.workers - {id})
  }

  /** Reservations are exactly the permits out, and reservations and dispatches fit the capacity. */
  ghost predicate Balances(r: Ledger) {
    && (forall id :: id in r.workers ==> r.workers[id].reserved == r.permits[id])
    && (forall id :: id in r.workers ==> r.workers[id].reserved + |r.workers[id].inFlight| <= r.workers[id].capacity)
  }

  lemma InFlightShrinks(s: set<DispatchId>, d: DispatchId)
    ensures |s - {d}| <= |s|
    ensures d !in s ==> |s + {d}| == |s| + 1
  {
    assert s - {d} <= s;
    SubsetSize(s - {d}, s);
  }

  lemma {:induction false} SubsetSize<T>(a: set<T>, b: set<T>)
    requires a <= b
    ensures |a| <= |b|
    decreases |a|
  {
    if a != {} {
      var x :| x in a;
      SubsetSize(a - {x}, b - {x});
    }
  }

  /** Every step keeps the books, whatever the worker reports about itself. */
  lemma KeepsBalance(r: Ledger, e: Event)
    requires Balances(r) && Enabled(r, e)
    ensures Balances(Apply(r, e))
  {
    if e.id in r.workers {
      match e
      case Dispatch(id, d, _) => InFlightShrinks(r.workers[id].inFlight, d);
      case WriteFailed(id, d) => InFlightShrinks(r.workers[id].inFlight, d);
      case JobResult(id, d, _, _) => InFlightShrinks(r.workers[id].inFlight, d);
      case Grant(id, _) => ReserveTakesOne(r.workers[id]);
      case _ =>
    }
  }

  function ApplyAll(r: Ledger, events: seq<Event>): Ledger {
    if events == [] then r else Apply(ApplyAll(r, events[..|events| - 1]), events[|events| - 1])
  }

  ghost predicate AllEnabled(events: seq<Event>) {
    forall i :: 0 <= i < |events| ==> Enabled(ApplyAll(EMPTY, events[..i]), events[i])
  }

  const EMPTY: Ledger := Ledger(map[], multiset{})

  /** In every reachable registry, reserved slots count the permits out and never outgrow the
      capacity, so giving a permit back or using it never meets a saturated counter. */
  lemma {:induction false} BooksAlwaysBalance(events: seq<Event>)
    requires AllEnabled(events)
    ensures Balances(ApplyAll(EMPTY, events))
    ensures var r := ApplyAll(EMPTY, events);
      forall id :: id in r.workers && id in r.permits ==> r.workers[id].reserved >= 1
    decreases |events|
  {
    if events != [] {
      var init := events[..|events| - 1];
      EnabledBefore(events);
      BooksAlwaysBalance(init);
      KeepsBalance(ApplyAll(EMPTY, init), events[|events| - 1]);
    }
    PermitIsReserved(ApplyAll(EMPTY, events));
  }

  lemma EnabledBefore(events: seq<Event>)
    requires events != [] && AllEnabled(events)
    ensures AllEnabled(events[..|events| - 1])
    ensures Enabled(ApplyAll(EMPTY, events[..|events| - 1]), events[|events| - 1])
  {
    var init := events[..|events| - 1];
    forall i | 0 <= i < |init| ensures Enabled(ApplyAll(EMPTY, init[..i]), init[i]) {
      assert init[..i] == events[..i] && init[i] == events[i];
    }
  }

  lemma PermitIsReserved(r: Ledger)
    requires Balances(r)
    ensures forall id :: id in r.workers && id in r.permits ==> r.workers[id].reserved >= 1
  {
  }

  datatype QueueReservation = QueueReservation(queueName: QueueName, count: nat)

  /** Slots granted to a queue's own workers leave every other queue's slots alone. */
  lemma OtherQueueUntouched(before: Workers, queue: QueueName, granted: seq<WorkerId>, after: Workers, other: QueueName)
    requires Reserving(before, queue, granted, after) && other != queue
    ensures Available(after, other) == Available(before, other)
  {
    forall id | id in before ensures Slots(before[id], other) == Slots(after[id], other) {
      if id !in granted {
        assert multiset(granted)[id] == 0;
      }
    }
    TotalSlotsFrame(before, after, before.Keys, other);
  }

  lemma GrantsKeepBalance(r: Ledger, queue: QueueName, granted: seq<WorkerId>, after: Workers)
    requires Balances(r) && Reserving(r.workers, queue, granted, after)
    requires forall id :: id in after ==> after[id].reserved + |after[id].inFlight| <= after[id].capacity
    ensures Balances(Ledger(after, r.permits + multiset(granted)))
  {
  }

  ghost predicate DistinctQueues(requests: seq<QueueReservation>) {
    forall i, k :: 0 <= i < k < |requests| ==> requests[i].queueName != requests[k].queueName
  }

  /** Each request got the smaller of what it asked for and what its queue had. */
  ghost predicate FullyServed(before: Workers, requests: seq<QueueReservation>, grants: seq<seq<WorkerId>>) {
    |grants| == |requests| && forall i :: 0 <= i < |requests| ==> |grants[i]| == Served(before, requests[i])
  }

  ghost function Served(before: Workers, request: QueueReservation): nat {
    var have := Available(before, request.queueName);
    if request.count <= have then request.count else have
  }

  ghost predicate LaterQueuesUntouched(before: Workers, requests: seq<QueueReservation>, now: Workers) {
    forall q :: (forall i :: 0 <= i < |requests| ==> requests[i].queueName != q) ==>
      Available(now, q) == Available(before, q)
  }

  lemma ServedOneMore(before: Workers, requests: seq<QueueReservation>, n: nat, now: Workers,
                      grants: seq<seq<WorkerId>>,
                      granted: seq<WorkerId>, after: Workers)
    requires n < |requests| && LaterQueuesUntouched(before, requests[..n], now)
    requires DistinctQueues(requests) ==> FullyServed(before, requests[..n], grants)
    requires Reserving(now, requests[n].queueName, granted, after) && |granted| == Served(now, requests[n])
    ensures LaterQueuesUntouched(before, requests[..n + 1], after)
    ensures DistinctQueues(requests) ==> FullyServed(before, requests[..n + 1], grants + [granted])
  {
    var first, more := requests[..n], requests[..n + 1];
    assert more == first + [requests[n]];
    forall q | forall i :: 0 <= i < |more| ==> more[i].queueName != q
      ensures Available(after, q) == Available(before, q)
    {
      assert more[n].queueName != q;
      assert forall i :: 0 <= i < |first| ==> first[i] == more[i];
      OtherQueueUntouched(now, requests[n].queueName, granted, after, q);
    }
    if DistinctQueues(requests) {
      assert forall i :: 0 <= i < |first| ==> first[i].queueName != requests[n].queueName;
      assert Available(now, requests[n].queueName) == Available(before, requests[n].queueName);
    }
  }

  ghost predicate Fair(before: Workers, queue: QueueName, granted: seq<WorkerId>, after: Workers) {
    Reserving(before, queue, granted, after) && Evenly(before, queue, granted, after)
  }

  /** Request by request: each stage of the registry comes from the one before by serving one request from
      eligible workers of its queue, in balance. */
  ghost predicate Stages(requests: seq<QueueReservation>, grants: seq<seq<WorkerId>>, stages: seq<Workers>) {
    && |grants| == |requests| && |stages| == |requests| + 1
    && (forall i :: 0 <= i < |requests| ==> Fair(stages[i], requests[i].queueName, grants[i], stages[i + 1]))
  }

  function Joined(grants: seq<seq<WorkerId>>): seq<WorkerId> {
    if grants == [] then [] else Joined(grants[..|grants| - 1]) + grants[|grants| - 1]
  }

  lemma OneMoreStage(requests: seq<QueueReservation>, n: nat, grants: seq<seq<WorkerId>>, granted: seq<WorkerId>,
                     stages: seq<Workers>, after: Workers)
    requires n < |requests| && Stages(requests[..n], grants, stages)
    requires Fair(stages[n], requests[n].queueName, granted, after)
    ensures Stages(requests[..n + 1], grants + [granted], stages + [after])
  {
    var all, given, seen := requests[..n + 1], grants + [granted], stages + [after];
    forall i | 0 <= i < n + 1 ensures Fair(seen[i], all[i].queueName, given[i], seen[i + 1]) {
      if i < n {
        assert all[i] == requests[..n][i] && given[i] == grants[i];
        assert seen[i] == stages[i] && seen[i + 1] == stages[i + 1];
      }
    }
  }

  lemma JoinedOneMore(grants: seq<seq<WorkerId>>, granted: seq<WorkerId>)
    ensures Joined(grants + [granted]) == Joined(grants) + granted
  {
    assert (grants + [granted])[..|grants|] == grants;
  }

  ghost predicate OnlyReservationsGrew(before: Workers, after: Workers) {
    && after.Keys == before.Keys
    && (forall id :: id in before ==> after[id] == before[id].(reserved := after[id].reserved))
  }

  /** The first `n` requests are served. */
  ghost predicate ServedUpTo(before: Ledger, requests: seq<QueueReservation>, n: nat, grants: seq<seq<WorkerId>>,
                             stages: seq<Workers>, now: Ledger)
    requires n <= |requests|
  {
    && now.permits == before.permits + multiset(Joined(grants))
    && Stages(requests[..n], grants, stages) && stages[0] == before.workers && stages[n] == now.workers
    && (DistinctQueues(requests) ==> FullyServed(before.workers, requests[..n], grants))
    && LaterQueuesUntouched(before.workers, requests[..n], now.workers)
    && OnlyReservationsGrew(before.workers, now.workers)
  }

  lemma NoneServed(books: Ledger, requests: seq<QueueReservation>)
    ensures ServedUpTo(books, requests, 0, [], [books.workers], books)
  {
    assert Joined([]) == [] && books.permits + multiset([]) == books.permits;
  }

  lemma AllServed(before: Ledger, requests: seq<QueueReservation>, grants: seq<seq<WorkerId>>, stages: seq<Workers>,
                  now: Ledger)
    requires ServedUpTo(before, requests, |requests|, grants, stages, now)
    ensures now.permits == before.permits + multiset(Joined(grants))
    ensures OnlyReservationsGrew(before.workers, now.workers)
    ensures DistinctQueues(requests) ==> FullyServed(before.workers, requests, grants)
    ensures Stages(requests, grants, stages) && stages[0] == before.workers && stages[|requests|] == now.workers
  {
    assert requests[..|requests|] == requests;
  }

  lemma ServedNext(before: Ledger, requests: seq<QueueReservation>, n: nat, now: Ledger, grants: seq<seq<WorkerId>>,
                   stages: seq<Workers>, granted: seq<WorkerId>, after: Ledger)
    requires n < |requests| && ServedUpTo(before, requests, n, grants, stages, now)
    requires Fair(now.workers, requests[n].queueName, granted, after.workers)
    requires |granted| == Served(now.workers, requests[n]) && after.permits == now.permits + multiset(granted)
    ensures ServedUpTo(before, requests, n + 1, grants + [granted], stages + [after.workers], after)
  {
    ServedOneMore(before.workers, requests, n, now.workers, grants, granted, after.workers);
    OneMoreStage(requests, n, grants, granted, stages, after.workers);
    GrewAgain(before.workers, now.workers, after.workers);
    JoinedOneMore(grants, granted);
    PermitsOneMore(before.permits, grants, granted);
  }

  lemma PermitsOneMore(permits: multiset<WorkerId>, grants: seq<seq<WorkerId>>, granted: seq<WorkerId>)
    requires Joined(grants + [granted]) == Joined(grants) + granted
    ensures permits + multiset(Joined(grants + [granted])) == permits + multiset(Joined(grants)) + multiset(granted)
  {
  }

  lemma GrewAgain(before: Workers, now: Workers, after: Workers)
    requires OnlyReservationsGrew(before, now) && OnlyReservationsGrew(now, after)
    ensures OnlyReservationsGrew(before, after)
  {
  }

  class WorkerRegistry {
    var workers: Workers
    ghost var permits: multiset<WorkerId>

    ghost function Books(): Ledger
      reads this
    {
      Ledger(workers, permits)
    }

    constructor ()
      ensures Books() == EMPTY && Balances(Books())
    {
      workers, permits := map[], multiset{};
    }

    method RegisterWorker(id: WorkerId, queue: QueueName, running: U32, freeSlots: U32) returns (ok: bool)
      requires Balances(Books()) && (id !in workers ==> id !in permits)
      modifies this
      ensures Balances(Books()) && ok == (id !in old(workers))
      ensures Books() == if ok then Apply(old(Books()), Register(id, queue, running, freeSlots)) else old(Books())
      ensures ok ==>
        var capacity := if running + freeSlots <= 0xFFFF_FFFF then running + freeSlots else 0xFFFF_FFFF;
        workers == old(workers)[id := WorkerState(queue, capacity, running, freeSlots, 0, {}, false)]
    {
      if id in workers {
        return false;
      }
      KeepsBalance(Books(), Register(id, queue, running, freeSlots));
      workers := workers[id := NewWorker(queue, running, freeSlots)];
      return true;
    }

    /** One request, with the permits it hands out. */
    method ReserveQueue(request: QueueReservation) returns (granted: seq<WorkerId>)
      requires Balances(Books())
      modifies this
      ensures Balances(Books()) && permits == old(permits) + multiset(granted)
      ensures Fair(old(workers), request.queueName, granted, workers) && |granted| == Served(old(workers), request)
    {
      var after;
      after, granted := ReserveFor(workers, request.queueName, request.count);
      CapacityHolds(Books(), request.queueName, granted, after);
      GrantsKeepBalance(Books(), request.queueName, granted, after);
      workers, permits := after, permits + multiset(granted);
    }

    method ServeRequest(requests: seq<QueueReservation>, n: nat, ghost first: Ledger, ghost grants: seq<seq<WorkerId>>,
                        ghost stages: seq<Workers>)
      returns (granted: seq<WorkerId>)
      requires Balances(Books()) && n < |requests| && ServedUpTo(first, requests, n, grants, stages, Books())
      modifies this
      ensures Balances(Books())
      ensures ServedUpTo(first, requests, n + 1, grants + [granted], stages + [workers], Books())
    {
      granted := ReserveQueue(requests[n]);
      ServedNext(first, requests, n, old(Books()), grants, stages, granted, Books());
    }

    /** `reserve`: the requests in order, under one lock. With distinct queues each gets exactly what it
        asked for or what its queue had. */
    method ReserveSlots(requests: seq<QueueReservation>)
      returns (grants: seq<seq<WorkerId>>, ghost stages: seq<Workers>)
      requires Balances(Books())
      modifies this
      ensures Balances(Books()) && permits == old(permits) + multiset(Joined(grants))
      ensures OnlyReservationsGrew(old(workers), workers)
      ensures DistinctQueues(requests) ==> FullyServed(old(workers), requests, grants)
      ensures Stages(requests, grants, stages) && stages[0] == old(workers) && stages[|requests|] == workers
    {
      grants, stages := [], [workers];
      NoneServed(Books(), requests);
      for n := 0 to |requests|
        invariant Balances(Books()) && ServedUpTo(old(Books()), requests, n, grants, stages, Books())
      {
        var granted := ServeRequest(requests, n, old(Books()), grants, stages);
        grants, stages := grants + [granted], stages + [workers];
      }
      AllServed(old(Books()), requests, grants, stages, Books());
    }

    /** The locked part of `dispatch`; `queued` says whether a frame went out to the worker. */
    method DispatchJob(id: WorkerId, d: DispatchId, channelOpen: bool) returns (queued: bool)
      requires Balances(Books()) && id in permits
      modifies this
      ensures Balances(Books()) && Books() == Apply(old(Books()), Dispatch(id, d, channelOpen))
      ensures queued <==>
        id in old(workers) && !old(workers)[id].draining && d !in old(workers)[id].inFlight && channelOpen
      ensures id !in old(workers) ==> workers == old(workers)
      ensures id in old(workers) ==>
        var w := old(workers)[id];
        && w.reserved >= 1
        && workers == old(workers)[id := w.(reserved := w.reserved - 1,
                                            inFlight := if queued then w.inFlight + {d} else w.inFlight)]
      ensures permits == old(permits) - multiset{id}
    {
      KeepsBalance(Books(), Dispatch(id, d, channelOpen));
      permits := permits - multiset{id};
      if id !in workers {
        return false;
      }
      var worker := FreeReservation(workers[id]);
      queued := !worker.draining && d !in worker.inFlight && channelOpen;
      workers := workers[id := if queued then worker.(inFlight := worker.inFlight + {d}) else worker];
    }

    method ReleaseDispatched(id: WorkerId, d: DispatchId)
      requires Balances(Books())
      modifies this
      ensures Balances(Books()) && Books() == Apply(old(Books()), WriteFailed(id, d))
      ensures id in old(workers) ==>
        workers == old(workers)[id := old(workers)[id].(inFlight := old(workers)[id].inFlight - {d})]
      ensures id !in old(workers) ==> workers == old(workers)
    {
      KeepsBalance(Books(), WriteFailed(id, d));
      if id in workers {
        workers := workers[id := workers[id].(inFlight := workers[id].inFlight - {d})];
      }
    }

    method Release(id: WorkerId)
      requires Balances(Books()) && id in permits
      modifies this
      ensures Balances(Books()) && Books() == Apply(old(Books()), ReleasePermit(id))
      ensures id in old(workers) ==>
        && old(workers)[id].reserved >= 1
        && workers == old(workers)[id := old(workers)[id].(reserved := old(workers)[id].reserved - 1)]
      ensures id !in old(workers) ==> workers == old(workers)
      ensures permits == old(permits) - multiset{id}
    {
      KeepsBalance(Books(), ReleasePermit(id));
      permits := permits - multiset{id};
      if id in workers {
        workers := workers[id := FreeReservation(workers[id])];
      }
    }

    method RecordWorkerResult(id: WorkerId, d: DispatchId, running: U32, freeSlots: U32)
      requires Balances(Books()) && id in workers
      modifies this
      ensures Balances(Books()) && Books() == Apply(old(Books()), JobResult(id, d, running, freeSlots))
      ensures var w := old(workers)[id];
        workers == old(workers)[id := w.(running := running, freeSlots := freeSlots, inFlight := w.inFlight - {d})]
    {
      KeepsBalance(Books(), JobResult(id, d, running, freeSlots));
      workers := workers[id := RecordResult(workers[id], d, running, freeSlots)];
    }

    method BeginDrain(id: WorkerId)
      requires Balances(Books()) && id in workers
      modifies this
      ensures Balances(Books()) && Books() == Apply(old(Books()), Drain(id))
      ensures workers == old(workers)[id := old(workers)[id].(draining := true, freeSlots := 0)]
    {
      workers := workers[id := workers[id].(draining := true, freeSlots := 0)];
    }

    method DisconnectWorker(id: WorkerId)
      requires Balances(Books())
      modifies this
      ensures Balances(Books()) && Books() == Apply(old(Books()), Disconnect(id))
      ensures id !in workers && forall other :: other in old(workers) && other != id ==>
        other in workers && workers[other] == old(workers)[other]
    {
      workers := workers - {id};
    }
  }

  /** Grants never take a worker past its capacity. */
  lemma CapacityHolds(r: Ledger, queue: QueueName, granted: seq<WorkerId>, after: Workers)
    requires Balances(r) && Reserving(r.workers, queue, granted, after)
    ensures forall id :: id in after ==> after[id].reserved + |after[id].inFlight| <= after[id].capacity
  {
    forall id | id in after ensures after[id].reserved + |after[id].inFlight| <= after[id].capacity {
      if id in granted {
        assert after[id].inFlight == r.workers[id].inFlight;
      } else {
        assert multiset(granted)[id] == 0;
      }
    }
  }
}
