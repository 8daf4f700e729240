/** One pass of the engine over a set of woken queues: reserve worker slots, claim jobs for them and
    hand the pairs to the delivery pump. */
module DrainPass {
  import opened Types
  import opened Scheduler
  import opened IngestConn

  /** A slot on some worker, reserved for a queue. */
  datatype Permit = Permit(serial: nat, queue: QueueName)

  /** A claimed job, known by its queue and by the dispatch id every claim carries. */
  datatype Claim = Claim(id: DispatchId, queue: QueueName)

  datatype Work = Work(permit: Permit, job: Claim)

  datatype Sent = Accepted | Full | Closed

  datatype Request = Request(queue: QueueName, count: nat)

  function Max(a: nat, b: nat): nat {
    if a < b then b else a
  }

  function Asked(requests: seq<Request>): nat {
    if requests == [] then 0 else Asked(requests[..|requests| - 1]) + requests[|requests| - 1].count
  }

  /** The dispatcher grants permits only for queues it was asked for, and no more than it was asked for. */
  predicate GrantFits(requests: seq<Request>, permits: seq<Permit>) {
    && |permits| <= Asked(requests)
    && forall i :: 0 <= i < |permits| ==> exists k :: 0 <= k < |requests| && requests[k].queue == permits[i].queue
  }

  /** The same number of slots for each queue: a share of the headroom, but at least one and at most a batch. */
  function PerQueue(headroom: nat, queues: nat, batchSizeMax: nat): nat {
    Min(Max(headroom / Max(queues, 1), 1), Min(batchSizeMax, MAX_CLAIM_BATCH_SIZE))
  }

  lemma {:induction false} AskedAlike(requests: seq<Request>, count: nat)
    requires forall i :: 0 <= i < |requests| ==> requests[i].count == count
    ensures Asked(requests) == |requests| * count
  {
    if requests != [] {
      AskedAlike(requests[..|requests| - 1], count);
    }
  }

  /** The requests of a pass ask for no more than the headroom, unless one slot each is already more. */
  lemma SharesFit(headroom: nat, queues: nat, batchSizeMax: nat)
    ensures queues * PerQueue(headroom, queues, batchSizeMax) <= Max(headroom, queues)
    ensures queues * PerQueue(headroom, queues, batchSizeMax) <= queues * batchSizeMax
  {
    if queues > 0 {
      var share := headroom / queues;
      DivisionFits(headroom, queues);
      var count := PerQueue(headroom, queues, batchSizeMax);
      Scale(queues, count, Max(share, 1));
      Scale(queues, count, batchSizeMax);
      assert queues * 1 == queues;
    }
  }

  lemma DivisionFits(x: nat, n: nat)
    requires n > 0
    ensures n * (x / n) <= x
  {
    assert x == n * (x / n) + x % n;
  }

  lemma Scale(n: nat, a: nat, b: nat)
    requires a <= b
    ensures n * a <= n * b
  {
    assert n * b == n * a + n * (b - a);
  }

  function PermitsOf(m: map<QueueName, seq<Permit>>, q: QueueName): seq<Permit> {
    if q in m then m[q] else []
  }

  predicate NoRepeats(queues: seq<QueueName>) {
    forall i, k :: 0 <= i < k < |queues| ==> queues[i] != queues[k]
  }

  predicate AllFor(permits: seq<Permit>, queue: QueueName) {
    forall i :: 0 <= i < |permits| ==> permits[i].queue == queue
  }

  /** No entry is empty, and each holds permits of its own queue. */
  predicate Filled(m: map<QueueName, seq<Permit>>) {
    forall q :: q in m ==> m[q] != [] && AllFor(m[q], q)
  }

  function Add(m: map<QueueName, seq<Permit>>, p: Permit): map<QueueName, seq<Permit>> {
    m[p.queue := PermitsOf(m, p.queue) + [p]]
  }

  lemma AddKeepsFilled(m: map<QueueName, seq<Permit>>, p: Permit)
    requires Filled(m)
    ensures Filled(Add(m, p))
  {
    assert AllFor(PermitsOf(m, p.queue) + [p], p.queue);
  }

  /** The permits collected for these queues, in the order in which the pass serves the queues. */
  function Flat(m: map<QueueName, seq<Permit>>, queues: seq<QueueName>): seq<Permit> {
    if queues == [] then [] else PermitsOf(m, queues[0]) + Flat(m, queues[1..])
  }

  lemma {:induction false} FlatSame(m: map<QueueName, seq<Permit>>, m': map<QueueName, seq<Permit>>,
                                    queues: seq<QueueName>)
    requires forall i :: 0 <= i < |queues| ==> PermitsOf(m, queues[i]) == PermitsOf(m', queues[i])
    ensures Flat(m, queues) == Flat(m', queues)
  {
    if queues != [] {
      FlatSame(m, m', queues[1..]);
    }
  }

  lemma {:induction false} FlatEmpty(queues: seq<QueueName>)
    ensures Flat(map[], queues) == []
  {
    if queues != [] {
      FlatEmpty(queues[1..]);
    }
  }

  /** What is left is the next queue's share and the rest. */
  lemma NextShare(m: map<QueueName, seq<Permit>>, queues: seq<QueueName>, i: nat)
    requires i < |queues|
    ensures |Flat(m, queues[i..])| == |Flat(m, queues[i + 1..])| + |PermitsOf(m, queues[i])|
    ensures multiset(Flat(m, queues[i..])) == multiset(Flat(m, queues[i + 1..])) + multiset(PermitsOf(m, queues[i]))
  {
    assert queues[i..][1..] == queues[i + 1..];
  }

  /** Taking one queue's share does not touch the rest. */
  lemma ShareTaken(m: map<QueueName, seq<Permit>>, queues: seq<QueueName>, i: nat)
    requires NoRepeats(queues) && i < |queues|
    ensures Flat(m - {queues[i]}, queues[i + 1..]) == Flat(m, queues[i + 1..])
    ensures forall k :: i < k < |queues| ==> PermitsOf(m - {queues[i]}, queues[k]) == PermitsOf(m, queues[k])
  {
    FlatSame(m, m - {queues[i]}, queues[i + 1..]);
  }

  lemma BagInsert<T>(a: seq<T>, x: T, b: seq<T>)
    ensures multiset((a + [x]) + b) == multiset(a + b) + multiset{x}
  {
  }

  lemma BagAppend<T>(a: seq<T>, b': seq<T>, b: seq<T>, x: T)
    requires multiset(b') == multiset(b) + multiset{x}
    ensures multiset(a + b') == multiset(a + b) + multiset{x}
  {
  }

  lemma BagFirst<T>(s: seq<T>, i: nat)
    requires i < |s|
    ensures multiset(s[i..]) == multiset{s[i]} + multiset(s[i + 1..])
  {
    assert s[i..] == [s[i]] + s[i + 1..];
  }

  lemma FlatAddHere(m: map<QueueName, seq<Permit>>, queues: seq<QueueName>, p: Permit)
    requires NoRepeats(queues) && queues != [] && queues[0] == p.queue
    ensures Flat(Add(m, p), queues) == (PermitsOf(m, p.queue) + [p]) + Flat(m, queues[1..])
  {
    FlatSame(m, Add(m, p), queues[1..]);
  }

  lemma FlatAddLater(m: map<QueueName, seq<Permit>>, queues: seq<QueueName>, p: Permit)
    requires queues != [] && queues[0] != p.queue
    ensures Flat(Add(m, p), queues) == PermitsOf(m, queues[0]) + Flat(Add(m, p), queues[1..])
  {
  }

  /** A collected permit is collected for exactly one queue of the pass. */
  lemma {:induction false} FlatAdd(m: map<QueueName, seq<Permit>>, queues: seq<QueueName>, p: Permit)
    requires NoRepeats(queues) && p.queue in queues
    ensures multiset(Flat(Add(m, p), queues)) == multiset(Flat(m, queues)) + multiset{p}
    ensures |Flat(Add(m, p), queues)| == |Flat(m, queues)| + 1
  {
    var rest, share := queues[1..], PermitsOf(m, queues[0]);
    if queues[0] == p.queue {
      FlatAddHere(m, queues, p);
      BagInsert(share, p, Flat(m, rest));
    } else {
      FlatAdd(m, rest, p);
      FlatAddLater(m, queues, p);
      BagAppend(share, Flat(Add(m, p), rest), Flat(m, rest), p);
    }
  }

  /** A call to the dispatcher and how many permits it granted, if it did not fail. */
  datatype ReserveCall = ReserveCall(requests: seq<Request>, granted: Option<nat>)

  /** A call to the store and how many jobs it claimed, if it did not fail. */
  datatype ClaimCall = ClaimCall(queue: QueueName, limit: nat, claimed: Option<nat>)

  /** History of the pass: its calls, and what became of each worker slot, of each claim and of each queue. */
  datatype Books = Books(
    granted: multiset<Permit>,
    released: multiset<Permit>,
    sentPermits: multiset<Permit>,
    claimed: multiset<Claim>,
    sentJobs: multiset<Claim>,
    freed: seq<Claim>,
    woken: seq<QueueName>,
    finished: seq<QueueName>,
    outcomes: seq<PassOutcome>,
    asked: seq<ReserveCall>,
    claims: seq<ClaimCall>,
    overflowed: bool)

  /** Every granted permit was released, handed to the pump or is in hand, once. */
  ghost predicate PermitsAccounted(b: Books, hand: multiset<Permit>) {
    forall p :: b.granted[p] == b.released[p] + b.sentPermits[p] + hand[p]
  }

  /** Every claimed job was handed to the pump, had its claim released or is in hand, once; each
      released claim woke its own queue. */
  ghost predicate ClaimsAccounted(b: Books, hand: multiset<Claim>) {
    && (forall d :: b.claimed[d] == b.sentJobs[d] + multiset(b.freed)[d] + hand[d])
    && |b.woken| == |b.freed| && (forall i :: 0 <= i < |b.freed| ==> b.woken[i] == b.freed[i].queue)
  }

  ghost predicate Accounted(b: Books, permits: multiset<Permit>, jobs: multiset<Claim>) {
    PermitsAccounted(b, permits) && ClaimsAccounted(b, jobs) && !b.overflowed
  }

  ghost function Freed(b: Books, permit: Permit): Books {
    b.(released := b.released + multiset{permit})
  }

  ghost function Unclaimed(b: Books, job: Claim): Books {
    b.(freed := b.freed + [job], woken := b.woken + [job.queue])
  }

  ghost function HandedOver(b: Books, work: Work): Books {
    b.(sentPermits := b.sentPermits + multiset{work.permit}, sentJobs := b.sentJobs + multiset{work.job})
  }

  ghost function FinishedWith(b: Books, queue: QueueName, outcome: PassOutcome): Books {
    b.(finished := b.finished + [queue], outcomes := b.outcomes + [outcome])
  }

  ghost function AfterReserve(b: Books, requests: seq<Request>, permits: Option<seq<Permit>>): Books {
    match permits
    case None => b.(asked := b.asked + [ReserveCall(requests, None)])
    case Some(p) =>
      b.(asked := b.asked + [ReserveCall(requests, Some(|p|))], granted := b.granted + multiset(p))
  }

  ghost function AfterClaim(b: Books, queue: QueueName, limit: nat, jobs: Option<seq<Claim>>): Books {
    match jobs
    case None => b.(claims := b.claims + [ClaimCall(queue, limit, None)])
    case Some(j) =>
      b.(claims := b.claims + [ClaimCall(queue, limit, Some(|j|))], claimed := b.claimed + multiset(j))
  }

  lemma GrantStep(b: Books, requests: seq<Request>, permits: seq<Permit>)
    requires Accounted(b, multiset{}, multiset{})
    ensures Accounted(AfterReserve(b, requests, Some(permits)), multiset(permits), multiset{})
    ensures Accounted(AfterReserve(b, requests, None), multiset{}, multiset{})
  {
  }

  lemma ReleaseStep(b: Books, rest: multiset<Permit>, permits: seq<Permit>, i: nat, jobs: multiset<Claim>)
    requires i < |permits| && Accounted(b, rest + multiset(permits[i..]), jobs)
    ensures Accounted(Freed(b, permits[i]), rest + multiset(permits[i + 1..]), jobs)
  {
    BagFirst(permits, i);
  }

  lemma NoneKept(b: Books, queues: seq<QueueName>, permits: seq<Permit>)
    requires Accounted(b, multiset(permits), multiset{})
    ensures Flat(map[], queues) == []
    ensures Accounted(b, multiset(Flat(map[], queues)) + multiset(permits[0..]), multiset{})
  {
    FlatEmpty(queues);
    assert permits[0..] == permits && multiset([]) + multiset(permits) == multiset(permits);
  }

  lemma NoneLeft(b: Books, rest: multiset<Permit>, permits: seq<Permit>)
    requires Accounted(b, rest + multiset(permits[|permits|..]), multiset{})
    ensures Accounted(b, rest, multiset{})
  {
    assert rest + multiset(permits[|permits|..]) == rest;
  }

  lemma GrantSize(granted: multiset<Permit>, permits: seq<Permit>)
    ensures |granted + multiset(permits)| == |granted| + |permits|
  {
  }

  lemma FinishKeepsAccounts(b: Books, after: Books)
    requires Accounted(b, multiset{}, multiset{}) && after == b.(finished := after.finished, outcomes := after.outcomes)
    ensures Accounted(after, multiset{}, multiset{}) && SameRequests(b, after) && after.claimed == b.claimed
  {
  }

  /** A permit that is kept moves from the granted ones to those collected for its queue. */
  lemma KeepStep(b: Books, m: map<QueueName, seq<Permit>>, queues: seq<QueueName>, permits: seq<Permit>, i: nat)
    requires NoRepeats(queues) && i < |permits| && permits[i].queue in queues
    requires Accounted(b, multiset(Flat(m, queues)) + multiset(permits[i..]), multiset{})
    ensures Accounted(b, multiset(Flat(Add(m, permits[i]), queues)) + multiset(permits[i + 1..]), multiset{})
    ensures |Flat(Add(m, permits[i]), queues)| == |Flat(m, queues)| + 1
  {
    assert permits[i..] == [permits[i]] + permits[i + 1..];
    FlatAdd(m, queues, permits[i]);
  }

  lemma ClaimStep(b: Books, hand: multiset<Permit>, queue: QueueName, limit: nat, jobs: Option<seq<Claim>>)
    requires Accounted(b, hand, multiset{})
    ensures Accounted(AfterClaim(b, queue, limit, jobs), hand, if jobs.Some? then multiset(jobs.value) else multiset{})
  {
  }

  lemma PermitLeaves(b: Books, rest: multiset<Permit>, permits: seq<Permit>, i: nat, job: Claim)
    requires i < |permits| && PermitsAccounted(b, rest + multiset(permits[i..]))
    ensures PermitsAccounted(HandedOver(b, Work(permits[i], job)), rest + multiset(permits[i + 1..]))
    ensures PermitsAccounted(Freed(b, permits[i]), rest + multiset(permits[i + 1..]))
  {
    BagFirst(permits, i);
  }

  lemma ClaimIsSent(b: Books, jobs: seq<Claim>, i: nat, permit: Permit)
    requires i < |jobs| && ClaimsAccounted(b, multiset(jobs[i..]))
    ensures ClaimsAccounted(HandedOver(b, Work(permit, jobs[i])), multiset(jobs[i + 1..]))
  {
    BagFirst(jobs, i);
  }

  lemma ClaimIsFreed(b: Books, jobs: seq<Claim>, i: nat)
    requires i < |jobs| && ClaimsAccounted(b, multiset(jobs[i..]))
    ensures ClaimsAccounted(Unclaimed(b, jobs[i]), multiset(jobs[i + 1..]))
  {
    BagFirst(jobs, i);
    assert multiset(b.freed + [jobs[i]]) == multiset(b.freed) + multiset{jobs[i]};
  }

  /** Job i of the claim leaves the pass together with permit i, by either way. */
  lemma DeliverStep(b: Books, rest: multiset<Permit>, permits: seq<Permit>, jobs: seq<Claim>, i: nat)
    requires i < |permits| && i < |jobs| && Accounted(b, rest + multiset(permits[i..]), multiset(jobs[i..]))
    ensures var hand, left := rest + multiset(permits[i + 1..]), multiset(jobs[i + 1..]);
      && Accounted(HandedOver(b, Work(permits[i], jobs[i])), hand, left)
      && Accounted(Unclaimed(Freed(b, permits[i]), jobs[i]), hand, left)
  {
    PermitLeaves(b, rest, permits, i, jobs[i]);
    ClaimIsSent(b, jobs, i, permits[i]);
    ClaimIsFreed(Freed(b, permits[i]), jobs, i);
  }

  /** The shares of a pass, in numbers: one request for each queue, all for the same count, which is at least
      one and at most a batch, and either a whole batch or as much as the headroom allows each queue. */
  ghost predicate EqualShares(requests: seq<Request>, queues: seq<QueueName>, headroom: nat, batchSizeMax: nat) {
    && |requests| == |queues| && (forall i :: 0 <= i < |queues| ==> requests[i].queue == queues[i])
    && (forall i :: 0 <= i < |queues| ==>
          var c := requests[i].count;
          && c == requests[0].count && 1 <= c <= batchSizeMax
          && (c == batchSizeMax || (c + 1) * |queues| > headroom)
          && (c == 1 || c * |queues| <= headroom))
  }

  lemma SharesAreEqual(queues: seq<QueueName>, headroom: nat, batchSizeMax: nat)
    requires 0 < batchSizeMax <= 1_048_576
    ensures EqualShares(Shares(queues, headroom, batchSizeMax), queues, headroom, batchSizeMax)
  {
    if |queues| > 0 {
      ShareIsLargest(headroom, |queues|, batchSizeMax);
    }
  }

  lemma ShareIsLargest(headroom: nat, n: nat, batchSizeMax: nat)
    requires n > 0 && 0 < batchSizeMax <= 1_048_576
    ensures var c := PerQueue(headroom, n, batchSizeMax);
      && 1 <= c <= batchSizeMax
      && (c == batchSizeMax || (c + 1) * n > headroom)
      && (c == 1 || c * n <= headroom)
  {
    var c, share := PerQueue(headroom, n, batchSizeMax), headroom / n;
    DivisionFits(headroom, n);
    assert (share + 1) * n > headroom by {
      assert headroom == n * share + headroom % n;
      assert (share + 1) * n == n * share + n;
    }
    if c != batchSizeMax {
      Scale(n, share + 1, c + 1);
      assert (c + 1) * n == n * (c + 1) && (share + 1) * n == n * (share + 1);
    }
    if c != 1 {
      Scale(n, c, share);
      assert c * n == n * c;
    }
  }

  function Shares(queues: seq<QueueName>, headroom: nat, batchSizeMax: nat): seq<Request> {
    var perQueue := PerQueue(headroom, |queues|, batchSizeMax);
    seq(|queues|, i requires 0 <= i < |queues| => Request(queues[i], perQueue))
  }

  /** The claim a queue gets: none without a permit, otherwise one for as many jobs as it has permits. */
  function CallOf(queue: QueueName, permits: nat, answer: Option<nat>): seq<ClaimCall> {
    if permits == 0 then [] else [ClaimCall(queue, permits, answer)]
  }

  /** Blocked without a permit; otherwise the outcome says whether the claim failed, brought as many jobs as
      there were permits, or fewer. */
  function OutcomeOf(permits: nat, answer: Option<nat>): PassOutcome {
    if permits == 0 then CapacityBlocked
    else match answer
      case None => Retry
      case Some(n) => if n == permits then Active else Idle
  }

  /** What a queue's turn amounted to. */
  ghost predicate Explains(before: Books, after: Books, queue: QueueName, permits: nat, answer: Option<nat>,
                           outcome: PassOutcome)
  {
    && after.claims == before.claims + CallOf(queue, permits, answer) && outcome == OutcomeOf(permits, answer)
    && if permits == 0 || answer.None? then after.claimed == before.claimed
       else answer.value <= permits && |after.claimed| == |before.claimed| + answer.value
  }

  function Calls(queues: seq<QueueName>, kept: seq<nat>, answers: seq<Option<nat>>): seq<ClaimCall>
    requires |kept| == |queues| == |answers|
  {
    if queues == [] then []
    else
      var n := |queues| - 1;
      Calls(queues[..n], kept[..n], answers[..n]) + CallOf(queues[n], kept[n], answers[n])
  }

  function Sum(s: seq<nat>): nat {
    if s == [] then 0 else s[0] + Sum(s[1..])
  }

  /** How many permits are there for each of these queues. */
  function Counts(m: map<QueueName, seq<Permit>>, queues: seq<QueueName>): seq<nat> {
    seq(|queues|, i requires 0 <= i < |queues| => |PermitsOf(m, queues[i])|)
  }

  lemma {:induction false} CountsAddUp(m: map<QueueName, seq<Permit>>, queues: seq<QueueName>)
    ensures Sum(Counts(m, queues)) == |Flat(m, queues)|
  {
    if queues != [] {
      CountsAddUp(m, queues[1..]);
      assert Counts(m, queues)[1..] == Counts(m, queues[1..]);
    }
  }

  /** The second half of a pass: each queue made the claim its permits allow, and its outcome fits the answer. */
  ghost predicate ServedAs(before: Books, after: Books, queues: seq<QueueName>, kept: seq<nat>,
                           answers: seq<Option<nat>>, outcomes: seq<PassOutcome>)
  {
    && |kept| == |queues| == |answers| && |outcomes| == |queues|
    && after.claims == before.claims + Calls(queues, kept, answers)
    && forall i :: 0 <= i < |queues| ==> outcomes[i] == OutcomeOf(kept[i], answers[i])
  }

  /** While the pump has not stopped, no claim is given back. */
  ghost predicate FreedOnlyIfClosed(before: Books, after: Books, closed: bool) {
    closed || after.freed == before.freed
  }

  /** Since `before` exactly these queues were finished, in this order, with these outcomes. */
  ghost predicate Finished(before: Books, after: Books, queues: seq<QueueName>, outcomes: seq<PassOutcome>) {
    |queues| == |outcomes| && after.finished == before.finished + queues && after.outcomes == before.outcomes + outcomes
  }

  ghost predicate SameRequests(before: Books, after: Books) {
    after.granted == before.granted && after.asked == before.asked
  }

  lemma OneMoreServed(first: Books, before: Books, after: Books, queues: seq<QueueName>, i: nat,
                      outcomes: seq<PassOutcome>, outcome: PassOutcome, kept: seq<nat>, answers: seq<Option<nat>>,
                      answer: Option<nat>)
    requires i < |queues| == |kept| && |answers| == i && Finished(first, before, queues[..i], outcomes)
    requires Finished(before, after, [queues[i]], [outcome])
    requires ServedAs(first, before, queues[..i], kept[..i], answers, outcomes)
    requires Explains(before, after, queues[i], kept[i], answer, outcome)
    ensures Finished(first, after, queues[..i + 1], outcomes + [outcome])
    ensures ServedAs(first, after, queues[..i + 1], kept[..i + 1], answers + [answer], outcomes + [outcome])
  {
    assert queues[..i + 1] == queues[..i] + [queues[i]] && kept[..i + 1] == kept[..i] + [kept[i]];
    assert queues[..i + 1][..i] == queues[..i] && kept[..i + 1][..i] == kept[..i];
    assert (answers + [answer])[..i] == answers;
  }

  /** Of what is offered all is kept, or at least as much as the budget had. */
  predicate FillsBudget(offered: nat, budget: nat, kept: nat) {
    kept <= offered && (kept < budget ==> offered <= kept)
  }

  lemma MoreBudget(offered: nat, budget: nat, less: nat, kept: nat)
    requires FillsBudget(offered, budget, kept) && less <= budget
    ensures FillsBudget(offered, less, kept)
  {
  }

  /** Of the permits granted as many are kept as the headroom allows, and a queue is served with those kept for it. */
  ghost predicate KeepsWhatFits(before: Books, after: Books, queues: seq<QueueName>, headroom: nat, kept: seq<nat>,
                                answers: seq<Option<nat>>, outcomes: seq<PassOutcome>)
  {
    |after.asked| > |before.asked| && after.asked[|before.asked|].granted.Some? ==>
      var granted := after.asked[|before.asked|].granted.value;
      ServedAs(before, after, queues, kept, answers, outcomes) && FillsBudget(granted, headroom, Sum(kept))
  }

  /** The dispatcher was asked once, for equal shares; if it failed, every queue is to be retried. */
  ghost predicate AskedOnce(before: Books, after: Books, queues: seq<QueueName>, headroom: nat, batchSizeMax: nat,
                            outcomes: seq<PassOutcome>)
  {
    && |after.asked| == |before.asked| + 1 && after.asked[..|before.asked|] == before.asked
    && var call := after.asked[|before.asked|];
       && EqualShares(call.requests, queues, headroom, batchSizeMax)
       && (call.granted.None? ==>
             after.claimed == before.claimed && forall i :: 0 <= i < |outcomes| ==> outcomes[i] == Retry)
       && (call.granted.Some? ==> |after.granted| == |before.granted| + call.granted.value)
  }

  /** A pass whose request was granted. */
  lemma GrantedPass(before: Books, asked: Books, after: Books, queues: seq<QueueName>, headroom: nat, batchSizeMax: nat,
                    call: ReserveCall, kept: seq<nat>, answers: seq<Option<nat>>, outcomes: seq<PassOutcome>)
    requires EqualShares(call.requests, queues, headroom, batchSizeMax) && call.granted.Some?
    requires asked.asked == before.asked + [call] && |asked.granted| == |before.granted| + call.granted.value
    requires SameRequests(asked, after) && ServedAs(before, after, queues, kept, answers, outcomes)
    requires FillsBudget(call.granted.value, headroom, Sum(kept))
    ensures AskedOnce(before, after, queues, headroom, batchSizeMax, outcomes)
    ensures KeepsWhatFits(before, after, queues, headroom, kept, answers, outcomes)
  {
  }

  /** A pass whose request failed. */
  lemma RefusedPass(before: Books, asked: Books, after: Books, queues: seq<QueueName>, headroom: nat, batchSizeMax: nat,
                    requests: seq<Request>, kept: seq<nat>, answers: seq<Option<nat>>, outcomes: seq<PassOutcome>)
    requires EqualShares(requests, queues, headroom, batchSizeMax) && asked == AfterReserve(before, requests, None)
    requires SameRequests(asked, after) && after.claimed == asked.claimed
    requires forall i :: 0 <= i < |outcomes| ==> outcomes[i] == Retry
    ensures AskedOnce(before, after, queues, headroom, batchSizeMax, outcomes)
    ensures KeepsWhatFits(before, after, queues, headroom, kept, answers, outcomes)
  {
  }

  class Pass {
    const maxInFlight: nat
    const batchSizeMax: nat

    /** Permits left in the delivery budget. */
    var available: nat
    /** The bounded delivery channel; its capacity is `maxInFlight`. */
    var channel: seq<Work>
    var closed: bool
    /** Deliveries the pump has taken from the channel and not finished. */
    var delivering: nat
    ghost var books: Books

    /** Every budget permit is free, rides with a queued or running delivery, or is held by the pass. */
    ghost predicate Budgeted(held: nat)
      reads this
    {
      available + |channel| + delivering + held == maxInFlight && 0 < batchSizeMax <= 1_048_576
    }

    constructor (maxInFlight: nat, batchSizeMax: nat)
      requires maxInFlight > 0 && 0 < batchSizeMax <= MAX_CLAIM_BATCH_SIZE
      ensures this.maxInFlight == maxInFlight && this.batchSizeMax == batchSizeMax
      ensures Budgeted(0) && Accounted(books, multiset{}, multiset{})
    {
      this.maxInFlight, this.batchSizeMax := maxInFlight, batchSizeMax;
      available, channel, closed, delivering := maxInFlight, [], false, 0;
      books := Books(multiset{}, multiset{}, multiset{}, multiset{}, multiset{}, [], [], [], [], [], [], false);
    }

    // -------------------------------------------------------- the surroundings

    /** Other tasks while the pass waits: the pump takes work, deliveries end, the pump may stop. */
    method Others(ghost held: nat)
      requires Budgeted(held)
      modifies this`available, this`channel, this`delivering, this`closed
      ensures Budgeted(held) && available >= old(available) && (old(closed) ==> closed)
    {
      var takes: int := *;
      var ends: int := *;
      var stops: bool := *;
      closed := closed || stops;
      if 0 <= takes <= |channel| {
        channel, delivering := channel[takes..], delivering + takes;
      }
      if 0 <= ends <= delivering {
        available, delivering := available + ends, delivering - ends;
      }
    }

    /** Any answer the dispatcher may give. */
    method Reserve(requests: seq<Request>) returns (r: Option<seq<Permit>>)
      requires Budgeted(0)
      modifies this
      ensures Budgeted(0)
      ensures r.Some? ==> GrantFits(requests, r.value)
      ensures books == AfterReserve(old(books), requests, r)
      ensures available >= old(available) && (old(closed) ==> closed)
    {
      Others(0);
      r := *;
      if r.Some? && !GrantFits(requests, r.value) {
        r := None;
      }
      books := AfterReserve(books, requests, r);
    }

    /** Any answer the store may give. */
    method ClaimBatch(queue: QueueName, limit: nat, ghost held: nat) returns (r: Option<seq<Claim>>)
      requires Budgeted(held)
      modifies this
      ensures Budgeted(held)
      ensures r.Some? ==> |r.value| <= ClampClaim(limit) && forall i :: 0 <= i < |r.value| ==> r.value[i].queue == queue
      ensures books == AfterClaim(old(books), queue, limit, r) && (old(closed) ==> closed)
    {
      Others(held);
      r := *;
      if r.Some? && (|r.value| > ClampClaim(limit) || exists i :: 0 <= i < |r.value| && r.value[i].queue != queue) {
        r := None;
      }
      books := AfterClaim(books, queue, limit, r);
    }

    method Release(permit: Permit, ghost held: nat)
      requires Budgeted(held)
      modifies this
      ensures Budgeted(held) && books == Freed(old(books), permit) && (old(closed) ==> closed)
    {
      Others(held);
      books := Freed(books, permit);
    }

    method FinishPass(queue: QueueName, outcome: PassOutcome)
      modifies this`books
      ensures books == FinishedWith(old(books), queue, outcome)
    {
      books := FinishedWith(books, queue, outcome);
    }

    method TrySend(work: Work) returns (r: Sent)
      modifies this`channel, this`books
      ensures r == Closed <==> closed
      ensures r == Full <==> !closed && |old(channel)| >= maxInFlight
      ensures r == Accepted ==> channel == old(channel) + [work] && books == HandedOver(old(books), work)
      ensures r == Closed ==> channel == old(channel) && books == old(books)
      ensures r == Full ==> channel == old(channel) && books == old(books).(overflowed := true)
    {
      if closed {
        return Closed;
      }
      if |channel| >= maxInFlight {
        books := books.(overflowed := true);
        return Full;
      }
      channel := channel + [work];
      books := HandedOver(books, work);
      return Accepted;
    }

    // --------------------------------------------------------------- the pass

    /** Pairs permit `i` with a budget permit, or gives it back; `hand` is what has been kept so far. */
    method KeepOrRelease(permits: seq<Permit>, i: nat, kept: map<QueueName, seq<Permit>>, ghost queues: seq<QueueName>,
                         ghost hand: seq<Permit>)
      returns (byQueue: map<QueueName, seq<Permit>>, ghost more: seq<Permit>)
      requires NoRepeats(queues) && i < |permits| && permits[i].queue in queues && Filled(kept)
      requires hand == Flat(kept, queues) && Budgeted(|hand|)
      requires Accounted(books, multiset(hand) + multiset(permits[i..]), multiset{})
      modifies this
      ensures Filled(byQueue) && more == Flat(byQueue, queues) && Budgeted(|more|)
      ensures Accounted(books, multiset(more) + multiset(permits[i + 1..]), multiset{})
      ensures books == old(books).(released := books.released) && (old(closed) ==> closed)
      ensures if old(available) > 0 then
                && books == old(books) && byQueue == Add(kept, permits[i])
                && available == old(available) - 1 && |more| == |hand| + 1
              else
                books == Freed(old(books), permits[i]) && byQueue == kept && more == hand
    {
      if available > 0 {
        KeepStep(books, kept, queues, permits, i);
        AddKeepsFilled(kept, permits[i]);
        available := available - 1;
        byQueue := Add(kept, permits[i]);
      } else {
        ReleaseStep(books, multiset(hand), permits, i, multiset{});
        Release(permits[i], |hand|);
        byQueue := kept;
      }
      more := Flat(byQueue, queues);
    }

    method KeepWithinBudget(permits: seq<Permit>, ghost queues: seq<QueueName>)
      returns (byQueue: map<QueueName, seq<Permit>>)
      requires NoRepeats(queues) && forall i :: 0 <= i < |permits| ==> permits[i].queue in queues
      requires Budgeted(0) && Accounted(books, multiset(permits), multiset{})
      modifies this
      ensures Budgeted(|Flat(byQueue, queues)|) && Accounted(books, multiset(Flat(byQueue, queues)), multiset{})
      ensures Filled(byQueue) && books == old(books).(released := books.released) && (old(closed) ==> closed)
      ensures FillsBudget(|permits|, old(available), |Flat(byQueue, queues)|)
    {
      byQueue := map[];
      NoneKept(books, queues, permits);
      ghost var hand := [];
      for i := 0 to |permits|
        invariant Filled(byQueue) && hand == Flat(byQueue, queues) && Budgeted(|hand|)
        invariant Accounted(books, multiset(hand) + multiset(permits[i..]), multiset{})
        invariant books == old(books).(released := books.released) && (old(closed) ==> closed)
        invariant |hand| + available >= old(available) && FillsBudget(i, old(available), |hand|)
      {
        byQueue, hand := KeepOrRelease(permits, i, byQueue, queues, hand);
      }
      NoneLeft(books, multiset(hand), permits);
    }

    /** Drops permit `i` with its budget permit; the pass holds `held` others. */
    method ReleaseOne(permits: seq<Permit>, i: nat, ghost rest: multiset<Permit>, ghost held: nat)
      requires i < |permits| && Budgeted(held + 1) && Accounted(books, rest + multiset(permits[i..]), multiset{})
      modifies this
      ensures Budgeted(held) && Accounted(books, rest + multiset(permits[i + 1..]), multiset{})
      ensures books == old(books).(released := books.released) && (old(closed) ==> closed)
    {
      ReleaseStep(books, rest, permits, i, multiset{});
      Release(permits[i], held + 1);
      available := available + 1;
    }

    /** Drops the permits from index `from` on. */
    method ReleaseRest(permits: seq<Permit>, from: nat, ghost rest: multiset<Permit>, ghost held: nat)
      requires from <= |permits| && Budgeted(held + |permits| - from)
      requires Accounted(books, rest + multiset(permits[from..]), multiset{})
      modifies this
      ensures Budgeted(held) && Accounted(books, rest, multiset{})
      ensures books == old(books).(released := books.released) && (old(closed) ==> closed)
    {
      for i := from to |permits|
        invariant Budgeted(held + |permits| - i) && Accounted(books, rest + multiset(permits[i..]), multiset{})
        invariant books == old(books).(released := books.released) && (old(closed) ==> closed)
      {
        ReleaseOne(permits, i, rest, held + |permits| - i - 1);
      }
      NoneLeft(books, rest, permits);
    }

    /** Hands one job to the pump, or gives back its slot and its claim and wakes its queue again. The
        second happens only when the pump has stopped: with a budget permit in hand the channel has room. */
    method Deliver(permit: Permit, job: Claim, ghost held: nat)
      requires permit.queue == job.queue && Budgeted(held + 1)
      modifies this
      ensures Budgeted(held)
      ensures old(closed) ==> books == Unclaimed(Freed(old(books), permit), job)
      ensures !old(closed) ==> books == HandedOver(old(books), Work(permit, job))
      ensures old(closed) ==> closed
    {
      var r := TrySend(Work(permit, job));
      if r != Accepted {
        available := available + 1;
        Release(permit, held);
        Others(held);
        books := Unclaimed(books, job);
      }
    }

    method DeliverAll(queue: QueueName, permits: seq<Permit>, jobs: seq<Claim>, ghost rest: multiset<Permit>)
      requires AllFor(permits, queue) && (forall i :: 0 <= i < |jobs| ==> jobs[i].queue == queue)
      requires |jobs| <= |permits| && Budgeted(|rest| + |permits|)
      requires Accounted(books, rest + multiset(permits), multiset(jobs))
      modifies this
      ensures Budgeted(|rest| + |permits| - |jobs|) && Accounted(books, rest + multiset(permits[|jobs|..]), multiset{})
      ensures books.finished == old(books).finished && books.outcomes == old(books).outcomes
      ensures books.granted == old(books).granted && books.claimed == old(books).claimed
      ensures books.asked == old(books).asked && books.claims == old(books).claims
      ensures FreedOnlyIfClosed(old(books), books, closed) && (old(closed) ==> closed)
    {
      assert permits[0..] == permits && jobs[0..] == jobs;
      for i := 0 to |jobs|
        invariant Budgeted(|rest| + |permits| - i)
        invariant Accounted(books, rest + multiset(permits[i..]), multiset(jobs[i..]))
        invariant books.finished == old(books).finished && books.outcomes == old(books).outcomes
        invariant books.granted == old(books).granted && books.claimed == old(books).claimed
        invariant books.asked == old(books).asked && books.claims == old(books).claims
        invariant FreedOnlyIfClosed(old(books), books, closed) && (old(closed) ==> closed)
      {
        DeliverStep(books, rest, permits, jobs, i);
        Deliver(permits[i], jobs[i], |rest| + |permits| - i - 1);
      }
      assert multiset(jobs[|jobs|..]) == multiset{};
    }

    /** Claims for one queue and delivers what was claimed. */
    method ServeQueue(queue: QueueName, permits: seq<Permit>, ghost rest: multiset<Permit>)
      returns (outcome: PassOutcome, ghost answer: Option<nat>)
      requires permits != [] && AllFor(permits, queue) && Budgeted(|rest| + |permits|)
      requires Accounted(books, rest + multiset(permits), multiset{})
      modifies this
      ensures Budgeted(|rest|) && Accounted(books, rest, multiset{})
      ensures Finished(old(books), books, [queue], [outcome]) && SameRequests(old(books), books)
      ensures Explains(old(books), books, queue, |permits|, answer, outcome)
      ensures FreedOnlyIfClosed(old(books), books, closed) && (old(closed) ==> closed)
    {
      assert permits[0..] == permits;
      var jobs := ClaimBatch(queue, |permits|, |rest| + |permits|);
      ClaimStep(old(books), rest + multiset(permits), queue, |permits|, jobs);
      if jobs.None? {
        ReleaseRest(permits, 0, rest, |rest|);
        FinishPass(queue, Retry);
        return Retry, None;
      }
      answer := Some(|jobs.value|);
      outcome := if |jobs.value| == |permits| then Active else Idle;
      DeliverAll(queue, permits, jobs.value, rest);
      ReleaseRest(permits, |jobs.value|, rest, |rest|);
      FinishPass(queue, outcome);
    }

    method FinishAll(queues: seq<QueueName>, outcome: PassOutcome)
      modifies this`books
      ensures books == old(books).(finished := books.finished, outcomes := books.outcomes)
      ensures Finished(old(books), books, queues, seq(|queues|, _ => outcome))
    {
      for i := 0 to |queues|
        invariant books == old(books).(finished := books.finished, outcomes := books.outcomes)
        invariant Finished(old(books), books, queues[..i], seq(i, _ => outcome))
      {
        assert queues[..i + 1] == queues[..i] + [queues[i]];
        FinishPass(queues[i], outcome);
      }
      assert queues[..|queues|] == queues;
    }

    /** One queue of the pass, with the permits kept for it, if any. */
    method ServeNext(queue: QueueName, permitsByQueue: map<QueueName, seq<Permit>>, ghost rest: multiset<Permit>)
      returns (outcome: PassOutcome, ghost answer: Option<nat>)
      requires Filled(permitsByQueue) && Budgeted(|rest| + |PermitsOf(permitsByQueue, queue)|)
      requires Accounted(books, rest + multiset(PermitsOf(permitsByQueue, queue)), multiset{})
      modifies this
      ensures Budgeted(|rest|) && Accounted(books, rest, multiset{})
      ensures Finished(old(books), books, [queue], [outcome]) && SameRequests(old(books), books)
      ensures Explains(old(books), books, queue, |PermitsOf(permitsByQueue, queue)|, answer, outcome)
      ensures FreedOnlyIfClosed(old(books), books, closed) && (old(closed) ==> closed)
    {
      if queue !in permitsByQueue {
        assert rest + multiset([]) == rest;
        FinishPass(queue, CapacityBlocked);
        outcome, answer := CapacityBlocked, None;
      } else {
        outcome, answer := ServeQueue(queue, permitsByQueue[queue], rest);
      }
    }

    /** The second half of a pass: each queue in turn. */
    method ServeAll(queues: seq<QueueName>, permitsByQueue: map<QueueName, seq<Permit>>)
      returns (outcomes: seq<PassOutcome>, ghost answers: seq<Option<nat>>)
      requires NoRepeats(queues) && Filled(permitsByQueue) && Budgeted(|Flat(permitsByQueue, queues)|)
      requires Accounted(books, multiset(Flat(permitsByQueue, queues)), multiset{})
      modifies this
      ensures Budgeted(0) && Accounted(books, multiset{}, multiset{})
      ensures Finished(old(books), books, queues, outcomes) && SameRequests(old(books), books)
      ensures ServedAs(old(books), books, queues, Counts(permitsByQueue, queues), answers, outcomes)
      ensures FreedOnlyIfClosed(old(books), books, closed) && (old(closed) ==> closed)
    {
      var byQueue := permitsByQueue;
      outcomes, answers := [], [];
      ghost var kept := Counts(permitsByQueue, queues);
      assert queues[0..] == queues;
      for i := 0 to |queues|
        invariant Filled(byQueue) && forall k :: i <= k < |queues| ==>
          PermitsOf(byQueue, queues[k]) == PermitsOf(permitsByQueue, queues[k])
        invariant Budgeted(|Flat(byQueue, queues[i..])|)
        invariant Accounted(books, multiset(Flat(byQueue, queues[i..])), multiset{})
        invariant SameRequests(old(books), books) && Finished(old(books), books, queues[..i], outcomes)
        invariant ServedAs(old(books), books, queues[..i], kept[..i], answers, outcomes)
        invariant FreedOnlyIfClosed(old(books), books, closed) && (old(closed) ==> closed)
      {
        NextShare(byQueue, queues, i);
        ShareTaken(byQueue, queues, i);
        ghost var before, answer := books, None;
        var outcome;
        outcome, answer := ServeNext(queues[i], byQueue, multiset(Flat(byQueue, queues[i + 1..])));
        byQueue := byQueue - {queues[i]};
        OneMoreServed(old(books), before, books, queues, i, outcomes, outcome, kept, answers, answer);
        outcomes, answers := outcomes + [outcome], answers + [answer];
      }
      assert queues[..|queues|] == queues && kept[..|queues|] == kept;
    }

    /** Asks the dispatcher once, for an equal share for each queue. */
    method ReserveShares(queues: seq<QueueName>, headroom: nat)
      returns (permits: Option<seq<Permit>>, requests: seq<Request>)
      requires Budgeted(0)
      modifies this
      ensures Budgeted(0) && EqualShares(requests, queues, headroom, batchSizeMax)
      ensures books == AfterReserve(old(books), requests, permits)
      ensures available >= old(available) && (old(closed) ==> closed)
      ensures permits.Some? ==>
        && |permits.value| <= Max(headroom, |queues|) && |permits.value| <= |queues| * batchSizeMax
        && forall i :: 0 <= i < |permits.value| ==> permits.value[i].queue in queues
    {
      requests := Shares(queues, headroom, batchSizeMax);
      AskedAlike(requests, PerQueue(headroom, |queues|, batchSizeMax));
      SharesFit(headroom, |queues|, batchSizeMax);
      SharesAreEqual(queues, headroom, batchSizeMax);
      permits := Reserve(requests);
    }

    /** A pass over the queues of a hash set, in the set's iteration order. Whatever the dispatcher, the
        store and the pump do meanwhile: each granted permit ends up released or with the pump, each
        claimed job with the pump or with its claim released and its queue woken, each queue finished
        once, and the delivery channel is never found full. */
    method Run(queues: seq<QueueName>)
      returns (outcomes: seq<PassOutcome>, ghost kept: seq<nat>, ghost answers: seq<Option<nat>>)
      requires NoRepeats(queues)
      requires Budgeted(0) && Accounted(books, multiset{}, multiset{})
      modifies this
      ensures Budgeted(0) && Accounted(books, multiset{}, multiset{})
      ensures Finished(old(books), books, queues, outcomes)
      ensures |books.granted| <= |old(books).granted| + Max(old(available), |queues|)
      ensures |books.granted| <= |old(books).granted| + |queues| * batchSizeMax
      ensures old(available) > 0 ==>
        && AskedOnce(old(books), books, queues, old(available), batchSizeMax, outcomes)
        && KeepsWhatFits(old(books), books, queues, old(available), kept, answers, outcomes)
      ensures FreedOnlyIfClosed(old(books), books, closed)
      ensures old(available) == 0 ==>
        && SameRequests(old(books), books) && books.claimed == old(books).claimed
        && forall i :: 0 <= i < |outcomes| ==> outcomes[i] == CapacityBlocked
    {
      var headroom := available;
      kept, answers := [], [];
      if headroom == 0 {
        outcomes := FinishEarly(queues, CapacityBlocked);
        return;
      }
      outcomes, kept, answers := RunWithHeadroom(queues, headroom);
    }

    method RunWithHeadroom(queues: seq<QueueName>, headroom: nat)
      returns (outcomes: seq<PassOutcome>, ghost kept: seq<nat>, ghost answers: seq<Option<nat>>)
      requires NoRepeats(queues) && headroom <= available && Budgeted(0) && Accounted(books, multiset{}, multiset{})
      modifies this
      ensures Budgeted(0) && Accounted(books, multiset{}, multiset{})
      ensures Finished(old(books), books, queues, outcomes)
      ensures |books.granted| <= |old(books).granted| + Max(headroom, |queues|)
      ensures |books.granted| <= |old(books).granted| + |queues| * batchSizeMax
      ensures AskedOnce(old(books), books, queues, headroom, batchSizeMax, outcomes)
      ensures KeepsWhatFits(old(books), books, queues, headroom, kept, answers, outcomes)
      ensures FreedOnlyIfClosed(old(books), books, closed)
    {
      kept, answers := [], [];
      var permits, requests := ReserveShares(queues, headroom);
      ghost var asked, budget := books, available;
      if permits.None? {
        GrantStep(old(books), requests, []);
        outcomes := FinishEarly(queues, Retry);
        RefusedPass(old(books), asked, books, queues, headroom, batchSizeMax, requests, kept, answers, outcomes);
        return;
      }
      GrantSize(old(books).granted, permits.value);
      outcomes, kept, answers := ServeGranted(queues, permits.value, old(books), requests);
      MoreBudget(|permits.value|, budget, headroom, Sum(kept));
      GrantedPass(old(books), asked, books, queues, headroom, batchSizeMax,
                  ReserveCall(requests, Some(|permits.value|)), kept, answers, outcomes);
    }

    /** A pass that stops before it has claimed anything. */
    method FinishEarly(queues: seq<QueueName>, outcome: PassOutcome) returns (outcomes: seq<PassOutcome>)
      requires Accounted(books, multiset{}, multiset{})
      modifies this`books
      ensures Accounted(books, multiset{}, multiset{}) && Finished(old(books), books, queues, outcomes)
      ensures SameRequests(old(books), books) && books.claimed == old(books).claimed && books.freed == old(books).freed
      ensures forall i :: 0 <= i < |outcomes| ==> outcomes[i] == outcome
    {
      FinishAll(queues, outcome);
      FinishKeepsAccounts(old(books), books);
      return seq(|queues|, _ => outcome);
    }

    /** A pass from the moment its permits are granted. */
    method ServeGranted(queues: seq<QueueName>, permits: seq<Permit>, ghost before: Books,
                        ghost requests: seq<Request>)
      returns (outcomes: seq<PassOutcome>, ghost kept: seq<nat>, ghost answers: seq<Option<nat>>)
      requires NoRepeats(queues) && forall i :: 0 <= i < |permits| ==> permits[i].queue in queues
      requires Budgeted(0) && Accounted(before, multiset{}, multiset{})
      requires books == AfterReserve(before, requests, Some(permits))
      modifies this
      ensures Budgeted(0) && Accounted(books, multiset{}, multiset{}) && Finished(before, books, queues, outcomes)
      ensures |books.granted| == |before.granted| + |permits| && SameRequests(old(books), books)
      ensures ServedAs(before, books, queues, kept, answers, outcomes)
      ensures FillsBudget(|permits|, old(available), Sum(kept))
      ensures FreedOnlyIfClosed(before, books, closed)
    {
      GrantSize(before.granted, permits);
      GrantStep(before, requests, permits);
      var byQueue := KeepWithinBudget(permits, queues);
      kept := Counts(byQueue, queues);
      CountsAddUp(byQueue, queues);
      outcomes, answers := ServeAll(queues, byQueue);
    }
  }
}
