/** The two database writer loops: requests sorted into three queues, served by class. */
module Writers {
  import opened Types
  import opened Lanes

  /** In the results writer `Work` is dispatch and `Batched` is completion; in the ingest writer
      `Work` is claim and `Batched` is enqueue. */
  datatype Kind = Meta | Work | Batched

  /** `rows` counts the rows of a dispatch; `preempts` says whether the request closes an open batch. */
  datatype Request = Request(id: nat, kind: Kind, rows: nat, preempts: bool)

  function Of(reqs: seq<Request>, kind: Kind): seq<Request> {
    if reqs == [] then []
    else if reqs[0].kind == kind then [reqs[0]] + Of(reqs[1..], kind)
    else Of(reqs[1..], kind)
  }

  lemma Regroup(a: seq<Request>, b: seq<Request>, c: seq<Request>)
    ensures a + (b + c) == (a + b) + c
  {
  }

  lemma {:induction false} OfAppend(a: seq<Request>, b: seq<Request>, kind: Kind)
    ensures Of(a + b, kind) == Of(a, kind) + Of(b, kind)
    decreases |a|
  {
    if a == [] {
      assert a + b == b;
    } else {
      OfAppend(a[1..], b, kind);
      assert (a + b)[1..] == a[1..] + b && (a + b)[0] == a[0];
      Regroup([a[0]], Of(a[1..], kind), Of(b, kind));
    }
  }

  lemma {:induction false} OfAllSame(a: seq<Request>, kind: Kind, other: Kind)
    requires forall r :: r in a ==> r.kind == kind
    ensures Of(a, other) == if other == kind then a else []
    decreases |a|
  {
    if a != [] {
      assert a[0] in a;
      OfAllSame(a[1..], kind, other);
    }
  }

  lemma {:induction false} OfCount(a: seq<Request>, r: Request, kind: Kind)
    ensures multiset(Of(a, kind))[r] == if r.kind == kind then multiset(a)[r] else 0
    decreases |a|
  {
    if a != [] {
      OfCount(a[1..], r, kind);
      assert a == [a[0]] + a[1..];
    }
  }

  lemma OfCounts(a: seq<Request>)
    ensures multiset(a) == multiset(Of(a, Meta)) + multiset(Of(a, Work)) + multiset(Of(a, Batched))
  {
    forall r ensures multiset(a)[r] == (multiset(Of(a, Meta)) + multiset(Of(a, Work)) + multiset(Of(a, Batched)))[r] {
      OfCount(a, r, Meta);
      OfCount(a, r, Work);
      OfCount(a, r, Batched);
    }
  }

  /** The same requests, each as often, and in the same order within each class. */
  ghost predicate SameWithinKinds(a: seq<Request>, b: seq<Request>) {
    forall kind :: Of(a, kind) == Of(b, kind)
  }

  lemma SameWithinKindsIsPermutation(a: seq<Request>, b: seq<Request>)
    requires SameWithinKinds(a, b)
    ensures multiset(a) == multiset(b) && |a| == |b|
  {
    OfCounts(a);
    OfCounts(b);
    assert |multiset(a)| == |a| && |multiset(b)| == |b|;
  }

  function TotalRows(reqs: seq<Request>): nat {
    if reqs == [] then 0 else reqs[0].rows + TotalRows(reqs[1..])
  }

  lemma {:induction false} NoRowsIff(reqs: seq<Request>)
    ensures TotalRows(reqs) == 0 <==> forall r :: r in reqs ==> r.rows == 0
    ensures TotalRows(reqs) > 0 <==> exists r :: r in reqs && r.rows > 0
    decreases |reqs|
  {
    if reqs != [] {
      NoRowsIff(reqs[1..]);
      assert reqs == [reqs[0]] + reqs[1..];
    }
  }

  /** One class of requests: answered, in hand, queued and still to come make up what was sent, in order. */
  ghost predicate InPlace(all: seq<Request>, kind: Kind, answered: seq<Request>, inHand: seq<Request>,
                          queue: seq<Request>, inbox: seq<Request>) {
    && (forall r :: r in queue ==> r.kind == kind) && (forall r :: r in inHand ==> r.kind == kind)
    && Of(all, kind) == Of(answered, kind) + inHand + queue + Of(inbox, kind)
  }

  /** Receiving a request moves it to the end of the queue of its class and leaves the other classes alone. */
  lemma ReceiveOne(all: seq<Request>, kind: Kind, answered: seq<Request>, inHand: seq<Request>, queue: seq<Request>,
                   inbox: seq<Request>)
    requires inbox != [] && InPlace(all, kind, answered, inHand, queue, inbox)
    ensures var more := if inbox[0].kind == kind then queue + [inbox[0]] else queue;
      InPlace(all, kind, answered, inHand, more, inbox[1..])
  {
    if inbox[0].kind == kind {
      MoveOver(Of(answered, kind) + inHand, queue, inbox[0], Of(inbox[1..], kind));
    }
  }

  /** An open batch takes an arriving request of its class directly. */
  lemma TakeOne(all: seq<Request>, kind: Kind, answered: seq<Request>, inHand: seq<Request>, inbox: seq<Request>)
    requires inbox != [] && inbox[0].kind == kind && InPlace(all, kind, answered, inHand, [], inbox)
    ensures InPlace(all, kind, answered, inHand + [inbox[0]], [], inbox[1..])
  {
    MoveOver(Of(answered, kind), inHand, inbox[0], Of(inbox[1..], kind));
    assert Of(answered, kind) + inHand + [] == Of(answered, kind) + inHand;
    var more := inHand + [inbox[0]];
    assert Of(answered, kind) + more + [] == Of(answered, kind) + more;
  }

  /** A lane turn: which lanes had work and which way the pressure pointed, the lane served, and what was
      answered. */
  datatype LaneRecord = LaneRecord(input: Input, lane: Option<Lane>, answers: seq<Request>)

  function KindOf(lane: Lane): Kind {
    match lane
    case DispatchLane => Work
    case CompletionLane => Batched
  }

  ghost predicate AnswersItsLane(turn: LaneRecord) {
    match turn.lane
    case None => turn.answers == []
    case Some(lane) => turn.answers != [] && forall r :: r in turn.answers ==> r.kind == KindOf(lane)
  }

  function Inputs(turns: seq<LaneRecord>): seq<Input> {
    seq(|turns|, i requires 0 <= i < |turns| => turns[i].input)
  }

  /** Each turn went to the lane the controller gives after the turns before it. */
  ghost predicate ByTheRules(turns: seq<LaneRecord>) {
    forall i :: 0 <= i < |turns| ==> Ruled(turns, i)
  }

  ghost predicate Ruled(turns: seq<LaneRecord>, i: nat)
    requires i < |turns|
  {
    AnswersItsLane(turns[i]) && turns[i].lane == Turn(AfterTurns(Inputs(turns)[..i]), turns[i].input).1
  }

  /** A lane that stays active through 34 turns in a row, from a point where there is a preference or the lane
      is completion, has one of its requests answered in one of them. */
  ghost predicate ServedInTime(turns: seq<LaneRecord>) {
    forall i, lane :: 0 <= i && i + 34 <= |turns| && WaitsThrough(turns, i, lane)
      && (AfterTurns(Inputs(turns)[..i]).preferred.Some? || lane == CompletionLane)
      ==> exists k :: i <= k < i + 34 && AnswersOf(turns[k], lane)
  }

  ghost predicate WaitsThrough(turns: seq<LaneRecord>, i: nat, lane: Lane)
    requires i + 34 <= |turns|
  {
    forall k :: i <= k < i + 34 ==> Active(turns[k].input, lane)
  }

  ghost predicate AnswersOf(turn: LaneRecord, lane: Lane) {
    turn.lane == Some(lane) && exists r :: r in turn.answers && r.kind == KindOf(lane)
  }

  lemma InputsOneMore(turns: seq<LaneRecord>, turn: LaneRecord)
    ensures Inputs(turns + [turn]) == Inputs(turns) + [turn.input]
    ensures forall i :: 0 <= i <= |turns| ==> Inputs(turns + [turn])[..i] == Inputs(turns)[..i]
  {
  }

  lemma OneMoreRecord(turns: seq<LaneRecord>, turn: LaneRecord, now: Control)
    requires ByTheRules(turns) && AnswersItsLane(turn)
    requires (now, turn.lane) == Turn(AfterTurns(Inputs(turns)), turn.input)
    ensures ByTheRules(turns + [turn]) && now == AfterTurns(Inputs(turns + [turn]))
  {
    var all := turns + [turn];
    InputsOneMore(turns, turn);
    OneMoreTurn(Inputs(turns), turn.input);
    assert Inputs(turns)[..|turns|] == Inputs(turns);
    forall i | 0 <= i < |all| ensures Ruled(all, i) {
      if i < |turns| {
        assert Ruled(turns, i) && all[i] == turns[i];
      }
    }
  }

  /** Turns that pass an active lane over are what the controller calls passing it over. */
  lemma {:induction false} UnservedIsPassedOver(turns: seq<LaneRecord>, i: nat, n: nat, lane: Lane)
    requires ByTheRules(turns) && i <= n <= |turns|
    requires forall k :: i <= k < n ==> Active(turns[k].input, lane) && turns[k].lane != Some(lane)
    ensures PassedOver(AfterTurns(Inputs(turns)[..i]), Inputs(turns)[i..n], lane)
    decreases n - i
  {
    if i < n {
      var inputs := Inputs(turns);
      UnservedIsPassedOver(turns, i + 1, n, lane);
      assert inputs[..i + 1] == inputs[..i] + [turns[i].input];
      OneMoreTurn(inputs[..i], turns[i].input);
      assert inputs[i..n][0] == turns[i].input && inputs[i..n][1..] == inputs[i + 1..n];
      assert Ruled(turns, i);
      SomeLaneIsServed(AfterTurns(inputs[..i]), turns[i].input, lane);
    }
  }

  lemma SomeLaneIsServed(c: Control, input: Input, lane: Lane)
    requires Active(input, lane)
    ensures Turn(c, input).1 == Some(lane) || Turn(c, input).1 == Some(OtherLane(lane))
  {
    var served := Turn(c, input).1;
    assert served.Some?;
    match served.value
    case DispatchLane => assert lane == DispatchLane || lane == CompletionLane;
    case CompletionLane => assert lane == DispatchLane || lane == CompletionLane;
  }

  lemma TurnsAreFair(turns: seq<LaneRecord>)
    requires ByTheRules(turns)
    ensures ServedInTime(turns)
  {
    forall i, lane | 0 <= i && i + 34 <= |turns| && WaitsThrough(turns, i, lane)
        && (AfterTurns(Inputs(turns)[..i]).preferred.Some? || lane == CompletionLane)
      ensures exists k :: i <= k < i + 34 && AnswersOf(turns[k], lane)
    {
      WindowIsServed(turns, i, lane);
    }
  }

  lemma WindowIsServed(turns: seq<LaneRecord>, i: nat, lane: Lane)
    requires ByTheRules(turns) && i + 34 <= |turns| && WaitsThrough(turns, i, lane)
    requires AfterTurns(Inputs(turns)[..i]).preferred.Some? || lane == CompletionLane
    ensures exists k :: i <= k < i + 34 && AnswersOf(turns[k], lane)
  {
    LaneGetsATurn(turns, i, lane);
    var k :| i <= k < i + 34 && turns[k].lane == Some(lane);
    assert Ruled(turns, k);
    AnswersWhatItServes(turns[k], lane);
  }

  lemma LaneGetsATurn(turns: seq<LaneRecord>, i: nat, lane: Lane)
    requires ByTheRules(turns) && i + 34 <= |turns| && WaitsThrough(turns, i, lane)
    requires AfterTurns(Inputs(turns)[..i]).preferred.Some? || lane == CompletionLane
    ensures exists k :: i <= k < i + 34 && turns[k].lane == Some(lane)
  {
    if forall k :: i <= k < i + 34 ==> turns[k].lane != Some(lane) {
      UnservedIsPassedOver(turns, i, i + 34, lane);
      PassedOverAtMost33(Inputs(turns)[..i], Inputs(turns)[i..i + 34], lane);
    }
  }

  lemma AnswersWhatItServes(turn: LaneRecord, lane: Lane)
    requires AnswersItsLane(turn) && turn.lane == Some(lane)
    ensures AnswersOf(turn, lane)
  {
    assert turn.answers[0] in turn.answers;
  }

  // ------------------------------------------------------------ open batches

  /** Why a batch takes no more requests. */
  datatype Close = Full | TimeOut | Preempted | ChannelClosed

  predicate Closes(r: Request) {
    r.kind != Batched && r.preempts
  }

  ghost predicate NoneCloses(received: seq<Request>) {
    forall r :: r in received ==> !Closes(r)
  }

  /** What was received while a batch was open: only the last request may have closed it. */
  ghost predicate WhileOpen(received: seq<Request>, why: Close) {
    if why == Preempted then
      received != [] && Closes(received[|received| - 1]) && NoneCloses(received[..|received| - 1])
    else
      NoneCloses(received)
  }

  /** A batch is what was queued, up to `target`, then its own class of what was received while it was open. */
  ghost predicate Batches(queued: seq<Request>, target: nat, received: seq<Request>, batch: seq<Request>,
                          left: seq<Request>)
  {
    if |queued| >= target then batch == queued[..target] && left == queued[target..] && received == []
    else batch == queued + Of(received, Batched) && left == []
  }

  /** From `queue` to `now` by what was received of one class. */
  ghost predicate Took(received: seq<Request>, kind: Kind, queue: seq<Request>, now: seq<Request>) {
    now == queue + Of(received, kind)
  }

  lemma TookOneMore(received: seq<Request>, r: Request, kind: Kind, queue: seq<Request>, now: seq<Request>)
    requires Took(received, kind, queue, now)
    ensures Took(received + [r], kind, queue, now + Of([r], kind))
  {
    OfAppend(received, [r], kind);
  }

  lemma ReceivedOneMore(inbox: seq<Request>, received: seq<Request>, rest: seq<Request>)
    requires inbox == received + rest && rest != [] && NoneCloses(received)
    ensures inbox == (received + [rest[0]]) + rest[1..]
    ensures WhileOpen(received + [rest[0]], Preempted) <==> Closes(rest[0])
    ensures NoneCloses(received + [rest[0]]) <==> !Closes(rest[0])
  {
    assert (received + [rest[0]])[..|received|] == received;
  }

  class Writer {
    /** The channel: every request the senders will ever send and the writer has not received. */
    var inbox: seq<Request>
    var meta: seq<Request>
    var work: seq<Request>
    var batched: seq<Request>
    /** Replies sent, oldest first. */
    var answered: seq<Request>
    const lanes: ResultsLaneController

    /** Of each class: what is answered, then what is in hand, then what is queued, then what is to
        come, is exactly what was sent. */
    ghost predicate Conserves(all: seq<Request>, inHand: seq<Request>)
      reads this
    {
      && InPlace(all, Meta, answered, [], meta, inbox)
      && InPlace(all, Work, answered, [], work, inbox)
      && InPlace(all, Batched, answered, inHand, batched, inbox)
    }

    constructor (requests: seq<Request>)
      ensures inbox == requests && Conserves(requests, []) && meta == [] && work == [] && batched == []
      ensures answered == []
      ensures fresh(lanes) && fresh(lanes.streak) && lanes.Value() == INITIAL
    {
      inbox, meta, work, batched, answered := requests, [], [], [], [];
      lanes := new ResultsLaneController();
    }

    predicate Idle()
      reads this
    {
      meta == [] && work == [] && batched == []
    }

    function Queued(): nat
      reads this
    {
      |meta| + |work| + |batched|
    }

    /** Takes the next request off the channel into its queue; an open batch takes its own class. */
    method Receive(ghost all: seq<Request>, ghost inHand: seq<Request>)
      requires inbox != [] && Conserves(all, inHand)
      requires inbox[0].kind == Batched ==> inHand == []
      modifies this`inbox, this`meta, this`work, this`batched
      ensures Conserves(all, inHand) && inbox == old(inbox)[1..] && Queued() == old(Queued()) + 1
      ensures meta == old(meta) + Of([old(inbox)[0]], Meta) && work == old(work) + Of([old(inbox)[0]], Work)
      ensures batched == old(batched) + Of([old(inbox)[0]], Batched)
    {
      ReceiveOne(all, Meta, answered, [], meta, inbox);
      ReceiveOne(all, Work, answered, [], work, inbox);
      ReceiveOne(all, Batched, answered, inHand, batched, inbox);
      var r := inbox[0];
      inbox := inbox[1..];
      match r.kind
      case Meta => meta := meta + [r];
      case Work => work := work + [r];
      case Batched => batched := batched + [r];
    }

    /** `while let Ok(request) = rx.try_recv()`: whatever happens to have arrived. */
    method ReceiveArrived(ghost all: seq<Request>)
      requires Conserves(all, [])
      modifies this`inbox, this`meta, this`work, this`batched
      ensures Conserves(all, []) && |inbox| + Queued() == |old(inbox)| + old(Queued())
      ensures Queued() >= old(Queued())
    {
      var arrived: bool := *;
      while inbox != [] && arrived
        invariant Conserves(all, []) && |inbox| + Queued() == |old(inbox)| + old(Queued()) && Queued() >= old(Queued())
        decreases |inbox|
      {
        Receive(all, []);
        arrived := *;
      }
    }

    /** Waits for a request if none is queued, then takes whatever has arrived; `over` when none ever will. */
    method Gather(ghost all: seq<Request>) returns (over: bool)
      requires Conserves(all, [])
      modifies this`inbox, this`meta, this`work, this`batched
      ensures Conserves(all, []) && (over ==> Idle() && inbox == []) && (!over ==> !Idle())
      ensures 2 * |inbox| + Queued() <= 2 * |old(inbox)| + old(Queued())
    {
      if Idle() {
        if inbox == [] {
          return true;
        }
        Receive(all, []);
      }
      ReceiveArrived(all);
      return false;
    }

    /** Answers the oldest request of a class. */
    method AnswerMeta(ghost all: seq<Request>)
      requires meta != [] && Conserves(all, [])
      modifies this`meta, this`answered
      ensures Conserves(all, []) && meta == old(meta)[1..] && Queued() == old(Queued()) - 1
      ensures answered == old(answered) + [old(meta)[0]]
    {
      var r := meta[0];
      AppendAnswers(answered, [r], Meta);
      meta, answered := meta[1..], answered + [r];
    }

    method AnswerWork(ghost all: seq<Request>)
      requires work != [] && Conserves(all, [])
      modifies this`work, this`answered
      ensures Conserves(all, []) && work == old(work)[1..] && Queued() == old(Queued()) - 1
      ensures answered == old(answered) + [old(work)[0]]
    {
      var r := work[0];
      AppendAnswers(answered, [r], Work);
      work, answered := work[1..], answered + [r];
    }

    method AnswerBatch(ghost all: seq<Request>, batch: seq<Request>)
      requires Conserves(all, batch)
      modifies this`answered
      ensures Conserves(all, []) && answered == old(answered) + batch
    {
      AppendAnswers(answered, batch, Batched);
      answered := answered + batch;
    }

    method FillFromQueue(ghost all: seq<Request>, target: nat) returns (pending: seq<Request>)
      requires Conserves(all, []) && batched != [] && target > 0
      modifies this`batched
      ensures Conserves(all, pending) && pending != [] && |pending| <= target
      ensures pending + batched == old(batched)
      ensures |pending| < target ==> batched == []
    {
      pending := [];
      while |pending| < target && batched != []
        invariant Conserves(all, pending) && pending + batched == old(batched) && |pending| <= target
        invariant |pending| == 0 ==> batched != []
        decreases |batched|
      {
        TakeOver(Of(answered, Batched), pending, batched, Of(inbox, Batched));
        pending := pending + [batched[0]];
        batched := batched[1..];
      }
    }

    method TakeArrival(ghost all: seq<Request>, pending: seq<Request>) returns (more: seq<Request>)
      requires Conserves(all, pending) && inbox != [] && inbox[0].kind == Batched && batched == []
      modifies this`inbox
      ensures Conserves(all, more) && more == pending + [old(inbox)[0]] && inbox == old(inbox)[1..]
    {
      ReceiveOne(all, Meta, answered, [], meta, inbox);
      ReceiveOne(all, Work, answered, [], work, inbox);
      TakeOne(all, Batched, answered, pending, inbox);
      more := pending + [inbox[0]];
      inbox := inbox[1..];
    }

    /** One request received while a batch is open. */
    method ReceiveWhileOpen(ghost all: seq<Request>, pending: seq<Request>)
      returns (more: seq<Request>, preempted: bool)
      requires Conserves(all, pending) && inbox != [] && batched == []
      modifies this`inbox, this`meta, this`work, this`batched
      ensures Conserves(all, more) && inbox == old(inbox)[1..] && batched == []
      ensures var r := old(inbox)[0];
        && more == pending + Of([r], Batched) && meta == old(meta) + Of([r], Meta) && work == old(work) + Of([r], Work)
        && preempted == Closes(r)
      ensures 2 * |inbox| + Queued() <= 2 * |old(inbox)| + old(Queued())
    {
      var r := inbox[0];
      if r.kind == Batched {
        more := TakeArrival(all, pending);
        preempted := false;
      } else {
        Receive(all, pending);
        more, preempted := pending, r.preempts;
      }
    }

    /** One wait of an open batch, which began with what was `taken` from its queue. */
    method WaitForOne(ghost all: seq<Request>, target: nat, pending: seq<Request>, ghost received: seq<Request>,
                      ghost inbox0: seq<Request>, ghost taken: seq<Request>, ghost meta0: seq<Request>,
                      ghost work0: seq<Request>)
      returns (more: seq<Request>, why: Close, ghost received': seq<Request>)
      requires Conserves(all, pending) && |pending| < target && batched == []
      requires inbox0 == received + inbox && NoneCloses(received) && Took(received, Batched, taken, pending)
      requires Took(received, Meta, meta0, meta) && Took(received, Work, work0, work)
      modifies this`inbox, this`meta, this`work, this`batched
      ensures Conserves(all, more) && |more| <= target && batched == []
      ensures inbox0 == received' + inbox && WhileOpen(received', why) && Took(received', Batched, taken, more)
      ensures Took(received', Meta, meta0, meta) && Took(received', Work, work0, work)
      ensures (why != Full ==> |more| < target) && (why == ChannelClosed ==> inbox == [])
      ensures why == Full ==> |inbox| < |old(inbox)|
      ensures |inbox| <= |old(inbox)| && 2 * |inbox| + Queued() <= 2 * |old(inbox)| + old(Queued())
    {
      var timedOut: bool := *;
      if timedOut {
        return pending, TimeOut, received;
      }
      if inbox == [] {
        return pending, ChannelClosed, received;
      }
      ghost var r := inbox[0];
      ReceivedOneMore(inbox0, received, inbox);
      TookOneMore(received, r, Meta, meta0, meta);
      TookOneMore(received, r, Work, work0, work);
      TookOneMore(received, r, Batched, taken, pending);
      var preempted;
      more, preempted := ReceiveWhileOpen(all, pending);
      received' := received + [r];
      why := if preempted then Preempted else Full;
    }

    /** Waits for more until the batch is full, time runs out, a request preempts it, or the channel closes. */
    method FillFromChannel(ghost all: seq<Request>, target: nat, taken: seq<Request>)
      returns (pending: seq<Request>, why: Close, ghost received: seq<Request>)
      requires Conserves(all, taken) && (|taken| < target ==> batched == []) && |taken| <= target
      modifies this`inbox, this`meta, this`work, this`batched
      ensures Conserves(all, pending) && |pending| <= target && batched == old(batched)
      ensures old(inbox) == received + inbox && (|taken| == target ==> received == [])
      ensures Took(received, Batched, taken, pending) && WhileOpen(received, why)
      ensures Took(received, Meta, old(meta), meta) && Took(received, Work, old(work), work)
      ensures (why == Full <==> |pending| == target) && (why == ChannelClosed ==> inbox == [])
      ensures 2 * |inbox| + Queued() <= 2 * |old(inbox)| + old(Queued())
    {
      pending, why, received := taken, Full, [];
      while |pending| < target && why == Full
        invariant Conserves(all, pending) && |pending| <= target && batched == old(batched)
        invariant |pending| < target ==> batched == []
        invariant old(inbox) == received + inbox && (|taken| == target ==> received == [])
        invariant Took(received, Batched, taken, pending) && WhileOpen(received, why)
        invariant Took(received, Meta, old(meta), meta) && Took(received, Work, old(work), work)
        invariant why != Full ==> |pending| < target
        invariant why == ChannelClosed ==> inbox == []
        invariant 2 * |inbox| + Queued() <= 2 * |old(inbox)| + old(Queued())
        decreases |inbox|, why == Full
      {
        pending, why, received := WaitForOne(all, target, pending, received, old(inbox), taken, old(meta), old(work));
      }
    }

    /** A batch turn: fill from the queue up to `target`, then wait for more of the same class. What else
        arrives meanwhile is queued under its class. */
    method BatchTurn(ghost all: seq<Request>, target: nat)
      returns (disconnected: bool, ghost batch: seq<Request>, ghost received: seq<Request>, ghost why: Close)
      requires Conserves(all, []) && batched != [] && target > 0
      modifies this`inbox, this`meta, this`work, this`batched, this`answered
      ensures Conserves(all, []) && answered == old(answered) + batch
      ensures 2 * |inbox| + Queued() < 2 * |old(inbox)| + old(Queued())
      ensures 0 < |batch| <= target && batch[0] == old(batched)[0] && (forall r :: r in batch ==> r.kind == Batched)
      ensures old(inbox) == received + inbox && Batches(old(batched), target, received, batch, batched)
      ensures meta == old(meta) + Of(received, Meta) && work == old(work) + Of(received, Work)
      ensures WhileOpen(received, why) && (why == Full <==> |batch| == target)
      ensures disconnected == (why == ChannelClosed) && (disconnected ==> inbox == [])
    {
      var pending := FillFromQueue(all, target);
      ghost var taken := pending;
      assert taken == old(batched)[..|taken|] && batched == old(batched)[|taken|..];
      var closed;
      pending, closed, received := FillFromChannel(all, target, pending);
      assert pending[0] == taken[0];
      AnswerBatch(all, pending);
      batch, why, disconnected := pending, closed, closed == ChannelClosed;
    }

    /** The channel has closed: everything still queued is answered. */
    method Drain(ghost all: seq<Request>)
      requires Conserves(all, []) && inbox == []
      modifies this`meta, this`work, this`batched, this`answered
      ensures Idle() && SameWithinKinds(answered, all)
    {
      var batch := batched;
      batched := [];
      AnswerBatch(all, batch);
      while meta != []
        invariant Conserves(all, []) && batched == []
        decreases |meta|
      {
        AnswerMeta(all);
      }
      while work != []
        invariant Conserves(all, []) && batched == [] && meta == []
        decreases |work|
      {
        AnswerWork(all);
      }
      forall kind ensures Of(answered, kind) == Of(all, kind) {
        match kind
        case Meta =>
        case Work =>
        case Batched =>
      }
    }

    /** One turn of the lane the controller picks; the pressure it weighs is arbitrary. The lane served is the
        one the controller's rules give, the turn is recorded, and a request of that class is answered. */
    method LaneTurn(ghost all: seq<Request>) returns (lane: Option<Lane>, disconnected: bool, ghost turn: LaneRecord)
      requires Conserves(all, []) && meta == [] && Queued() > 0
      modifies this`inbox, this`meta, this`work, this`batched, this`answered, lanes, lanes.streak
      ensures Conserves(all, []) && (disconnected ==> inbox == [])
      ensures turn.lane == lane && turn.input.completion == (old(batched) != [])
      ensures turn.input.dispatch == exists r :: r in old(work) && r.rows > 0
      ensures (lanes.Value(), lane) == Turn(old(lanes.Value()), turn.input)
      ensures answered == old(answered) + turn.answers && AnswersItsLane(turn)
      ensures lane == Some(DispatchLane) ==> turn.answers == [old(work)[0]]
      ensures lane == Some(CompletionLane) ==> turn.answers[0] == old(batched)[0]
      ensures lane.None? <==> old(batched) == [] && forall r :: r in old(work) ==> r.rows == 0
      ensures lane.Some? ==> 2 * |inbox| + Queued() < 2 * |old(inbox)| + old(Queued())
      ensures lane.None? ==> inbox == old(inbox) && meta == [] && work == old(work) && batched == [] && !disconnected
    {
      NoRowsIff(work);
      var direction: int := *;
      var input := Input(TotalRows(work) > 0, batched != [], direction);
      lane := lanes.SelectLane(input);
      disconnected := false;
      ghost var answers := [];
      match lane {
        case None =>
        case Some(DispatchLane) =>
          answers := [work[0]];
          AnswerWork(all);
          lanes.RecordLaneTurn(DispatchLane);
        case Some(CompletionLane) =>
          var size: int := *;
          ghost var received, why;
          disconnected, answers, received, why := BatchTurn(all, if size > 0 then size else 1);
          lanes.RecordLaneTurn(CompletionLane);
      }
      turn := LaneRecord(input, lane, answers);
    }

    /** All that is left is dispatch requests without rows; everything else was answered, in order. */
    ghost predicate OnlyRowlessLeft(all: seq<Request>)
      reads this
    {
      && inbox == [] && meta == [] && batched == [] && work != [] && (forall r :: r in work ==> r.rows == 0)
      && Of(answered, Meta) == Of(all, Meta) && Of(answered, Batched) == Of(all, Batched)
      && Of(answered, Work) + work == Of(all, Work)
    }

    /** `results_writer_loop`. `spins` is the loop that never ends: nothing will arrive any more, and every
        turn finds only dispatch requests without rows. While more is to arrive, such turns just wait. The
        lane turns it took follow the controller's rules from its initial state, so they are fair. */
    method RunResults() returns (spins: bool, ghost turns: seq<LaneRecord>)
      requires Idle() && answered == [] && lanes.Value() == INITIAL
      modifies this, lanes, lanes.streak
      ensures !spins ==> inbox == [] && Idle() && SameWithinKinds(answered, old(inbox))
      ensures spins ==> OnlyRowlessLeft(old(inbox))
      ensures (forall r :: r in old(inbox) && r.kind == Work ==> r.rows > 0) ==> !spins
      ensures ByTheRules(turns) && ServedInTime(turns)
    {
      spins, turns := ResultsLoop();
      TurnsAreFair(turns);
    }

    /** A lane turn on top of those taken so far. */
    method NextLaneTurn(ghost all: seq<Request>, ghost turns: seq<LaneRecord>)
      returns (lane: Option<Lane>, disconnected: bool, ghost turn: LaneRecord)
      requires Conserves(all, []) && meta == [] && Queued() > 0
      requires ByTheRules(turns) && lanes.Value() == AfterTurns(Inputs(turns))
      modifies this`inbox, this`meta, this`work, this`batched, this`answered, lanes, lanes.streak
      ensures Conserves(all, []) && (disconnected ==> inbox == [])
      ensures ByTheRules(turns + [turn]) && lanes.Value() == AfterTurns(Inputs(turns + [turn]))
      ensures lane.Some? ==> 2 * |inbox| + Queued() < 2 * |old(inbox)| + old(Queued())
      ensures lane.None? ==> inbox == old(inbox) && meta == [] && work == old(work) && batched == [] && !disconnected
      ensures lane.None? ==> work != [] && forall r :: r in work ==> r.rows == 0
    {
      lane, disconnected, turn := LaneTurn(all);
      OneMoreRecord(turns, turn, lanes.Value());
    }

    method ResultsLoop() returns (spins: bool, ghost turns: seq<LaneRecord>)
      requires Idle() && answered == [] && lanes.Value() == INITIAL
      modifies this, lanes, lanes.streak
      ensures !spins ==> inbox == [] && Idle() && SameWithinKinds(answered, old(inbox))
      ensures spins ==> OnlyRowlessLeft(old(inbox))
      ensures (forall r :: r in old(inbox) && r.kind == Work ==> r.rows > 0) ==> !spins
      ensures ByTheRules(turns)
    {
      ghost var all := inbox;
      spins, turns := false, [];
      while true
        invariant Conserves(all, []) && ByTheRules(turns) && lanes.Value() == AfterTurns(Inputs(turns))
        decreases 2 * |inbox| + Queued()
      {
        var over := Gather(all);
        if over {
          break;
        }
        if meta != [] {
          AnswerMeta(all);
          continue;
        }
        ghost var turn;
        var lane, disconnected;
        lane, disconnected, turn := NextLaneTurn(all, turns);
        turns := turns + [turn];
        if disconnected {
          Drain(all);
          return;
        }
        if lane.None? && inbox == [] {
          NothingElseLeft(all, answered, work);
          spins := true;
          return;
        }
        if lane.None? {
          Receive(all, []);
        }
      }
      Drain(all);
    }

    /** One turn of the ingest writer: queue upserts before claims before enqueues. */
    method IngestTurn(ghost all: seq<Request>) returns (disconnected: bool, ghost answers: seq<Request>)
      requires Conserves(all, []) && !Idle()
      modifies this`inbox, this`meta, this`work, this`batched, this`answered
      ensures Conserves(all, []) && (disconnected ==> inbox == [])
      ensures 2 * |inbox| + Queued() < 2 * |old(inbox)| + old(Queued())
      ensures answered == old(answered) + answers
      ensures old(meta) != [] ==> answers == [old(meta)[0]]
      ensures old(meta) == [] && old(work) != [] ==> answers == [old(work)[0]]
      ensures old(meta) == [] && old(work) == [] ==>
        answers != [] && answers[0] == old(batched)[0] && forall r :: r in answers ==> r.kind == Batched
    {
      disconnected := false;
      if meta != [] {
        answers := [meta[0]];
        AnswerMeta(all);
      } else if work != [] {
        answers := [work[0]];
        AnswerWork(all);
      } else {
        var size: int := *;
        ghost var received, why;
        disconnected, answers, received, why := BatchTurn(all, if size > 0 then size else 1);
      }
    }

    /** `ingest_writer_loop`: strict priority, with enqueues batched when nothing else waits. */
    method RunIngest()
      requires Idle() && answered == []
      modifies this
      ensures inbox == [] && Idle() && SameWithinKinds(answered, old(inbox))
    {
      ghost var all := inbox;
      while true
        invariant Conserves(all, [])
        decreases 2 * |inbox| + Queued()
      {
        var over := Gather(all);
        if over {
          break;
        }
        ghost var answers;
        var disconnected;
        disconnected, answers := IngestTurn(all);
        if disconnected {
          Drain(all);
          return;
        }
      }
      Drain(all);
    }
  }

  lemma {:induction false} OfWithin(reqs: seq<Request>, kind: Kind, r: Request)
    requires r in Of(reqs, kind)
    ensures r in reqs && r.kind == kind
    decreases |reqs|
  {
    if !(reqs[0].kind == kind && r == reqs[0]) {
      OfWithin(reqs[1..], kind, r);
    }
  }

  /** Requests still queued when nothing more will arrive are requests that were sent. */
  lemma NothingElseLeft(all: seq<Request>, answered: seq<Request>, work: seq<Request>)
    requires work != [] && InPlace(all, Work, answered, [], work, [])
    requires InPlace(all, Meta, answered, [], [], []) && InPlace(all, Batched, answered, [], [], [])
    ensures Of(answered, Meta) == Of(all, Meta) && Of(answered, Batched) == Of(all, Batched)
    ensures Of(answered, Work) + work == Of(all, Work)
    ensures work[0] in all && work[0].kind == Work
  {
    var done := Of(answered, Work);
    assert done + [] + work + [] == done + work;
    assert (done + work)[|done|] == work[0];
    OfWithin(all, Work, work[0]);
  }

  /** Why dispatch requests must carry rows: a turn of the results loop that has work queued serves
      nothing exactly when all it holds is dispatch requests without rows. */
  lemma TurnServesNothingIff(c: Control, meta: seq<Request>, work: seq<Request>, batched: seq<Request>, direction: int)
    requires meta + work + batched != []
    ensures (meta == [] && Select(c, Input(TotalRows(work) > 0, batched != [], direction)).1.None?)
      <==> (meta == [] && batched == [] && forall r :: r in work ==> r.rows == 0)
  {
    NoRowsIff(work);
  }

  /** Moving one request from what is to come onto the end of a queue changes no order. */
  lemma MoveOver(done: seq<Request>, queue: seq<Request>, r: Request, rest: seq<Request>)
    ensures done + queue + ([r] + rest) == done + (queue + [r]) + rest
  {
  }

  lemma TakeOver(done: seq<Request>, inHand: seq<Request>, queue: seq<Request>, rest: seq<Request>)
    requires queue != []
    ensures done + inHand + queue + rest == done + (inHand + [queue[0]]) + queue[1..] + rest
  {
    assert queue == [queue[0]] + queue[1..];
  }

  lemma AppendAnswers(answered: seq<Request>, batch: seq<Request>, kind: Kind)
    requires forall r :: r in batch ==> r.kind == kind
    ensures Of(answered + batch, kind) == Of(answered, kind) + batch
    ensures forall other :: other != kind ==> Of(answered + batch, other) == Of(answered, other)
  {
    forall other ensures Of(answered + batch, other) == Of(answered, other) + if other == kind then batch else [] {
      OfAppend(answered, batch, other);
      OfAllSame(batch, kind, other);
    }
  }
}
