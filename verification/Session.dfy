/** One worker session: the dispatcher's end and the worker SDK's end, joined by two FIFO connections.
    Each direction is a log of every frame queued so far with two cursors into it: how many frames
    the writer has written, and how many the reader at the other end has read. */
module Session {
  import opened Types
  import opened Registry

  datatype ServerFrame = Registered | JobDispatch(id: DispatchId) | Draining

  datatype WorkerFrame = JobResult(id: DispatchId, running: U32, freeSlots: U32) | DrainRequest | Heartbeat

  /** Frames from the dispatcher. `sentAt` and `drainingAt` say where each one stands in the log. */
  datatype ServerLink = ServerLink(log: seq<ServerFrame>, wrote: nat, read: nat, sentAt: map<DispatchId, nat>,
                                   drainingAt: Option<nat>)

  /** Frames from the SDK. */
  datatype WorkerLink = WorkerLink(log: seq<WorkerFrame>, wrote: nat, read: nat, resultAt: map<DispatchId, nat>,
                                   drainAt: Option<nat>)

  /** The dispatcher's end. `queued` and `dropped` are history: every dispatch handed to the writer
      task, and those the writer never wrote. */
  datatype ServerEnd = ServerEnd(
    registered: bool,
    connected: bool,
    worker: WorkerState,
    permits: nat,
    writerAlive: bool,
    queued: set<DispatchId>,
    dropped: set<DispatchId>)

  /** A job task of the SDK, from its dispatch frame to its written result. */
  datatype Task = Spawned | Holding | Handled | Snapshot(freeSlots: U32) | Reporting | Written

  datatype Phase = Serving | SendingDrain | AwaitingDrain | DrainingJobs | Finished | Broken

  /** The SDK's end. `rejected` records that `serve` refused a frame as unexpected. */
  datatype SdkEnd = SdkEnd(phase: Phase, jobs: map<DispatchId, Task>, drainWritten: bool, rejected: bool)

  datatype State = State(concurrency: U32, server: ServerEnd, out: ServerLink, back: WorkerLink, sdk: SdkEnd)

  datatype Event =
    | SendRegistered
    | ReserveSlot
    | ReleaseSlot
    | DispatchJob(id: DispatchId)
    | ServerWrite
    | ServerWriteFails
    | ReleaseDispatched(id: DispatchId)
    | ServerReads
    | Disconnect
    | SdkReads
    | RejectPayload(id: DispatchId)
    | Acquire(id: DispatchId)
    | Handle(id: DispatchId)
    | TakeSnapshot(id: DispatchId)
    | QueueReport(id: DispatchId)
    | SendHeartbeat
    | Shutdown
    | SdkWrite
    | ResumeServing
    | Join(id: DispatchId)
    | Return
    | SdkFails

  ghost function Holders(sdk: SdkEnd): set<DispatchId> {
    set d | d in sdk.jobs && sdk.jobs[d] == Holding
  }

  /** Permits left in the SDK's semaphore. */
  ghost function FreeSlots(s: State): int {
    s.concurrency - |Holders(s.sdk)|
  }

  predicate Alive(sdk: SdkEnd) {
    sdk.phase != Broken && sdk.phase != Finished
  }

  /** `serve` reads frames and joins tasks except while it waits for its own drain request to be written. */
  predicate MayRead(sdk: SdkEnd) {
    sdk.phase == Serving || sdk.phase == AwaitingDrain || sdk.phase == DrainingJobs
  }

  predicate TaskIs(sdk: SdkEnd, d: DispatchId, t: Task) {
    Alive(sdk) && d in sdk.jobs && sdk.jobs[d] == t
  }

  /** Dispatch ids are fresh; a report waits until its frame is written; the slot semaphore blocks. */
  ghost predicate Enabled(s: State, e: Event) {
    match e
    case SendRegistered => s.server.connected && !s.server.registered && s.server.writerAlive
    case ReserveSlot => s.server.connected && Eligible(s.server.worker, s.server.worker.queueName)
    case ReleaseSlot => s.server.connected && s.server.permits > 0
    case DispatchJob(d) => s.server.connected && s.server.permits > 0 && d !in s.server.queued
    case ServerWrite => s.server.writerAlive && s.out.wrote < |s.out.log|
    case ServerWriteFails => s.server.writerAlive && s.out.wrote < |s.out.log|
    case ReleaseDispatched(d) => s.server.connected && d in s.server.dropped
    case ServerReads => s.server.connected && s.server.registered && s.back.read < s.back.wrote <= |s.back.log|
    case Disconnect => true
    case SdkReads => MayRead(s.sdk) && s.out.read < s.out.wrote <= |s.out.log|
    case RejectPayload(d) => TaskIs(s.sdk, d, Spawned)
    case Acquire(d) => TaskIs(s.sdk, d, Spawned) && FreeSlots(s) > 0
    case Handle(d) => TaskIs(s.sdk, d, Holding)
    case TakeSnapshot(d) => TaskIs(s.sdk, d, Handled) && 0 <= FreeSlots(s)
    case QueueReport(d) => Alive(s.sdk) && d in s.sdk.jobs && s.sdk.jobs[d].Snapshot?
    case SendHeartbeat => Alive(s.sdk)
    case Shutdown => s.sdk.phase == Serving
    case SdkWrite => Alive(s.sdk) && s.back.wrote < |s.back.log|
    case ResumeServing => s.sdk.phase == SendingDrain && s.sdk.drainWritten
    case Join(d) => TaskIs(s.sdk, d, Written) && MayRead(s.sdk)
    case Return => s.sdk.phase == DrainingJobs && s.sdk.jobs == map[]
    case SdkFails => s.sdk.phase != Finished
  }

  function Queue(link: ServerLink, frame: ServerFrame): ServerLink {
    link.(log := link.log + [frame],
          sentAt := if frame.JobDispatch? then link.sentAt[frame.id := |link.log|] else link.sentAt,
          drainingAt := if frame.Draining? then Some(|link.log|) else link.drainingAt)
  }

  function Report(link: WorkerLink, frame: WorkerFrame): WorkerLink {
    link.(log := link.log + [frame],
          resultAt := if frame.JobResult? then link.resultAt[frame.id := |link.log|] else link.resultAt,
          drainAt := if frame.DrainRequest? then Some(|link.log|) else link.drainAt)
  }

  /** Dispatches still in the channel of a writer task that stops. */
  function Unwritten(link: ServerLink): set<DispatchId> {
    set d | d in link.sentAt && link.sentAt[d] >= link.wrote
  }

  /** What a stopped writer task had not written is never received. */
  function Cut(link: ServerLink): ServerLink
    requires link.wrote <= |link.log|
  {
    link.(log := link.log[..link.wrote],
          sentAt := map d | d in link.sentAt && link.sentAt[d] < link.wrote :: link.sentAt[d],
          drainingAt := if link.drainingAt.Some? && link.drainingAt.value >= link.wrote then None else link.drainingAt)
  }

  function AfterDispatch(s: State, d: DispatchId): State
    requires s.server.permits > 0
  {
    var goes := !s.server.worker.draining && s.server.writerAlive;
    s.(server := s.server.(permits := s.server.permits - 1,
                           worker := QueueDispatch(s.server.worker, d, s.server.writerAlive),
                           queued := if goes then s.server.queued + {d} else s.server.queued),
       out := if goes then Queue(s.out, JobDispatch(d)) else s.out)
  }

  function AfterServerReads(s: State): State
    requires s.back.read < |s.back.log|
  {
    var s1 := s.(back := s.back.(read := s.back.read + 1));
    match s.back.log[s.back.read]
    case JobResult(d, running, freeSlots) =>
      s1.(server := s.server.(worker := RecordResult(s.server.worker, d, running, freeSlots)))
    case Heartbeat => s1
    case DrainRequest =>
      var drained := s.server.worker.(draining := true, freeSlots := 0);
      s1.(server := s.server.(worker := drained, connected := s.server.writerAlive),
          out := if s.server.writerAlive then Queue(s.out, Draining) else s.out)
  }

  /** `serve` fails on an unexpected frame. */
  function Refuse(sdk: SdkEnd): SdkEnd {
    sdk.(phase := Broken, jobs := map[], rejected := true)
  }

  function SdkReadsFrame(sdk: SdkEnd, frame: ServerFrame): SdkEnd {
    match frame
    case Registered => sdk
    case JobDispatch(d) =>
      if sdk.phase != DrainingJobs then sdk.(jobs := sdk.jobs[d := Spawned]) else Refuse(sdk)
    case Draining =>
      if sdk.phase == AwaitingDrain then sdk.(phase := DrainingJobs) else Refuse(sdk)
  }

  function SdkWroteFrame(sdk: SdkEnd, frame: WorkerFrame): SdkEnd {
    match frame
    case JobResult(d, _, _) => sdk.(jobs := if d in sdk.jobs then sdk.jobs[d := Written] else sdk.jobs)
    case DrainRequest => sdk.(drainWritten := true)
    case Heartbeat => sdk
  }

  function Move(s: State, d: DispatchId, t: Task): State {
    s.(sdk := s.sdk.(jobs := s.sdk.jobs[d := t]))
  }

  ghost function After(s: State, e: Event): State
    requires Enabled(s, e)
  {
    match e
    case SendRegistered => s.(out := Queue(s.out, Registered), server := s.server.(registered := true))
    case ReserveSlot => s.(server := s.server.(worker := Reserve(s.server.worker), permits := s.server.permits + 1))
    case ReleaseSlot =>
      s.(server := s.server.(worker := FreeReservation(s.server.worker), permits := s.server.permits - 1))
    case DispatchJob(d) => AfterDispatch(s, d)
    case ServerWrite => s.(out := s.out.(wrote := s.out.wrote + 1))
    case ServerWriteFails =>
      s.(out := Cut(s.out), server := s.server.(writerAlive := false, dropped := s.server.dropped + Unwritten(s.out)))
    case ReleaseDispatched(d) =>
      s.(server := s.server.(worker := s.server.worker.(inFlight := s.server.worker.inFlight - {d})))
    case ServerReads => AfterServerReads(s)
    case Disconnect => s.(server := s.server.(connected := false))
    case SdkReads => s.(out := s.out.(read := s.out.read + 1), sdk := SdkReadsFrame(s.sdk, s.out.log[s.out.read]))
    case RejectPayload(d) => Move(s, d, Handled)
    case Acquire(d) => Move(s, d, Holding)
    case Handle(d) => Move(s, d, Handled)
    case TakeSnapshot(d) => Move(s, d, Snapshot(FreeSlots(s)))
    case QueueReport(d) =>
      var free := s.sdk.jobs[d].freeSlots;
      Move(s, d, Reporting).(back := Report(s.back, WorkerFrame.JobResult(d, SaturatingSub(s.concurrency, free), free)))
    case SendHeartbeat => s.(back := Report(s.back, Heartbeat))
    case Shutdown => s.(sdk := s.sdk.(phase := SendingDrain), back := Report(s.back, DrainRequest))
    case SdkWrite =>
      s.(back := s.back.(wrote := s.back.wrote + 1), sdk := SdkWroteFrame(s.sdk, s.back.log[s.back.wrote]))
    case ResumeServing => s.(sdk := s.sdk.(phase := AwaitingDrain))
    case Join(d) => s.(sdk := s.sdk.(jobs := s.sdk.jobs - {d}))
    case Return => s.(sdk := s.sdk.(phase := Finished))
    case SdkFails => s.(sdk := s.sdk.(phase := Broken, jobs := map[]))
  }

  /** Right after the dispatcher entered the worker into its registry. */
  ghost predicate Init(s: State) {
    && s.concurrency >= 1
    && s.server == ServerEnd(false, true, NewWorker(s.server.worker.queueName, 0, s.concurrency), 0, true, {}, {})
    && s.out == ServerLink([], 0, 0, map[], None)
    && s.back == WorkerLink([], 0, 0, map[], None)
    && s.sdk == SdkEnd(Serving, map[], false, false)
  }

  ghost predicate IsRun(states: seq<State>, events: seq<Event>) {
    && |states| == |events| + 1
    && Init(states[0])
    && (forall i :: 0 <= i < |events| ==> Enabled(states[i], events[i]) && states[i + 1] == After(states[i], events[i]))
  }

  // ---------------------------------------------------------------- invariant

  predicate Ordered(s: State) {
    s.out.read <= s.out.wrote <= |s.out.log| && s.back.read <= s.back.wrote <= |s.back.log|
  }

  ghost predicate OutIndexed(out: ServerLink) {
    && (forall i :: 0 <= i < |out.log| && out.log[i].JobDispatch? ==>
          out.log[i].id in out.sentAt && out.sentAt[out.log[i].id] == i)
    && (forall i :: 0 <= i < |out.log| && out.log[i].Draining? ==> out.drainingAt == Some(i))
    && (forall d :: d in out.sentAt ==> out.sentAt[d] < |out.log| && out.log[out.sentAt[d]] == JobDispatch(d))
    && (out.drainingAt.Some? ==> out.drainingAt.value < |out.log| && out.log[out.drainingAt.value] == Draining)
  }

  ghost predicate BackIndexed(back: WorkerLink) {
    && (forall i :: 0 <= i < |back.log| && back.log[i].JobResult? ==>
          back.log[i].id in back.resultAt && back.resultAt[back.log[i].id] == i)
    && (forall i :: 0 <= i < |back.log| && back.log[i].DrainRequest? ==> back.drainAt == Some(i))
    && (forall d :: d in back.resultAt ==>
          back.resultAt[d] < |back.log| && back.log[back.resultAt[d]].JobResult? && back.log[back.resultAt[d]].id == d)
    && (back.drainAt.Some? ==> back.drainAt.value < |back.log| && back.log[back.drainAt.value] == DrainRequest)
  }

  predicate Delivered(out: ServerLink, d: DispatchId) {
    d in out.sentAt && out.sentAt[d] < out.read
  }

  predicate ResultWritten(back: WorkerLink, d: DispatchId) {
    d in back.resultAt && back.resultAt[d] < back.wrote
  }

  predicate ResultRead(back: WorkerLink, d: DispatchId) {
    d in back.resultAt && back.resultAt[d] < back.read
  }

  /** Where a task stands: its dispatch was read, and its result is where its phase says. */
  predicate Placed(out: ServerLink, back: WorkerLink, d: DispatchId, t: Task) {
    && Delivered(out, d)
    && (t.Reporting? ==> d in back.resultAt && !ResultWritten(back, d))
    && (t.Written? ==> ResultWritten(back, d))
    && (!t.Reporting? && !t.Written? ==> d !in back.resultAt)
  }

  ghost predicate ResultsAnswer(out: ServerLink, back: WorkerLink) {
    forall d :: d in back.resultAt ==> Delivered(out, d)
  }

  ghost predicate Tasks(out: ServerLink, back: WorkerLink, sdk: SdkEnd) {
    && (sdk.phase == Broken || sdk.phase == Finished ==> sdk.jobs == map[])
    && (forall d :: d in sdk.jobs ==> Placed(out, back, d, sdk.jobs[d]))
    && (sdk.phase != Broken ==> forall d :: Delivered(out, d) ==> d in sdk.jobs || ResultWritten(back, d))
  }

  ghost predicate Accounting(concurrency: U32, server: ServerEnd) {
    && server.worker.reserved == server.permits && server.worker.capacity == concurrency
    && server.worker.reserved + |server.worker.inFlight| <= concurrency
    && server.worker.inFlight <= server.queued
  }

  /** Of what was sent, the dispatcher counts exactly the dispatches whose result it has not read. */
  ghost predicate Counted(server: ServerEnd, out: ServerLink, back: WorkerLink) {
    forall d :: CountedOnce(server, out, back, d)
  }

  ghost predicate Sent(server: ServerEnd, out: ServerLink) {
    && server.queued == out.sentAt.Keys + server.dropped && server.dropped !! out.sentAt.Keys
    && (server.dropped != {} ==> !server.writerAlive && out.drainingAt.None?)
  }

  /** Every snapshot shows at least one free slot. */
  ghost predicate Snapshots(concurrency: U32, running: U32, back: WorkerLink, jobs: map<DispatchId, Task>) {
    && concurrency >= 1 && running < concurrency
    && TaskSnapshots(concurrency, jobs) && LoggedSnapshots(concurrency, back.log)
  }

  ghost predicate TaskSnapshots(concurrency: U32, jobs: map<DispatchId, Task>) {
    forall d :: d in jobs && jobs[d].Snapshot? ==> 1 <= jobs[d].freeSlots <= concurrency
  }

  ghost predicate LoggedSnapshots(concurrency: U32, log: seq<WorkerFrame>) {
    forall i :: 0 <= i < |log| && log[i].JobResult? ==>
      log[i].running + log[i].freeSlots == concurrency && log[i].freeSlots >= 1
  }

  /** The drain handshake, frame by frame. */
  ghost predicate Handshake(server: ServerEnd, out: ServerLink, back: WorkerLink, sdk: SdkEnd) {
    && !sdk.rejected
    && (server.worker.draining <==> back.drainAt.Some? && back.drainAt.value < back.read)
    && (out.drainingAt.Some? ==> server.worker.draining)
    && (sdk.phase == Serving ==> back.drainAt.None?)
    && (sdk.phase == DrainingJobs || sdk.phase == Finished ==> out.drainingAt.Some? && out.drainingAt.value < out.read)
    && (out.drainingAt.Some? && out.drainingAt.value < out.read ==>
          sdk.phase != Serving && sdk.phase != SendingDrain && sdk.phase != AwaitingDrain)
  }

  ghost predicate DrainingIsLast(out: ServerLink) {
    out.drainingAt.Some? ==> forall d :: d in out.sentAt ==> out.sentAt[d] < out.drainingAt.value
  }

  ghost predicate Inv(s: State) {
    && Ordered(s) && OutIndexed(s.out) && BackIndexed(s.back) && ResultsAnswer(s.out, s.back)
    && Tasks(s.out, s.back, s.sdk) && Accounting(s.concurrency, s.server)
    && Counted(s.server, s.out, s.back) && Sent(s.server, s.out)
    && Snapshots(s.concurrency, s.server.worker.running, s.back, s.sdk.jobs)
    && Handshake(s.server, s.out, s.back, s.sdk) && DrainingIsLast(s.out)
  }

  // ------------------------------------------------------------ consequences

  ghost function Live(sdk: SdkEnd): set<DispatchId> {
    set d | d in sdk.jobs && !sdk.jobs[d].Written?
  }

  /** The jobs a worker is busy with never exceed its concurrency, and the dispatcher knows them all. */
  lemma LiveJobsFit(s: State)
    requires Inv(s)
    ensures Live(s.sdk) <= s.server.worker.inFlight
    ensures |Live(s.sdk)| <= s.concurrency
  {
    forall d | d in Live(s.sdk) ensures d in s.server.worker.inFlight {
      assert CountedOnce(s.server, s.out, s.back, d);
      assert Placed(s.out, s.back, d, s.sdk.jobs[d]);
    }
    SubsetSize(Live(s.sdk), s.server.worker.inFlight);
  }

  /** A task that does not hold a slot finds one free: acquisition never waits, and no snapshot shows
      a full worker. */
  lemma SlotsNeverRunOut(s: State, d: DispatchId)
    requires Inv(s) && d in s.sdk.jobs && s.sdk.jobs[d] != Holding && !s.sdk.jobs[d].Written?
    ensures 1 <= FreeSlots(s) <= s.concurrency
    ensures |set x | x in s.sdk.jobs && s.sdk.jobs[x] == Holding| < s.concurrency
  {
    LiveJobsFit(s);
    assert d in Live(s.sdk) && d !in Holders(s.sdk) && Holders(s.sdk) + {d} <= Live(s.sdk);
    SubsetSize(Holders(s.sdk) + {d}, Live(s.sdk));
    InFlightShrinks(Holders(s.sdk), d);
    assert Holders(s.sdk) == set x | x in s.sdk.jobs && s.sdk.jobs[x] == Holding;
  }

  predicate IdleHere(worker: WorkerState) {
    !worker.draining && worker.reserved == 0 && worker.inFlight == {}
  }

  /** However result snapshots overtake each other, a worker that is not draining and has nothing
      reserved or in flight can be reserved. */
  lemma IdleWorkerIsEligible(s: State)
    requires Inv(s) && IdleHere(s.server.worker)
    ensures Eligible(s.server.worker, s.server.worker.queueName)
  {
    assert InFlightCount(s.server.worker) == 0;
  }

  /** No dispatch follows the drain acknowledgement. */
  lemma NothingAfterDraining(s: State)
    requires Inv(s)
    ensures forall i, k :: 0 <= i < k < |s.out.log| && s.out.log[i] == Draining ==> !s.out.log[k].JobDispatch?
  {
  }

  /** When `serve` returns, every dispatch ever queued to the session has its result written. */
  lemma ReturnMeansAllReported(s: State, d: DispatchId)
    requires Inv(s) && s.sdk.phase == Finished && d in s.server.queued
    ensures ResultWritten(s.back, d) && s.back.log[s.back.resultAt[d]].id == d
  {
    assert Delivered(s.out, d);
  }

  // ------------------------------------------------------------- preservation

  lemma KeepsOrdered(s: State, e: Event)
    requires Ordered(s) && Enabled(s, e)
    ensures Ordered(After(s, e))
  {
  }

  /** A drain request is read once, so it is acknowledged once. */
  lemma DrainIsReadOnce(s: State)
    requires Ordered(s) && s.back.read < s.back.wrote && s.back.log[s.back.read].DrainRequest?
    requires BackIndexed(s.back) && Handshake(s.server, s.out, s.back, s.sdk)
    ensures s.back.drainAt == Some(s.back.read) && s.out.drainingAt.None? && !s.server.worker.draining
  {
  }

  lemma QueueKeepsIndex(out: ServerLink, frame: ServerFrame)
    requires OutIndexed(out)
    requires frame.JobDispatch? ==> frame.id !in out.sentAt
    requires frame.Draining? ==> out.drainingAt.None?
    ensures OutIndexed(Queue(out, frame))
  {
  }

  lemma ReportKeepsIndex(back: WorkerLink, frame: WorkerFrame)
    requires BackIndexed(back)
    requires frame.JobResult? ==> frame.id !in back.resultAt
    requires frame.DrainRequest? ==> back.drainAt.None?
    ensures BackIndexed(Report(back, frame))
  {
  }

  lemma KeepsOutIndexed(s: State, e: Event)
    requires Ordered(s) && Enabled(s, e) && OutIndexed(s.out)
    requires Sent(s.server, s.out) && BackIndexed(s.back) && Handshake(s.server, s.out, s.back, s.sdk)
    ensures OutIndexed(After(s, e).out)
  {
    match e
    case SendRegistered => QueueKeepsIndex(s.out, Registered);
    case DispatchJob(d) => QueueKeepsIndex(s.out, JobDispatch(d));
    case ServerReads =>
      if s.back.log[s.back.read].DrainRequest? {
        DrainIsReadOnce(s);
        QueueKeepsIndex(s.out, Draining);
      }
    case _ =>
  }

  lemma KeepsBackIndexed(s: State, e: Event)
    requires Ordered(s) && Enabled(s, e) && BackIndexed(s.back)
    requires Tasks(s.out, s.back, s.sdk) && Handshake(s.server, s.out, s.back, s.sdk)
    ensures BackIndexed(After(s, e).back)
  {
    match e
    case QueueReport(d) =>
      assert Placed(s.out, s.back, d, s.sdk.jobs[d]);
      ReportKeepsIndex(s.back, After(s, e).back.log[|s.back.log|]);
    case SendHeartbeat => ReportKeepsIndex(s.back, Heartbeat);
    case Shutdown => ReportKeepsIndex(s.back, DrainRequest);
    case _ =>
  }

  lemma KeepsDelivered(s: State, e: Event, d: DispatchId)
    requires Ordered(s) && Enabled(s, e) && Sent(s.server, s.out) && Delivered(s.out, d)
    ensures Delivered(After(s, e).out, d)
  {
  }

  lemma KeepsResultsAnswer(s: State, e: Event)
    requires Ordered(s) && Enabled(s, e) && ResultsAnswer(s.out, s.back)
    requires Tasks(s.out, s.back, s.sdk) && Sent(s.server, s.out) && OutIndexed(s.out)
    ensures ResultsAnswer(After(s, e).out, After(s, e).back)
  {
    var s' := After(s, e);
    forall d | d in s'.back.resultAt ensures Delivered(s'.out, d) {
      if e == QueueReport(d) {
        assert Placed(s.out, s.back, d, s.sdk.jobs[d]);
      }
      KeepsDelivered(s, e, d);
    }
  }

  lemma KeepsPlaced(s: State, e: Event, d: DispatchId)
    requires Ordered(s) && Enabled(s, e) && d in s.sdk.jobs && d in After(s, e).sdk.jobs
    requires Placed(s.out, s.back, d, s.sdk.jobs[d]) && Delivered(After(s, e).out, d)
    requires OutIndexed(s.out) && BackIndexed(s.back)
    ensures Placed(After(s, e).out, After(s, e).back, d, After(s, e).sdk.jobs[d])
  {
    if e.SdkReads? {
      ReadingKeepsTask(s, d);
    } else if e.SdkWrite? {
      WritingKeepsPlaced(s, d);
    } else {
      TaskStepKeepsPlaced(s, e, d);
    }
  }

  /** A dispatch that was already read is not read again. */
  lemma ReadingKeepsTask(s: State, d: DispatchId)
    requires Ordered(s) && Enabled(s, SdkReads) && OutIndexed(s.out) && d in s.sdk.jobs && Delivered(s.out, d)
    requires d in After(s, SdkReads).sdk.jobs
    ensures After(s, SdkReads).sdk.jobs[d] == s.sdk.jobs[d]
  {
  }

  lemma WritingKeepsPlaced(s: State, d: DispatchId)
    requires Ordered(s) && Enabled(s, SdkWrite) && BackIndexed(s.back) && d in s.sdk.jobs
    requires Placed(s.out, s.back, d, s.sdk.jobs[d])
    ensures Placed(s.out, After(s, SdkWrite).back, d, After(s, SdkWrite).sdk.jobs[d])
  {
  }

  lemma TaskStepKeepsPlaced(s: State, e: Event, d: DispatchId)
    requires Ordered(s) && Enabled(s, e) && !e.SdkReads? && !e.SdkWrite? && d in s.sdk.jobs && d in After(s, e).sdk.jobs
    requires Placed(s.out, s.back, d, s.sdk.jobs[d]) && Delivered(After(s, e).out, d)
    ensures Placed(After(s, e).out, After(s, e).back, d, After(s, e).sdk.jobs[d])
  {
  }

  /** Only `serve` reading a dispatch starts a task. */
  lemma NewTask(s: State, e: Event, d: DispatchId)
    requires Ordered(s) && Enabled(s, e) && d !in s.sdk.jobs && d in After(s, e).sdk.jobs
    ensures e == SdkReads && s.out.log[s.out.read] == JobDispatch(d) && After(s, e).sdk.jobs[d] == Spawned
  {
  }

  lemma NewlyDelivered(s: State, e: Event, d: DispatchId)
    requires Ordered(s) && Enabled(s, e) && OutIndexed(s.out) && Sent(s.server, s.out)
    requires Delivered(After(s, e).out, d) && !Delivered(s.out, d)
    ensures e == SdkReads && s.out.log[s.out.read] == JobDispatch(d)
  {
  }

  lemma StaysServed(s: State, e: Event, d: DispatchId)
    requires Ordered(s) && Enabled(s, e) && BackIndexed(s.back)
    requires d in s.sdk.jobs ==> Placed(s.out, s.back, d, s.sdk.jobs[d])
    requires d in s.sdk.jobs || ResultWritten(s.back, d)
    requires After(s, e).sdk.phase != Broken
    ensures d in After(s, e).sdk.jobs || ResultWritten(After(s, e).back, d)
  {
  }

  lemma KeepsTaskPlaced(s: State, e: Event, d: DispatchId)
    requires Ordered(s) && Enabled(s, e) && Tasks(s.out, s.back, s.sdk) && d in After(s, e).sdk.jobs
    requires OutIndexed(s.out) && BackIndexed(s.back) && ResultsAnswer(s.out, s.back) && Sent(s.server, s.out)
    ensures Placed(After(s, e).out, After(s, e).back, d, After(s, e).sdk.jobs[d])
  {
    if d in s.sdk.jobs {
      KeepsDelivered(s, e, d);
      KeepsPlaced(s, e, d);
    } else {
      NewTask(s, e, d);
    }
  }

  lemma KeepsServed(s: State, e: Event, d: DispatchId)
    requires Ordered(s) && Enabled(s, e) && Tasks(s.out, s.back, s.sdk) && OutIndexed(s.out) && BackIndexed(s.back)
    requires Sent(s.server, s.out) && Delivered(After(s, e).out, d) && After(s, e).sdk.phase != Broken
    ensures d in After(s, e).sdk.jobs || ResultWritten(After(s, e).back, d)
  {
    if Delivered(s.out, d) {
      StaysServed(s, e, d);
    } else {
      NewlyDelivered(s, e, d);
    }
  }

  lemma NoTasksAtTheEnd(s: State, e: Event)
    requires Enabled(s, e) && Tasks(s.out, s.back, s.sdk)
    requires After(s, e).sdk.phase == Broken || After(s, e).sdk.phase == Finished
    ensures After(s, e).sdk.jobs == map[]
  {
  }

  lemma KeepsTasks(s: State, e: Event)
    requires Ordered(s) && Enabled(s, e) && Tasks(s.out, s.back, s.sdk)
    requires OutIndexed(s.out) && BackIndexed(s.back) && ResultsAnswer(s.out, s.back) && Sent(s.server, s.out)
    ensures Tasks(After(s, e).out, After(s, e).back, After(s, e).sdk)
  {
    var s' := After(s, e);
    forall d | d in s'.sdk.jobs ensures Placed(s'.out, s'.back, d, s'.sdk.jobs[d]) {
      KeepsTaskPlaced(s, e, d);
    }
    if s'.sdk.phase == Broken || s'.sdk.phase == Finished {
      NoTasksAtTheEnd(s, e);
    }
    if s'.sdk.phase != Broken {
      forall d | Delivered(s'.out, d) ensures d in s'.sdk.jobs || ResultWritten(s'.back, d) {
        KeepsServed(s, e, d);
      }
    }
  }

  lemma ReadingKeepsAccounting(s: State)
    requires Ordered(s) && Enabled(s, ServerReads) && Accounting(s.concurrency, s.server)
    ensures Accounting(s.concurrency, After(s, ServerReads).server)
  {
    var frame := s.back.log[s.back.read];
    if frame.JobResult? {
      InFlightShrinks(s.server.worker.inFlight, frame.id);
    }
  }

  lemma DispatchKeepsAccounting(s: State, d: DispatchId)
    requires Enabled(s, DispatchJob(d)) && Accounting(s.concurrency, s.server)
    ensures Accounting(s.concurrency, After(s, DispatchJob(d)).server)
  {
    InFlightShrinks(s.server.worker.inFlight, d);
  }

  lemma KeepsAccounting(s: State, e: Event)
    requires Ordered(s) && Enabled(s, e) && Accounting(s.concurrency, s.server)
    ensures Accounting(s.concurrency, After(s, e).server)
  {
    match e
    case ReserveSlot => ReserveTakesOne(s.server.worker);
    case DispatchJob(d) => DispatchKeepsAccounting(s, d);
    case ReleaseDispatched(d) => InFlightShrinks(s.server.worker.inFlight, d);
    case ServerReads => ReadingKeepsAccounting(s);
    case _ => RestKeepsAccounting(s, e);
  }

  lemma RestKeepsAccounting(s: State, e: Event)
    requires Ordered(s) && Enabled(s, e) && Accounting(s.concurrency, s.server)
    requires !e.ReserveSlot? && !e.DispatchJob? && !e.ReleaseDispatched? && !e.ServerReads?
    ensures Accounting(s.concurrency, After(s, e).server)
  {
  }

  ghost predicate CountedOnce(server: ServerEnd, out: ServerLink, back: WorkerLink, d: DispatchId) {
    d in out.sentAt ==> (d in server.worker.inFlight <==> !ResultRead(back, d))
  }

  /** Reading a result takes that dispatch out of flight and no other. */
  lemma ReadingKeepsCounted(s: State, d: DispatchId)
    requires Ordered(s) && Enabled(s, ServerReads) && CountedOnce(s.server, s.out, s.back, d) && BackIndexed(s.back)
    requires d in s.out.sentAt
    ensures CountedOnce(After(s, ServerReads).server, After(s, ServerReads).out, After(s, ServerReads).back, d)
  {
    var frame := s.back.log[s.back.read];
    if frame.JobResult? {
      assert s.back.resultAt[frame.id] == s.back.read;
    }
    assert d in s.back.resultAt && s.back.resultAt[d] == s.back.read ==> frame.JobResult? && frame.id == d;
  }

  lemma DispatchKeepsCounted(s: State, sent: DispatchId, d: DispatchId)
    requires Ordered(s) && Enabled(s, DispatchJob(sent)) && CountedOnce(s.server, s.out, s.back, d)
    requires Sent(s.server, s.out) && ResultsAnswer(s.out, s.back)
    requires Accounting(s.concurrency, s.server)
    ensures var s' := After(s, DispatchJob(sent)); CountedOnce(s'.server, s'.out, s'.back, d)
  {
    assert sent !in s.out.sentAt && sent !in s.back.resultAt;
  }

  lemma RestKeepsCounted(s: State, e: Event, d: DispatchId)
    requires Ordered(s) && Enabled(s, e) && CountedOnce(s.server, s.out, s.back, d)
    requires Sent(s.server, s.out) && Tasks(s.out, s.back, s.sdk)
    requires !e.ServerReads? && !e.DispatchJob?
    ensures CountedOnce(After(s, e).server, After(s, e).out, After(s, e).back, d)
  {
    if e == QueueReport(d) {
      assert Placed(s.out, s.back, d, s.sdk.jobs[d]);
    }
  }

  lemma KeepsCounted(s: State, e: Event)
    requires Ordered(s) && Enabled(s, e) && Counted(s.server, s.out, s.back) && Accounting(s.concurrency, s.server)
    requires Sent(s.server, s.out) && BackIndexed(s.back) && ResultsAnswer(s.out, s.back) && Tasks(s.out, s.back, s.sdk)
    ensures Counted(After(s, e).server, After(s, e).out, After(s, e).back)
  {
    var s' := After(s, e);
    forall d ensures CountedOnce(s'.server, s'.out, s'.back, d) {
      assert CountedOnce(s.server, s.out, s.back, d);
      if e.ServerReads? && d in s.out.sentAt {
        ReadingKeepsCounted(s, d);
      } else if e.DispatchJob? {
        DispatchKeepsCounted(s, e.id, d);
      } else if !e.ServerReads? {
        RestKeepsCounted(s, e, d);
      }
    }
  }

  lemma KeepsSent(s: State, e: Event)
    requires Ordered(s) && Enabled(s, e) && Sent(s.server, s.out)
    requires DrainingIsLast(s.out)
    ensures Sent(After(s, e).server, After(s, e).out)
  {
    forall d | d in Unwritten(s.out) ensures s.out.drainingAt.Some? ==> s.out.drainingAt.value > s.out.wrote {
      assert d in s.out.sentAt;
    }
  }

  lemma KeepsTaskSnapshots(s: State, e: Event)
    requires Enabled(s, e) && TaskSnapshots(s.concurrency, s.sdk.jobs)
    requires e.TakeSnapshot? ==> 1 <= FreeSlots(s) <= s.concurrency
    ensures TaskSnapshots(s.concurrency, After(s, e).sdk.jobs)
  {
    var s' := After(s, e);
    forall d | d in s'.sdk.jobs && s'.sdk.jobs[d].Snapshot? ensures 1 <= s'.sdk.jobs[d].freeSlots <= s.concurrency {
      assert d in s.sdk.jobs;
    }
  }

  lemma KeepsLoggedSnapshots(s: State, e: Event)
    requires Enabled(s, e) && TaskSnapshots(s.concurrency, s.sdk.jobs) && LoggedSnapshots(s.concurrency, s.back.log)
    ensures LoggedSnapshots(s.concurrency, After(s, e).back.log)
  {
  }

  lemma KeepsRunning(s: State, e: Event)
    requires Enabled(s, e) && s.server.worker.running < s.concurrency && LoggedSnapshots(s.concurrency, s.back.log)
    ensures After(s, e).server.worker.running < s.concurrency
  {
  }

  lemma KeepsSnapshots(s: State, e: Event)
    requires Enabled(s, e) && Snapshots(s.concurrency, s.server.worker.running, s.back, s.sdk.jobs)
    requires e.TakeSnapshot? ==> 1 <= FreeSlots(s) <= s.concurrency
    ensures Snapshots(s.concurrency, After(s, e).server.worker.running, After(s, e).back, After(s, e).sdk.jobs)
  {
    KeepsTaskSnapshots(s, e);
    KeepsLoggedSnapshots(s, e);
    KeepsRunning(s, e);
  }

  /** The server's end of the handshake. */
  lemma ServerKeepsHandshake(s: State, e: Event)
    requires Ordered(s) && Enabled(s, e) && Handshake(s.server, s.out, s.back, s.sdk)
    requires BackIndexed(s.back) && DrainingIsLast(s.out)
    requires !e.SdkReads? && After(s, e).sdk == s.sdk
    ensures Handshake(After(s, e).server, After(s, e).out, After(s, e).back, After(s, e).sdk)
  {
    if e.ServerReads? && s.back.log[s.back.read].DrainRequest? {
      DrainIsReadOnce(s);
    }
  }

  lemma ReadingKeepsHandshake(s: State)
    requires Ordered(s) && Enabled(s, SdkReads) && Handshake(s.server, s.out, s.back, s.sdk)
    requires OutIndexed(s.out) && DrainingIsLast(s.out)
    ensures var s' := After(s, SdkReads); Handshake(s'.server, s'.out, s'.back, s'.sdk)
  {
  }

  lemma SdkKeepsHandshake(s: State, e: Event)
    requires Ordered(s) && Enabled(s, e) && Handshake(s.server, s.out, s.back, s.sdk)
    requires !e.SdkReads? && After(s, e).server == s.server && After(s, e).out == s.out
    requires After(s, e).back.read == s.back.read
    ensures Handshake(After(s, e).server, After(s, e).out, After(s, e).back, After(s, e).sdk)
  {
  }

  lemma KeepsHandshake(s: State, e: Event)
    requires Ordered(s) && Enabled(s, e) && Handshake(s.server, s.out, s.back, s.sdk)
    requires OutIndexed(s.out) && BackIndexed(s.back) && DrainingIsLast(s.out)
    ensures Handshake(After(s, e).server, After(s, e).out, After(s, e).back, After(s, e).sdk)
  {
    if e.SdkReads? {
      ReadingKeepsHandshake(s);
    } else if After(s, e).sdk == s.sdk {
      ServerKeepsHandshake(s, e);
    } else {
      SdkKeepsHandshake(s, e);
    }
  }

  lemma KeepsDrainingIsLast(s: State, e: Event)
    requires Ordered(s) && Enabled(s, e) && DrainingIsLast(s.out)
    requires OutIndexed(s.out) && Handshake(s.server, s.out, s.back, s.sdk)
    ensures DrainingIsLast(After(s, e).out)
  {
  }

  /** Every step of either end keeps the session invariant. */
  lemma Keeps(s: State, e: Event)
    requires Inv(s) && Enabled(s, e)
    ensures Inv(After(s, e))
  {
    KeepsOrdered(s, e);
    KeepsOutIndexed(s, e);
    KeepsBackIndexed(s, e);
    KeepsResultsAnswer(s, e);
    KeepsTasks(s, e);
    KeepsAccounting(s, e);
    KeepsCounted(s, e);
    KeepsSent(s, e);
    if e.TakeSnapshot? {
      SlotsNeverRunOut(s, e.id);
    }
    KeepsSnapshots(s, e);
    KeepsHandshake(s, e);
    KeepsDrainingIsLast(s, e);
  }

  // -------------------------------------------------------------------- runs

  /** Every state of every run of the composed system. */
  lemma {:induction false} RunKeepsInvariant(states: seq<State>, events: seq<Event>, n: nat)
    requires IsRun(states, events) && n < |states|
    ensures Inv(states[n])
  {
    if n > 0 {
      RunKeepsInvariant(states, events, n - 1);
      Keeps(states[n - 1], events[n - 1]);
    }
  }

  /** In every reachable state the worker carries no more jobs than its concurrency, a task without a
      slot can take one, and an idle worker that is not draining can be reserved. */
  lemma WorkerIsNeverOverloaded(states: seq<State>, events: seq<Event>, n: nat)
    requires IsRun(states, events) && n < |states|
    ensures |Live(states[n].sdk)| <= states[n].concurrency
    ensures states[n].server.worker.reserved == states[n].server.permits
    ensures forall d :: d in states[n].sdk.jobs && states[n].sdk.jobs[d] == Spawned ==>
      |set x | x in states[n].sdk.jobs && states[n].sdk.jobs[x] == Holding| < states[n].concurrency
    ensures forall i :: 0 <= i < |states[n].back.log| && states[n].back.log[i].JobResult? ==>
      var report := states[n].back.log[i];
      report.running + report.freeSlots == states[n].concurrency && report.freeSlots >= 1
    ensures IdleHere(states[n].server.worker) ==> Eligible(states[n].server.worker, states[n].server.worker.queueName)
  {
    var s := states[n];
    RunKeepsInvariant(states, events, n);
    LiveJobsFit(s);
    forall d | d in s.sdk.jobs && s.sdk.jobs[d] == Spawned
      ensures |set x | x in s.sdk.jobs && s.sdk.jobs[x] == Holding| < s.concurrency
    {
      SlotsNeverRunOut(s, d);
    }
    if IdleHere(s.server.worker) {
      IdleWorkerIsEligible(s);
    }
  }

  /** In every reachable state the dispatcher counts a dispatch as in flight exactly until it has read its
      result, apart from those whose write failed, so every slot comes back. */
  lemma SlotsComeBack(states: seq<State>, events: seq<Event>, n: nat, d: DispatchId)
    requires IsRun(states, events) && n < |states|
    ensures var s := states[n];
      && (d in s.out.sentAt ==> (d in s.server.worker.inFlight <==> !ResultRead(s.back, d)))
      && (d in s.server.worker.inFlight ==> d in s.out.sentAt || d in s.server.dropped)
    ensures (forall x :: x in states[n].out.sentAt ==> ResultRead(states[n].back, x)) ==>
      states[n].server.worker.inFlight <= states[n].server.dropped
  {
    RunKeepsInvariant(states, events, n);
    var s := states[n];
    assert CountedOnce(s.server, s.out, s.back, d);
    if forall x :: x in s.out.sentAt ==> ResultRead(s.back, x) {
      forall x | x in s.server.worker.inFlight ensures x in s.server.dropped {
        assert CountedOnce(s.server, s.out, s.back, x);
      }
    }
  }

  lemma DroppedStays(s: State, e: Event)
    requires Enabled(s, e)
    ensures s.server.dropped <= After(s, e).server.dropped
  {
  }

  ghost predicate Dropped(states: seq<State>, n: nat, d: DispatchId) {
    n < |states| && d in states[n].server.dropped
  }

  lemma DroppedStaysAt(states: seq<State>, events: seq<Event>, n: nat, d: DispatchId)
    requires IsRun(states, events) && n < |events| && Dropped(states, n, d)
    ensures Dropped(states, n + 1, d)
  {
    DroppedStays(states[n], events[n]);
  }

  lemma {:induction false} DroppedForever(states: seq<State>, events: seq<Event>, n: nat, m: nat, d: DispatchId)
    requires IsRun(states, events) && n <= m < |states| && Dropped(states, n, d)
    ensures Dropped(states, m, d)
    decreases m - n
  {
    if n < m {
      DroppedStaysAt(states, events, n, d);
      DroppedForever(states, events, n + 1, m, d);
    }
  }

  /** A dispatch whose write failed was never received, so no result ever comes for it: the claim its
      engine then releases meets no report. */
  lemma DroppedIsNeverReported(states: seq<State>, events: seq<Event>, n: nat, m: nat, d: DispatchId)
    requires IsRun(states, events) && n <= m < |states| && Dropped(states, n, d)
    ensures d !in states[m].back.resultAt && d !in states[m].sdk.jobs
    ensures forall i :: 0 <= i < |states[m].back.log| && states[m].back.log[i].JobResult? ==>
      states[m].back.log[i].id != d
  {
    DroppedForever(states, events, n, m, d);
    RunKeepsInvariant(states, events, m);
    assert !Delivered(states[m].out, d);
    assert d in states[m].sdk.jobs ==> Placed(states[m].out, states[m].back, d, states[m].sdk.jobs[d]);
  }

  /** In every reachable state no dispatch stands behind the drain acknowledgement, the SDK has
      refused no frame, and a session that returned has written the result of every dispatch queued to it. */
  lemma DrainLosesNothing(states: seq<State>, events: seq<Event>, n: nat)
    requires IsRun(states, events) && n < |states|
    ensures !states[n].sdk.rejected
    ensures forall i, k :: 0 <= i < k < |states[n].out.log| && states[n].out.log[i] == Draining ==>
      !states[n].out.log[k].JobDispatch?
    ensures states[n].sdk.phase == Finished ==> forall d :: d in states[n].server.queued ==>
      ResultWritten(states[n].back, d)
  {
    RunKeepsInvariant(states, events, n);
    NothingAfterDraining(states[n]);
    if states[n].sdk.phase == Finished {
      forall d | d in states[n].server.queued ensures ResultWritten(states[n].back, d) {
        ReturnMeansAllReported(states[n], d);
      }
    }
  }

  lemma OutOfFlightStays(s: State, e: Event, d: DispatchId)
    requires Enabled(s, e) && Accounting(s.concurrency, s.server) && d in s.server.queued
    requires e == ReleaseDispatched(d) || d !in s.server.worker.inFlight
    ensures d in After(s, e).server.queued && d !in After(s, e).server.worker.inFlight
  {
  }

  lemma StepKeepsOutOfFlight(states: seq<State>, events: seq<Event>, k: nat, d: DispatchId)
    requires IsRun(states, events) && k < |events|
    requires events[k] == ReleaseDispatched(d)
      || (d in states[k].server.queued && d !in states[k].server.worker.inFlight)
    ensures d in states[k + 1].server.queued && d !in states[k + 1].server.worker.inFlight
  {
    RunKeepsInvariant(states, events, k);
    OutOfFlightStays(states[k], events[k], d);
  }

  /** A dispatch whose write failed is out of flight for good once the dispatcher has released it. */
  lemma {:induction false} FailedWriteComesBack(states: seq<State>, events: seq<Event>, n: nat, m: nat, d: DispatchId)
    requires IsRun(states, events) && n < m < |states| && events[n] == ReleaseDispatched(d)
    ensures d in states[m].server.queued && d !in states[m].server.worker.inFlight
  {
    if n < m - 1 {
      FailedWriteComesBack(states, events, n, m - 1, d);
    }
    StepKeepsOutOfFlight(states, events, m - 1, d);
  }

  /** Between these two states the task of `d` took its snapshot. */
  ghost predicate Snaps(s: State, s': State, d: DispatchId) {
    && d in s.sdk.jobs && s.sdk.jobs[d] == Handled
    && d in s'.sdk.jobs && s'.sdk.jobs[d].Snapshot? && s'.sdk.jobs[d].freeSlots == s.concurrency - |Holders(s.sdk)|
  }

  lemma SnapshotStays(s: State, e: Event, d: DispatchId)
    requires Enabled(s, e) && d in After(s, e).sdk.jobs && After(s, e).sdk.jobs[d].Snapshot?
    ensures Snaps(s, After(s, e), d) || (d in s.sdk.jobs && s.sdk.jobs[d] == After(s, e).sdk.jobs[d])
  {
  }

  lemma SnapshotStepInRun(states: seq<State>, events: seq<Event>, k: nat, d: DispatchId)
    requires IsRun(states, events) && k < |events|
    requires d in states[k + 1].sdk.jobs && states[k + 1].sdk.jobs[d].Snapshot?
    ensures Snaps(states[k], states[k + 1], d)
      || (d in states[k].sdk.jobs && states[k].sdk.jobs[d] == states[k + 1].sdk.jobs[d])
  {
    SnapshotStays(states[k], events[k], d);
  }

  lemma {:induction false} SnapshotWasTaken(states: seq<State>, events: seq<Event>, m: nat, d: DispatchId)
    returns (n: nat)
    requires IsRun(states, events) && m < |states| && d in states[m].sdk.jobs && states[m].sdk.jobs[d].Snapshot?
    ensures n < m && Snaps(states[n], states[n + 1], d) && states[n + 1].sdk.jobs[d] == states[m].sdk.jobs[d]
  {
    SnapshotStepInRun(states, events, m - 1, d);
    if Snaps(states[m - 1], states[m], d) {
      n := m - 1;
    } else {
      n := SnapshotWasTaken(states, events, m - 1, d);
    }
  }

  lemma ReportsSnapshot(states: seq<State>, events: seq<Event>, m: nat, d: DispatchId)
    requires IsRun(states, events) && m < |events| && events[m] == QueueReport(d)
    ensures d in states[m].sdk.jobs && states[m].sdk.jobs[d].Snapshot?
    ensures var free := states[m].sdk.jobs[d].freeSlots;
      && free <= states[m].concurrency
      && states[m + 1].back.log
           == states[m].back.log + [WorkerFrame.JobResult(d, states[m].concurrency - free, free)]
  {
    RunKeepsInvariant(states, events, m);
  }

  lemma {:induction false} SameConcurrency(states: seq<State>, events: seq<Event>, m: nat)
    requires IsRun(states, events) && m < |states|
    ensures states[m].concurrency == states[0].concurrency
  {
    if m > 0 {
      SameConcurrency(states, events, m - 1);
      assert states[m] == After(states[m - 1], events[m - 1]);
    }
  }

  /** A result reports the worker as it was when some earlier step took its snapshot: as running the tasks that
      held a slot then, and as free the others. */
  lemma ReportsWereTrue(states: seq<State>, events: seq<Event>, m: nat, d: DispatchId) returns (n: nat, running: nat)
    requires IsRun(states, events) && m < |events| && events[m] == QueueReport(d)
    ensures n < m && Snaps(states[n], states[n + 1], d)
    ensures running == |set x | x in states[n].sdk.jobs && states[n].sdk.jobs[x] == Holding|
    ensures running <= states[m].concurrency
    ensures states[m + 1].back.log
      == states[m].back.log + [WorkerFrame.JobResult(d, running, states[m].concurrency - running)]
  {
    ReportsSnapshot(states, events, m, d);
    n := SnapshotWasTaken(states, events, m, d);
    SameConcurrency(states, events, m);
    SameConcurrency(states, events, n);
    running := |Holders(states[n].sdk)|;
    assert Holders(states[n].sdk) == set x | x in states[n].sdk.jobs && states[n].sdk.jobs[x] == Holding;
  }
}
