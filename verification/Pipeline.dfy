/** The render/broadcast pipeline as a labelled transition system: the dispatcher loop, one
    retry goroutine per batch, the broadcaster loop, the task table, the ring and the fleet.
    One label is one locked section (or one channel operation) of one goroutine. */
module Pipeline {
  import opened Wire
  import opened FrameRing
  import opened Fleet
  import opened TaskTable

  /** Seconds (= batches) of the first and of every later round and broadcast. */
  datatype Config = Config(first: nat, subsequent: nat)

  const DEFAULT_CONFIG: Config := Config(6, 4)

  /** Where a batch's goroutine stands between two shared-state operations. */
  datatype Stage =
    | NotStarted
    | Picked(client: u32)                           // first worker chosen
    | Numbered(client: u32, id: u32)                // task ID drawn
    | Registered(client: u32, id: u32)              // filed in the table, work not yet requested
    | Waiting(client: u32, id: u32)                 // in the select
    | TimedOut(client: u32, id: u32)                // timeout arm taken
    | Repicked(client: u32, id: u32, next: u32)     // next worker chosen
    | Collected(client: u32, id: u32)               // done arm taken
    | Finished

  /** One dispatched batch; `serial` names the `done` channel this goroutine makes. */
  datatype Job = Job(start: u32, end: u32, serial: nat, stage: Stage)

  datatype Dispatch = WaitRoom | WaitWorker | Pacing | Round(jobs: seq<Job>)

  datatype Cast =
    | WaitFrames
    | WaitViewer
    | Reading
    | Loaded(payload: seq<byte>)
    | Fanning(payload: seq<byte>, rest: set<u32>)   // snapshot members not yet served

  /** A connection: tasks numbered so far, send queue, and how many broadcasts preceded its admission. */
  datatype Peer = Peer(numTasks: nat, link: Link, since: nat)

  datatype Ticket = Ticket(client: u32, id: u32)

  datatype State = State(
    store: Store,
    dispatch: Dispatch, firstRound: bool, spawned: nat,
    cast: Cast, firstCast: bool,
    pool: set<u32>, clients: map<u32, Peer>, connected: nat,
    joining: set<u32>,                // numbered connections not yet admitted or rejected
    crashed: bool,
    // history
    rounds: nat,                      // rounds closed
    payloads: seq<seq<byte>>,         // every broadcast, in order
    accepted: map<nat, seq<byte>>,    // the result that closed each done channel
    filed: map<Ticket, nat>)       // the batch each (client, task ID) was ever filed under

  datatype DispatchStep = RoomFound | WorkerFound | OpenRound | CloseRound

  datatype JobStep =
    | Pick(c: u32) | Number | Register | Request | Timeout | Repick(c: u32) | Handover | Collect | Delete

  datatype CastStep = FramesFound | ViewerFound | Load | StartCast | Fan(c: u32) | Trim

  datatype FleetStep =
    | Connect                                       // a connection draws its client ID
    | Join(c: u32) | Reject(c: u32)                 // the pool admits it, or is full
    | Leave(c: u32)
    | Deliver(c: u32)                               // the client's writer takes a message
    | Telemetry(c: u32, m: Msg)
    | Result(c: u32, id: u32, frames: seq<byte>)    // a parsed answer reaches the task table

  datatype Label =
    | Dispatcher(d: DispatchStep)
    | Goroutine(k: nat, g: JobStep)                 // of the k-th batch of the round
    | Broadcaster(b: CastStep)
    | Network(f: FleetStep)

  ghost predicate Initial(s: State) {
    && |s.store.ring.data| == BUFFER_SIZE
    && s == State(Store(map[], {}, Ring(s.store.ring.data, 0, 0)),
                  WaitRoom, true, 0, WaitFrames, true, {}, map[], 0, {}, false, 0, [], map[], map[])
  }

  // ------------------------------------------------------------ planning a round

  /** The k-th frame range of a round, in the dispatcher's 32-bit arithmetic. */
  function PlannedStart(currentFrame: u32, k: nat): u32 {
    (currentFrame as int + k * FRAMES_PER_BATCH) % TWO_32 % MAX_FRAMES
  }

  function PlannedEnd(currentFrame: u32, k: nat): u32 {
    ((currentFrame as int + k * FRAMES_PER_BATCH) % TWO_32 + 59) % TWO_32 % MAX_FRAMES
  }

  /** The dispatcher's loop over the batches to fetch. */
  method PlanRound(firstFrame: u32, batchesToFetch: nat) returns (ranges: seq<(u32, u32)>)
    ensures ranges == seq(batchesToFetch, k requires 0 <= k => (PlannedStart(firstFrame, k), PlannedEnd(firstFrame, k)))
  {
    ranges := [];
    var currentFrame := firstFrame;
    for k := 0 to batchesToFetch
      invariant currentFrame == (firstFrame as int + k * FRAMES_PER_BATCH) % TWO_32
      invariant ranges == seq(k, j requires 0 <= j => (PlannedStart(firstFrame, j), PlannedEnd(firstFrame, j)))
    {
      var startFrame := currentFrame as int % MAX_FRAMES;
      var endFrame := (currentFrame as int + FRAMES_PER_BATCH - 1) % TWO_32 % MAX_FRAMES;
      currentFrame := (currentFrame as int + FRAMES_PER_BATCH) % TWO_32;
      ranges := ranges + [(startFrame, endFrame)];
    }
  }

  /** In a round that fits the ring nothing wraps at 32 bits: the k-th range is the whole frames of the
      (head + k)-th batch, it does not straddle the end of the frame numbering, and its bytes
      start at position head + k batches and end inside the array. */
  lemma PlannedRangesAreBatches(r: Ring, n: nat, k: nat)
    requires Aligned(r) && HeadBatch(r) + n <= TailBatch(r) + MAX_BATCHES && k < n
    ensures NextFrame(r) < TWO_32
    ensures PlannedStart(NextFrame(r), k) == StartFrame(HeadBatch(r) + k)
    ensures PlannedEnd(NextFrame(r), k) == EndFrame(HeadBatch(r) + k)
    ensures EndFrame(HeadBatch(r) + k) == StartFrame(HeadBatch(r) + k) as int + 59 < MAX_FRAMES
    ensures Offset(StartFrame(HeadBatch(r) + k)) == (r.head + k * BATCH_SIZE) % BUFFER_SIZE
    ensures Offset(StartFrame(HeadBatch(r) + k)) + BATCH_SIZE <= BUFFER_SIZE
  {
    QueriesCountBatches(r, n);
    SlotIndex(HeadBatch(r), k);
    PlanArithmetic(HeadBatch(r) % MAX_BATCHES, k);
    OffsetOfBatch(HeadBatch(r) + k);
    assert r.head + k * BATCH_SIZE == BATCH_SIZE * (HeadBatch(r) + k);
  }

  lemma OffsetOfBatch(b: nat)
    ensures Offset(StartFrame(b)) == BATCH_SIZE * b % BUFFER_SIZE
    ensures Offset(StartFrame(b)) + BATCH_SIZE <= BUFFER_SIZE
  {
    OffsetFits(StartFrame(b));
    PositionOfByte(b, 0);
  }

  function WrapSlot(i: nat): nat {
    if i < MAX_BATCHES then i else i - MAX_BATCHES
  }

  lemma SlotIndex(h: nat, k: nat)
    requires k < MAX_BATCHES
    ensures (h + k) % MAX_BATCHES == WrapSlot(h % MAX_BATCHES + k)
  {
  }

  lemma PlanArithmetic(first: nat, k: nat)
    requires first < MAX_BATCHES && k < MAX_BATCHES
    ensures PlannedStart(FRAMES_PER_BATCH * first, k) == FRAMES_PER_BATCH * WrapSlot(first + k)
    ensures PlannedEnd(FRAMES_PER_BATCH * first, k) == FRAMES_PER_BATCH * WrapSlot(first + k) + 59
  {
    var current := FRAMES_PER_BATCH * first + k * FRAMES_PER_BATCH;
    assert current == FRAMES_PER_BATCH * (first + k) && current + 59 < TWO_32;
    assert current % TWO_32 == current && (current + 59) % TWO_32 == current + 59;
  }

  function NewJobs(currentFrame: u32, spawned: nat, n: nat): seq<Job> {
    seq(n, k requires 0 <= k =>
      Job(PlannedStart(currentFrame, k), PlannedEnd(currentFrame, k), spawned + k, NotStarted))
  }

  // --------------------------------------------------------------- shorthands

  /** Batches in a round, and in a broadcast. */
  function Size(cfg: Config, isFirst: bool): nat {
    if isFirst then cfg.first else cfg.subsequent
  }

  function RoundSize(cfg: Config, s: State): nat { Size(cfg, s.firstRound) }

  function CastSize(cfg: Config, s: State): nat { Size(cfg, s.firstCast) }

  function JobsOf(d: Dispatch): seq<Job> {
    match d
    case Round(jobs) => jobs
    case _ => []
  }

  function Jobs(s: State): seq<Job> { JobsOf(s.dispatch) }

  predicate AtStage(s: State, k: nat) {
    k < |Jobs(s)|
  }

  function SetLink(s: State, c: u32, l: Link): State
    requires c in s.clients
  {
    s.(clients := s.clients[c := s.clients[c].(link := l)])
  }

  /** The next task ID of a client; the source's counter is 32 bits wide. */
  function NextId(s: State, c: u32): u32
    requires c in s.clients
  {
    s.clients[c].numTasks % TWO_32
  }

  function CountTask(clients: map<u32, Peer>, c: u32): map<u32, Peer>
    requires c in clients
  {
    clients[c := clients[c].(numTasks := clients[c].numTasks + 1)]
  }

  function NewClientId(s: State): u32 {
    (s.connected + 1) % TWO_32
  }

  // -------------------------------------------------------------------- the steps

  ghost predicate CanDispatch(cfg: Config, s: State, d: DispatchStep)
    requires WellFormed(s.store.ring)
  {
    match d
    case RoomFound => s.dispatch.WaitRoom? && HasRoom(s.store.ring, RoundSize(cfg, s))
    case WorkerFound => s.dispatch.WaitWorker? && s.pool != {}
    case OpenRound => s.dispatch.Pacing?
    case CloseRound => s.dispatch.Round? && forall k :: 0 <= k < |Jobs(s)| ==> Jobs(s)[k].stage.Finished?
  }

  predicate CanWork(s: State, k: nat, g: JobStep) {
    && AtStage(s, k)
    && var st := Jobs(s)[k].stage;
       match g
       case Pick(c) => st.NotStarted? && c in s.pool
       case Number => st.Picked? && st.client in s.clients
       case Register => st.Numbered?
       case Request => st.Registered? && st.client in s.clients
       case Timeout => st.Waiting?
       case Repick(c) => st.TimedOut? && c in s.pool
       case Handover => st.Repicked? && st.next in s.clients
       case Collect => st.Waiting? && Jobs(s)[k].serial in s.store.closed
       case Delete => st.Collected?
  }

  ghost predicate CanCast(cfg: Config, s: State, b: CastStep)
    requires WellFormed(s.store.ring)
  {
    match b
    case FramesFound => s.cast.WaitFrames? && Enough(s.store.ring, CastSize(cfg, s))
    case ViewerFound => s.cast.WaitViewer? && s.pool != {}
    case Load => s.cast.Reading?
    case StartCast => s.cast.Loaded?
    case Fan(c) => s.cast.Fanning? && c in s.cast.rest && c in s.clients
    case Trim => s.cast.Fanning? && s.cast.rest == {}
  }

  predicate CanHappen(s: State, f: FleetStep) {
    match f
    case Connect => true
    case Join(c) => c in s.joining
    case Reject(c) => c in s.joining
    case Leave(c) => c in s.pool
    case Deliver(c) => c in s.clients && |s.clients[c].link.queue| > 0
    case Telemetry(c, m) => c in s.clients && (m.Count? || m.Fullness?)
    case Result(c, id, frames) => |frames| == BATCH_SIZE
  }

  /** The ring conjunct never disables anything: every reachable ring is well formed. */
  ghost predicate Enabled(cfg: Config, s: State, l: Label) {
    && !s.crashed
    && WellFormed(s.store.ring)
    && match l
       case Dispatcher(d) => CanDispatch(cfg, s, d)
       case Goroutine(k, g) => CanWork(s, k, g)
       case Broadcaster(b) => CanCast(cfg, s, b)
       case Network(f) => CanHappen(s, f)
  }

  function DoOpenRound(cfg: Config, s: State): State {
    var n := RoundSize(cfg, s);
    s.(dispatch := Round(NewJobs(NextFrame(s.store.ring), s.spawned, n)), spawned := s.spawned + n)
  }

  function DoCloseRound(cfg: Config, s: State): State {
    s.(store := s.store.(ring := Advance(s.store.ring, RoundSize(cfg, s))),
       dispatch := WaitRoom, firstRound := false, rounds := s.rounds + 1)
  }

  /** What a goroutine step may change: its own stage, the connections, the task table, the filed tickets. */
  datatype Effect = Effect(stage: Stage, clients: map<u32, Peer>, tasks: TaskMap, filed: map<Ticket, nat>)

  function Restage(s: State, stage: Stage): Effect {
    Effect(stage, s.clients, s.store.tasks, s.filed)
  }

  function Numbering(s: State, k: nat): Effect
    requires CanWork(s, k, Number)
  {
    var c := Jobs(s)[k].stage.client;
    Restage(s, Numbered(c, NextId(s, c))).(clients := CountTask(s.clients, c))
  }

  function Registering(s: State, k: nat): Effect
    requires CanWork(s, k, Register)
  {
    var j := Jobs(s)[k];
    var c, id := j.stage.client, j.stage.id;
    var meta := NewFrameBatchMetadata(id, j.start, j.end, j.serial);
    Restage(s, Registered(c, id)).(tasks := Put(s.store.tasks, c, id, meta),
                                   filed := s.filed[Ticket(c, id) := j.serial])
  }

  function Requesting(s: State, k: nat): Effect
    requires CanWork(s, k, Request)
  {
    var j := Jobs(s)[k];
    var c, id := j.stage.client, j.stage.id;
    var link := Offer(s.clients[c].link, Work(id, j.start, j.end));
    Restage(s, Waiting(c, id)).(clients := s.clients[c := s.clients[c].(link := link)])
  }

  /** The same worker again keeps its task; another worker takes the task over under a new ID. */
  function HandingOver(s: State, k: nat): Effect
    requires CanWork(s, k, Handover)
  {
    var j := Jobs(s)[k];
    var c, id, next := j.stage.client, j.stage.id, j.stage.next;
    if next == c then Restage(s, Registered(c, id))
    else
      var newId := NextId(s, next);
      Effect(Registered(next, newId), CountTask(s.clients, next),
             Move(s.store.tasks, c, id, next, newId), s.filed[Ticket(next, newId) := j.serial])
  }

  function EffectOf(s: State, k: nat, g: JobStep): Effect
    requires CanWork(s, k, g)
  {
    var st := Jobs(s)[k].stage;
    match g
    case Pick(c) => Restage(s, Picked(c))
    case Number => Numbering(s, k)
    case Register => Registering(s, k)
    case Request => Requesting(s, k)
    case Timeout => Restage(s, TimedOut(st.client, st.id))
    case Repick(c) => Restage(s, Repicked(st.client, st.id, c))
    case Handover => HandingOver(s, k)
    case Collect => Restage(s, Collected(st.client, st.id))
    case Delete => Restage(s, Finished).(tasks := Drop(s.store.tasks, st.client, st.id))
  }

  function DoWork(s: State, k: nat, g: JobStep): State
    requires CanWork(s, k, g)
  {
    var e := EffectOf(s, k, g);
    s.(dispatch := Round(Jobs(s)[k := Jobs(s)[k].(stage := e.stage)]),
       clients := e.clients, store := s.store.(tasks := e.tasks), filed := e.filed)
  }

  function DoLoad(cfg: Config, s: State): State
    requires WellFormed(s.store.ring)
  {
    s.(cast := Loaded(match Read(s.store.ring, CastSize(cfg, s)) case Some(p) => p case None => []))
  }

  function DoStartCast(s: State): State
    requires s.cast.Loaded?
  {
    s.(cast := Fanning(s.cast.payload, s.pool), payloads := s.payloads + [s.cast.payload])
  }

  function DoFan(s: State, c: u32): State
    requires s.cast.Fanning? && c in s.clients
  {
    SetLink(s, c, Offer(s.clients[c].link, Frames(s.cast.payload))).(cast := Fanning(s.cast.payload, s.cast.rest - {c}))
  }

  function DoTrim(cfg: Config, s: State): State
    requires WellFormed(s.store.ring)
  {
    match Remove(s.store.ring, CastSize(cfg, s))
    case None => s.(crashed := true)
    case Some(ring) => s.(store := s.store.(ring := ring), cast := WaitFrames, firstCast := false)
  }

  function DoConnect(s: State): State {
    s.(connected := s.connected + 1, joining := s.joining + {NewClientId(s)})
  }

  function DoJoin(s: State, c: u32): State {
    s.(joining := s.joining - {c}, pool := s.pool + {c}, clients := s.clients[c := Peer(0, EMPTY_LINK, |s.payloads|)])
  }

  function DoResult(s: State, c: u32, id: u32, frames: seq<byte>): State
    requires |s.store.ring.data| == BUFFER_SIZE && |frames| == BATCH_SIZE
  {
    var (out, store) := Save(s.store, c, id, frames);
    var serial := At(s.store.tasks, c, id).done;
    s.(store := store,
       crashed := out == Panicked,
       accepted := if out == Saved && serial.Chan? then s.accepted[serial.serial := frames] else s.accepted)
  }

  function DoDispatch(cfg: Config, s: State, d: DispatchStep): State {
    match d
    case RoomFound => s.(dispatch := WaitWorker)
    case WorkerFound => s.(dispatch := Pacing)
    case OpenRound => DoOpenRound(cfg, s)
    case CloseRound => DoCloseRound(cfg, s)
  }

  ghost function DoCast(cfg: Config, s: State, b: CastStep): State
    requires WellFormed(s.store.ring) && CanCast(cfg, s, b)
  {
    match b
    case FramesFound => s.(cast := WaitViewer)
    case ViewerFound => s.(cast := Reading)
    case Load => DoLoad(cfg, s)
    case StartCast => DoStartCast(s)
    case Fan(c) => DoFan(s, c)
    case Trim => DoTrim(cfg, s)
  }

  ghost function DoHappen(s: State, f: FleetStep): State
    requires WellFormed(s.store.ring) && CanHappen(s, f)
  {
    match f
    case Connect => DoConnect(s)
    case Join(c) => DoJoin(s, c)
    case Reject(c) => s.(joining := s.joining - {c})
    case Leave(c) => s.(pool := s.pool - {c})
    case Deliver(c) => SetLink(s, c, Take(s.clients[c].link))
    case Telemetry(c, m) => SetLink(s, c, Offer(s.clients[c].link, m))
    case Result(c, id, frames) => DoResult(s, c, id, frames)
  }

  ghost function Apply(cfg: Config, s: State, l: Label): State
    requires Enabled(cfg, s, l)
  {
    match l
    case Dispatcher(d) => DoDispatch(cfg, s, d)
    case Goroutine(k, g) => DoWork(s, k, g)
    case Broadcaster(b) => DoCast(cfg, s, b)
    case Network(f) => DoHappen(s, f)
  }

  // ------------------------------------------------------------------------- runs

  ghost predicate Legal(cfg: Config, s: State, run: seq<Label>)
    decreases |run|
  {
    |run| == 0 || (Enabled(cfg, s, run[0]) && Legal(cfg, Apply(cfg, s, run[0]), run[1..]))
  }

  ghost function Exec(cfg: Config, s: State, run: seq<Label>): State
    requires Legal(cfg, s, run)
    decreases |run|
  {
    if |run| == 0 then s else Exec(cfg, Apply(cfg, s, run[0]), run[1..])
  }

  /** No 32-bit counter has wrapped: at most 2^32 task IDs for each client, fewer than 2^32 connections. */
  ghost predicate Unwrapped(s: State) {
    && s.connected < TWO_32
    && forall c :: c in s.clients ==> s.clients[c].numTasks <= TWO_32
  }
}
