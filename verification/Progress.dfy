/** Never-give-up dispatch has no dead end: from every reachable state with one connected worker that answers
    what it is sent, some finite schedule completes the open round and broadcasts once more. */
module Progress {
  import opened Wire
  import opened FrameRing
  import opened Fleet
  import opened TaskTable
  import opened Pipeline
  import opened Invariant
  import opened Safety
  import opened Runs
  import opened Timeline

  // -------------------------------------------------------------- the measure

  function TaskMessage(j: Job): Msg
    requires HasTicket(j.stage)
  {
    Work(j.stage.id, j.start, j.end)
  }

  /** The job's current request has reached w's queue, or w itself. */
  ghost predicate Posted(link: Link, w: u32, j: Job) {
    HasTicket(j.stage) && j.stage.client == w && TaskMessage(j) in link.taken + link.queue
  }

  /** Steps this job still needs when it is moved to worker w; a request also pays for its place in w's queue. */
  ghost function Weight(closed: set<nat>, link: Link, w: u32, j: Job): nat {
    var stored := j.serial in closed;
    match j.stage
    case Finished => 0
    case Collected(_, _) => 1
    case Waiting(_, _) => if stored then 2 else if Posted(link, w, j) then 3 else 8
    case Registered(c, _) => if stored then 4 else if c == w then 5 else 9
    case Repicked(_, _, next) => if stored then 5 else if next == w then 6 else 10
    case TimedOut(_, _) => if stored then 6 else 7
    case Numbered(c, _) => if c == w then 6 else 10
    case Picked(c) => if c == w then 7 else 11
    case NotStarted => 8
  }

  ghost function Total(closed: set<nat>, link: Link, w: u32, jobs: seq<Job>): nat {
    if |jobs| == 0 then 0 else Total(closed, link, w, jobs[..|jobs| - 1]) + Weight(closed, link, w, jobs[|jobs| - 1])
  }

  lemma {:induction false} TotalUpdate(closed: set<nat>, link: Link, w: u32, jobs: seq<Job>, k: nat, j: Job)
    requires k < |jobs|
    ensures Total(closed, link, w, jobs[k := j]) + Weight(closed, link, w, jobs[k]) == Total(closed, link, w, jobs)
            + Weight(closed, link, w, j)
    decreases |jobs|
  {
    var n := |jobs| - 1;
    if k == n {
      assert jobs[k := j][..n] == jobs[..n];
    } else {
      assert jobs[k := j][..n] == jobs[..n][k := j];
      TotalUpdate(closed, link, w, jobs[..n], k, j);
    }
  }

  lemma {:induction false} TotalMonotone(closed: set<nat>, link: Link, closed': set<nat>, link': Link, w: u32,
          jobs: seq<Job>)
    requires forall k :: 0 <= k < |jobs| ==> Weight(closed', link', w, jobs[k]) <= Weight(closed, link, w, jobs[k])
    ensures Total(closed', link', w, jobs) <= Total(closed, link, w, jobs)
    decreases |jobs|
  {
    if |jobs| == 0 {
    } else {
      var n := |jobs| - 1;
      assert forall k :: 0 <= k < n ==> jobs[..n][k] == jobs[k];
      TotalMonotone(closed, link, closed', link', w, jobs[..n]);
    }
  }

  lemma {:induction false} TotalFresh(closed: set<nat>, link: Link, w: u32, jobs: seq<Job>)
    requires forall k :: 0 <= k < |jobs| ==> jobs[k].stage.NotStarted?
    ensures Total(closed, link, w, jobs) == 8 * |jobs|
    decreases |jobs|
  {
    if |jobs| == 0 {
    } else {
      TotalFresh(closed, link, w, jobs[..|jobs| - 1]);
    }
  }

  /** Is the next broadcast to go out the first one? */
  predicate NextIsFirst(s: State) { s.firstCast && !s.cast.Fanning? }

  /** Batches in the next broadcast to go out. */
  function NextSize(cfg: Config, s: State): nat { Size(cfg, NextIsFirst(s)) }

  /** Batches still missing before that broadcast can be read. */
  ghost function Deficit(cfg: Config, s: State): nat {
    var t, h := TailBatch(s.store.ring), HeadBatch(s.store.ring);
    var goal := if s.cast.Fanning? then t + CastSize(cfg, s) + cfg.subsequent else t + CastSize(cfg, s);
    if (s.cast.Fanning? || s.cast.WaitFrames?) && goal > h then goal - h else 0
  }

  ghost function DispatchRank(cfg: Config, s: State, w: u32): nat
    requires w in s.clients
  {
    match s.dispatch
    case WaitRoom => 8 * RoundSize(cfg, s) + 4
    case WaitWorker => 8 * RoundSize(cfg, s) + 3
    case Pacing => 8 * RoundSize(cfg, s) + 2
    case Round(jobs) => Total(s.store.closed, s.clients[w].link, w, jobs) + 1
  }

  /** What the round in hand and w's queue still need. */
  ghost function WorkRank(cfg: Config, s: State, w: u32): nat
    requires w in s.clients
  {
    DispatchRank(cfg, s, w) + |s.clients[w].link.queue|
  }

  /** A round that brings a later broadcast's batches may have to follow a first round that brings none. */
  ghost function LaterRank(cfg: Config, s: State): nat {
    if s.firstRound && !NextIsFirst(s) then 8 * cfg.subsequent + 4 else 0
  }

  ghost function CastRank(s: State): nat {
    match s.cast
    case Fanning(_, rest) => 5 + 2 * |rest|
    case WaitFrames => 4
    case WaitViewer => 3
    case Reading => 2
    case Loaded(_) => 1
  }

  /** Steps to the next broadcast; rounds only matter while batches are missing. */
  ghost function Rank(cfg: Config, s: State, w: u32): nat
    requires w in s.clients
  {
    CastRank(s) + if Deficit(cfg, s) == 0 then 0 else LaterRank(cfg, s) + WorkRank(cfg, s, w)
  }

  // ---------------------------------------------------------------- helpful steps

  /** The only outside help: w's writer delivers, and w answers requests it was delivered. */
  ghost predicate Helpful(render: Renderer, s: State, w: u32, l: Label) {
    l.Network? ==> l.f == Deliver(w) || (l.f.Result? && l.f.c == w && AnswersRequest(render, s, l.f))
  }

  /** Worker w stays, nobody joins, and each client is numbered at most one task. */
  ghost predicate Keeps(s: State, s': State, w: u32) {
    && w in s'.pool && w in s'.clients && s'.connected == s.connected
    && forall c :: c in s'.clients ==> c in s.clients && s'.clients[c].numTasks <= s.clients[c].numTasks + 1
  }

  /** One more broadcast has begun. */
  ghost predicate Broadcasts(s: State, s': State) {
    |s'.payloads| == |s.payloads| + 1 && s'.cast.Fanning?
  }

  ghost predicate Advances(cfg: Config, s: State, s': State, w: u32)
    requires w in s.clients
  {
    && Keeps(s, s', w)
    && (Broadcasts(s, s') || (s'.payloads == s.payloads && Rank(cfg, s', w) < Rank(cfg, s, w)))
  }

  /** Progress inside the round, which touches neither the pointers nor the broadcaster. */
  ghost predicate Works(cfg: Config, s: State, s': State, w: u32)
    requires w in s.clients
  {
    && Keeps(s, s', w)
    && s'.store.ring.head == s.store.ring.head && s'.store.ring.tail == s.store.ring.tail
    && s'.cast == s.cast && s'.firstCast == s.firstCast && s'.firstRound == s.firstRound && s'.payloads == s.payloads
    && WorkRank(cfg, s', w) < WorkRank(cfg, s, w)
  }

  lemma WorksAdvances(cfg: Config, s: State, s': State, w: u32)
    requires w in s.clients && Works(cfg, s, s', w) && Deficit(cfg, s) > 0
    ensures Advances(cfg, s, s', w)
  {
    assert Deficit(cfg, s') == Deficit(cfg, s) && LaterRank(cfg, s') == LaterRank(cfg, s)
           && CastRank(s') == CastRank(s);
  }

  /** Every client has n task IDs left. */
  ghost predicate Budget(s: State, n: nat) {
    s.connected < TWO_32 && forall c :: c in s.clients ==> s.clients[c].numTasks + n <= TWO_32
  }

  // --------------------------------------------------------------- the broadcaster

  lemma CastAdvances(cfg: Config, s: State, w: u32) returns (b: CastStep)
    requires Inv(cfg, s) && WellFormed(s.store.ring) && w in s.pool && (s.cast.WaitFrames? ==> Deficit(cfg, s) == 0)
    ensures CanCast(cfg, s, b) && Advances(cfg, s, DoCast(cfg, s, b), w)
  {
    var r := s.store.ring;
    QueriesCountBatches(r, CastSize(cfg, s));
    match s.cast
    case Fanning(_, rest) =>
      if rest == {} {
        b := Trim;
        RemoveAligned(r, CastSize(cfg, s));
        TrimAdvances(cfg, s, w);
      } else {
        var c :| c in rest;
        b := Fan(c);
        FanAdvances(cfg, s, w, c);
      }
    case WaitFrames => b := FramesFound;
      PrepareAdvances(cfg, s, w, b);
    case WaitViewer => b := ViewerFound;
      PrepareAdvances(cfg, s, w, b);
    case Reading => b := Load;
      PrepareAdvances(cfg, s, w, b);
    case Loaded(_) => b := StartCast;
  }

  lemma PrepareAdvances(cfg: Config, s: State, w: u32, b: CastStep)
    requires WellFormed(s.store.ring) && CanCast(cfg, s, b) && (b.FramesFound? || b.ViewerFound? || b.Load?)
    requires w in s.pool && w in s.clients && Deficit(cfg, s) == 0
    ensures Advances(cfg, s, DoCast(cfg, s, b), w)
  {
  }

  lemma TrimAdvances(cfg: Config, s: State, w: u32)
    requires Inv(cfg, s) && WellFormed(s.store.ring) && CanCast(cfg, s, Trim) && w in s.pool
    ensures Advances(cfg, s, DoTrim(cfg, s), w)
  {
    RemoveAligned(s.store.ring, CastSize(cfg, s));
    var s' := DoTrim(cfg, s);
    assert Deficit(cfg, s') == Deficit(cfg, s) && LaterRank(cfg, s') == LaterRank(cfg, s)
           && WorkRank(cfg, s', w) == WorkRank(cfg, s, w);
  }

  lemma FanAdvances(cfg: Config, s: State, w: u32, c: u32)
    requires s.cast.Fanning? && c in s.cast.rest && c in s.clients && w in s.pool && w in s.clients
    ensures Advances(cfg, s, DoFan(s, c), w)
  {
    var s' := DoFan(s, c);
    assert s.clients[c].link.queue <= s'.clients[c].link.queue;
    assert |s.cast.rest - {c}| == |s.cast.rest| - 1;
    assert Deficit(cfg, s') == Deficit(cfg, s) && LaterRank(cfg, s') == LaterRank(cfg, s);
    OfferKeepsWeights(s.store.closed, s.clients[w].link, s'.clients[w].link, w, Jobs(s));
    assert WorkRank(cfg, s', w) <= WorkRank(cfg, s, w) + 1;
  }

  /** Offers never unpost a request. */
  lemma OfferKeepsWeights(closed: set<nat>, link: Link, link': Link, w: u32, jobs: seq<Job>)
    requires forall m :: m in link.taken + link.queue ==> m in link'.taken + link'.queue
    ensures Total(closed, link', w, jobs) <= Total(closed, link, w, jobs)
  {
    TotalMonotone(closed, link, closed, link', w, jobs);
  }

  // ---------------------------------------------------------------- the dispatcher

  /** The dispatcher's next step. */
  function NextDispatch(s: State): DispatchStep {
    match s.dispatch
    case WaitRoom => RoomFound
    case WaitWorker => WorkerFound
    case Pacing => OpenRound
    case Round(_) => CloseRound
  }

  lemma DispatchAdvances(cfg: Config, s: State, w: u32)
    requires Inv(cfg, s) && WellFormed(s.store.ring) && w in s.pool && NextSize(cfg, s) <= MAX_BATCHES
    requires s.cast.WaitFrames? && Deficit(cfg, s) > 0
    requires s.dispatch.Round? ==> forall k :: 0 <= k < |Jobs(s)| ==> Jobs(s)[k].stage.Finished?
    ensures var d := NextDispatch(s); CanDispatch(cfg, s, d) && Advances(cfg, s, DoDispatch(cfg, s, d), w)
  {
    LackingFramesMeansEmpty(cfg, s);
    MissingRoundFits(cfg, s);
    QueriesCountBatches(s.store.ring, RoundSize(cfg, s));
    match s.dispatch
    case WaitRoom => WaitAdvances(cfg, s, w);
    case WaitWorker => WaitAdvances(cfg, s, w);
    case Pacing => OpenAdvances(cfg, s, w);
    case Round(_) => CloseAdvances(cfg, s, w);
  }

  lemma WaitAdvances(cfg: Config, s: State, w: u32)
    requires s.dispatch.WaitRoom? || s.dispatch.WaitWorker?
    requires w in s.pool && w in s.clients && Deficit(cfg, s) > 0
    ensures Advances(cfg, s, DoDispatch(cfg, s, NextDispatch(s)), w)
  {
    WorksAdvances(cfg, s, DoDispatch(cfg, s, NextDispatch(s)), w);
  }

  lemma OpenAdvances(cfg: Config, s: State, w: u32)
    requires s.dispatch.Pacing? && w in s.pool && w in s.clients && Deficit(cfg, s) > 0
    ensures Advances(cfg, s, DoOpenRound(cfg, s), w)
  {
    var s' := DoOpenRound(cfg, s);
    TotalFresh(s.store.closed, s.clients[w].link, w, Jobs(s'));
    WorksAdvances(cfg, s, s', w);
  }

  /** After the round nothing is missing any more, unless it was a first round smaller than the broadcast. */
  lemma ClosingSuffices(cfg: Config, s: State)
    requires Inv(cfg, s) && s.dispatch.Round? && s.cast.WaitFrames? && Deficit(cfg, s) > 0
    ensures Deficit(cfg, DoCloseRound(cfg, s)) == 0 || (s.firstRound && !NextIsFirst(s))
  {
    LackingFramesMeansEmpty(cfg, s);
    AdvanceAligned(s.store.ring, RoundSize(cfg, s));
  }

  lemma CloseAdvances(cfg: Config, s: State, w: u32)
    requires Inv(cfg, s) && w in s.pool && s.dispatch.Round? && s.cast.WaitFrames? && Deficit(cfg, s) > 0
    ensures Advances(cfg, s, DoCloseRound(cfg, s), w)
  {
    ClosingSuffices(cfg, s);
  }

  // --------------------------------------------------------------- one batch's goroutine

  /** What the schedule lets goroutine k do next, unless it is waiting for the network. */
  ghost function NextWork(s: State, w: u32, k: nat): JobStep
    requires AtStage(s, k)
  {
    var j := Jobs(s)[k];
    match j.stage
    case NotStarted => Pick(w)
    case Picked(_) => Number
    case Numbered(_, _) => Register
    case Registered(_, _) => Request
    case Waiting(_, _) => if j.serial in s.store.closed then Collect else Timeout
    case TimedOut(_, _) => Repick(w)
    case Repicked(_, _, _) => Handover
    case Collected(_, _) => Delete
    case Finished => Delete
  }

  /** The schedule waits for w's writer, or for w. */
  ghost predicate WaitsForWriter(s: State, w: u32, k: nat)
    requires AtStage(s, k) && w in s.clients
  {
    var j := Jobs(s)[k];
    && j.serial !in s.store.closed
    && ((j.stage.Registered? && j.stage.client == w && |s.clients[w].link.queue| == SEND_QUEUE_SIZE)
        || (j.stage.Waiting? && Posted(s.clients[w].link, w, j) && TaskMessage(j) !in s.clients[w].link.taken))
  }

  ghost predicate WaitsForAnswer(s: State, w: u32, k: nat)
    requires AtStage(s, k) && w in s.clients
  {
    var j := Jobs(s)[k];
    && j.serial !in s.store.closed
    && j.stage.Waiting? && Posted(s.clients[w].link, w, j) && TaskMessage(j) in s.clients[w].link.taken
  }

  lemma WriterWorks(cfg: Config, s: State, w: u32, k: nat)
    requires Inv(cfg, s) && WellFormed(s.store.ring) && w in s.pool && AtStage(s, k) && WaitsForWriter(s, w, k)
    ensures CanHappen(s, Deliver(w)) && Works(cfg, s, DoHappen(s, Deliver(w)), w)
  {
    WriterHasWork(s, w, k);
    DeliveryWorks(cfg, s, w);
  }

  lemma WriterHasWork(s: State, w: u32, k: nat)
    requires AtStage(s, k) && w in s.clients && WaitsForWriter(s, w, k)
    ensures |s.clients[w].link.queue| > 0
  {
  }

  lemma DeliveryWorks(cfg: Config, s: State, w: u32)
    requires WellFormed(s.store.ring) && w in s.pool && w in s.clients && |s.clients[w].link.queue| > 0
    ensures Works(cfg, s, DoHappen(s, Deliver(w)), w)
  {
    var link := s.clients[w].link;
    TakeKeepsMessages(link);
    OfferKeepsWeights(s.store.closed, link, Take(link), w, Jobs(s));
  }

  lemma TakeKeepsMessages(link: Link)
    requires |link.queue| > 0
    ensures Take(link).taken + Take(link).queue == link.taken + link.queue
  {
  }

  lemma AnswerWorks(cfg: Config, s: State, w: u32, k: nat, render: Renderer) returns (f: FleetStep)
    requires CoreInv(cfg, s) && WellFormed(s.store.ring) && w in s.pool && w in s.clients
    requires AtStage(s, k) && WaitsForAnswer(s, w, k) && WholeFrames(render)
    ensures f.Result? && f.c == w && AnswersRequest(render, s, f)
    ensures CanHappen(s, f) && Works(cfg, s, DoHappen(s, f), w)
  {
    var j := Jobs(s)[k];
    var frames := RenderRange(render, j.start as int, j.end as int - j.start as int + 1);
    RangeLength(render, j.start as int, j.end as int - j.start as int + 1);
    f := Result(w, j.stage.id, frames);
    DeliveredIsAnswered(s, w, TaskMessage(j), render, f);
    HolderStores(cfg, s, k, frames);
    StoredWorks(cfg, s, DoResult(s, w, j.stage.id, frames), w, k);
  }

  lemma DeliveredIsAnswered(s: State, w: u32, m: Msg, render: Renderer, f: FleetStep)
    requires w in s.clients && m in s.clients[w].link.taken && m.Work? && m.start <= m.end
    requires f == Result(w, m.id, RenderRange(render, m.start as int, m.end as int - m.start as int + 1))
    ensures AnswersRequest(render, s, f)
  {
  }

  /** The first answer from the worker that holds job k is the one that closes job k's channel. */
  lemma HolderStores(cfg: Config, s: State, k: nat, frames: seq<byte>)
    requires CoreInv(cfg, s) && AtStage(s, k) && Listed(Jobs(s)[k].stage) && Jobs(s)[k].serial !in s.store.closed
             && |frames| == BATCH_SIZE
    ensures var st := Jobs(s)[k].stage; StoredBy(s, DoResult(s, st.client, st.id, frames), st.client, st.id, frames, k)
  {
    var b, st := HeadBatch(s.store.ring), Jobs(s)[k].stage;
    var stored, l := ResultEffect(s, st.client, st.id, frames);
    assert EntryOf(At(s.store.tasks, st.client, st.id), s.store.closed, b, Jobs(s), k);
    DistinctEntries(s.store.tasks, s.store.closed, b, Jobs(s));
  }

  lemma StoredWorks(cfg: Config, s: State, s': State, w: u32, k: nat)
    requires w in s.pool && w in s.clients && AtStage(s, k) && JobsOk(HeadBatch(s.store.ring), Jobs(s))
             && WaitsForAnswer(s, w, k)
    requires s' == s.(store := s'.store, accepted := s'.accepted)
    requires s'.store.closed == s.store.closed + {HeadBatch(s.store.ring) + k}
    requires s'.store.ring.head == s.store.ring.head && s'.store.ring.tail == s.store.ring.tail
    ensures Works(cfg, s, s', w)
  {
    var closed, closed', link, jobs := s.store.closed, s'.store.closed, s.clients[w].link, Jobs(s);
    var done := jobs[k].(stage := Collected(jobs[k].stage.client, jobs[k].stage.id));
    TotalUpdate(closed, link, w, jobs, k, done);
    TotalUpdate(closed', link, w, jobs, k, done);
    TotalMonotone(closed, link, closed', link, w, jobs[k := done]);
  }

  /** Every other goroutine step takes more weight off its own job than it adds to w's queue. */
  lemma OwnWeightFalls(s: State, w: u32, k: nat)
    requires AtStage(s, k) && w in s.clients && !Jobs(s)[k].stage.Finished?
    requires !WaitsForWriter(s, w, k) && !WaitsForAnswer(s, w, k) && CanWork(s, k, NextWork(s, w, k))
    requires (Jobs(s)[k].stage.NotStarted? || Jobs(s)[k].stage.Picked? || Jobs(s)[k].stage.Numbered?)
             ==> Jobs(s)[k].serial !in s.store.closed
    requires |s.clients[w].link.queue| <= SEND_QUEUE_SIZE
    ensures var s' := DoWork(s, k, NextWork(s, w, k));
            && AtStage(s', k) && w in s'.clients && Jobs(s')[k].serial == Jobs(s)[k].serial
            && Weight(s.store.closed, s'.clients[w].link, w, Jobs(s')[k]) + |s'.clients[w].link.queue|
               < Weight(s.store.closed, s.clients[w].link, w, Jobs(s)[k]) + |s.clients[w].link.queue|
            && (forall m :: m in s.clients[w].link.taken + s.clients[w].link.queue ==>
                             m in s'.clients[w].link.taken + s'.clients[w].link.queue)
  {
    WorkOnClients(s, k, NextWork(s, w, k));
    WorkRestages(s, k, NextWork(s, w, k));
  }

  lemma GoroutineWorks(cfg: Config, s: State, w: u32, k: nat)
    requires Inv(cfg, s) && w in s.pool && AtStage(s, k) && !Jobs(s)[k].stage.Finished?
    requires !WaitsForWriter(s, w, k) && !WaitsForAnswer(s, w, k)
    ensures CanWork(s, k, NextWork(s, w, k)) && Works(cfg, s, DoWork(s, k, NextWork(s, w, k)), w)
  {
    var b, g := HeadBatch(s.store.ring), NextWork(s, w, k);
    assert StageTicketOk(s.clients, s.filed, b + k, Jobs(s)[k].stage);
    assert CanWork(s, k, g);
    assert LinkOk(s.clients[w].link);
    OwnWeightFalls(s, w, k);
    WorkFrame(s, k, g);
    WorkKeepsOthers(s, w, k, g);
    WorkLowersRank(cfg, s, w, k, g);
  }

  lemma WorkKeepsOthers(s: State, w: u32, k: nat, g: JobStep)
    requires CanWork(s, k, g) && w in s.clients && w in s.pool
    ensures Keeps(s, DoWork(s, k, g), w)
  {
    WorkFrame(s, k, g);
    WorkOnClients(s, k, g);
    NumTasksByOne(s, k, g);
  }

  lemma NumTasksByOne(s: State, k: nat, g: JobStep)
    requires CanWork(s, k, g)
    ensures forall c :: c in s.clients && c in DoWork(s, k, g).clients ==>
                          DoWork(s, k, g).clients[c].numTasks <= s.clients[c].numTasks + 1
  {
  }

  lemma WorkLowersRank(cfg: Config, s: State, w: u32, k: nat, g: JobStep)
    requires CanWork(s, k, g) && w in s.clients && w in DoWork(s, k, g).clients
    requires var s' := DoWork(s, k, g);
             && AtStage(s', k)
             && Weight(s.store.closed, s'.clients[w].link, w, Jobs(s')[k]) + |s'.clients[w].link.queue|
                < Weight(s.store.closed, s.clients[w].link, w, Jobs(s)[k]) + |s.clients[w].link.queue|
             && (forall m :: m in s.clients[w].link.taken + s.clients[w].link.queue ==>
                             m in s'.clients[w].link.taken + s'.clients[w].link.queue)
    ensures WorkRank(cfg, DoWork(s, k, g), w) < WorkRank(cfg, s, w)
  {
    var s' := DoWork(s, k, g);
    var closed, link, link', j' := s.store.closed, s.clients[w].link, s'.clients[w].link, Jobs(s')[k];
    WorkFrame(s, k, g);
    WorkRestages(s, k, g);
    TotalUpdate(closed, link', w, Jobs(s), k, j');
    OtherWeights(closed, link, link', w, Jobs(s), k);
    assert s'.dispatch == Round(Jobs(s)[k := j']);
  }

  /** The other jobs get no heavier. */
  lemma OtherWeights(closed: set<nat>, link: Link, link': Link, w: u32, jobs: seq<Job>, k: nat)
    requires k < |jobs|
    requires forall m :: m in link.taken + link.queue ==> m in link'.taken + link'.queue
    ensures Total(closed, link', w, jobs) - Weight(closed, link', w, jobs[k])
            <= Total(closed, link, w, jobs) - Weight(closed, link, w, jobs[k])
  {
    var rest := jobs[k := jobs[k].(stage := Finished)];
    TotalUpdate(closed, link, w, jobs, k, rest[k]);
    TotalUpdate(closed, link', w, jobs, k, rest[k]);
    OfferKeepsWeights(closed, link, link', w, rest);
  }

  // --------------------------------------------------------------------- the schedule

  lemma JobWorks(cfg: Config, s: State, w: u32, k: nat, render: Renderer) returns (l: Label)
    requires Inv(cfg, s) && WellFormed(s.store.ring) && WholeFrames(render)
    requires w in s.pool && AtStage(s, k) && !Jobs(s)[k].stage.Finished?
    ensures Enabled(cfg, s, l) && Helpful(render, s, w, l) && Works(cfg, s, Apply(cfg, s, l), w)
    ensures !l.Broadcaster? && !l.Dispatcher?
  {
    if WaitsForWriter(s, w, k) {
      WriterWorks(cfg, s, w, k);
      l := Network(Deliver(w));
    } else if WaitsForAnswer(s, w, k) {
      var f := AnswerWorks(cfg, s, w, k, render);
      l := Network(f);
    } else {
      GoroutineWorks(cfg, s, w, k);
      l := Goroutine(k, NextWork(s, w, k));
    }
  }

  /** As long as the next broadcast fits the ring, some step broadcasts or lowers the rank. */
  lemma SomeStepAdvances(cfg: Config, s: State, w: u32, render: Renderer) returns (l: Label)
    requires Inv(cfg, s) && w in s.pool && NextSize(cfg, s) <= MAX_BATCHES && WholeFrames(render)
    ensures w in s.clients && Enabled(cfg, s, l) && Helpful(render, s, w, l) && Advances(cfg, s, Apply(cfg, s, l), w)
  {
    QueriesCountBatches(s.store.ring, 0);
    if !s.cast.WaitFrames? || Deficit(cfg, s) == 0 {
      var b := CastAdvances(cfg, s, w);
      l := Broadcaster(b);
    } else if s.dispatch.Round? && exists k :: 0 <= k < |Jobs(s)| && !Jobs(s)[k].stage.Finished? {
      var k :| 0 <= k < |Jobs(s)| && !Jobs(s)[k].stage.Finished?;
      l := JobWorks(cfg, s, w, k, render);
      WorksAdvances(cfg, s, Apply(cfg, s, l), w);
    } else {
      DispatchAdvances(cfg, s, w);
      l := Dispatcher(NextDispatch(s));
    }
  }

  ghost predicate HelpfulRun(cfg: Config, render: Renderer, w: u32, s: State, run: seq<Label>)
    requires Legal(cfg, s, run)
    decreases |run|
  {
    |run| == 0 || (Helpful(render, s, w, run[0]) && HelpfulRun(cfg, render, w, Apply(cfg, s, run[0]), run[1..]))
  }

  lemma Prepend(cfg: Config, s: State, l: Label, rest: seq<Label>, render: Renderer)
    requires Enabled(cfg, s, l) && Honest(render, s, l)
    requires var s' := Apply(cfg, s, l); Legal(cfg, s', rest) && HonestRun(cfg, render, s', rest)
    ensures var plan := [l] + rest;
            && Legal(cfg, s, plan) && HonestRun(cfg, render, s, plan)
            && Exec(cfg, s, plan) == Exec(cfg, Apply(cfg, s, l), rest)
  {
    var plan := [l] + rest;
    assert plan[0] == l && plan[1..] == rest;
  }

  lemma PrependHelp(cfg: Config, s: State, l: Label, rest: seq<Label>, w: u32, render: Renderer)
    requires Enabled(cfg, s, l) && Helpful(render, s, w, l) && Honest(render, s, l)
    requires var s' := Apply(cfg, s, l);
             Legal(cfg, s', rest) && HelpfulRun(cfg, render, w, s', rest) && HonestRun(cfg, render, s', rest)
    ensures var plan := [l] + rest;
            && Legal(cfg, s, plan) && HelpfulRun(cfg, render, w, s, plan) && HonestRun(cfg, render, s, plan)
            && Exec(cfg, s, plan) == Exec(cfg, Apply(cfg, s, l), rest)
  {
    Prepend(cfg, s, l, rest, render);
    var plan := [l] + rest;
    assert plan[0] == l && plan[1..] == rest;
  }

  /** A step costs each client at most one task ID. */
  lemma StepKeepsBudget(s: State, s': State, w: u32, n: nat, n': nat)
    requires Budget(s, n) && Keeps(s, s', w) && n' < n
    ensures Unwrapped(s') && Budget(s', n')
  {
  }

  lemma HelpIsHonest(s: State, w: u32, render: Renderer, l: Label)
    requires FleetInv(s) && Helpful(render, s, w, l)
    ensures Honest(render, s, l)
  {
    if l.Network? && l.f.Result? {
      AnswerMatchesTicket(s, render, l.f);
    }
  }

  /** Only the start of a broadcast changes which one comes next. */
  lemma NextSizeStays(cfg: Config, s: State, l: Label)
    requires Enabled(cfg, s, l) && l != Broadcaster(StartCast)
    ensures Apply(cfg, s, l).payloads == s.payloads && NextIsFirst(Apply(cfg, s, l)) == NextIsFirst(s)
  {
    match l
    case Dispatcher(_) =>
    case Goroutine(k, g) => WorkFrame(s, k, g);
    case Broadcaster(b) => CastKeepsNext(cfg, s, b);
    case Network(f) => HappenKeepsNext(s, f);
  }

  lemma CastKeepsNext(cfg: Config, s: State, b: CastStep)
    requires WellFormed(s.store.ring) && CanCast(cfg, s, b) && !b.StartCast?
    ensures DoCast(cfg, s, b).payloads == s.payloads && NextIsFirst(DoCast(cfg, s, b)) == NextIsFirst(s)
  {
  }

  lemma HappenKeepsNext(s: State, f: FleetStep)
    requires WellFormed(s.store.ring) && CanHappen(s, f)
    ensures DoHappen(s, f).payloads == s.payloads && NextIsFirst(DoHappen(s, f)) == NextIsFirst(s)
  {
  }

  lemma AdvancingKeepsBudget(cfg: Config, s: State, s': State, w: u32, n: nat)
    requires w in s.clients && Rank(cfg, s, w) <= n && Budget(s, n) && Advances(cfg, s, s', w)
    ensures n > 0 && Unwrapped(s') && Budget(s', n - 1)
  {
    assert n >= CastRank(s) >= 1;
    StepKeepsBudget(s, s', w, n, n - 1);
  }

  /** What the schedule relies on survives a step that broadcasts nothing. */
  lemma GoesOn(cfg: Config, s: State, l: Label)
    requires Inv(cfg, s) && Enabled(cfg, s, l) && Unwrapped(Apply(cfg, s, l))
    requires |Apply(cfg, s, l).payloads| == |s.payloads|
    ensures var s' := Apply(cfg, s, l);
            Inv(cfg, s') && NextSize(cfg, s') == NextSize(cfg, s)
  {
    NextSizeStays(cfg, s, l);
    StepKeepsInv(cfg, s, l);
  }

  /** A schedule that needs no outside help but w's, and ends with the next broadcast. */
  ghost predicate BroadcastPlan(cfg: Config, render: Renderer, w: u32, s: State, plan: seq<Label>) {
    && Legal(cfg, s, plan) && HelpfulRun(cfg, render, w, s, plan) && HonestRun(cfg, render, s, plan)
    && Unwrapped(Exec(cfg, s, plan)) && Broadcasts(s, Exec(cfg, s, plan))
  }

  lemma LastStep(cfg: Config, s: State, l: Label, w: u32, render: Renderer)
    requires Enabled(cfg, s, l) && Helpful(render, s, w, l) && Honest(render, s, l)
    requires var s' := Apply(cfg, s, l); Broadcasts(s, s') && Unwrapped(s')
    ensures BroadcastPlan(cfg, render, w, s, [l])
  {
    PrependHelp(cfg, s, l, [], w, render);
    assert [l] + [] == [l];
  }

  lemma EarlierStep(cfg: Config, s: State, l: Label, rest: seq<Label>, w: u32, render: Renderer)
    requires Enabled(cfg, s, l) && Helpful(render, s, w, l) && Honest(render, s, l)
    requires var s' := Apply(cfg, s, l); |s'.payloads| == |s.payloads| && BroadcastPlan(cfg, render, w, s', rest)
    ensures BroadcastPlan(cfg, render, w, s, [l] + rest)
  {
    PrependHelp(cfg, s, l, rest, w, render);
  }

  /** Everything the schedule relies on, with n task IDs left for each client. */
  ghost predicate ReadyWith(cfg: Config, s: State, w: u32, n: nat) {
    && Inv(cfg, s) && w in s.pool && w in s.clients && NextSize(cfg, s) <= MAX_BATCHES
    && Rank(cfg, s, w) <= n && Budget(s, n)
  }

  ghost predicate Ready(cfg: Config, s: State, w: u32) {
    w in s.clients && exists n: nat :: ReadyWith(cfg, s, w, n)
  }

  lemma ReadyStep(cfg: Config, s: State, w: u32, render: Renderer) returns (l: Label)
    requires Ready(cfg, s, w) && WholeFrames(render)
    ensures Enabled(cfg, s, l) && Helpful(render, s, w, l) && Honest(render, s, l)
    ensures var s' := Apply(cfg, s, l);
            if Broadcasts(s, s') then Unwrapped(s')
            else s'.payloads == s.payloads && Ready(cfg, s', w) && Rank(cfg, s', w) < Rank(cfg, s, w)
  {
    var n: nat :| ReadyWith(cfg, s, w, n);
    l := SomeStepAdvances(cfg, s, w, render);
    HelpIsHonest(s, w, render, l);
    var s' := Apply(cfg, s, l);
    AdvancingKeepsBudget(cfg, s, s', w, n);
    if !Broadcasts(s, s') {
      GoesOn(cfg, s, l);
      assert ReadyWith(cfg, s', w, n - 1);
    }
  }

  lemma {:induction false} BroadcastWithin(cfg: Config, s: State, w: u32, render: Renderer) returns (plan: seq<Label>)
    requires Ready(cfg, s, w) && WholeFrames(render)
    ensures BroadcastPlan(cfg, render, w, s, plan) && |plan| <= Rank(cfg, s, w) + 1
    decreases Rank(cfg, s, w)
  {
    var l := ReadyStep(cfg, s, w, render);
    var s' := Apply(cfg, s, l);
    if Broadcasts(s, s') {
      LastStep(cfg, s, l, w, render);
      plan := [l];
    } else {
      var rest := BroadcastWithin(cfg, s', w, render);
      EarlierStep(cfg, s, l, rest, w, render);
      plan := [l] + rest;
    }
  }

  /** A reached state with a worker and IDs left is ready for a broadcast that fits. */
  lemma ReachedIsReady(cfg: Config, start: State, run: seq<Label>, s: State, w: u32)
    requires Reached(cfg, start, run, s) && NextSize(cfg, s) <= MAX_BATCHES
    requires w in s.pool && w in s.clients && Budget(s, Rank(cfg, s, w))
    ensures Ready(cfg, s, w)
  {
    EveryRunIsSafe(cfg, start, run, s);
    assert ReadyWith(cfg, s, w, Rank(cfg, s, w));
  }

  // ---------------------------------------------------------- when there is no next broadcast

  lemma StepWithoutRoom(cfg: Config, s: State, l: Label)
    requires Inv(cfg, s) && Enabled(cfg, s, l) && NextSize(cfg, s) > MAX_BATCHES
    ensures Apply(cfg, s, l).payloads == s.payloads && NextSize(cfg, Apply(cfg, s, l)) > MAX_BATCHES
  {
    NextSizeStays(cfg, s, l);
  }

  /** A broadcast that does not fit the ring never goes out, and so nothing does any more. */
  lemma {:induction false} NoBroadcastWithoutRoom(cfg: Config, s: State, run: seq<Label>)
    requires Inv(cfg, s) && NextSize(cfg, s) > MAX_BATCHES && Legal(cfg, s, run) && Unwrapped(Exec(cfg, s, run))
    ensures Exec(cfg, s, run).payloads == s.payloads
    decreases |run|
  {
    if |run| == 0 {
    } else {
      FirstStepKeepsInv(cfg, s, run);
      StepWithoutRoom(cfg, s, run[0]);
      NoBroadcastWithoutRoom(cfg, Apply(cfg, s, run[0]), run[1..]);
    }
  }

  /** From every reachable state in which some worker w is connected and IDs are left: another broadcast can be
      reached exactly when it fits the ring, and then the goroutines, the writer of w and w's honest answers alone
      bring it about, within Rank + 1 steps. */
  lemma AnotherBroadcastIsReachable(cfg: Config, start: State, run: seq<Label>, s: State, w: u32, render: Renderer)
    requires Reached(cfg, start, run, s) && WholeFrames(render) && w in s.pool
    ensures w in s.clients
    ensures Budget(s, Rank(cfg, s, w)) ==>
              (NextSize(cfg, s) <= MAX_BATCHES <==>
               exists plan :: BroadcastPlan(cfg, render, w, s, plan) && |plan| <= Rank(cfg, s, w) + 1)
    ensures NextSize(cfg, s) > MAX_BATCHES ==>
              forall plan :: Legal(cfg, s, plan) && Unwrapped(Exec(cfg, s, plan))
                  ==> Exec(cfg, s, plan).payloads == s.payloads
  {
    EveryRunIsSafe(cfg, start, run, s);
    if NextSize(cfg, s) > MAX_BATCHES {
      forall plan | Legal(cfg, s, plan) && Unwrapped(Exec(cfg, s, plan))
        ensures Exec(cfg, s, plan).payloads == s.payloads
      {
        NoBroadcastWithoutRoom(cfg, s, plan);
      }
    } else if Budget(s, Rank(cfg, s, w)) {
      ReachedIsReady(cfg, start, run, s, w);
      var plan := BroadcastWithin(cfg, s, w, render);
    }
  }

  lemma InsideRound(cfg: Config, s: State, l: Label)
    requires CoreInv(cfg, s) && Enabled(cfg, s, l) && !l.Broadcaster? && !l.Dispatcher? && s.dispatch.Round?
    ensures var s' := Apply(cfg, s, l);
            && s'.dispatch.Round? && s'.store.ring.head == s.store.ring.head && s'.firstRound == s.firstRound
                && s'.payloads == s.payloads
  {
    match l
    case Goroutine(k, g) =>
      WorkFrame(s, k, g);
      WorkRestages(s, k, g);
    case Network(f) => HappenInsideRound(cfg, s, f);
  }

  lemma HappenInsideRound(cfg: Config, s: State, f: FleetStep)
    requires CoreInv(cfg, s) && WellFormed(s.store.ring) && CanHappen(s, f)
    ensures var s' := DoHappen(s, f);
            && s'.dispatch == s.dispatch && s'.store.ring.head == s.store.ring.head && s'.firstRound == s.firstRound
                && s'.payloads == s.payloads
  {
    if f.Result? {
      var stored, k := ResultEffect(s, f.c, f.id, f.frames);
    }
  }

  /** A schedule that needs no outside help but w's, and ends with the round closed. */
  ghost predicate ClosingPlan(cfg: Config, render: Renderer, w: u32, s: State, plan: seq<Label>) {
    && Legal(cfg, s, plan) && HelpfulRun(cfg, render, w, s, plan) && HonestRun(cfg, render, s, plan)
    && Unwrapped(Exec(cfg, s, plan))
    && Exec(cfg, s, plan).store.ring.head == s.store.ring.head + RoundSize(cfg, s) * BATCH_SIZE
  }

  /** Everything the schedule relies on, with n task IDs left for each client. */
  ghost predicate ClosableWith(cfg: Config, s: State, w: u32, n: nat) {
    && Inv(cfg, s) && w in s.pool && w in s.clients && s.dispatch.Round?
    && WorkRank(cfg, s, w) <= n && Budget(s, n)
  }

  ghost predicate Closable(cfg: Config, s: State, w: u32) {
    w in s.clients && exists n: nat :: ClosableWith(cfg, s, w, n)
  }

  ghost predicate AllFinished(s: State) {
    s.dispatch.Round? && forall k :: 0 <= k < |Jobs(s)| ==> Jobs(s)[k].stage.Finished?
  }

  lemma ClosingStep(cfg: Config, s: State, w: u32, render: Renderer) returns (l: Label)
    requires Closable(cfg, s, w) && WholeFrames(render) && !AllFinished(s)
    ensures Enabled(cfg, s, l) && Helpful(render, s, w, l) && Honest(render, s, l)
    ensures var s' := Apply(cfg, s, l);
            && Closable(cfg, s', w) && WorkRank(cfg, s', w) < WorkRank(cfg, s, w)
            && s'.store.ring.head == s.store.ring.head && s'.firstRound == s.firstRound
  {
    var n: nat :| ClosableWith(cfg, s, w, n);
    QueriesCountBatches(s.store.ring, 0);
    var k :| 0 <= k < |Jobs(s)| && !Jobs(s)[k].stage.Finished?;
    l := JobWorks(cfg, s, w, k, render);
    var s' := Apply(cfg, s, l);
    InsideRound(cfg, s, l);
    StepKeepsBudget(s, s', w, n, n - 1);
    HelpIsHonest(s, w, render, l);
    StepKeepsInv(cfg, s, l);
    assert ClosableWith(cfg, s', w, n - 1);
  }

  lemma LastClosingStep(cfg: Config, s: State, w: u32, render: Renderer)
    requires Closable(cfg, s, w) && AllFinished(s)
    ensures ClosingPlan(cfg, render, w, s, [Dispatcher(CloseRound)])
  {
    var n: nat :| ClosableWith(cfg, s, w, n);
    QueriesCountBatches(s.store.ring, 0);
    PrependHelp(cfg, s, Dispatcher(CloseRound), [], w, render);
    assert [Dispatcher(CloseRound)] + [] == [Dispatcher(CloseRound)];
  }

  lemma EarlierClosingStep(cfg: Config, s: State, l: Label, rest: seq<Label>, w: u32, render: Renderer)
    requires Enabled(cfg, s, l) && Helpful(render, s, w, l) && Honest(render, s, l)
    requires var s' := Apply(cfg, s, l);
             && s'.store.ring.head == s.store.ring.head && s'.firstRound == s.firstRound
             && ClosingPlan(cfg, render, w, s', rest)
    ensures ClosingPlan(cfg, render, w, s, [l] + rest)
  {
    PrependHelp(cfg, s, l, rest, w, render);
  }

  lemma {:induction false} CloseWithin(cfg: Config, s: State, w: u32, render: Renderer) returns (plan: seq<Label>)
    requires Closable(cfg, s, w) && WholeFrames(render)
    ensures ClosingPlan(cfg, render, w, s, plan) && |plan| <= WorkRank(cfg, s, w) + 1
    decreases WorkRank(cfg, s, w)
  {
    if AllFinished(s) {
      LastClosingStep(cfg, s, w, render);
      plan := [Dispatcher(CloseRound)];
    } else {
      var l := ClosingStep(cfg, s, w, render);
      var rest := CloseWithin(cfg, Apply(cfg, s, l), w, render);
      EarlierClosingStep(cfg, s, l, rest, w, render);
      plan := [l] + rest;
    }
  }

  /** An open round can always be completed: every goroutine, wherever its timeouts and handovers have left it,
      can be brought home by one answering worker, whatever the settings. */
  lemma OpenRoundCanClose(cfg: Config, start: State, run: seq<Label>, s: State, w: u32, render: Renderer)
    requires Reached(cfg, start, run, s) && WholeFrames(render) && w in s.pool && s.dispatch.Round?
    ensures w in s.clients
    ensures Budget(s, WorkRank(cfg, s, w)) ==>
              exists plan :: ClosingPlan(cfg, render, w, s, plan) && |plan| <= WorkRank(cfg, s, w) + 1
  {
    EveryRunIsSafe(cfg, start, run, s);
    if Budget(s, WorkRank(cfg, s, w)) {
      assert ClosableWith(cfg, s, w, WorkRank(cfg, s, w));
      var plan := CloseWithin(cfg, s, w, render);
    }
  }

  // ----------------------------------------------------------------- how long it takes

  /** Steps to a broadcast, apart from two for each client to be served. */
  const SCHEDULE_LIMIT: nat := 34_225

  lemma {:induction false} TotalBound(closed: set<nat>, link: Link, w: u32, jobs: seq<Job>)
    ensures Total(closed, link, w, jobs) <= 11 * |jobs|
    decreases |jobs|
  {
    if |jobs| == 0 {
    } else {
      TotalBound(closed, link, w, jobs[..|jobs| - 1]);
    }
  }

  lemma {:induction false} SubsetSize(a: set<u32>, b: set<u32>)
    requires a <= b
    ensures |a| <= |b|
    decreases a
  {
    if a == {} {
    } else {
      var x :| x in a;
      SubsetSize(a - {x}, b - {x});
    }
  }

  /** While batches are missing, neither the round in hand nor the one after it is larger than the ring. */
  lemma MissingRoundsFit(cfg: Config, s: State)
    requires Inv(cfg, s) && NextSize(cfg, s) <= MAX_BATCHES && Deficit(cfg, s) > 0
    ensures RoundSize(cfg, s) <= MAX_BATCHES && LaterRank(cfg, s) <= 8 * MAX_BATCHES + 4
  {
    if s.cast.WaitFrames? {
      MissingRoundFits(cfg, s);
    } else if s.firstRound {
      assert CastOk(cfg, s.accepted, HeadBatch(s.store.ring), 0, s.payloads[0]);
    }
  }

  lemma RankBound(cfg: Config, s: State, w: u32)
    requires Inv(cfg, s) && NextSize(cfg, s) <= MAX_BATCHES && w in s.clients
    ensures Rank(cfg, s, w) <= SCHEDULE_LIMIT + 2 * |s.clients|
  {
    if s.cast.Fanning? {
      SubsetSize(s.cast.rest, s.clients.Keys);
    }
    assert CastRank(s) <= 5 + 2 * |s.clients|;
    if Deficit(cfg, s) > 0 {
      MissingRoundsFit(cfg, s);
      TotalBound(s.store.closed, s.clients[w].link, w, Jobs(s));
      assert LinkOk(s.clients[w].link);
    }
  }

  /** Enough IDs are left for the next broadcast, whoever renders it. */
  ghost predicate IdsLeft(s: State) {
    Budget(s, SCHEDULE_LIMIT + 2 * |s.clients|)
  }

  /** Far from the wrap of the ID counters there is always budget. */
  lemma IdsLeftIsBudget(cfg: Config, start: State, run: seq<Label>, s: State, w: u32)
    requires Reached(cfg, start, run, s) && NextSize(cfg, s) <= MAX_BATCHES && w in s.clients && IdsLeft(s)
    ensures Budget(s, Rank(cfg, s, w))
  {
    EveryRunIsSafe(cfg, start, run, s);
    RankBound(cfg, s, w);
  }

  // ------------------------------------------------------------------ a worker that joins

  lemma ReachedContinues(cfg: Config, start: State, run: seq<Label>, s: State, l: Label)
    requires Reached(cfg, start, run, s) && Enabled(cfg, s, l) && Unwrapped(Apply(cfg, s, l))
    ensures Reached(cfg, start, run + [l], Apply(cfg, s, l))
  {
    RunContinues(cfg, start, run, l);
  }

  /** The state once a new connection has been numbered and admitted. */
  function WithNewcomer(s: State): State {
    DoJoin(DoConnect(s), NewClientId(s))
  }

  lemma NewcomerIsNumbered(cfg: Config, s: State)
    requires Inv(cfg, s) && Unwrapped(s) && s.connected + 1 < TWO_32
    ensures NewClientId(s) !in s.clients && Enabled(cfg, s, Network(Connect)) && Unwrapped(DoConnect(s))
  {
    QueriesCountBatches(s.store.ring, 0);
    NewClientIsFresh(s);
  }

  lemma NewcomerIsAdmitted(s: State, c: u32)
    requires Unwrapped(s) && c !in s.clients
    ensures Unwrapped(DoJoin(s, c)) && |DoJoin(s, c).clients| == |s.clients| + 1
  {
    assert DoJoin(s, c).clients.Keys == s.clients.Keys + {c};
  }

  lemma NewcomerJoins(cfg: Config, start: State, run: seq<Label>, s: State)
    requires Reached(cfg, start, run, s) && s.connected + 1 < TWO_32
    ensures NewClientId(s) !in s.clients && |WithNewcomer(s).clients| == |s.clients| + 1
    ensures Enabled(cfg, s, Network(Connect)) && Enabled(cfg, DoConnect(s), Network(Join(NewClientId(s))))
    ensures Reached(cfg, start, run + [Network(Connect)] + [Network(Join(NewClientId(s)))], WithNewcomer(s))
  {
    EveryRunIsSafe(cfg, start, run, s);
    NewcomerIsNumbered(cfg, s);
    NewcomerIsAdmitted(DoConnect(s), NewClientId(s));
    ReachedContinues(cfg, start, run, s, Network(Connect));
    ReachedContinues(cfg, start, run + [Network(Connect)], DoConnect(s), Network(Join(NewClientId(s))));
  }

  lemma NewcomerIsReady(cfg: Config, start: State, run: seq<Label>, s: State, c: u32)
    requires c == NewClientId(s) && c !in s.clients && |WithNewcomer(s).clients| == |s.clients| + 1
    requires Reached(cfg, start, run, WithNewcomer(s)) && NextSize(cfg, s) <= MAX_BATCHES
    requires Budget(s, SCHEDULE_LIMIT + 2 * (|s.clients| + 1))
    ensures Ready(cfg, WithNewcomer(s), c)
  {
    IdsLeftIsBudget(cfg, start, run, WithNewcomer(s), c);
    ReachedIsReady(cfg, start, run, WithNewcomer(s), c);
  }

  /** A schedule that starts with a connection and its admission, and ends with the next broadcast. */
  ghost predicate JoiningPlan(cfg: Config, render: Renderer, s: State, plan: seq<Label>) {
    && |plan| >= 2 && plan[0] == Network(Connect) && plan[1] == Network(Join(NewClientId(s)))
    && Legal(cfg, s, plan) && HonestRun(cfg, render, s, plan)
    && Unwrapped(Exec(cfg, s, plan)) && Broadcasts(s, Exec(cfg, s, plan))
  }

  lemma JoinFirst(cfg: Config, s: State, rest: seq<Label>, render: Renderer)
    requires Enabled(cfg, s, Network(Connect)) && Enabled(cfg, DoConnect(s), Network(Join(NewClientId(s))))
    requires var s2 := WithNewcomer(s);
             && Legal(cfg, s2, rest) && HonestRun(cfg, render, s2, rest)
             && Unwrapped(Exec(cfg, s2, rest)) && Broadcasts(s2, Exec(cfg, s2, rest))
    ensures JoiningPlan(cfg, render, s, [Network(Connect)] + ([Network(Join(NewClientId(s)))] + rest))
  {
    var join := Network(Join(NewClientId(s)));
    Prepend(cfg, DoConnect(s), join, rest, render);
    Prepend(cfg, s, Network(Connect), [join] + rest, render);
  }

  /** With nobody connected, one joining browser is all that is missing: a schedule that starts with its connection
      and admission reaches one more broadcast. */
  lemma JoiningIsEnough(cfg: Config, start: State, run: seq<Label>, s: State, render: Renderer)
    requires Reached(cfg, start, run, s) && s.connected + 1 < TWO_32 && WholeFrames(render)
    requires NextSize(cfg, s) <= MAX_BATCHES && Budget(s, SCHEDULE_LIMIT + 2 * (|s.clients| + 1))
    ensures exists plan :: JoiningPlan(cfg, render, s, plan)
  {
    var c, s2 := NewClientId(s), WithNewcomer(s);
    NewcomerJoins(cfg, start, run, s);
    NewcomerIsReady(cfg, start, run + [Network(Connect)] + [Network(Join(c))], s, c);
    var rest := BroadcastWithin(cfg, s2, c, render);
    JoinFirst(cfg, s, rest, render);
  }
}
