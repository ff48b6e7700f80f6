/** Every step of every run keeps the invariant, whatever the clients send. */
module Safety {
  import opened Wire
  import opened FrameRing
  import opened Fleet
  import opened TaskTable
  import opened Pipeline
  import opened Invariant

  // ------------------------------------------------------------ the batch goroutines

  /** A goroutine step rewrites the stage of its own job ... */
  lemma WorkRestages(s: State, k: nat, g: JobStep)
    requires CanWork(s, k, g)
    ensures var s' := DoWork(s, k, g);
            && |Jobs(s')| == |Jobs(s)| && s.dispatch.Round? && s'.dispatch.Round?
            && Jobs(s') == Jobs(s)[k := Jobs(s)[k].(stage := Jobs(s')[k].stage)]
  {
    assert Jobs(DoWork(s, k, g))[k].stage == EffectOf(s, k, g).stage;
  }

  /** ... and leaves ring, results and broadcasts alone. */
  ghost predicate SameBackground(s: State, s': State) {
    && s'.store.ring == s.store.ring && s'.store.closed == s.store.closed && s'.accepted == s.accepted
    && s'.firstRound == s.firstRound && s'.spawned == s.spawned && s'.rounds == s.rounds && s'.crashed == s.crashed
    && s'.cast == s.cast && s'.firstCast == s.firstCast && s'.payloads == s.payloads
    && s'.pool == s.pool && s'.connected == s.connected && s'.joining == s.joining
  }

  lemma WorkFrame(s: State, k: nat, g: JobStep)
    requires CanWork(s, k, g)
    ensures SameBackground(s, DoWork(s, k, g))
  {
  }

  lemma WorkKeepsClosed(s: State, k: nat, g: JobStep, base: nat)
    requires CanWork(s, k, g) && JobsOk(base, Jobs(s)) && ClosedOk(s.store.closed, s.accepted, base, Jobs(s))
    ensures ClosedOk(s.store.closed, s.accepted, base, Jobs(DoWork(s, k, g)))
  {
    WorkFrame(s, k, g);
    WorkRestages(s, k, g);
    RestageKeepsClosed(s.store.closed, s.accepted, base, Jobs(s), k, Jobs(DoWork(s, k, g))[k].stage);
  }

  /** Before the 32-bit counter wraps, the drawn ID is the counter itself. */
  lemma DrawnIdIsCount(s: State, k: nat, g: JobStep)
    requires CanWork(s, k, g) && Unwrapped(DoWork(s, k, g))
    ensures var st := Jobs(s)[k].stage;
            && (g.Number? ==> NextId(s, st.client) == s.clients[st.client].numTasks)
            && (g.Handover? && st.next != st.client ==> NextId(s, st.next) == s.clients[st.next].numTasks)
  {
    var st := Jobs(s)[k].stage;
    if g.Number? {
      assert DoWork(s, k, g).clients[st.client].numTasks == s.clients[st.client].numTasks + 1;
    } else if g.Handover? && st.next != st.client {
      assert DoWork(s, k, g).clients[st.next].numTasks == s.clients[st.next].numTasks + 1;
    }
  }

  lemma WorkKeepsTable(s: State, k: nat, g: JobStep, base: nat)
    requires CanWork(s, k, g) && Unwrapped(DoWork(s, k, g)) && JobsOk(base, Jobs(s))
    requires ClosedOk(s.store.closed, s.accepted, base, Jobs(s))
    requires TableOk(s.store.tasks, s.store.closed, base, Jobs(s)) && TicketsOk(s.clients, s.filed, base, Jobs(s))
    ensures TableOk(DoWork(s, k, g).store.tasks, s.store.closed, base, Jobs(DoWork(s, k, g)))
  {
    var tasks, closed, jobs, st := s.store.tasks, s.store.closed, Jobs(s), Jobs(s)[k].stage;
    WorkFrame(s, k, g);
    WorkRestages(s, k, g);
    if g.Register? {
      RegisterKeepsTable(tasks, closed, base, jobs, k, s.clients, s.filed);
    } else if g.Handover? && st.next != st.client {
      DrawnIdIsCount(s, k, g);
      HandoverKeepsTable(tasks, closed, base, jobs, k, s.clients, s.filed, NextId(s, st.next));
    } else if g.Delete? {
      DeleteKeepsTable(tasks, closed, base, jobs, k);
    } else {
      RestageKeepsTable(tasks, closed, base, jobs, k, Jobs(DoWork(s, k, g))[k].stage);
    }
  }

  lemma DrawnTicketIsFresh(clients: map<u32, Peer>, filed: map<Ticket, nat>, base: nat, jobs: seq<Job>, c: u32)
    requires TicketsOk(clients, filed, base, jobs) && c in clients && clients[c].numTasks < TWO_32
    ensures Ticket(c, clients[c].numTasks) !in filed
    ensures forall l :: 0 <= l < |jobs| && HasTicket(jobs[l].stage) ==>
                        TicketOf(jobs[l].stage) != Ticket(c, clients[c].numTasks)
  {
    forall l | 0 <= l < |jobs| && HasTicket(jobs[l].stage)
      ensures TicketOf(jobs[l].stage) != Ticket(c, clients[c].numTasks)
    {
      assert StageTicketOk(clients, filed, base + l, jobs[l].stage);
    }
  }

  lemma NumberTickets(s: State, k: nat, base: nat)
    requires CanWork(s, k, Number) && Unwrapped(DoWork(s, k, Number)) && TicketsOk(s.clients, s.filed, base, Jobs(s))
    ensures var s' := DoWork(s, k, Number); TicketsOk(s'.clients, s'.filed, base, Jobs(s'))
  {
    var c := Jobs(s)[k].stage.client;
    DrawnIdIsCount(s, k, Number);
    NumberKeepsTickets(s.clients, DoWork(s, k, Number).clients, s.filed, base, Jobs(s), k, c, NextId(s, c));
  }

  lemma RegisterTickets(s: State, k: nat, base: nat)
    requires CanWork(s, k, Register) && JobsOk(base, Jobs(s)) && TicketsOk(s.clients, s.filed, base, Jobs(s))
    ensures var s' := DoWork(s, k, Register); TicketsOk(s'.clients, s'.filed, base, Jobs(s'))
  {
    var st := Jobs(s)[k].stage;
    assert StageTicketOk(s.clients, s.filed, base + k, st);
    FilingKeepsTickets(s.clients, s.filed, base, Jobs(s), k, st.client, st.id);
  }

  /** On values: the next worker's fresh number is filed for the batch it takes over. */
  lemma TakeoverKeepsTickets(clients: map<u32, Peer>, filed: map<Ticket, nat>, base: nat, jobs: seq<Job>, k: nat,
                             next: u32)
    requires k < |jobs| && TicketsOk(clients, filed, base, jobs)
    requires next in clients && clients[next].numTasks < TWO_32
    ensures var id := clients[next].numTasks;
            && Ticket(next, id) !in filed
            && TicketsOk(CountTask(clients, next), filed[Ticket(next, id) := base + k], base,
                         jobs[k := jobs[k].(stage := Registered(next, id))])
  {
    DrawnTicketIsFresh(clients, filed, base, jobs, next);
    MoreNumbersKeepTickets(clients, CountTask(clients, next), filed, base, jobs);
    FilingKeepsTickets(CountTask(clients, next), filed, base, jobs, k, next, clients[next].numTasks);
  }

  lemma HandoverTickets(s: State, k: nat, base: nat)
    requires CanWork(s, k, Handover) && Unwrapped(DoWork(s, k, Handover)) && JobsOk(base, Jobs(s))
             && TicketsOk(s.clients, s.filed, base, Jobs(s))
    requires Jobs(s)[k].stage.next != Jobs(s)[k].stage.client
    ensures var s' := DoWork(s, k, Handover); TicketsOk(s'.clients, s'.filed, base, Jobs(s'))
    ensures Ticket(Jobs(s)[k].stage.next, NextId(s, Jobs(s)[k].stage.next)) !in s.filed
  {
    DrawnIdIsCount(s, k, Handover);
    TakeoverKeepsTickets(s.clients, s.filed, base, Jobs(s), k, Jobs(s)[k].stage.next);
  }

  lemma WorkKeepsTickets(s: State, k: nat, g: JobStep, base: nat)
    requires CanWork(s, k, g) && Unwrapped(DoWork(s, k, g)) && JobsOk(base, Jobs(s))
             && TicketsOk(s.clients, s.filed, base, Jobs(s))
    requires s.pool <= s.clients.Keys
    ensures var s' := DoWork(s, k, g); TicketsOk(s'.clients, s'.filed, base, Jobs(s'))
  {
    var st := Jobs(s)[k].stage;
    if g.Number? {
      NumberTickets(s, k, base);
    } else if g.Register? {
      RegisterTickets(s, k, base);
    } else if g.Handover? && st.next != st.client {
      HandoverTickets(s, k, base);
    } else {
      OtherWorkTickets(s, k, g, base);
    }
  }

  lemma OtherWorkTickets(s: State, k: nat, g: JobStep, base: nat)
    requires CanWork(s, k, g) && TicketsOk(s.clients, s.filed, base, Jobs(s)) && s.pool <= s.clients.Keys
    requires !g.Number? && !g.Register? && !(g.Handover? && Jobs(s)[k].stage.next != Jobs(s)[k].stage.client)
    ensures var s' := DoWork(s, k, g); TicketsOk(s'.clients, s'.filed, base, Jobs(s'))
  {
    var s' := DoWork(s, k, g);
    WorkRestages(s, k, g);
    WorkOnClients(s, k, g);
    assert StageTicketOk(s.clients, s.filed, base + k, Jobs(s)[k].stage);
    RestageKeepsTickets(s.clients, s.filed, base, Jobs(s), k, Jobs(s')[k].stage);
    MoreNumbersKeepTickets(s.clients, s'.clients, s.filed, base, Jobs(s'));
  }

  /** A goroutine touches the connections only by numbering a task or by offering a request for work. */
  lemma WorkOnClients(s: State, k: nat, g: JobStep)
    requires CanWork(s, k, g)
    ensures var s', j := DoWork(s, k, g), Jobs(s)[k];
            if g.Request?
            then var c, request := j.stage.client, Work(j.stage.id, j.start, j.end);
                 s'.clients == s.clients[c := s.clients[c].(link := Offer(s.clients[c].link, request))]
            else s'.clients.Keys == s.clients.Keys
                 && forall c :: c in s.clients ==> s'.clients[c] == s.clients[c].(numTasks := s'.clients[c].numTasks)
    ensures !g.Register? && !(g.Handover? && Jobs(s)[k].stage.next != Jobs(s)[k].stage.client)
            ==> DoWork(s, k, g).filed == s.filed
  {
  }

  lemma WorkKeepsRequests(s: State, k: nat, g: JobStep, base: nat)
    requires CanWork(s, k, g) && Unwrapped(DoWork(s, k, g)) && JobsOk(base, Jobs(s))
             && TicketsOk(s.clients, s.filed, base, Jobs(s))
    requires RequestsOk(s.clients, s.filed)
    ensures var s' := DoWork(s, k, g); RequestsOk(s'.clients, s'.filed)
  {
    var j, s' := Jobs(s)[k], DoWork(s, k, g);
    WorkOnClients(s, k, g);
    assert StageTicketOk(s.clients, s.filed, base + k, j.stage);
    if g.Request? {
      OfferKeepsRequests(s.clients, s.filed, j.stage.client, Work(j.stage.id, j.start, j.end));
    } else {
      SameLinksKeepRequests(s.clients, s'.clients, s.filed);
      if g.Register? {
        FilingKeepsRequests(s'.clients, s.filed, TicketOf(j.stage), j.serial);
      } else if g.Handover? && j.stage.next != j.stage.client {
        HandoverTickets(s, k, base);
        FilingKeepsRequests(s'.clients, s.filed, Ticket(j.stage.next, NextId(s, j.stage.next)), j.serial);
      }
    }
  }

  lemma OfferKeepsRequests(clients: map<u32, Peer>, filed: map<Ticket, nat>, c: u32, m: Msg)
    requires RequestsOk(clients, filed) && c in clients
    requires m.Work? ==>
               && Ticket(c, m.id) in filed
               && m.start == StartFrame(filed[Ticket(c, m.id)]) && m.end == EndFrame(filed[Ticket(c, m.id)])
    ensures RequestsOk(clients[c := clients[c].(link := Offer(clients[c].link, m))], filed)
  {
  }

  lemma SameLinksKeepRequests(clients: map<u32, Peer>, clients': map<u32, Peer>, filed: map<Ticket, nat>)
    requires RequestsOk(clients, filed) && clients'.Keys == clients.Keys
    requires forall c :: c in clients ==> clients'[c].link == clients[c].link
    ensures RequestsOk(clients', filed)
  {
  }

  lemma OfferKeepsPeers(pool: set<u32>, clients: map<u32, Peer>, connected: nat, cast: Cast, casts: nat, c: u32, m: Msg)
    requires PeersOk(pool, clients, connected, cast, casts) && c in clients
    ensures PeersOk(pool, clients[c := clients[c].(link := Offer(clients[c].link, m))], connected, cast, casts)
  {
    OfferOk(clients[c].link, m);
  }

  lemma OfferKeepsAudience(pool: set<u32>, clients: map<u32, Peer>, cast: Cast, payloads: seq<seq<byte>>, c: u32,
          m: Msg)
    requires AudienceOk(pool, clients, cast, payloads) && c in clients && !m.Frames?
    ensures AudienceOk(pool, clients[c := clients[c].(link := Offer(clients[c].link, m))], cast, payloads)
  {
    FramesOfAppend(clients[c].link.offered, m);
  }

  lemma SameLinksKeepPeers(pool: set<u32>, clients: map<u32, Peer>, clients': map<u32, Peer>, connected: nat,
          cast: Cast, payloads: seq<seq<byte>>)
    requires PeersOk(pool, clients, connected, cast, |payloads|) && AudienceOk(pool, clients, cast, payloads)
    requires clients'.Keys == clients.Keys
    requires forall c :: c in clients ==> clients'[c] == clients[c].(numTasks := clients'[c].numTasks)
    ensures PeersOk(pool, clients', connected, cast, |payloads|) && AudienceOk(pool, clients', cast, payloads)
  {
    forall c | c in pool && c in clients'
      ensures Heard(clients'[c], c in Rest(cast), payloads)
    {
      assert Heard(clients[c], c in Rest(cast), payloads);
    }
  }

  lemma WorkKeepsPeers(s: State, k: nat, g: JobStep)
    requires CanWork(s, k, g)
    requires PeersOk(s.pool, s.clients, s.connected, s.cast, |s.payloads|)
             && AudienceOk(s.pool, s.clients, s.cast, s.payloads)
    ensures var s' := DoWork(s, k, g);
            PeersOk(s'.pool, s'.clients, s'.connected, s'.cast, |s'.payloads|)
                && AudienceOk(s'.pool, s'.clients, s'.cast, s'.payloads)
  {
    var j, s' := Jobs(s)[k], DoWork(s, k, g);
    WorkFrame(s, k, g);
    WorkRestages(s, k, g);
    WorkOnClients(s, k, g);
    if g.Request? {
      var m := Work(j.stage.id, j.start, j.end);
      OfferKeepsPeers(s.pool, s.clients, s.connected, s.cast, |s.payloads|, j.stage.client, m);
      OfferKeepsAudience(s.pool, s.clients, s.cast, s.payloads, j.stage.client, m);
    } else {
      SameLinksKeepPeers(s.pool, s.clients, s'.clients, s.connected, s.cast, s.payloads);
    }
  }

  lemma WorkKeepsCore(cfg: Config, s: State, k: nat, g: JobStep)
    requires CoreInv(cfg, s) && s.pool <= s.clients.Keys && CanWork(s, k, g) && Unwrapped(DoWork(s, k, g))
    ensures CoreInv(cfg, DoWork(s, k, g))
  {
    var b := HeadBatch(s.store.ring);
    WorkFrame(s, k, g);
    WorkRestages(s, k, g);
    WorkKeepsClosed(s, k, g, b);
    WorkKeepsTable(s, k, g, b);
    WorkKeepsTickets(s, k, g, b);
  }

  lemma WorkKeepsInv(cfg: Config, s: State, k: nat, g: JobStep)
    requires Inv(cfg, s) && CanWork(s, k, g) && Unwrapped(DoWork(s, k, g))
    ensures Inv(cfg, DoWork(s, k, g))
  {
    WorkFrame(s, k, g);
    WorkKeepsCore(cfg, s, k, g);
    WorkKeepsRequests(s, k, g, HeadBatch(s.store.ring));
    WorkKeepsPeers(s, k, g);
  }

  // ------------------------------------------------------------------- the dispatcher

  lemma OpenRoundKeepsInv(cfg: Config, s: State)
    requires Inv(cfg, s) && WellFormed(s.store.ring) && CanDispatch(cfg, s, OpenRound)
    ensures Inv(cfg, DoOpenRound(cfg, s))
  {
    var b, n := HeadBatch(s.store.ring), RoundSize(cfg, s);
    var jobs := Jobs(DoOpenRound(cfg, s));
    forall k | 0 <= k < n
      ensures jobs[k].start == StartFrame(b + k) && jobs[k].end == EndFrame(b + k) && jobs[k].serial == b + k
    {
      PlannedRangesAreBatches(s.store.ring, n, k);
    }
    NewRoundOk(s.store.closed, s.accepted, s.store.tasks, s.clients, s.filed, b, jobs);
  }

  lemma NewRoundOk(closed: set<nat>, accepted: map<nat, seq<byte>>, tasks: TaskMap, clients: map<u32, Peer>,
          filed: map<Ticket, nat>, base: nat, jobs: seq<Job>)
    requires ClosedOk(closed, accepted, base, []) && TableOk(tasks, closed, base, [])
             && TicketsOk(clients, filed, base, [])
    requires forall k :: 0 <= k < |jobs| ==> jobs[k].stage.NotStarted?
    ensures ClosedOk(closed, accepted, base, jobs) && TableOk(tasks, closed, base, jobs)
            && TicketsOk(clients, filed, base, jobs)
  {
    forall c, i
      ensures !Has(tasks, c, i)
    {
      assert Has(tasks, c, i) ==> OwnedBy(At(tasks, c, i), c, i, base, []);
    }
  }

  lemma CloseRoundKeepsInv(cfg: Config, s: State)
    requires Inv(cfg, s) && WellFormed(s.store.ring) && CanDispatch(cfg, s, CloseRound)
    ensures Inv(cfg, DoCloseRound(cfg, s))
  {
    var r, n := s.store.ring, RoundSize(cfg, s);
    AdvanceAligned(r, n);
    FinishedRoundOk(s.store.closed, s.accepted, s.store.tasks, s.clients, s.filed, HeadBatch(r), Jobs(s));
    HigherHeadKeepsCasts(cfg, r, Advance(r, n), s.accepted, s.cast, s.firstCast, s.payloads);
  }

  lemma FinishedRoundOk(closed: set<nat>, accepted: map<nat, seq<byte>>, tasks: TaskMap, clients: map<u32, Peer>,
          filed: map<Ticket, nat>, base: nat, jobs: seq<Job>)
    requires ClosedOk(closed, accepted, base, jobs) && TableOk(tasks, closed, base, jobs)
             && TicketsOk(clients, filed, base, jobs)
    requires forall k :: 0 <= k < |jobs| ==> jobs[k].stage.Finished?
    ensures ClosedOk(closed, accepted, base + |jobs|, []) && TicketsOk(clients, filed, base + |jobs|, [])
    ensures TableOk(tasks, closed, base + |jobs|, []) && tasks == map[]
  {
    forall x: nat | base <= x < base + |jobs|
      ensures x in closed
    {
      assert jobs[x - base].stage.Finished? && base + (x - base) == x;
    }
    forall c, i
      ensures !Has(tasks, c, i)
    {
      assert Has(tasks, c, i) ==> OwnedBy(At(tasks, c, i), c, i, base, jobs);
    }
    NoEntryNoMap(tasks);
  }

  lemma HigherHeadKeepsCasts(cfg: Config, r: Ring, r': Ring, accepted: map<nat, seq<byte>>, cast: Cast,
          firstCast: bool, payloads: seq<seq<byte>>)
    requires CastsOk(cfg, r, accepted, cast, firstCast, payloads)
    requires HeadBatch(r) <= HeadBatch(r') && TailBatch(r) == TailBatch(r')
    ensures CastsOk(cfg, r', accepted, cast, firstCast, payloads)
  {
    forall j: nat | j < |payloads|
      ensures CastOk(cfg, accepted, HeadBatch(r'), j, payloads[j])
    {
      assert CastOk(cfg, accepted, HeadBatch(r), j, payloads[j]);
    }
  }

  lemma DispatchKeepsInv(cfg: Config, s: State, d: DispatchStep)
    requires Inv(cfg, s) && WellFormed(s.store.ring) && CanDispatch(cfg, s, d)
    ensures Inv(cfg, DoDispatch(cfg, s, d))
  {
    match d
    case RoomFound => QueriesCountBatches(s.store.ring, RoundSize(cfg, s));
    case WorkerFound =>
    case OpenRound => OpenRoundKeepsInv(cfg, s);
    case CloseRound => CloseRoundKeepsInv(cfg, s);
  }

  // ------------------------------------------------------------------ the broadcaster

  /** Reading the ring for a broadcast gives the accepted results of the oldest batches. */
  lemma ReadIsJoined(r: Ring, accepted: map<nat, seq<byte>>, n: nat)
    requires Aligned(r) && SlotsOk(r, accepted) && TailBatch(r) + n <= HeadBatch(r)
    requires forall b: nat :: b < HeadBatch(r) ==> b in accepted
    ensures WellFormed(r) && Read(r, n) == Some(Joined(accepted, TailBatch(r), TailBatch(r) + n))
  {
    QueriesCountBatches(r, n);
    WindowIsSlots(r.data, TailBatch(r), n);
    JoinedIsSlots(accepted, r.data, TailBatch(r), TailBatch(r) + n);
  }

  lemma StartKeepsCasts(cfg: Config, r: Ring, accepted: map<nat, seq<byte>>, cast: Cast, firstCast: bool,
          payloads: seq<seq<byte>>, pool: set<u32>)
    requires CastsOk(cfg, r, accepted, cast, firstCast, payloads) && cast.Loaded?
    ensures CastsOk(cfg, r, accepted, Fanning(cast.payload, pool), firstCast, payloads + [cast.payload])
  {
    assert CastOk(cfg, accepted, HeadBatch(r), |payloads|, cast.payload);
  }

  lemma StartKeepsInv(cfg: Config, s: State)
    requires Inv(cfg, s) && s.cast.Loaded?
    ensures Inv(cfg, DoStartCast(s))
  {
    var s' := DoStartCast(s);
    StartKeepsCasts(cfg, s.store.ring, s.accepted, s.cast, s.firstCast, s.payloads, s.pool);
    forall c | c in s'.pool && c in s'.clients
      ensures Heard(s'.clients[c], c in Rest(s'.cast), s'.payloads)
    {
      assert Heard(s.clients[c], false, s.payloads);
    }
  }

  lemma FanKeepsCore(cfg: Config, s: State, c: u32)
    requires CoreInv(cfg, s) && s.cast.Fanning? && c in s.clients
    ensures CoreInv(cfg, DoFan(s, c))
  {
    MoreNumbersKeepTickets(s.clients, DoFan(s, c).clients, s.filed, HeadBatch(s.store.ring), Jobs(s));
  }

  lemma FanKeepsFleet(s: State, c: u32)
    requires FleetInv(s) && s.cast.Fanning? && c in s.cast.rest && c in s.clients
    requires |s.payloads| > 0 && s.cast.payload == s.payloads[|s.payloads| - 1]
    ensures FleetInv(DoFan(s, c))
  {
    OfferKeepsPeers(s.pool, s.clients, s.connected, s.cast, |s.payloads|, c, Frames(s.cast.payload));
    OfferKeepsRequests(s.clients, s.filed, c, Frames(s.cast.payload));
    FanKeepsAudience(s.pool, s.clients, s.cast, s.payloads, c);
  }

  lemma FanKeepsInv(cfg: Config, s: State, c: u32)
    requires Inv(cfg, s) && WellFormed(s.store.ring) && CanCast(cfg, s, Fan(c))
    ensures Inv(cfg, DoFan(s, c))
  {
    FanKeepsCore(cfg, s, c);
    FanKeepsCasts(cfg, s.store.ring, s.accepted, s.cast, s.firstCast, s.payloads, DoFan(s, c).cast);
    FanKeepsFleet(s, c);
  }

  lemma FanKeepsCasts(cfg: Config, r: Ring, accepted: map<nat, seq<byte>>, cast: Cast, firstCast: bool,
          payloads: seq<seq<byte>>, cast': Cast)
    requires CastsOk(cfg, r, accepted, cast, firstCast, payloads)
    requires cast.Fanning? && cast'.Fanning? && cast'.payload == cast.payload
    ensures CastsOk(cfg, r, accepted, cast', firstCast, payloads)
  {
  }

  lemma PrepareKeepsInv(cfg: Config, s: State, b: CastStep)
    requires Inv(cfg, s) && WellFormed(s.store.ring) && CanCast(cfg, s, b)
    requires b.FramesFound? || b.ViewerFound? || b.Load?
    ensures Inv(cfg, DoCast(cfg, s, b))
  {
    var r, n := s.store.ring, CastSize(cfg, s);
    QueriesCountBatches(r, n);
    ReadIsJoined(r, s.accepted, n);
    PrepareKeepsCasts(cfg, r, s.accepted, s.cast, s.firstCast, s.payloads, DoCast(cfg, s, b).cast);
    QuietKeepsAudience(s.pool, s.clients, s.cast, s.payloads, DoCast(cfg, s, b).cast);
  }

  lemma PrepareKeepsCasts(cfg: Config, r: Ring, accepted: map<nat, seq<byte>>, cast: Cast, firstCast: bool,
          payloads: seq<seq<byte>>, cast': Cast)
    requires CastsOk(cfg, r, accepted, cast, firstCast, payloads)
    requires !cast.Fanning? && !cast'.Fanning? && TailBatch(r) + Size(cfg, firstCast) <= HeadBatch(r)
    requires cast'.Loaded? ==> cast'.payload == Joined(accepted, TailBatch(r), TailBatch(r) + Size(cfg, firstCast))
    ensures CastsOk(cfg, r, accepted, cast', firstCast, payloads)
  {
  }

  lemma QuietKeepsAudience(pool: set<u32>, clients: map<u32, Peer>, cast: Cast, payloads: seq<seq<byte>>, cast': Cast)
    requires AudienceOk(pool, clients, cast, payloads) && Rest(cast) == Rest(cast') == {}
    ensures AudienceOk(pool, clients, cast', payloads)
  {
    forall c | c in pool && c in clients
      ensures Heard(clients[c], c in Rest(cast'), payloads)
    {
      assert Heard(clients[c], c in Rest(cast), payloads);
    }
  }

  lemma FanKeepsAudience(pool: set<u32>, clients: map<u32, Peer>, cast: Cast, payloads: seq<seq<byte>>, c: u32)
    requires AudienceOk(pool, clients, cast, payloads) && cast.Fanning? && c in cast.rest && c in clients
    requires |payloads| > 0 && cast.payload == payloads[|payloads| - 1]
    ensures AudienceOk(pool, clients[c := clients[c].(link := Offer(clients[c].link, Frames(cast.payload)))],
            Fanning(cast.payload, cast.rest - {c}), payloads)
  {
    var clients' := clients[c := clients[c].(link := Offer(clients[c].link, Frames(cast.payload)))];
    var cast' := Fanning(cast.payload, cast.rest - {c});
    FramesOfAppend(clients[c].link.offered, Frames(cast.payload));
    forall d | d in pool && d in clients'
      ensures Heard(clients'[d], d in Rest(cast'), payloads)
    {
      assert Heard(clients[d], d in Rest(cast), payloads);
    }
  }

  lemma TrimKeepsInv(cfg: Config, s: State)
    requires Inv(cfg, s) && WellFormed(s.store.ring) && CanCast(cfg, s, Trim)
    ensures Inv(cfg, DoTrim(cfg, s))
  {
    var r := s.store.ring;
    RemoveAligned(r, CastSize(cfg, s));
    TrimKeepsCasts(cfg, r, Remove(r, CastSize(cfg, s)).value, s.accepted, s.cast, s.firstCast, s.payloads);
    QuietKeepsAudience(s.pool, s.clients, s.cast, s.payloads, WaitFrames);
  }

  lemma TrimKeepsCasts(cfg: Config, r: Ring, r': Ring, accepted: map<nat, seq<byte>>, cast: Cast, firstCast: bool,
          payloads: seq<seq<byte>>)
    requires CastsOk(cfg, r, accepted, cast, firstCast, payloads) && cast.Fanning?
    requires HeadBatch(r') == HeadBatch(r) && TailBatch(r') == TailBatch(r) + Size(cfg, firstCast)
    ensures CastsOk(cfg, r', accepted, WaitFrames, false, payloads)
  {
  }

  lemma CastKeepsInv(cfg: Config, s: State, b: CastStep)
    requires Inv(cfg, s) && WellFormed(s.store.ring) && CanCast(cfg, s, b)
    ensures Inv(cfg, DoCast(cfg, s, b))
  {
    match b
    case FramesFound => PrepareKeepsInv(cfg, s, b);
    case ViewerFound => PrepareKeepsInv(cfg, s, b);
    case Load => PrepareKeepsInv(cfg, s, b);
    case StartCast => StartKeepsInv(cfg, s);
    case Fan(c) => FanKeepsInv(cfg, s, c);
    case Trim => TrimKeepsInv(cfg, s);
  }

  // ------------------------------------------------------------------ what a result does

  /** A result either changes nothing, or it is the first answer from the current holder of a batch of the
      open round: then it fills that batch's slot, closes that batch's channel, and does nothing more. */
  lemma ResultEffect(s: State, c: u32, id: u32, frames: seq<byte>) returns (stored: bool, k: nat)
    requires |s.store.ring.data| == BUFFER_SIZE && |frames| == BATCH_SIZE && !s.crashed
    requires JobsOk(HeadBatch(s.store.ring), Jobs(s))
    requires TableOk(s.store.tasks, s.store.closed, HeadBatch(s.store.ring), Jobs(s))
    ensures stored <==> Has(s.store.tasks, c, id) && !At(s.store.tasks, c, id).completed
    ensures !stored ==> DoResult(s, c, id, frames) == s
    ensures stored ==> StoredBy(s, DoResult(s, c, id, frames), c, id, frames, k)
  {
    var b := HeadBatch(s.store.ring);
    stored := Has(s.store.tasks, c, id) && !At(s.store.tasks, c, id).completed;
    k := 0;
    if stored {
      var m := At(s.store.tasks, c, id);
      assert OwnedBy(m, c, id, b, Jobs(s));
      k := m.done.serial - b;
      assert EntryOf(m, s.store.closed, b, Jobs(s), k);
      WriteFillsOneSlot(s.store.ring, b + k, frames);
    }
  }

  ghost predicate StoredBy(s: State, s': State, c: u32, id: u32, frames: seq<byte>, k: nat)
    requires |s.store.ring.data| == BUFFER_SIZE && |frames| == BATCH_SIZE
  {
    var b := HeadBatch(s.store.ring);
    && k < |Jobs(s)| && Listed(Jobs(s)[k].stage) && TicketOf(Jobs(s)[k].stage) == Ticket(c, id)
    && b + k !in s.store.closed
    && Write(s.store.ring, StartFrame(b + k), EndFrame(b + k), frames) == (Stored, s'.store.ring)
    && s' == s.(store := Store(Put(s.store.tasks, c, id, At(s.store.tasks, c, id).(completed := true)),
                               s.store.closed + {b + k}, s'.store.ring),
                accepted := s.accepted[b + k := frames])
  }

  lemma WriteKeepsShape(r: Ring, b: nat, frames: seq<byte>)
    requires Aligned(r) && |frames| == BATCH_SIZE
    ensures var r' := Write(r, StartFrame(b), EndFrame(b), frames).1;
            Aligned(r') && r'.head == r.head && r'.tail == r.tail && HeadBatch(r') == HeadBatch(r)
                && TailBatch(r') == TailBatch(r)
  {
    WriteFillsOneSlot(r, b, frames);
  }

  /** Batches that fit the ring together have slots of their own. */
  lemma WriteKeepsSlots(r: Ring, accepted: map<nat, seq<byte>>, b: nat, limit: nat, frames: seq<byte>)
    requires Aligned(r) && SlotsOk(r, accepted) && |frames| == BATCH_SIZE
    requires TailBatch(r) <= b < limit <= TailBatch(r) + MAX_BATCHES && b !in accepted
    requires forall x :: x in accepted ==> x < limit
    ensures SlotsOk(Write(r, StartFrame(b), EndFrame(b), frames).1, accepted[b := frames])
  {
    WriteFillsOneSlot(r, b, frames);
    WriteKeepsShape(r, b, frames);
    var r' := Write(r, StartFrame(b), EndFrame(b), frames).1;
    forall x | x in accepted[b := frames] && TailBatch(r') <= x
      ensures Slot(r'.data, x % MAX_BATCHES) == accepted[b := frames][x]
    {
      if x < b {
        DistinctSlots(x, b);
      } else if b < x {
        DistinctSlots(b, x);
      }
    }
  }

  lemma AcceptKeepsClosed(closed: set<nat>, accepted: map<nat, seq<byte>>, base: nat, jobs: seq<Job>, k: nat,
          frames: seq<byte>)
    requires ClosedOk(closed, accepted, base, jobs) && k < |jobs| && Listed(jobs[k].stage) && |frames| == BATCH_SIZE
    ensures ClosedOk(closed + {base + k}, accepted[base + k := frames], base, jobs)
  {
  }

  lemma AcceptKeepsCasts(cfg: Config, r: Ring, accepted: map<nat, seq<byte>>, cast: Cast, firstCast: bool,
          payloads: seq<seq<byte>>, b: nat, frames: seq<byte>)
    requires HeadBatch(r) <= b && (forall x: nat :: x < HeadBatch(r) ==> x in accepted)
    requires CastsOk(cfg, r, accepted, cast, firstCast, payloads)
    ensures CastsOk(cfg, r, accepted[b := frames], cast, firstCast, payloads)
  {
    var a' := accepted[b := frames];
    forall j: nat | j < |payloads|
      ensures CastOk(cfg, a', HeadBatch(r), j, payloads[j])
    {
      assert CastOk(cfg, accepted, HeadBatch(r), j, payloads[j]);
      JoinedSame(accepted, a', Cut(cfg, j), Cut(cfg, j + 1));
    }
    if cast.Loaded? {
      JoinedSame(accepted, a', TailBatch(r), TailBatch(r) + Size(cfg, firstCast));
    }
  }

  /** The stored result, seen by the parts about the ring and the broadcasts. */
  lemma StoreKeepsRing(cfg: Config, r: Ring, r': Ring, accepted: map<nat, seq<byte>>, cast: Cast, firstCast: bool,
          payloads: seq<seq<byte>>, b: nat, limit: nat, frames: seq<byte>)
    requires Aligned(r) && SlotsOk(r, accepted) && CastsOk(cfg, r, accepted, cast, firstCast, payloads)
             && |frames| == BATCH_SIZE
    requires HeadBatch(r) <= b < limit <= TailBatch(r) + MAX_BATCHES && b !in accepted
    requires forall x :: x in accepted ==> x < limit
    requires forall x: nat :: x < HeadBatch(r) ==> x in accepted
    requires r' == Write(r, StartFrame(b), EndFrame(b), frames).1
    ensures Aligned(r') && HeadBatch(r') == HeadBatch(r) && TailBatch(r') == TailBatch(r)
    ensures SlotsOk(r', accepted[b := frames]) && CastsOk(cfg, r', accepted[b := frames], cast, firstCast, payloads)
  {
    WriteKeepsShape(r, b, frames);
    WriteKeepsSlots(r, accepted, b, limit, frames);
    AcceptKeepsCasts(cfg, r, accepted, cast, firstCast, payloads, b, frames);
    HigherHeadKeepsCasts(cfg, r, r', accepted[b := frames], cast, firstCast, payloads);
  }

  lemma StoredKeepsCore(cfg: Config, s: State, s': State, c: u32, id: u32, frames: seq<byte>, k: nat)
    requires CoreInv(cfg, s) && |frames| == BATCH_SIZE && StoredBy(s, s', c, id, frames, k)
    ensures CoreInv(cfg, s')
  {
    var b := HeadBatch(s.store.ring);
    WriteKeepsShape(s.store.ring, b + k, frames);
    AcceptKeepsClosed(s.store.closed, s.accepted, b, Jobs(s), k, frames);
    SaveKeepsTable(s.store.tasks, s.store.closed, b, Jobs(s), k);
  }

  lemma StoredKeepsTape(cfg: Config, s: State, s': State, c: u32, id: u32, frames: seq<byte>, k: nat)
    requires RoundOk(cfg, s.store.ring, s.dispatch, s.firstRound, s.spawned, s.rounds)
    requires ClosedOk(s.store.closed, s.accepted, HeadBatch(s.store.ring), Jobs(s))
    requires TapeInv(cfg, s) && |frames| == BATCH_SIZE && StoredBy(s, s', c, id, frames, k)
    ensures TapeInv(cfg, s')
  {
    var b := HeadBatch(s.store.ring);
    StoreKeepsRing(cfg, s.store.ring, s'.store.ring, s.accepted, s.cast, s.firstCast, s.payloads, b + k,
        b + |Jobs(s)|, frames);
  }

  lemma ResultKeepsInv(cfg: Config, s: State, c: u32, id: u32, frames: seq<byte>)
    requires Inv(cfg, s) && |frames| == BATCH_SIZE
    ensures Inv(cfg, DoResult(s, c, id, frames))
  {
    var stored, k := ResultEffect(s, c, id, frames);
    if stored {
      StoredKeepsCore(cfg, s, DoResult(s, c, id, frames), c, id, frames, k);
      StoredKeepsTape(cfg, s, DoResult(s, c, id, frames), c, id, frames, k);
    }
  }

  // --------------------------------------------------------------- clients and network

  lemma NewClientIsFresh(s: State)
    requires PeersOk(s.pool, s.clients, s.connected, s.cast, |s.payloads|) && s.connected + 1 < TWO_32
    requires JoiningOk(s.joining, s.clients, s.connected)
    ensures NewClientId(s) == s.connected + 1 && NewClientId(s) !in s.clients && NewClientId(s) !in s.joining
  {
  }

  lemma ConnectKeepsInv(cfg: Config, s: State)
    requires Inv(cfg, s) && Unwrapped(DoConnect(s))
    ensures Inv(cfg, DoConnect(s))
  {
    NewClientIsFresh(s);
  }

  lemma JoinKeepsFleet(s: State, c: u32)
    requires FleetInv(s) && c in s.joining
    ensures FleetInv(DoJoin(s, c))
  {
  }

  lemma JoinKeepsInv(cfg: Config, s: State, c: u32)
    requires Inv(cfg, s) && c in s.joining
    ensures Inv(cfg, DoJoin(s, c))
  {
    var s' := DoJoin(s, c);
    JoinKeepsFleet(s, c);
    MoreNumbersKeepTickets(s.clients, s'.clients, s.filed, HeadBatch(s.store.ring), Jobs(s));
  }

  lemma DeliverKeepsFleet(s: State, c: u32)
    requires FleetInv(s) && WellFormed(s.store.ring) && CanHappen(s, Deliver(c))
    ensures FleetInv(DoHappen(s, Deliver(c)))
  {
    TakeKeepsPeers(s.pool, s.clients, s.connected, s.cast, s.payloads, c);
    TakeKeepsRequests(s.clients, s.filed, c);
  }

  lemma TakeKeepsPeers(pool: set<u32>, clients: map<u32, Peer>, connected: nat, cast: Cast, payloads: seq<seq<byte>>,
          c: u32)
    requires PeersOk(pool, clients, connected, cast, |payloads|) && AudienceOk(pool, clients, cast, payloads)
    requires c in clients && |clients[c].link.queue| > 0
    ensures var clients' := clients[c := clients[c].(link := Take(clients[c].link))];
            PeersOk(pool, clients', connected, cast, |payloads|) && AudienceOk(pool, clients', cast, payloads)
  {
    var clients' := clients[c := clients[c].(link := Take(clients[c].link))];
    TakeOk(clients[c].link);
    forall d | d in pool && d in clients'
      ensures Heard(clients'[d], d in Rest(cast), payloads)
    {
      assert Heard(clients[d], d in Rest(cast), payloads);
    }
  }

  lemma TakeKeepsRequests(clients: map<u32, Peer>, filed: map<Ticket, nat>, c: u32)
    requires RequestsOk(clients, filed) && c in clients && |clients[c].link.queue| > 0
    ensures RequestsOk(clients[c := clients[c].(link := Take(clients[c].link))], filed)
  {
  }

  lemma DeliverKeepsInv(cfg: Config, s: State, c: u32)
    requires Inv(cfg, s) && WellFormed(s.store.ring) && CanHappen(s, Deliver(c))
    ensures Inv(cfg, DoHappen(s, Deliver(c)))
  {
    DeliverKeepsFleet(s, c);
    MoreNumbersKeepTickets(s.clients, DoHappen(s, Deliver(c)).clients, s.filed, HeadBatch(s.store.ring), Jobs(s));
  }

  lemma TelemetryKeepsInv(cfg: Config, s: State, c: u32, m: Msg)
    requires Inv(cfg, s) && WellFormed(s.store.ring) && CanHappen(s, Telemetry(c, m))
    ensures Inv(cfg, DoHappen(s, Telemetry(c, m)))
  {
    var s' := SetLink(s, c, Offer(s.clients[c].link, m));
    OfferKeepsPeers(s.pool, s.clients, s.connected, s.cast, |s.payloads|, c, m);
    OfferKeepsRequests(s.clients, s.filed, c, m);
    OfferKeepsAudience(s.pool, s.clients, s.cast, s.payloads, c, m);
    MoreNumbersKeepTickets(s.clients, s'.clients, s.filed, HeadBatch(s.store.ring), Jobs(s));
  }

  lemma HappenKeepsInv(cfg: Config, s: State, f: FleetStep)
    requires Inv(cfg, s) && WellFormed(s.store.ring) && CanHappen(s, f) && Unwrapped(DoHappen(s, f))
    ensures Inv(cfg, DoHappen(s, f))
  {
    match f
    case Connect => ConnectKeepsInv(cfg, s);
    case Join(c) => JoinKeepsInv(cfg, s, c);
    case Reject(_) =>
    case Leave(_) =>
    case Deliver(c) => DeliverKeepsInv(cfg, s, c);
    case Telemetry(c, m) => TelemetryKeepsInv(cfg, s, c, m);
    case Result(c, id, frames) => ResultKeepsInv(cfg, s, c, id, frames);
  }

  // --------------------------------------------------------------------- every run

  lemma StepKeepsInv(cfg: Config, s: State, l: Label)
    requires Inv(cfg, s) && Enabled(cfg, s, l) && Unwrapped(Apply(cfg, s, l))
    ensures Inv(cfg, Apply(cfg, s, l))
  {
    match l
    case Dispatcher(d) => DispatchKeepsInv(cfg, s, d);
    case Goroutine(k, g) => WorkKeepsInv(cfg, s, k, g);
    case Broadcaster(b) => CastKeepsInv(cfg, s, b);
    case Network(f) => HappenKeepsInv(cfg, s, f);
  }
}
