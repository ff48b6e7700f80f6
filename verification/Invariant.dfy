/** What every step of the pipeline keeps, and what each kind of step does to each part of it. */
module Invariant {
  import opened Wire
  import opened FrameRing
  import opened Fleet
  import opened TaskTable
  import opened Pipeline

  // ------------------------------------------------------------- batches in order

  /** The accepted results of batches lo, ..., hi - 1, one after the other. */
  ghost function Joined(accepted: map<nat, seq<byte>>, lo: nat, hi: nat): seq<byte>
    decreases hi
  {
    if hi <= lo then [] else Joined(accepted, lo, hi - 1) + (if hi - 1 in accepted then accepted[hi - 1] else [])
  }

  lemma {:induction false} JoinedSplit(accepted: map<nat, seq<byte>>, lo: nat, mid: nat, hi: nat)
    requires lo <= mid <= hi
    ensures Joined(accepted, lo, hi) == Joined(accepted, lo, mid) + Joined(accepted, mid, hi)
    decreases hi
  {
    if hi <= mid {
    } else {
      JoinedSplit(accepted, lo, mid, hi - 1);
    }
  }

  lemma {:induction false} JoinedSame(a: map<nat, seq<byte>>, a': map<nat, seq<byte>>, lo: nat, hi: nat)
    requires forall b :: lo <= b < hi ==> b in a && b in a' && a[b] == a'[b]
    ensures Joined(a, lo, hi) == Joined(a', lo, hi)
    decreases hi
  {
    if hi <= lo {
    } else {
      JoinedSame(a, a', lo, hi - 1);
    }
  }

  lemma {:induction false} JoinedIsSlots(accepted: map<nat, seq<byte>>, data: seq<byte>, lo: nat, hi: nat)
    requires |data| == BUFFER_SIZE
    requires forall b :: lo <= b < hi ==> b in accepted && Slot(data, b % MAX_BATCHES) == accepted[b]
    ensures Slots(data, lo, hi) == Joined(accepted, lo, hi)
    decreases hi
  {
    if hi <= lo {
    } else {
      JoinedIsSlots(accepted, data, lo, hi - 1);
    }
  }

  /** How many batches the first j broadcasts cover. */
  ghost function Cut(cfg: Config, j: nat): nat {
    if j == 0 then 0 else Cut(cfg, j - 1) + if j == 1 then cfg.first else cfg.subsequent
  }

  lemma {:induction false} CutMonotone(cfg: Config, lo: nat, hi: nat)
    requires lo <= hi
    ensures Cut(cfg, lo) <= Cut(cfg, hi)
    decreases hi
  {
    if lo == hi {
    } else {
      CutMonotone(cfg, lo, hi - 1);
    }
  }

  // ------------------------------------------------------------------ the invariant

  predicate HasTicket(st: Stage) {
    st.Numbered? || Listed(st)
  }

  /** Stages whose goroutine has an entry in the task table. */
  predicate Listed(st: Stage) {
    st.Registered? || st.Waiting? || st.TimedOut? || st.Repicked? || st.Collected?
  }

  function TicketOf(st: Stage): Ticket
    requires HasTicket(st)
  {
    Ticket(st.client, st.id)
  }

  /** Pointers move in whole batches, the head over whole rounds, and an open round fits the ring. */
  ghost predicate RoundOk(cfg: Config, r: Ring, d: Dispatch, firstRound: bool, spawned: nat, rounds: nat) {
    && Aligned(r)
    && HeadBatch(r) == Cut(cfg, rounds) && (firstRound <==> rounds == 0)
    && (d.WaitRoom? || HeadBatch(r) + Size(cfg, firstRound) <= TailBatch(r) + MAX_BATCHES)
    && (d.Round? ==> |JobsOf(d)| == Size(cfg, firstRound))
    && spawned == HeadBatch(r) + |JobsOf(d)|
  }

  /** The k-th job of the open round renders the k-th batch after the head. */
  ghost predicate JobsOk(base: nat, jobs: seq<Job>) {
    forall k :: 0 <= k < |jobs| ==>
                  jobs[k].start == StartFrame(base + k) && jobs[k].end == EndFrame(base + k)
                      && jobs[k].serial == base + k
  }

  /** Closed channels are the published batches and the stored ones of the open round. */
  ghost predicate ClosedOk(closed: set<nat>, accepted: map<nat, seq<byte>>, base: nat, jobs: seq<Job>) {
    && closed == accepted.Keys
    && (forall b :: b in accepted ==> |accepted[b]| == BATCH_SIZE)
    && (forall b: nat :: b < base ==> b in closed)
    && (forall b :: b in closed ==> b < base + |jobs|)
    && (forall k :: 0 <= k < |jobs| && (jobs[k].stage.Collected? || jobs[k].stage.Finished?) ==> base + k in closed)
    && (forall k :: 0 <= k < |jobs| && base + k in closed ==> Listed(jobs[k].stage) || jobs[k].stage.Finished?)
  }

  /** Table entries and registered, unfinished goroutines correspond one to one. */
  ghost predicate TableOk(tasks: TaskMap, closed: set<nat>, base: nat, jobs: seq<Job>) {
    && NoEmptyInner(tasks)
    && (forall k :: 0 <= k < |jobs| && Listed(jobs[k].stage) ==>
                      Has(tasks, jobs[k].stage.client, jobs[k].stage.id) &&
                      EntryOf(At(tasks, jobs[k].stage.client, jobs[k].stage.id), closed, base, jobs, k))
    && (forall c, i :: Has(tasks, c, i) ==> OwnedBy(At(tasks, c, i), c, i, base, jobs))
  }

  ghost predicate EntryOf(m: Meta, closed: set<nat>, base: nat, jobs: seq<Job>, k: nat)
    requires k < |jobs|
  {
    m.task.start == jobs[k].start && m.task.end == jobs[k].end && m.done == Chan(base + k)
        && (m.completed <==> base + k in closed)
  }

  ghost predicate OwnedBy(m: Meta, c: u32, i: u32, base: nat, jobs: seq<Job>) {
    && m.done.Chan? && base <= m.done.serial < base + |jobs|
    && var st := jobs[m.done.serial - base].stage;
       Listed(st) && st.client == c && st.id == i
  }

  /** Every ID ever filed was drawn from its client's counter; a drawn ID is filed for one batch only. */
  ghost predicate TicketsOk(clients: map<u32, Peer>, filed: map<Ticket, nat>, base: nat, jobs: seq<Job>) {
    && (forall t :: t in filed ==> t.client in clients && t.id < clients[t.client].numTasks && filed[t] < base + |jobs|)
    && (forall k :: 0 <= k < |jobs| ==> StageTicketOk(clients, filed, base + k, jobs[k].stage))
    && (forall k, l :: 0 <= k < l < |jobs| && jobs[k].stage.Numbered? && jobs[l].stage.Numbered? ==>
                         TicketOf(jobs[k].stage) != TicketOf(jobs[l].stage))
  }

  ghost predicate StageTicketOk(clients: map<u32, Peer>, filed: map<Ticket, nat>, b: nat, st: Stage) {
    && (st.Picked? ==> st.client in clients)
    && (st.Repicked? ==> st.next in clients)
    && (HasTicket(st) ==> st.client in clients && st.id < clients[st.client].numTasks)
    && (st.Numbered? ==> TicketOf(st) !in filed)
    && (Listed(st) ==> TicketOf(st) in filed && filed[TicketOf(st)] == b)
  }

  /** Every accepted batch that is not yet broadcast and removed sits in its slot. */
  ghost predicate SlotsOk(r: Ring, accepted: map<nat, seq<byte>>) {
    && |r.data| == BUFFER_SIZE
    && forall b :: b in accepted && TailBatch(r) <= b ==> Slot(r.data, b % MAX_BATCHES) == accepted[b]
  }

  function CastsDone(cast: Cast, payloads: seq<seq<byte>>): int {
    |payloads| - if cast.Fanning? then 1 else 0
  }

  /** Broadcast j carried exactly the accepted results of batches Cut(j), ..., Cut(j + 1) - 1,
      and a broadcast being prepared finds its batches published. */
  ghost predicate CastsOk(cfg: Config, r: Ring, accepted: map<nat, seq<byte>>, cast: Cast, firstCast: bool,
          payloads: seq<seq<byte>>) {
    && CastsDone(cast, payloads) >= 0
    && (firstCast <==> CastsDone(cast, payloads) == 0)
    && TailBatch(r) == Cut(cfg, CastsDone(cast, payloads))
    && (cast.WaitFrames? || TailBatch(r) + Size(cfg, firstCast) <= HeadBatch(r))
    && (forall j: nat :: j < |payloads| ==> CastOk(cfg, accepted, HeadBatch(r), j, payloads[j]))
    && (cast.Loaded? ==> cast.payload == Joined(accepted, TailBatch(r), TailBatch(r) + Size(cfg, firstCast)))
    && (cast.Fanning? ==> cast.payload == payloads[|payloads| - 1])
  }

  ghost predicate CastOk(cfg: Config, accepted: map<nat, seq<byte>>, base: nat, j: nat, payload: seq<byte>) {
    Cut(cfg, j + 1) <= base && payload == Joined(accepted, Cut(cfg, j), Cut(cfg, j + 1))
  }

  /** The set of clients a broadcast in progress has still to serve. */
  function Rest(cast: Cast): set<u32> {
    if cast.Fanning? then cast.rest else {}
  }

  ghost predicate PeersOk(pool: set<u32>, clients: map<u32, Peer>, connected: nat, cast: Cast, casts: nat) {
    && pool <= clients.Keys
    && Rest(cast) <= clients.Keys
    && (forall c :: c in clients ==> c <= connected && LinkOk(clients[c].link) && clients[c].since <= casts)
  }

  /** A numbered connection that is not yet admitted has an ID of its own. */
  ghost predicate JoiningOk(joining: set<u32>, clients: map<u32, Peer>, connected: nat) {
    forall c :: c in joining ==> c !in clients && c <= connected
  }

  /** Every request for work names the frame range of the batch its (client, ID) pair was filed for. */
  ghost predicate RequestsOk(clients: map<u32, Peer>, filed: map<Ticket, nat>) {
    forall c, m :: c in clients && m in clients[c].link.offered && m.Work? ==>
                     Ticket(c, m.id) in filed && m.start == StartFrame(filed[Ticket(c, m.id)])
                         && m.end == EndFrame(filed[Ticket(c, m.id)])
  }

  ghost function FramesOf(msgs: seq<Msg>): seq<seq<byte>> {
    if |msgs| == 0 then []
    else FramesOf(msgs[..|msgs| - 1]) + if msgs[|msgs| - 1].Frames? then [msgs[|msgs| - 1].payload] else []
  }

  /** A connected client has been offered every broadcast since its admission, in order, except the one still
      fanning out. */
  ghost predicate AudienceOk(pool: set<u32>, clients: map<u32, Peer>, cast: Cast, payloads: seq<seq<byte>>) {
    forall c :: c in pool && c in clients ==> Heard(clients[c], c in Rest(cast), payloads)
  }

  ghost predicate Heard(p: Peer, pending: bool, payloads: seq<seq<byte>>) {
    && p.since <= |payloads|
    && (pending ==> p.since < |payloads|)
    && FramesOf(p.link.offered) == payloads[p.since..|payloads| - if pending then 1 else 0]
  }

  /** The part about the round, the task table and the tickets. */
  ghost predicate CoreInv(cfg: Config, s: State) {
    var b := HeadBatch(s.store.ring);
    && !s.crashed
    && RoundOk(cfg, s.store.ring, s.dispatch, s.firstRound, s.spawned, s.rounds)
    && JobsOk(b, Jobs(s))
    && ClosedOk(s.store.closed, s.accepted, b, Jobs(s))
    && TableOk(s.store.tasks, s.store.closed, b, Jobs(s))
    && TicketsOk(s.clients, s.filed, b, Jobs(s))
  }

  /** The part about what the ring holds and what was broadcast. */
  ghost predicate TapeInv(cfg: Config, s: State) {
    && SlotsOk(s.store.ring, s.accepted)
    && CastsOk(cfg, s.store.ring, s.accepted, s.cast, s.firstCast, s.payloads)
  }

  /** The part about the connections. */
  ghost predicate FleetInv(s: State) {
    && PeersOk(s.pool, s.clients, s.connected, s.cast, |s.payloads|)
    && JoiningOk(s.joining, s.clients, s.connected)
    && RequestsOk(s.clients, s.filed)
    && AudienceOk(s.pool, s.clients, s.cast, s.payloads)
  }

  ghost predicate Inv(cfg: Config, s: State) {
    CoreInv(cfg, s) && TapeInv(cfg, s) && FleetInv(s)
  }

  lemma InitialInv(cfg: Config, s: State)
    requires Initial(s)
    ensures Inv(cfg, s)
  {
  }

  // --------------------------------------------------- goroutine steps on each part

  ghost predicate SameEntry(a: Stage, b: Stage) {
    (Listed(a) <==> Listed(b)) && (Listed(a) ==> a.client == b.client && a.id == b.id)
  }

  /** The stages between which a goroutine moves without touching the table. */
  lemma RestageKeepsTable(tasks: TaskMap, closed: set<nat>, base: nat, jobs: seq<Job>, k: nat, st: Stage)
    requires k < |jobs| && TableOk(tasks, closed, base, jobs) && SameEntry(jobs[k].stage, st)
    ensures TableOk(tasks, closed, base, jobs[k := jobs[k].(stage := st)])
  {
  }

  lemma RegisterKeepsTable(tasks: TaskMap, closed: set<nat>, base: nat, jobs: seq<Job>, k: nat,
          clients: map<u32, Peer>, filed: map<Ticket, nat>)
    requires k < |jobs| && jobs[k].stage.Numbered?
    requires TableOk(tasks, closed, base, jobs) && TicketsOk(clients, filed, base, jobs) && JobsOk(base, jobs)
    requires base + k !in closed
    ensures var st := jobs[k].stage;
            var meta := NewFrameBatchMetadata(st.id, jobs[k].start, jobs[k].end, jobs[k].serial);
            TableOk(Put(tasks, st.client, st.id, meta), closed, base,
                jobs[k := jobs[k].(stage := Registered(st.client, st.id))])
  {
    var st := jobs[k].stage;
    assert !Has(tasks, st.client, st.id);
    PutLookup(tasks, st.client, st.id, NewFrameBatchMetadata(st.id, jobs[k].start, jobs[k].end, jobs[k].serial));
  }

  lemma HandoverKeepsTable(tasks: TaskMap, closed: set<nat>, base: nat, jobs: seq<Job>, k: nat,
          clients: map<u32, Peer>, filed: map<Ticket, nat>, newId: u32)
    requires k < |jobs| && jobs[k].stage.Repicked? && jobs[k].stage.next != jobs[k].stage.client
    requires TableOk(tasks, closed, base, jobs) && TicketsOk(clients, filed, base, jobs)
    requires jobs[k].stage.next in clients && newId == clients[jobs[k].stage.next].numTasks
    ensures var st := jobs[k].stage;
            TableOk(Move(tasks, st.client, st.id, st.next, newId), closed, base,
                jobs[k := jobs[k].(stage := Registered(st.next, newId))])
  {
    var st := jobs[k].stage;
    assert !Has(tasks, st.next, newId);
    MoveLookup(tasks, st.client, st.id, st.next, newId);
    DistinctEntries(tasks, closed, base, jobs);
  }

  /** Two goroutines never share a table entry. */
  lemma DistinctEntries(tasks: TaskMap, closed: set<nat>, base: nat, jobs: seq<Job>)
    requires TableOk(tasks, closed, base, jobs)
    ensures forall k, l :: 0 <= k < l < |jobs| && Listed(jobs[k].stage) && Listed(jobs[l].stage) ==>
                             TicketOf(jobs[k].stage) != TicketOf(jobs[l].stage)
  {
    forall k, l | 0 <= k < l < |jobs| && Listed(jobs[k].stage) && Listed(jobs[l].stage)
      ensures TicketOf(jobs[k].stage) != TicketOf(jobs[l].stage)
    {
      assert EntryOf(At(tasks, jobs[k].stage.client, jobs[k].stage.id), closed, base, jobs, k);
      assert EntryOf(At(tasks, jobs[l].stage.client, jobs[l].stage.id), closed, base, jobs, l);
    }
  }

  lemma DeleteKeepsTable(tasks: TaskMap, closed: set<nat>, base: nat, jobs: seq<Job>, k: nat)
    requires k < |jobs| && Listed(jobs[k].stage) && TableOk(tasks, closed, base, jobs)
    ensures TableOk(Drop(tasks, jobs[k].stage.client, jobs[k].stage.id), closed, base,
            jobs[k := jobs[k].(stage := Finished)])
  {
    DropLookup(tasks, jobs[k].stage.client, jobs[k].stage.id);
    DistinctEntries(tasks, closed, base, jobs);
  }

  lemma SaveKeepsTable(tasks: TaskMap, closed: set<nat>, base: nat, jobs: seq<Job>, k: nat)
    requires k < |jobs| && Listed(jobs[k].stage) && TableOk(tasks, closed, base, jobs)
    ensures var st := jobs[k].stage;
            TableOk(Put(tasks, st.client, st.id, At(tasks, st.client, st.id).(completed := true)),
                closed + {base + k}, base, jobs)
  {
    var st := jobs[k].stage;
    PutLookup(tasks, st.client, st.id, At(tasks, st.client, st.id).(completed := true));
    DistinctEntries(tasks, closed, base, jobs);
  }

  lemma RestageKeepsTickets(clients: map<u32, Peer>, filed: map<Ticket, nat>, base: nat, jobs: seq<Job>, k: nat,
          st: Stage)
    requires k < |jobs| && TicketsOk(clients, filed, base, jobs)
    requires !st.Numbered? && StageTicketOk(clients, filed, base + k, st)
    ensures TicketsOk(clients, filed, base, jobs[k := jobs[k].(stage := st)])
  {
  }

  /** Admitting clients and numbering tasks only ever adds room for tickets. */
  lemma MoreNumbersKeepTickets(clients: map<u32, Peer>, clients': map<u32, Peer>, filed: map<Ticket, nat>, base: nat,
          jobs: seq<Job>)
    requires TicketsOk(clients, filed, base, jobs)
    requires forall c :: c in clients ==> c in clients' && clients[c].numTasks <= clients'[c].numTasks
    ensures TicketsOk(clients', filed, base, jobs)
  {
    forall k | 0 <= k < |jobs|
      ensures StageTicketOk(clients', filed, base + k, jobs[k].stage)
    {
      assert StageTicketOk(clients, filed, base + k, jobs[k].stage);
    }
  }

  lemma NumberKeepsTickets(clients: map<u32, Peer>, clients': map<u32, Peer>, filed: map<Ticket, nat>, base: nat,
          jobs: seq<Job>, k: nat, c: u32, id: u32)
    requires k < |jobs| && TicketsOk(clients, filed, base, jobs)
    requires c in clients && id == clients[c].numTasks
    requires clients' == clients[c := clients[c].(numTasks := clients[c].numTasks + 1)]
    ensures TicketsOk(clients', filed, base, jobs[k := jobs[k].(stage := Numbered(c, id))])
  {
    MoreNumbersKeepTickets(clients, clients', filed, base, jobs);
    var jobs' := jobs[k := jobs[k].(stage := Numbered(c, id))];
    forall l | 0 <= l < |jobs| && l != k && jobs[l].stage.Numbered?
      ensures TicketOf(jobs[l].stage) != Ticket(c, id)
    {
      assert StageTicketOk(clients, filed, base + l, jobs[l].stage);
    }
    forall l | 0 <= l < |jobs'|
      ensures StageTicketOk(clients', filed, base + l, jobs'[l].stage)
    {
      assert StageTicketOk(clients', filed, base + l, jobs[l].stage);
    }
  }

  /** Filing a drawn ticket that nobody else holds. */
  lemma FilingKeepsTickets(clients: map<u32, Peer>, filed: map<Ticket, nat>, base: nat, jobs: seq<Job>, k: nat,
          c: u32, id: u32)
    requires k < |jobs| && TicketsOk(clients, filed, base, jobs)
    requires c in clients && id < clients[c].numTasks && Ticket(c, id) !in filed
    requires forall l :: 0 <= l < |jobs| && l != k && jobs[l].stage.Numbered? ==>
                         TicketOf(jobs[l].stage) != Ticket(c, id)
    ensures TicketsOk(clients, filed[Ticket(c, id) := base + k], base, jobs[k := jobs[k].(stage := Registered(c, id))])
  {
    var filed' := filed[Ticket(c, id) := base + k];
    var jobs' := jobs[k := jobs[k].(stage := Registered(c, id))];
    forall l | 0 <= l < |jobs'|
      ensures StageTicketOk(clients, filed', base + l, jobs'[l].stage)
    {
      assert StageTicketOk(clients, filed, base + l, jobs[l].stage);
    }
  }

  lemma RestageKeepsClosed(closed: set<nat>, accepted: map<nat, seq<byte>>, base: nat, jobs: seq<Job>, k: nat,
          st: Stage)
    requires k < |jobs| && ClosedOk(closed, accepted, base, jobs)
    requires st.Collected? || st.Finished? ==> base + k in closed
    requires base + k in closed ==> Listed(st) || st.Finished?
    ensures ClosedOk(closed, accepted, base, jobs[k := jobs[k].(stage := st)])
  {
  }

  // ----------------------------------------------------------------- fleet steps

  /** A ticket stays filed under its batch, so old requests stay right. */
  lemma FilingKeepsRequests(clients: map<u32, Peer>, filed: map<Ticket, nat>, t: Ticket, b: nat)
    requires RequestsOk(clients, filed) && t !in filed
    ensures RequestsOk(clients, filed[t := b])
  {
  }

  lemma FramesOfAppend(msgs: seq<Msg>, m: Msg)
    ensures FramesOf(msgs + [m]) == FramesOf(msgs) + if m.Frames? then [m.payload] else []
  {
    assert (msgs + [m])[..|msgs|] == msgs;
  }
}
