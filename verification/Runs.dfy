/** What holds of every run of the pipeline, however the clients behave. */
module Runs {
  import opened Wire
  import opened FrameRing
  import opened Fleet
  import opened TaskTable
  import opened Pipeline
  import opened Invariant
  import opened Safety

  // ------------------------------------------------------------------ reachability

  /** Every client and every connection being admitted has an ID of its own. */
  ghost predicate IdsDistinct(s: State) {
    JoiningOk(s.joining, s.clients, s.connected) && forall c :: c in s.clients ==> c <= s.connected
  }

  ghost predicate CountsGrow(s: State, s': State) {
    forall c :: c in s.clients ==> c in s'.clients && s.clients[c].numTasks <= s'.clients[c].numTasks
  }

  ghost predicate SameConnections(s: State, s': State) {
    s'.connected == s.connected && s'.joining == s.joining && s'.clients.Keys == s.clients.Keys
  }

  lemma WorkCounts(s: State, k: nat, g: JobStep)
    requires CanWork(s, k, g)
    ensures SameConnections(s, DoWork(s, k, g)) && CountsGrow(s, DoWork(s, k, g))
  {
    WorkOnClients(s, k, g);
    WorkFrame(s, k, g);
    if g.Handover? {
      HandoverCounts(s, k);
    }
  }

  lemma HandoverCounts(s: State, k: nat)
    requires CanWork(s, k, Handover)
    ensures CountsGrow(s, DoWork(s, k, Handover))
  {
  }

  lemma CastCounts(cfg: Config, s: State, b: CastStep)
    requires WellFormed(s.store.ring) && CanCast(cfg, s, b)
    ensures SameConnections(s, DoCast(cfg, s, b)) && CountsGrow(s, DoCast(cfg, s, b))
  {
  }

  lemma HappenCounts(s: State, f: FleetStep)
    requires WellFormed(s.store.ring) && CanHappen(s, f)
    ensures s.connected <= DoHappen(s, f).connected
    ensures DoHappen(s, f).connected < TWO_32 && IdsDistinct(s) ==>
              IdsDistinct(DoHappen(s, f)) && CountsGrow(s, DoHappen(s, f))
  {
    match f
    case Connect => assert DoConnect(s).connected < TWO_32 ==> NewClientId(s) == s.connected + 1;
    case Result(c, id, frames) => assert SameConnections(s, DoResult(s, c, id, frames));
    case _ =>
  }

  /** Counters only grow while no client ID has been reused. */
  lemma StepCounts(cfg: Config, s: State, l: Label)
    requires Enabled(cfg, s, l)
    ensures s.connected <= Apply(cfg, s, l).connected
    ensures Apply(cfg, s, l).connected < TWO_32 && IdsDistinct(s) ==>
              IdsDistinct(Apply(cfg, s, l)) && CountsGrow(s, Apply(cfg, s, l))
  {
    match l
    case Dispatcher(_) =>
    case Goroutine(k, g) => WorkCounts(s, k, g);
    case Broadcaster(b) => CastCounts(cfg, s, b);
    case Network(f) => HappenCounts(s, f);
  }

  lemma {:induction false} ConnectionsGrow(cfg: Config, s: State, run: seq<Label>)
    requires Legal(cfg, s, run)
    ensures s.connected <= Exec(cfg, s, run).connected
    decreases |run|
  {
    if |run| == 0 {
    } else {
      StepCounts(cfg, s, run[0]);
      ConnectionsGrow(cfg, Apply(cfg, s, run[0]), run[1..]);
    }
  }

  lemma {:induction false} RunCounts(cfg: Config, s: State, run: seq<Label>)
    requires Legal(cfg, s, run) && IdsDistinct(s) && Unwrapped(Exec(cfg, s, run))
    ensures Unwrapped(s)
    decreases |run|
  {
    if |run| == 0 {
    } else {
      StepCounts(cfg, s, run[0]);
      ConnectionsGrow(cfg, Apply(cfg, s, run[0]), run[1..]);
      RunCounts(cfg, Apply(cfg, s, run[0]), run[1..]);
    }
  }

  /** A run from a good state goes on from a good state. */
  lemma FirstStepKeepsInv(cfg: Config, s: State, run: seq<Label>)
    requires Inv(cfg, s) && Legal(cfg, s, run) && Unwrapped(Exec(cfg, s, run)) && |run| > 0
    ensures Inv(cfg, Apply(cfg, s, run[0])) && Unwrapped(Apply(cfg, s, run[0]))
  {
    StepCounts(cfg, s, run[0]);
    ConnectionsGrow(cfg, Apply(cfg, s, run[0]), run[1..]);
    RunCounts(cfg, Apply(cfg, s, run[0]), run[1..]);
    StepKeepsInv(cfg, s, run[0]);
  }

  lemma {:induction false} RunKeepsInv(cfg: Config, s: State, run: seq<Label>)
    requires Inv(cfg, s) && Legal(cfg, s, run) && Unwrapped(Exec(cfg, s, run))
    ensures Inv(cfg, Exec(cfg, s, run))
    decreases |run|
  {
    if |run| == 0 {
    } else {
      FirstStepKeepsInv(cfg, s, run);
      RunKeepsInv(cfg, Apply(cfg, s, run[0]), run[1..]);
    }
  }

  /** `s` ends a run from a fresh server in which no 32-bit counter wrapped. */
  ghost predicate Reached(cfg: Config, start: State, run: seq<Label>, s: State) {
    Initial(start) && Legal(cfg, start, run) && s == Exec(cfg, start, run) && Unwrapped(s)
  }

  /** The invariant holds at the end of every run; nothing has panicked: no slice out of range, no channel
      closed twice, no switch to the same client, no removal of more than is buffered. */
  lemma EveryRunIsSafe(cfg: Config, start: State, run: seq<Label>, s: State)
    requires Reached(cfg, start, run, s)
    ensures Inv(cfg, s) && !s.crashed
  {
    InitialInv(cfg, start);
    RunKeepsInv(cfg, start, run);
  }

  /** A run can be continued by any enabled step. */
  lemma {:induction false} RunContinues(cfg: Config, s: State, run: seq<Label>, l: Label)
    requires Legal(cfg, s, run) && Enabled(cfg, Exec(cfg, s, run), l)
    ensures Legal(cfg, s, run + [l]) && Exec(cfg, s, run + [l]) == Apply(cfg, Exec(cfg, s, run), l)
    decreases |run|
  {
    if |run| == 0 {
      assert run + [l] == [l];
    } else {
      RunContinues(cfg, Apply(cfg, s, run[0]), run[1..], l);
      assert (run + [l])[0] == run[0] && (run + [l])[1..] == run[1..] + [l];
    }
  }

  // -------------------------------------------------- the tape, whatever was submitted

  ghost function Concat(parts: seq<seq<byte>>): seq<byte> {
    if |parts| == 0 then [] else Concat(parts[..|parts| - 1]) + parts[|parts| - 1]
  }

  lemma {:induction false} CastsConcat(cfg: Config, accepted: map<nat, seq<byte>>, base: nat, payloads: seq<seq<byte>>)
    requires forall j: nat :: j < |payloads| ==> CastOk(cfg, accepted, base, j, payloads[j])
    ensures Concat(payloads) == Joined(accepted, 0, Cut(cfg, |payloads|))
    ensures |payloads| > 0 ==> Cut(cfg, |payloads|) <= base
    decreases |payloads|
  {
    if |payloads| == 0 {
    } else {
      var n := |payloads| - 1;
      var before := payloads[..n];
      forall j: nat | j < n
        ensures CastOk(cfg, accepted, base, j, before[j])
      {
        assert CastOk(cfg, accepted, base, j, payloads[j]);
      }
      CastsConcat(cfg, accepted, base, before);
      assert CastOk(cfg, accepted, base, n, payloads[n]);
      JoinedSplit(accepted, 0, Cut(cfg, n), Cut(cfg, n + 1));
    }
  }

  /** With clients sending anything at all, the bytes broadcast so far are the results that closed the done
      channels of batches 0, 1, 2, ..., one whole result for each batch, in batch order. */
  lemma BroadcastIsAcceptedResultsInOrder(cfg: Config, start: State, run: seq<Label>, s: State)
    requires Reached(cfg, start, run, s)
    ensures Concat(s.payloads) == Joined(s.accepted, 0, Cut(cfg, |s.payloads|))
    ensures forall b: nat :: b < Cut(cfg, |s.payloads|) ==> b in s.accepted && |s.accepted[b]| == BATCH_SIZE
  {
    EveryRunIsSafe(cfg, start, run, s);
    CastsConcat(cfg, s.accepted, HeadBatch(s.store.ring), s.payloads);
  }

  /** The ring never overfills, an open round always fits, and what the broadcaster waited for stays:
      after its wait the read is never nil and the removal never panics. */
  lemma RoomIsKept(cfg: Config, start: State, run: seq<Label>, s: State)
    requires Reached(cfg, start, run, s)
    ensures var r := s.store.ring;
            && WellFormed(r) && r.head % BATCH_SIZE == 0 && r.tail % BATCH_SIZE == 0
            && (s.dispatch.Round? ==> r.head + |Jobs(s)| * BATCH_SIZE <= r.tail + BUFFER_SIZE)
            && (!s.cast.WaitFrames? ==> Read(r, CastSize(cfg, s)).Some? && Remove(r, CastSize(cfg, s)).Some?)
  {
    EveryRunIsSafe(cfg, start, run, s);
    QueriesCountBatches(s.store.ring, CastSize(cfg, s));
    if !s.cast.WaitFrames? {
      RemoveAligned(s.store.ring, CastSize(cfg, s));
    }
  }

  /** Rounds closed during a run. */
  ghost function Rounds(run: seq<Label>): nat {
    if |run| == 0 then 0 else Closes(run[0]) + Rounds(run[1..])
  }

  ghost function Closes(l: Label): nat {
    if l.Dispatcher? && l.d.CloseRound? then 1 else 0
  }

  lemma StepRounds(cfg: Config, s: State, l: Label)
    requires Enabled(cfg, s, l)
    ensures Apply(cfg, s, l).rounds == s.rounds + Closes(l)
  {
    match l
    case Dispatcher(_) =>
    case Goroutine(k, g) => WorkFrame(s, k, g);
    case Broadcaster(b) =>
    case Network(f) =>
  }

  lemma {:induction false} RunRounds(cfg: Config, s: State, run: seq<Label>)
    requires Legal(cfg, s, run)
    ensures Exec(cfg, s, run).rounds == s.rounds + Rounds(run)
    decreases |run|
  {
    if |run| == 0 {
    } else {
      StepRounds(cfg, s, run[0]);
      RunRounds(cfg, Apply(cfg, s, run[0]), run[1..]);
    }
  }

  /** The head has moved over one first round and otherwise later rounds, once for each round closed, and never
      inside a round; so a run that has closed j rounds has published exactly the batches of j rounds. */
  lemma HeadCountsClosedRounds(cfg: Config, start: State, run: seq<Label>, s: State)
    requires Reached(cfg, start, run, s)
    ensures s.store.ring.head == BATCH_SIZE * Cut(cfg, Rounds(run))
    ensures s.firstRound <==> Rounds(run) == 0
    ensures s.spawned == Cut(cfg, Rounds(run)) + |Jobs(s)|
  {
    EveryRunIsSafe(cfg, start, run, s);
    RunRounds(cfg, start, run);
  }

  // ------------------------------------------------------------------ who hears what

  /** How many of the broadcasts a connected client has been offered so far. */
  ghost function OfferedCasts(s: State, c: u32): nat {
    if c in Rest(s.cast) && |s.payloads| > 0 then |s.payloads| - 1 else |s.payloads|
  }

  /** A connected client, whatever the other queues look like, has been offered every broadcast since its admission
      once and in order; what its writer took out and what still waits is an in-order part of the offers. */
  lemma EveryClientHearsEveryBroadcast(cfg: Config, start: State, run: seq<Label>, s: State, c: u32)
    requires Reached(cfg, start, run, s) && c in s.pool
    ensures c in s.clients && LinkOk(s.clients[c].link)
    ensures s.clients[c].since <= OfferedCasts(s, c) <= |s.payloads|
    ensures FramesOf(s.clients[c].link.offered) == s.payloads[s.clients[c].since..OfferedCasts(s, c)]
  {
    EveryRunIsSafe(cfg, start, run, s);
    assert Heard(s.clients[c], c in Rest(s.cast), s.payloads);
  }

  // ------------------------------------------------------- who may write, and how often

  /** A result changes the server exactly when its sender holds, at that moment, an unfinished batch under
      that very task ID; everything else (unknown, late, retired, duplicate) changes nothing. */
  lemma OnlyTheHolderCanStore(cfg: Config, start: State, run: seq<Label>, s: State, c: u32, id: u32, frames: seq<byte>)
    requires Reached(cfg, start, run, s) && |frames| == BATCH_SIZE
    ensures |s.store.ring.data| == BUFFER_SIZE
    ensures DoResult(s, c, id, frames) != s <==> HoldsUnfinished(s, c, id)
  {
    EveryRunIsSafe(cfg, start, run, s);
    ChangeNeedsHolder(cfg, s, c, id, frames);
    HolderHasOpenEntry(s.store.tasks, s.store.closed, HeadBatch(s.store.ring), Jobs(s), c, id);
  }

  ghost predicate HoldsUnfinished(s: State, c: u32, id: u32) {
    exists k :: 0 <= k < |Jobs(s)| && Listed(Jobs(s)[k].stage) && TicketOf(Jobs(s)[k].stage) == Ticket(c, id)
                && Jobs(s)[k].serial !in s.store.closed
  }

  /** What the server's save reports, in every run and to whomever: stored exactly for the holder of an unfinished
      batch, a duplicate exactly for the holder of a finished one, and otherwise just not assigned. It never fails, so
      no well-formed answer, however late, foreign or repeated, costs its sender the connection. */
  lemma NoAnswerIsPunished(cfg: Config, start: State, run: seq<Label>, s: State, c: u32, id: u32, frames: seq<byte>)
    requires Reached(cfg, start, run, s) && |frames| == BATCH_SIZE
    ensures Sound(s.store) && |s.store.ring.data| == BUFFER_SIZE
    ensures var out := Save(s.store, c, id, frames).0;
            && (out == Saved <==> HoldsUnfinished(s, c, id))
            && (out == Duplicate <==> HeldBySome(Jobs(s), c, id) && !HoldsUnfinished(s, c, id))
            && (out == Unassigned <==> !HeldBySome(Jobs(s), c, id))
  {
    EveryRunIsSafe(cfg, start, run, s);
    EntriesAreSound(s.store, HeadBatch(s.store.ring), Jobs(s));
    SoundSaves(s.store, c, id, frames);
    ChangeNeedsHolder(cfg, s, c, id, frames);
    HolderHasOpenEntry(s.store.tasks, s.store.closed, HeadBatch(s.store.ring), Jobs(s), c, id);
    EntriesAreHeld(s.store.tasks, s.store.closed, HeadBatch(s.store.ring), Jobs(s));
  }

  lemma EntriesAreSound(store: Store, base: nat, jobs: seq<Job>)
    requires TableOk(store.tasks, store.closed, base, jobs) && JobsOk(base, jobs)
    ensures Sound(store)
  {
    forall c, i | Has(store.tasks, c, i)
      ensures SoundEntry(store, At(store.tasks, c, i))
    {
      var m := At(store.tasks, c, i);
      assert OwnedBy(m, c, i, base, jobs);
      assert EntryOf(m, store.closed, base, jobs, m.done.serial - base);
      OffsetOfBatch(m.done.serial);
    }
  }

  lemma ChangeNeedsHolder(cfg: Config, s: State, c: u32, id: u32, frames: seq<byte>)
    requires CoreInv(cfg, s) && |frames| == BATCH_SIZE
    ensures var open := Has(s.store.tasks, c, id) && !At(s.store.tasks, c, id).completed;
            (DoResult(s, c, id, frames) != s <==> open) && (open ==> HoldsUnfinished(s, c, id))
  {
    var stored, k := ResultEffect(s, c, id, frames);
    if stored {
      assert Jobs(s)[k].serial == HeadBatch(s.store.ring) + k;
      assert HeadBatch(s.store.ring) + k in DoResult(s, c, id, frames).store.closed;
    }
  }

  lemma HolderHasOpenEntry(tasks: TaskMap, closed: set<nat>, base: nat, jobs: seq<Job>, c: u32, id: u32)
    requires TableOk(tasks, closed, base, jobs) && JobsOk(base, jobs)
    ensures forall k :: 0 <= k < |jobs| && Listed(jobs[k].stage) && TicketOf(jobs[k].stage) == Ticket(c, id)
                        && jobs[k].serial !in closed ==>
                          Has(tasks, c, id) && !At(tasks, c, id).completed
  {
    forall k | 0 <= k < |jobs| && Listed(jobs[k].stage) && TicketOf(jobs[k].stage) == Ticket(c, id)
        && jobs[k].serial !in closed
      ensures Has(tasks, c, id) && !At(tasks, c, id).completed
    {
      assert EntryOf(At(tasks, c, id), closed, base, jobs, k);
    }
  }

  /** A task's completed flag says exactly that its done channel is closed, through any chain of handovers; closed
      channels are the stored batches, and no batch behind the head is without its result. */
  lemma CompletedIffClosed(cfg: Config, start: State, run: seq<Label>, s: State)
    requires Reached(cfg, start, run, s)
    ensures forall c, i :: Has(s.store.tasks, c, i) ==>
                             var m := At(s.store.tasks, c, i);
                             m.done.Chan? && (m.completed <==> m.done.serial in s.store.closed)
    ensures s.store.closed == s.accepted.Keys
    ensures forall b: nat :: b < s.store.ring.head / BATCH_SIZE ==> b in s.store.closed
    ensures forall b :: b in s.store.closed ==> b < s.spawned
  {
    EveryRunIsSafe(cfg, start, run, s);
    EntriesMatchChannels(s.store.tasks, s.store.closed, HeadBatch(s.store.ring), Jobs(s));
  }

  lemma EntriesMatchChannels(tasks: TaskMap, closed: set<nat>, base: nat, jobs: seq<Job>)
    requires TableOk(tasks, closed, base, jobs)
    ensures forall c, i :: Has(tasks, c, i) ==>
                             var m := At(tasks, c, i); m.done.Chan? && (m.completed <==> m.done.serial in closed)
  {
    forall c, i | Has(tasks, c, i)
      ensures At(tasks, c, i).done.Chan? && (At(tasks, c, i).completed <==> At(tasks, c, i).done.serial in closed)
    {
      assert OwnedBy(At(tasks, c, i), c, i, base, jobs);
      assert EntryOf(At(tasks, c, i), closed, base, jobs, At(tasks, c, i).done.serial - base);
    }
  }

  /** A drawn task ID repeats an earlier one of that client exactly when its 32-bit counter has wrapped; so the bound
      in `Unwrapped` is the exact limit of "one batch for each (client, task ID)". */
  lemma IdsRepeatExactlyAfterWrap(s: State, c: u32)
    requires c in s.clients
    ensures (exists earlier: nat :: earlier < s.clients[c].numTasks && earlier % TWO_32 == NextId(s, c))
            <==> s.clients[c].numTasks >= TWO_32
  {
    var n := s.clients[c].numTasks;
    if n >= TWO_32 {
      assert (n - TWO_32) % TWO_32 == NextId(s, c);
    }
  }

  /** Some goroutine of the round has its entry under this pair. */
  ghost predicate HeldBySome(jobs: seq<Job>, c: u32, id: u32) {
    exists k :: 0 <= k < |jobs| && Listed(jobs[k].stage) && TicketOf(jobs[k].stage) == Ticket(c, id)
  }

  /** Table entries and registered, unfinished goroutines correspond one to one through (worker, task ID);
      no inner map is left empty, and between rounds the table is empty. */
  lemma TableMirrorsGoroutines(cfg: Config, start: State, run: seq<Label>, s: State)
    requires Reached(cfg, start, run, s)
    ensures forall c, i :: Has(s.store.tasks, c, i) <==> HeldBySome(Jobs(s), c, i)
    ensures forall k, l :: 0 <= k < l < |Jobs(s)| && Listed(Jobs(s)[k].stage) && Listed(Jobs(s)[l].stage) ==>
                             TicketOf(Jobs(s)[k].stage) != TicketOf(Jobs(s)[l].stage)
    ensures NoEmptyInner(s.store.tasks)
    ensures !s.dispatch.Round? ==> s.store.tasks == map[]
  {
    EveryRunIsSafe(cfg, start, run, s);
    DistinctEntries(s.store.tasks, s.store.closed, HeadBatch(s.store.ring), Jobs(s));
    EntriesAreHeld(s.store.tasks, s.store.closed, HeadBatch(s.store.ring), Jobs(s));
    if !s.dispatch.Round? {
      NoEntryNoMap(s.store.tasks);
    }
  }

  lemma EntriesAreHeld(tasks: TaskMap, closed: set<nat>, base: nat, jobs: seq<Job>)
    requires TableOk(tasks, closed, base, jobs)
    ensures forall c, i :: Has(tasks, c, i) <==> HeldBySome(jobs, c, i)
  {
    forall c, i | Has(tasks, c, i)
      ensures HeldBySome(jobs, c, i)
    {
      assert OwnedBy(At(tasks, c, i), c, i, base, jobs);
      assert Listed(jobs[At(tasks, c, i).done.serial - base].stage);
    }
  }

  /** The jobs of an open round own pairwise different stretches of the ring. */
  lemma JobsOwnDistinctSlots(cfg: Config, start: State, run: seq<Label>, s: State, k: nat, l: nat)
    requires Reached(cfg, start, run, s) && k < l < |Jobs(s)|
    ensures Offset(Jobs(s)[k].start) + BATCH_SIZE <= Offset(Jobs(s)[l].start)
            || Offset(Jobs(s)[l].start) + BATCH_SIZE <= Offset(Jobs(s)[k].start)
  {
    EveryRunIsSafe(cfg, start, run, s);
    OffsetsApart(HeadBatch(s.store.ring) + k, HeadBatch(s.store.ring) + l);
  }

  lemma OffsetsApart(a: nat, b: nat)
    requires a < b < a + MAX_BATCHES
    ensures Offset(StartFrame(a)) + BATCH_SIZE <= Offset(StartFrame(b))
            || Offset(StartFrame(b)) + BATCH_SIZE <= Offset(StartFrame(a))
  {
    DistinctSlots(a, b);
    OffsetFits(StartFrame(a));
    OffsetFits(StartFrame(b));
  }

  /** What one step does to the results: at most one new batch, of the open round, never one already closed. */
  lemma StepAcceptsAtMostOne(cfg: Config, s: State, l: Label)
    requires Inv(cfg, s) && Enabled(cfg, s, l)
    ensures SameResults(s, Apply(cfg, s, l)) || exists k, frames :: StoredAs(s, Apply(cfg, s, l), k, frames)
  {
    match l
    case Dispatcher(_) =>
    case Goroutine(k, g) => WorkFrame(s, k, g);
    case Broadcaster(b) => CastKeepsResults(cfg, s, b);
    case Network(f) => HappenResults(cfg, s, f);
  }

  ghost predicate SameResults(s: State, s': State) {
    s'.accepted == s.accepted && s'.store.closed == s.store.closed && s'.store.ring.data == s.store.ring.data
  }

  ghost predicate StoredAs(s: State, s': State, k: nat, frames: seq<byte>) {
    var b := HeadBatch(s.store.ring);
    && k < |Jobs(s)| && |frames| == BATCH_SIZE && |s.store.ring.data| == BUFFER_SIZE
    && b + k !in s.accepted && b + k !in s.store.closed
    && s'.accepted == s.accepted[b + k := frames] && s'.store.closed == s.store.closed + {b + k}
    && s'.store.ring == Write(s.store.ring, StartFrame(b + k), EndFrame(b + k), frames).1
  }

  lemma CastKeepsResults(cfg: Config, s: State, b: CastStep)
    requires Inv(cfg, s) && WellFormed(s.store.ring) && CanCast(cfg, s, b)
    ensures SameResults(s, DoCast(cfg, s, b))
  {
    if b.Trim? {
      RemoveAligned(s.store.ring, CastSize(cfg, s));
    }
  }

  lemma HappenResults(cfg: Config, s: State, f: FleetStep)
    requires Inv(cfg, s) && WellFormed(s.store.ring) && CanHappen(s, f)
    ensures SameResults(s, DoHappen(s, f)) || exists k, frames :: StoredAs(s, DoHappen(s, f), k, frames)
  {
    if f.Result? {
      var stored, k := ResultEffect(s, f.c, f.id, f.frames);
      if stored {
        assert StoredAs(s, DoHappen(s, f), k, f.frames);
      }
    }
  }

  /** Accepted results and closed channels are only ever added to: one result for each batch, one close for each
      channel; and a (client, task ID) pair keeps naming the batch it was first filed for. */
  ghost predicate Extends(s: State, s': State) {
    && (forall b :: b in s.accepted ==> b in s'.accepted && s'.accepted[b] == s.accepted[b])
    && (forall t :: t in s.filed ==> t in s'.filed && s'.filed[t] == s.filed[t])
    && s.store.closed <= s'.store.closed && s.payloads <= s'.payloads
  }

  lemma WorkExtends(cfg: Config, s: State, k: nat, g: JobStep)
    requires CoreInv(cfg, s) && CanWork(s, k, g) && Unwrapped(DoWork(s, k, g))
    ensures Extends(s, DoWork(s, k, g))
  {
    WorkFrame(s, k, g);
    WorkOnClients(s, k, g);
    assert StageTicketOk(s.clients, s.filed, HeadBatch(s.store.ring) + k, Jobs(s)[k].stage);
    if g.Handover? && Jobs(s)[k].stage.next != Jobs(s)[k].stage.client {
      HandoverTickets(s, k, HeadBatch(s.store.ring));
    }
  }

  lemma CastExtends(cfg: Config, s: State, b: CastStep)
    requires Inv(cfg, s) && WellFormed(s.store.ring) && CanCast(cfg, s, b)
    ensures Extends(s, DoCast(cfg, s, b))
  {
    CastKeepsResults(cfg, s, b);
  }

  lemma HappenExtends(cfg: Config, s: State, f: FleetStep)
    requires Inv(cfg, s) && WellFormed(s.store.ring) && CanHappen(s, f)
    ensures Extends(s, DoHappen(s, f))
  {
    HappenResults(cfg, s, f);
  }

  lemma DispatchExtends(cfg: Config, s: State, d: DispatchStep)
    requires WellFormed(s.store.ring) && CanDispatch(cfg, s, d)
    ensures Extends(s, DoDispatch(cfg, s, d))
  {
  }

  lemma StepExtends(cfg: Config, s: State, l: Label)
    requires Inv(cfg, s) && Enabled(cfg, s, l) && Unwrapped(Apply(cfg, s, l))
    ensures Extends(s, Apply(cfg, s, l))
  {
    match l
    case Dispatcher(d) => DispatchExtends(cfg, s, d);
    case Goroutine(k, g) => WorkExtends(cfg, s, k, g);
    case Broadcaster(b) => CastExtends(cfg, s, b);
    case Network(f) => HappenExtends(cfg, s, f);
  }

  lemma {:induction false} HistoryIsNeverRewritten(cfg: Config, s: State, run: seq<Label>)
    requires Inv(cfg, s) && Legal(cfg, s, run) && Unwrapped(Exec(cfg, s, run))
    ensures Extends(s, Exec(cfg, s, run))
    decreases |run|
  {
    if |run| == 0 {
    } else {
      FirstStepKeepsInv(cfg, s, run);
      StepExtends(cfg, s, run[0]);
      HistoryIsNeverRewritten(cfg, Apply(cfg, s, run[0]), run[1..]);
    }
  }

  /** Both pointers only move forward, and a step rewrites no published byte. */
  lemma StepKeepsPublished(cfg: Config, s: State, l: Label, p: nat)
    requires Inv(cfg, s) && Enabled(cfg, s, l) && s.store.ring.tail <= p < s.store.ring.head
    ensures var r, r' := s.store.ring, Apply(cfg, s, l).store.ring;
            r.head <= r'.head && r.tail <= r'.tail && |r'.data| == BUFFER_SIZE
                && r'.data[p % BUFFER_SIZE] == r.data[p % BUFFER_SIZE]
  {
    StepMovesForward(cfg, s, l);
    StepAcceptsAtMostOne(cfg, s, l);
    var s' := Apply(cfg, s, l);
    if !SameResults(s, s') {
      var k, frames :| StoredAs(s, s', k, frames);
      StoredKeepsPublished(cfg, s, s', k, frames, p);
    }
  }

  lemma StoredKeepsPublished(cfg: Config, s: State, s': State, k: nat, frames: seq<byte>, p: nat)
    requires RoundOk(cfg, s.store.ring, s.dispatch, s.firstRound, s.spawned, s.rounds)
    requires StoredAs(s, s', k, frames) && s.store.ring.tail <= p < s.store.ring.head
    ensures |s'.store.ring.data| == BUFFER_SIZE
            && s'.store.ring.data[p % BUFFER_SIZE] == s.store.ring.data[p % BUFFER_SIZE]
  {
    WriteKeepsPublished(s.store.ring, HeadBatch(s.store.ring) + k, frames, p);
  }

  lemma StepMovesForward(cfg: Config, s: State, l: Label)
    requires Inv(cfg, s) && Enabled(cfg, s, l)
    ensures s.store.ring.head <= Apply(cfg, s, l).store.ring.head
            && s.store.ring.tail <= Apply(cfg, s, l).store.ring.tail
  {
    match l
    case Dispatcher(_) =>
    case Goroutine(k, g) => WorkFrame(s, k, g);
    case Broadcaster(b) => CastMovesForward(cfg, s, b);
    case Network(f) => HappenMovesForward(cfg, s, f);
  }

  lemma CastMovesForward(cfg: Config, s: State, b: CastStep)
    requires WellFormed(s.store.ring) && CanCast(cfg, s, b)
    ensures s.store.ring.head <= DoCast(cfg, s, b).store.ring.head
            && s.store.ring.tail <= DoCast(cfg, s, b).store.ring.tail
  {
  }

  lemma HappenMovesForward(cfg: Config, s: State, f: FleetStep)
    requires CoreInv(cfg, s) && WellFormed(s.store.ring) && CanHappen(s, f)
    ensures s.store.ring.head <= DoHappen(s, f).store.ring.head && s.store.ring.tail <= DoHappen(s, f).store.ring.tail
  {
    if f.Result? {
      var stored, k := ResultEffect(s, f.c, f.id, f.frames);
    }
  }

  /** Even with adversarial clients: a byte published at some point of a run is the same byte at every later
      point of the run at which it has not yet been removed. */
  lemma {:induction false} PublishedBytesAreStable(cfg: Config, s: State, run: seq<Label>, p: nat)
    requires Inv(cfg, s) && Legal(cfg, s, run) && Unwrapped(Exec(cfg, s, run))
    requires s.store.ring.tail <= p < s.store.ring.head
    ensures var r, r' := s.store.ring, Exec(cfg, s, run).store.ring;
            r.head <= r'.head && r.tail <= r'.tail && |r.data| == |r'.data| == BUFFER_SIZE &&
            (r'.tail <= p ==> r'.data[p % BUFFER_SIZE] == r.data[p % BUFFER_SIZE])
    decreases |run|
  {
    if |run| == 0 {
    } else {
      var s1 := Apply(cfg, s, run[0]);
      FirstStepKeepsInv(cfg, s, run);
      StepKeepsPublished(cfg, s, run[0], p);
      if s1.store.ring.tail <= p {
        PublishedBytesAreStable(cfg, s1, run[1..], p);
      } else {
        PointersMoveForward(cfg, s1, run[1..]);
      }
    }
  }

  lemma {:induction false} PointersMoveForward(cfg: Config, s: State, run: seq<Label>)
    requires Inv(cfg, s) && Legal(cfg, s, run) && Unwrapped(Exec(cfg, s, run))
    ensures var r, r' := s.store.ring, Exec(cfg, s, run).store.ring;
            r.head <= r'.head && r.tail <= r'.tail && |r'.data| == BUFFER_SIZE
    decreases |run|
  {
    if |run| == 0 {
    } else {
      FirstStepKeepsInv(cfg, s, run);
      StepMovesForward(cfg, s, run[0]);
      PointersMoveForward(cfg, Apply(cfg, s, run[0]), run[1..]);
    }
  }

  lemma WriteKeepsPublished(r: Ring, b: nat, frames: seq<byte>, p: nat)
    requires Aligned(r) && |frames| == BATCH_SIZE && HeadBatch(r) <= b < TailBatch(r) + MAX_BATCHES
             && r.tail <= p < r.head
    ensures var r' := Write(r, StartFrame(b), EndFrame(b), frames).1;
            |r'.data| == BUFFER_SIZE && r'.data[p % BUFFER_SIZE] == r.data[p % BUFFER_SIZE]
  {
    var q, i := p / BATCH_SIZE, p % BATCH_SIZE;
    var r' := Write(r, StartFrame(b), EndFrame(b), frames).1;
    WriteFillsOneSlot(r, b, frames);
    DistinctSlots(q, b);
    PositionOfByte(q, i);
    assert Slot(r'.data, q % MAX_BATCHES)[i] == Slot(r.data, q % MAX_BATCHES)[i];
  }

  // ---------------------------------------------------------------- the two waits

  ghost predicate WaitRoomPasses(r: Ring, n: nat) { WellFormed(r) && HasRoom(r, n) }

  ghost predicate WaitFramesPasses(r: Ring, m: nat) { WellFormed(r) && Enough(r, m) }

  /** For buffered lengths of any kind: some length blocks a wait for room for n batches and a wait for m batches
      exactly when n and m together exceed the ring by more than one batch. Runs reach only some of these lengths. */
  lemma SomeLengthBlocksBoth(n: nat, m: nat)
    requires n >= 1 && m >= 1
    ensures (exists r: Ring :: Aligned(r) && !WaitRoomPasses(r, n) && !WaitFramesPasses(r, m))
            <==> n + m > MAX_BATCHES + 1
  {
    if n + m > MAX_BATCHES + 1 {
      var buffered := if m <= MAX_BATCHES then m - 1 else MAX_BATCHES;
      var r := Ring(seq(BUFFER_SIZE, _ => 0), buffered * BATCH_SIZE, 0);
      assert HeadBatch(r) == buffered && Aligned(r);
      QueriesCountBatches(r, n);
      QueriesCountBatches(r, m);
      assert !WaitRoomPasses(r, n) && !WaitFramesPasses(r, m);
    } else {
      forall r: Ring | Aligned(r)
        ensures WaitRoomPasses(r, n) || WaitFramesPasses(r, m)
      {
        QueriesCountBatches(r, n);
        QueriesCountBatches(r, m);
      }
    }
  }

  /** Dispatcher and broadcaster each wait, and neither wait passes. */
  ghost predicate BothWaitsBlocked(cfg: Config, s: State) {
    && s.dispatch.WaitRoom? && !WaitRoomPasses(s.store.ring, RoundSize(cfg, s))
    && s.cast.WaitFrames? && !WaitFramesPasses(s.store.ring, CastSize(cfg, s))
  }

  /** Settings under which a round and a broadcast fit the ring at all. */
  predicate Fits(cfg: Config) {
    cfg.first <= MAX_BATCHES && cfg.subsequent <= MAX_BATCHES
  }

  /** Rounds and broadcasts have the same sizes in the same order; so whenever the broadcaster lacks frames, the
      ring holds none at all. */
  lemma LackingFramesMeansEmpty(cfg: Config, s: State)
    requires Inv(cfg, s)
    requires s.cast.WaitFrames? && TailBatch(s.store.ring) + CastSize(cfg, s) > HeadBatch(s.store.ring)
    ensures HeadBatch(s.store.ring) == TailBatch(s.store.ring) && s.rounds <= |s.payloads|
  {
    if s.rounds > |s.payloads| {
      CutMonotone(cfg, |s.payloads| + 1, s.rounds);
      assert false;
    }
    CutMonotone(cfg, s.rounds, |s.payloads|);
  }

  /** ... and the next round is no larger than that broadcast. */
  lemma MissingRoundFits(cfg: Config, s: State)
    requires Inv(cfg, s)
    requires s.cast.WaitFrames? && TailBatch(s.store.ring) + CastSize(cfg, s) > HeadBatch(s.store.ring)
    ensures RoundSize(cfg, s) <= CastSize(cfg, s)
  {
    LackingFramesMeansEmpty(cfg, s);
    if s.rounds == 0 && |s.payloads| > 0 {
      CutMonotone(cfg, 1, |s.payloads|);
    }
  }

  /** Under fitting settings, whatever the mix of first and later rounds and broadcasts, some wait passes. */
  lemma SomeWaitPasses(cfg: Config, start: State, run: seq<Label>, s: State)
    requires Reached(cfg, start, run, s) && Fits(cfg)
    ensures Fits(DEFAULT_CONFIG)
    ensures WellFormed(s.store.ring)
    ensures CanDispatch(cfg, s, RoomFound) || CanCast(cfg, s, FramesFound) || !s.dispatch.WaitRoom?
            || !s.cast.WaitFrames?
  {
    EveryRunIsSafe(cfg, start, run, s);
    QueriesCountBatches(s.store.ring, RoundSize(cfg, s));
    QueriesCountBatches(s.store.ring, CastSize(cfg, s));
    if s.cast.WaitFrames? && TailBatch(s.store.ring) + CastSize(cfg, s) > HeadBatch(s.store.ring) {
      LackingFramesMeansEmpty(cfg, s);
    }
  }
}
