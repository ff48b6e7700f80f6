/** Who is connected, who is chosen for work and who hears what, over whole runs; and what the two loops do not do
    while nobody is there. */
module Membership {
  import opened Wire
  import opened FrameRing
  import opened TaskTable
  import opened Pipeline
  import opened Invariant
  import opened Safety
  import opened Runs

  // ------------------------------------------------------------ the life of a connection

  /** Where a client ID stands, told from the labels of a run alone. */
  datatype Life = Unborn | Awaiting | Member | Refused | Departed

  /** `born` counts the connections so far; the n-th of them draws the ID n. */
  function LifeStep(c: u32, born: nat, life: Life, l: Label): Life {
    match l
    case Network(Connect) => if born + 1 == c then Awaiting else life
    case Network(Join(d)) => if d == c then Member else life
    case Network(Reject(d)) => if d == c then Refused else life
    case Network(Leave(d)) => if d == c then Departed else life
    case _ => life
  }

  function Births(l: Label): nat {
    if l == Network(Connect) then 1 else 0
  }

  function LifeOf(c: u32, born: nat, life: Life, run: seq<Label>): Life
    decreases |run|
  {
    if |run| == 0 then life else LifeOf(c, born + Births(run[0]), LifeStep(c, born, life, run[0]), run[1..])
  }

  /** The server's sets agree with that life. */
  ghost predicate Stands(s: State, c: u32, life: Life) {
    match life
    case Unborn => c !in s.joining && c !in s.pool && c !in s.clients && (c == 0 || c > s.connected)
    case Awaiting => c in s.joining && c !in s.pool && c !in s.clients && 0 < c <= s.connected
    case Member => c !in s.joining && c in s.pool && c in s.clients && 0 < c <= s.connected
    case Refused => c !in s.joining && c !in s.pool && c !in s.clients && 0 < c <= s.connected
    case Departed => c !in s.joining && c !in s.pool && c in s.clients && 0 < c <= s.connected
  }

  lemma HappenStands(cfg: Config, s: State, f: FleetStep, c: u32, life: Life)
    requires Inv(cfg, s) && Enabled(cfg, s, Network(f)) && Unwrapped(DoHappen(s, f)) && Stands(s, c, life)
    ensures Stands(DoHappen(s, f), c, LifeStep(c, s.connected, life, Network(f)))
    ensures DoHappen(s, f).connected == s.connected + Births(Network(f))
  {
    if f.Connect? {
      NewClientIsFresh(s);
    }
  }

  lemma DispatchStands(cfg: Config, s: State, d: DispatchStep, c: u32, life: Life)
    requires WellFormed(s.store.ring) && CanDispatch(cfg, s, d) && Stands(s, c, life)
    ensures Stands(DoDispatch(cfg, s, d), c, life) && DoDispatch(cfg, s, d).connected == s.connected
  {
  }

  lemma WorkStands(s: State, k: nat, g: JobStep, c: u32, life: Life)
    requires CanWork(s, k, g) && Stands(s, c, life)
    ensures Stands(DoWork(s, k, g), c, life) && DoWork(s, k, g).connected == s.connected
  {
    WorkFrame(s, k, g);
    WorkOnClients(s, k, g);
  }

  lemma CastStands(cfg: Config, s: State, b: CastStep, c: u32, life: Life)
    requires WellFormed(s.store.ring) && CanCast(cfg, s, b) && Stands(s, c, life)
    ensures Stands(DoCast(cfg, s, b), c, life) && DoCast(cfg, s, b).connected == s.connected
  {
  }

  lemma StepStands(cfg: Config, s: State, l: Label, c: u32, life: Life)
    requires Inv(cfg, s) && Enabled(cfg, s, l) && Unwrapped(Apply(cfg, s, l)) && Stands(s, c, life)
    ensures Stands(Apply(cfg, s, l), c, LifeStep(c, s.connected, life, l))
    ensures Apply(cfg, s, l).connected == s.connected + Births(l)
  {
    match l
    case Dispatcher(d) => DispatchStands(cfg, s, d, c, life);
    case Goroutine(k, g) => WorkStands(s, k, g, c, life);
    case Broadcaster(b) => CastStands(cfg, s, b, c, life);
    case Network(f) => HappenStands(cfg, s, f, c, life);
  }

  lemma {:induction false} RunStands(cfg: Config, s: State, run: seq<Label>, c: u32, life: Life)
    requires Inv(cfg, s) && Legal(cfg, s, run) && Unwrapped(Exec(cfg, s, run)) && Stands(s, c, life)
    ensures Stands(Exec(cfg, s, run), c, LifeOf(c, s.connected, life, run))
    decreases |run|
  {
    if |run| == 0 {
    } else {
      FirstStepKeepsInv(cfg, s, run);
      StepStands(cfg, s, run[0], c, life);
      RunStands(cfg, Apply(cfg, s, run[0]), run[1..], c, LifeStep(c, s.connected, life, run[0]));
    }
  }

  /** In every run, for every ID: it is being admitted, connected or gone exactly as its own connection's labels say.
      So one client's coming and going never touches another's. */
  lemma MembershipFollowsTheRun(cfg: Config, start: State, run: seq<Label>, s: State, c: u32)
    requires Reached(cfg, start, run, s)
    ensures Stands(s, c, LifeOf(c, 0, Unborn, run))
  {
    InitialInv(cfg, start);
    RunStands(cfg, start, run, c, Unborn);
  }

  /** The network steps open to the fleet. */
  ghost predicate FleetIsFree(cfg: Config, s: State) {
    && Enabled(cfg, s, Network(Connect))
    && (forall c :: c in s.joining ==> Enabled(cfg, s, Network(Join(c))) && Enabled(cfg, s, Network(Reject(c))))
    && (forall c :: c in s.pool ==> Enabled(cfg, s, Network(Leave(c))))
    && (forall c :: c in s.clients && s.clients[c].link.queue != [] ==> Enabled(cfg, s, Network(Deliver(c))))
    && (forall c, id, frames :: |frames| == BATCH_SIZE ==> Enabled(cfg, s, Network(Result(c, id, frames))))
  }

  lemma CalmIsFree(cfg: Config, s: State)
    requires !s.crashed && WellFormed(s.store.ring)
    ensures FleetIsFree(cfg, s)
  {
  }

  /** The goroutine steps that no other goroutine can hold up: a waiting goroutine may time out even when its channel
      is already closed, and then pick any member. */
  ghost predicate TimeoutsAreFree(cfg: Config, s: State) {
    && (forall k :: 0 <= k < |Jobs(s)| && Jobs(s)[k].stage.Waiting? ==> Enabled(cfg, s, Goroutine(k, Timeout)))
    && (forall k, c :: 0 <= k < |Jobs(s)| && Jobs(s)[k].stage.TimedOut? && c in s.pool ==>
                         Enabled(cfg, s, Goroutine(k, Repick(c))))
  }

  lemma CalmTimesOut(cfg: Config, s: State)
    requires !s.crashed && WellFormed(s.store.ring)
    ensures TimeoutsAreFree(cfg, s)
  {
  }

  /** Nothing keeps the fleet or the clock from acting: members may leave, numbered connections be admitted or
      refused, anybody may answer anything of batch length, and any wait may time out. */
  lemma FleetIsUnrestricted(cfg: Config, start: State, run: seq<Label>, s: State)
    requires Reached(cfg, start, run, s)
    ensures FleetIsFree(cfg, s) && TimeoutsAreFree(cfg, s)
  {
    EveryRunIsSafe(cfg, start, run, s);
    QueriesCountBatches(s.store.ring, 0);
    CalmIsFree(cfg, s);
    CalmTimesOut(cfg, s);
  }

  /** Job k has moved to another worker with its finished entry as it was, and nothing else has happened. */
  ghost predicate SwitchedWhenDone(s: State, s': State, k: nat, next: u32, id: u32) {
    && k < |Jobs(s')| && Jobs(s')[k].stage == Registered(next, id)
    && Has(s'.store.tasks, next, id) && At(s'.store.tasks, next, id).completed
    && s'.store.closed == s.store.closed && s'.store.ring == s.store.ring && s'.accepted == s.accepted
  }

  lemma HandoverMovesEntry(s: State, k: nat)
    requires CanWork(s, k, Handover) && Jobs(s)[k].stage.next != Jobs(s)[k].stage.client
    requires At(s.store.tasks, Jobs(s)[k].stage.client, Jobs(s)[k].stage.id).completed
    ensures SwitchedWhenDone(s, DoWork(s, k, Handover), k, Jobs(s)[k].stage.next, NextId(s, Jobs(s)[k].stage.next))
  {
    var st := Jobs(s)[k].stage;
    MoveLookup(s.store.tasks, st.client, st.id, st.next, NextId(s, st.next));
  }

  /** So a completed task can be switched: the channel closed, the timeout arm is taken all the same, another worker
      is picked, and the finished entry moves to it as it is. */
  lemma CompletedTaskCanBeSwitched(cfg: Config, start: State, run: seq<Label>, s: State, k: nat, next: u32)
    requires Reached(cfg, start, run, s) && k < |Jobs(s)| && Jobs(s)[k].stage.Waiting?
    requires Jobs(s)[k].serial in s.store.closed && next in s.pool && next != Jobs(s)[k].stage.client
    ensures next in s.clients
    ensures var plan := [Goroutine(k, Timeout), Goroutine(k, Repick(next)), Goroutine(k, Handover)];
            Legal(cfg, s, plan) && SwitchedWhenDone(s, Exec(cfg, s, plan), k, next, NextId(s, next))
  {
    EveryRunIsSafe(cfg, start, run, s);
    QueriesCountBatches(s.store.ring, 0);
    SwitchIsLegal(cfg, s, k, next);
  }

  lemma SwitchIsLegal(cfg: Config, s: State, k: nat, next: u32)
    requires CoreInv(cfg, s) && WellFormed(s.store.ring) && k < |Jobs(s)| && Jobs(s)[k].stage.Waiting?
    requires Jobs(s)[k].serial in s.store.closed
    requires next in s.pool && next in s.clients && next != Jobs(s)[k].stage.client
    ensures var plan := [Goroutine(k, Timeout), Goroutine(k, Repick(next)), Goroutine(k, Handover)];
            Legal(cfg, s, plan) && SwitchedWhenDone(s, Exec(cfg, s, plan), k, next, NextId(s, next))
  {
    var st := Jobs(s)[k].stage;
    assert EntryOf(At(s.store.tasks, st.client, st.id), s.store.closed, HeadBatch(s.store.ring), Jobs(s), k);
    var s1 := DoWork(s, k, Timeout);
    var s2 := DoWork(s1, k, Repick(next));
    HandoverMovesEntry(s2, k);
    ThreeSteps(cfg, s, Goroutine(k, Timeout), Goroutine(k, Repick(next)), Goroutine(k, Handover));
  }

  lemma ThreeSteps(cfg: Config, s: State, a: Label, b: Label, c: Label)
    requires Enabled(cfg, s, a) && Enabled(cfg, Apply(cfg, s, a), b) && Enabled(cfg, Apply(cfg, Apply(cfg, s, a), b), c)
    ensures Legal(cfg, s, [a, b, c]) && Exec(cfg, s, [a, b, c]) == Apply(cfg, Apply(cfg, Apply(cfg, s, a), b), c)
  {
    var s1 := Apply(cfg, s, a);
    var s2 := Apply(cfg, s1, b);
    assert [a, b, c][1..] == [b, c] && [b, c][1..] == [c] && [c][1..] == [];
    assert Legal(cfg, Apply(cfg, s2, c), []) && Legal(cfg, s2, [c]) && Legal(cfg, s1, [b, c]);
    assert Exec(cfg, s2, [c]) == Apply(cfg, s2, c);
    assert Exec(cfg, s1, [b, c]) == Apply(cfg, s2, c);
  }

  // ------------------------------------------------------------------- departed clients

  /** Some goroutine has chosen client c and has still to draw a task ID from it. */
  ghost predicate ChosenToDraw(s: State, c: u32) {
    exists k :: 0 <= k < |Jobs(s)| && DrawsFrom(Jobs(s)[k].stage, c)
  }

  predicate DrawsFrom(st: Stage, c: u32) {
    st == Picked(c) || (st.Repicked? && st.next == c && st.client != c)
  }

  /** A client that left, and that no goroutine chose while it was there. */
  ghost predicate OutOfWork(s: State, c: u32) {
    c in s.clients && c !in s.pool && !ChosenToDraw(s, c)
  }

  lemma WorkLeavesOthers(s: State, k: nat, g: JobStep, c: u32)
    requires CanWork(s, k, g) && OutOfWork(s, c)
    ensures OutOfWork(DoWork(s, k, g), c) && DoWork(s, k, g).clients[c].numTasks == s.clients[c].numTasks
  {
    var s' := DoWork(s, k, g);
    WorkFrame(s, k, g);
    WorkRestages(s, k, g);
    WorkOnClients(s, k, g);
    assert !DrawsFrom(Jobs(s)[k].stage, c);
    assert !DrawsFrom(Jobs(s')[k].stage, c);
    forall l | 0 <= l < |Jobs(s')|
      ensures !DrawsFrom(Jobs(s')[l].stage, c)
    {
      assert !DrawsFrom(Jobs(s)[l].stage, c);
    }
  }

  lemma StepLeavesDeparted(cfg: Config, s: State, l: Label, c: u32)
    requires Inv(cfg, s) && Enabled(cfg, s, l) && OutOfWork(s, c)
    ensures var s' := Apply(cfg, s, l); OutOfWork(s', c) && s'.clients[c].numTasks == s.clients[c].numTasks
  {
    match l
    case Dispatcher(_) =>
    case Goroutine(k, g) => WorkLeavesOthers(s, k, g, c);
    case Broadcaster(b) => CastLeavesDeparted(cfg, s, b, c);
    case Network(f) => HappenLeavesDeparted(cfg, s, f, c);
  }

  lemma CastLeavesDeparted(cfg: Config, s: State, b: CastStep, c: u32)
    requires WellFormed(s.store.ring) && CanCast(cfg, s, b) && OutOfWork(s, c)
    ensures var s' := DoCast(cfg, s, b); OutOfWork(s', c) && s'.clients[c].numTasks == s.clients[c].numTasks
  {
    assert Jobs(DoCast(cfg, s, b)) == Jobs(s);
  }

  lemma HappenLeavesDeparted(cfg: Config, s: State, f: FleetStep, c: u32)
    requires Inv(cfg, s) && WellFormed(s.store.ring) && CanHappen(s, f) && OutOfWork(s, c)
    ensures var s' := DoHappen(s, f); OutOfWork(s', c) && s'.clients[c].numTasks == s.clients[c].numTasks
  {
    assert Jobs(DoHappen(s, f)) == Jobs(s);
  }

  /** New work goes to members only: a client that left with no choice pending never draws a task ID again. */
  lemma {:induction false} DepartedGetNoWork(cfg: Config, s: State, run: seq<Label>, c: u32)
    requires Inv(cfg, s) && Legal(cfg, s, run) && Unwrapped(Exec(cfg, s, run)) && OutOfWork(s, c)
    ensures var s' := Exec(cfg, s, run); OutOfWork(s', c) && s'.clients[c].numTasks == s.clients[c].numTasks
    decreases |run|
  {
    if |run| == 0 {
    } else {
      FirstStepKeepsInv(cfg, s, run);
      StepLeavesDeparted(cfg, s, run[0], c);
      DepartedGetNoWork(cfg, Apply(cfg, s, run[0]), run[1..], c);
    }
  }

  /** A client that left and is not in the snapshot of a broadcast in progress. */
  ghost predicate OutOfEarshot(s: State, c: u32) {
    c in s.clients && c !in s.pool && c !in Rest(s.cast)
  }

  ghost function HeardBy(s: State, c: u32): seq<seq<byte>>
    requires c in s.clients
  {
    FramesOf(s.clients[c].link.offered)
  }

  lemma WorkIsUnheard(s: State, k: nat, g: JobStep, c: u32)
    requires CanWork(s, k, g) && OutOfEarshot(s, c)
    ensures OutOfEarshot(DoWork(s, k, g), c) && HeardBy(DoWork(s, k, g), c) == HeardBy(s, c)
  {
    WorkFrame(s, k, g);
    WorkOnClients(s, k, g);
    if g.Request? {
      FramesOfAppend(s.clients[c].link.offered, Work(Jobs(s)[k].stage.id, Jobs(s)[k].start, Jobs(s)[k].end));
    }
  }

  lemma CastIsUnheard(cfg: Config, s: State, b: CastStep, c: u32)
    requires WellFormed(s.store.ring) && CanCast(cfg, s, b) && OutOfEarshot(s, c)
    ensures OutOfEarshot(DoCast(cfg, s, b), c) && HeardBy(DoCast(cfg, s, b), c) == HeardBy(s, c)
  {
  }

  lemma HappenIsUnheard(cfg: Config, s: State, f: FleetStep, c: u32)
    requires Inv(cfg, s) && WellFormed(s.store.ring) && CanHappen(s, f) && OutOfEarshot(s, c)
    ensures OutOfEarshot(DoHappen(s, f), c) && HeardBy(DoHappen(s, f), c) == HeardBy(s, c)
  {
    if f.Telemetry? {
      FramesOfAppend(s.clients[c].link.offered, f.m);
    }
  }

  lemma StepIsUnheard(cfg: Config, s: State, l: Label, c: u32)
    requires Inv(cfg, s) && Enabled(cfg, s, l) && OutOfEarshot(s, c)
    ensures OutOfEarshot(Apply(cfg, s, l), c) && HeardBy(Apply(cfg, s, l), c) == HeardBy(s, c)
  {
    match l
    case Dispatcher(_) =>
    case Goroutine(k, g) => WorkIsUnheard(s, k, g, c);
    case Broadcaster(b) => CastIsUnheard(cfg, s, b, c);
    case Network(f) => HappenIsUnheard(cfg, s, f, c);
  }

  /** A broadcast's snapshot holds members only: a client that left is never offered another broadcast. */
  lemma {:induction false} DepartedHearNothing(cfg: Config, s: State, run: seq<Label>, c: u32)
    requires Inv(cfg, s) && Legal(cfg, s, run) && Unwrapped(Exec(cfg, s, run)) && OutOfEarshot(s, c)
    ensures OutOfEarshot(Exec(cfg, s, run), c) && HeardBy(Exec(cfg, s, run), c) == HeardBy(s, c)
    decreases |run|
  {
    if |run| == 0 {
    } else {
      FirstStepKeepsInv(cfg, s, run);
      StepIsUnheard(cfg, s, run[0], c);
      DepartedHearNothing(cfg, Apply(cfg, s, run[0]), run[1..], c);
    }
  }

  // ---------------------------------------------------------------------- an empty pool

  ghost predicate NobodyJoins(run: seq<Label>) {
    forall i :: 0 <= i < |run| ==> !(run[i].Network? && run[i].f.Join?)
  }

  /** Nobody is connected, and the broadcaster has not got past its wait for somebody. */
  ghost predicate NoAudience(s: State) {
    s.pool == {} && (s.cast.WaitFrames? || s.cast.WaitViewer?)
  }

  /** Nothing was sent, and nothing left the ring. */
  ghost predicate NothingSent(s: State, s': State) {
    s'.payloads == s.payloads && s'.store.ring.tail == s.store.ring.tail
  }

  lemma HappenSendsNothing(s: State, f: FleetStep)
    requires WellFormed(s.store.ring) && CanHappen(s, f)
    ensures NothingSent(s, DoHappen(s, f)) && DoHappen(s, f).cast == s.cast
    ensures s.pool == {} && !f.Join? ==> DoHappen(s, f).pool == {}
  {
  }

  lemma StepWithoutAudience(cfg: Config, s: State, l: Label)
    requires Enabled(cfg, s, l) && NoAudience(s) && !(l.Network? && l.f.Join?)
    ensures NoAudience(Apply(cfg, s, l)) && NothingSent(s, Apply(cfg, s, l))
  {
    match l
    case Dispatcher(_) =>
    case Goroutine(k, g) => WorkFrame(s, k, g);
    case Broadcaster(_) =>
    case Network(f) => HappenSendsNothing(s, f);
  }

  /** No broadcasting into the void: until somebody joins, nothing is sent and nothing leaves the ring. */
  lemma {:induction false} NothingIsSentToNobody(cfg: Config, s: State, run: seq<Label>)
    requires Legal(cfg, s, run) && NoAudience(s) && NobodyJoins(run)
    ensures NoAudience(Exec(cfg, s, run)) && NothingSent(s, Exec(cfg, s, run))
    decreases |run|
  {
    if |run| == 0 {
    } else {
      StepWithoutAudience(cfg, s, run[0]);
      NothingIsSentToNobody(cfg, Apply(cfg, s, run[0]), run[1..]);
    }
  }

  /** Nobody is connected, and the dispatcher has not got past its wait for somebody. */
  ghost predicate NoWorkers(s: State) {
    s.pool == {} && (s.dispatch.WaitRoom? || s.dispatch.WaitWorker?)
  }

  /** No round was opened and no task filed. */
  ghost predicate NothingDispatched(s: State, s': State) {
    s'.spawned == s.spawned && s'.filed == s.filed && s'.rounds == s.rounds
  }

  lemma CastDispatchesNothing(cfg: Config, s: State, b: CastStep)
    requires WellFormed(s.store.ring) && CanCast(cfg, s, b)
    ensures NothingDispatched(s, DoCast(cfg, s, b))
    ensures DoCast(cfg, s, b).dispatch == s.dispatch && DoCast(cfg, s, b).pool == s.pool
  {
  }

  lemma HappenDispatchesNothing(s: State, f: FleetStep)
    requires WellFormed(s.store.ring) && CanHappen(s, f)
    ensures NothingDispatched(s, DoHappen(s, f)) && DoHappen(s, f).dispatch == s.dispatch
    ensures s.pool == {} && !f.Join? ==> DoHappen(s, f).pool == {}
  {
  }

  lemma StepWithoutWorkers(cfg: Config, s: State, l: Label)
    requires Enabled(cfg, s, l) && NoWorkers(s) && !(l.Network? && l.f.Join?)
    ensures NoWorkers(Apply(cfg, s, l)) && NothingDispatched(s, Apply(cfg, s, l))
  {
    match l
    case Dispatcher(_) =>
    case Goroutine(_, _) =>
    case Broadcaster(b) => CastDispatchesNothing(cfg, s, b);
    case Network(f) => HappenDispatchesNothing(s, f);
  }

  /** No dispatching without workers: until somebody joins, no round is opened. */
  lemma {:induction false} NothingIsDispatchedToNobody(cfg: Config, s: State, run: seq<Label>)
    requires Legal(cfg, s, run) && NoWorkers(s) && NobodyJoins(run)
    ensures NoWorkers(Exec(cfg, s, run)) && NothingDispatched(s, Exec(cfg, s, run))
    decreases |run|
  {
    if |run| == 0 {
    } else {
      StepWithoutWorkers(cfg, s, run[0]);
      NothingIsDispatchedToNobody(cfg, Apply(cfg, s, run[0]), run[1..]);
    }
  }
}
