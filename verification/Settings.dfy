/** Which settings the pipeline is live under: exactly those whose rounds and broadcasts fit the ring. */
module Settings {
  import opened Wire
  import opened FrameRing
  import opened Fleet
  import opened TaskTable
  import opened Pipeline
  import opened Invariant
  import opened Safety
  import opened Runs
  import opened Timeline
  import opened Progress

  // ------------------------------------------------------------- oversized broadcasts

  lemma {:induction false} AtMostTheFirst(cfg: Config, s: State, run: seq<Label>)
    requires Inv(cfg, s) && cfg.subsequent > MAX_BATCHES && Legal(cfg, s, run) && Unwrapped(Exec(cfg, s, run))
    requires |s.payloads| <= 1
    ensures |Exec(cfg, s, run).payloads| <= 1
    decreases |run|
  {
    if |s.payloads| == 1 {
      NoBroadcastWithoutRoom(cfg, s, run);
    } else if |run| == 0 {
    } else {
      FirstStepKeepsInv(cfg, s, run);
      if run[0] != Broadcaster(StartCast) {
        NextSizeStays(cfg, s, run[0]);
      }
      AtMostTheFirst(cfg, Apply(cfg, s, run[0]), run[1..]);
    }
  }

  /** A first setting above the ring's size stops the very first broadcast, a later one above it every further one. */
  lemma OversizedSettingsStopBroadcasts(cfg: Config, start: State, run: seq<Label>, s: State)
    requires Reached(cfg, start, run, s)
    ensures cfg.first > MAX_BATCHES ==> s.payloads == []
    ensures cfg.subsequent > MAX_BATCHES ==> |s.payloads| <= 1
  {
    InitialInv(cfg, start);
    if cfg.first > MAX_BATCHES {
      NoBroadcastWithoutRoom(cfg, start, run);
    }
    if cfg.subsequent > MAX_BATCHES {
      AtMostTheFirst(cfg, start, run);
    }
  }

  // ---------------------------------------------------------------- the two waits

  /** Once both waits are blocked they stay blocked, whatever the clients do, and nothing is ever sent again. */
  lemma {:induction false} BlockedForEver(cfg: Config, s: State, run: seq<Label>)
    requires Inv(cfg, s) && BothWaitsBlocked(cfg, s) && Legal(cfg, s, run) && Unwrapped(Exec(cfg, s, run))
    ensures BothWaitsBlocked(cfg, Exec(cfg, s, run)) && Exec(cfg, s, run).payloads == s.payloads
    decreases |run|
  {
    if |run| == 0 {
    } else {
      FirstStepKeepsInv(cfg, s, run);
      BlockedStaysBlocked(cfg, s, run[0]);
      BlockedForEver(cfg, Apply(cfg, s, run[0]), run[1..]);
    }
  }

  lemma BlockedStaysBlocked(cfg: Config, s: State, l: Label)
    requires Inv(cfg, s) && BothWaitsBlocked(cfg, s) && Enabled(cfg, s, l)
    ensures BothWaitsBlocked(cfg, Apply(cfg, s, l)) && Apply(cfg, s, l).payloads == s.payloads
  {
    if l.Network? {
      QuietNetwork(cfg, s, l.f);
    }
  }

  /** Outside a round clients change neither the ring nor where the loops stand. */
  lemma QuietNetwork(cfg: Config, s: State, f: FleetStep)
    requires CoreInv(cfg, s) && s.dispatch.WaitRoom? && WellFormed(s.store.ring) && CanHappen(s, f)
    ensures var s' := DoHappen(s, f);
            && s'.store.ring == s.store.ring && s'.dispatch == s.dispatch && s'.firstRound == s.firstRound
            && s'.cast == s.cast && s'.firstCast == s.firstCast && s'.payloads == s.payloads
  {
    if f.Result? {
      var stored, k := ResultEffect(s, f.c, f.id, f.frames);
    }
  }

  lemma StepByStep(run: seq<Label>, plan: seq<Label>)
    requires |plan| > 0
    ensures run + [plan[0]] + plan[1..] == run + plan
  {
  }

  lemma {:induction false} RunContinuesWith(cfg: Config, start: State, run: seq<Label>, s: State, plan: seq<Label>)
    requires Reached(cfg, start, run, s) && Inv(cfg, s) && Legal(cfg, s, plan) && Unwrapped(Exec(cfg, s, plan))
    ensures Reached(cfg, start, run + plan, Exec(cfg, s, plan))
    decreases |plan|
  {
    if |plan| == 0 {
      assert run + plan == run;
    } else {
      FirstStepKeepsInv(cfg, s, plan);
      ReachedContinues(cfg, start, run, s, plan[0]);
      RunContinuesWith(cfg, start, run + [plan[0]], Apply(cfg, s, plan[0]), plan[1..]);
      StepByStep(run, plan);
    }
  }

  /** What finishing a broadcast does to the loops. */
  ghost predicate CastFinished(s: State, s': State) {
    s'.cast.WaitFrames? && !s'.firstCast && s'.firstRound == s.firstRound
  }

  lemma TrimStep(cfg: Config, start: State, run: seq<Label>, s: State)
    requires Reached(cfg, start, run, s) && s.cast.Fanning? && s.cast.rest == {}
    ensures Enabled(cfg, s, Broadcaster(Trim)) && CastFinished(s, Apply(cfg, s, Broadcaster(Trim)))
    ensures Reached(cfg, start, run + [Broadcaster(Trim)], Apply(cfg, s, Broadcaster(Trim)))
  {
    EveryRunIsSafe(cfg, start, run, s);
    QueriesCountBatches(s.store.ring, CastSize(cfg, s));
    RemoveAligned(s.store.ring, CastSize(cfg, s));
    ReachedContinues(cfg, start, run, s, Broadcaster(Trim));
  }

  lemma FanStep(cfg: Config, start: State, run: seq<Label>, s: State, c: u32)
    requires Reached(cfg, start, run, s) && s.cast.Fanning? && c in s.cast.rest
    ensures Enabled(cfg, s, Broadcaster(Fan(c)))
    ensures var s' := Apply(cfg, s, Broadcaster(Fan(c)));
            && Reached(cfg, start, run + [Broadcaster(Fan(c))], s')
            && s'.cast.Fanning? && s'.cast.rest < s.cast.rest && s'.firstRound == s.firstRound
  {
    EveryRunIsSafe(cfg, start, run, s);
    QueriesCountBatches(s.store.ring, 0);
    ReachedContinues(cfg, start, run, s, Broadcaster(Fan(c)));
  }

  /** A broadcast in progress can be finished. */
  lemma {:induction false} FinishCast(cfg: Config, start: State, run: seq<Label>, s: State)
          returns (run': seq<Label>, s': State)
    requires Reached(cfg, start, run, s) && s.cast.Fanning?
    ensures Reached(cfg, start, run', s') && CastFinished(s, s')
    decreases Rest(s.cast)
  {
    if s.cast.rest == {} {
      TrimStep(cfg, start, run, s);
      run', s' := run + [Broadcaster(Trim)], Apply(cfg, s, Broadcaster(Trim));
    } else {
      var c :| c in s.cast.rest;
      FanStep(cfg, start, run, s, c);
      run', s' := FinishCast(cfg, start, run + [Broadcaster(Fan(c))], Apply(cfg, s, Broadcaster(Fan(c))));
    }
  }

  /** A first round of no batches is over at once. */
  lemma EmptyFirstRound(cfg: Config, start: State, run: seq<Label>, s: State) returns (run': seq<Label>, s': State)
    requires Reached(cfg, start, run, s) && s.dispatch.WaitRoom? && s.firstRound && cfg.first == 0 && s.pool != {}
    ensures Reached(cfg, start, run', s') && !s'.firstRound && s'.pool == s.pool && s'.clients == s.clients
    ensures s'.cast == s.cast && s'.firstCast == s.firstCast && s'.payloads == s.payloads
  {
    EveryRunIsSafe(cfg, start, run, s);
    QueriesCountBatches(s.store.ring, 0);
    ReachedContinues(cfg, start, run, s, Dispatcher(RoomFound));
    var s1, run1 := DoDispatch(cfg, s, RoomFound), run + [Dispatcher(RoomFound)];
    ReachedContinues(cfg, start, run1, s1, Dispatcher(WorkerFound));
    var s2, run2 := DoDispatch(cfg, s1, WorkerFound), run1 + [Dispatcher(WorkerFound)];
    ReachedContinues(cfg, start, run2, s2, Dispatcher(OpenRound));
    var s3, run3 := DoDispatch(cfg, s2, OpenRound), run2 + [Dispatcher(OpenRound)];
    ReachedContinues(cfg, start, run3, s3, Dispatcher(CloseRound));
    run', s' := run3 + [Dispatcher(CloseRound)], DoDispatch(cfg, s3, CloseRound);
  }

  /** A fresh server that one browser has joined. */
  lemma OneBrowser(cfg: Config) returns (start: State, run: seq<Label>, s: State)
    ensures Reached(cfg, start, run, s) && 1 in s.pool && s.clients == map[1 := Peer(0, EMPTY_LINK, 0)]
    ensures s.dispatch.WaitRoom? && s.firstRound && s.cast.WaitFrames? && s.firstCast && s.payloads == []
            && s.connected == 1
  {
    start := State(Store(map[], {}, Ring(seq(BUFFER_SIZE, _ => 0), 0, 0)),
                   WaitRoom, true, 0, WaitFrames, true, {}, map[], 0, {}, false, 0, [], map[], map[]);
    assert Reached(cfg, start, [], start);
    NewcomerJoins(cfg, start, [], start);
    run, s := [] + [Network(Connect)] + [Network(Join(1))], WithNewcomer(start);
  }

  /** From there the first broadcast goes out if it fits, and the round that brought it is over or empty. */
  lemma FirstBroadcast(cfg: Config) returns (start: State, run: seq<Label>, s: State)
    requires cfg.first <= MAX_BATCHES
    ensures Reached(cfg, start, run, s) && s.cast.WaitFrames? && !s.firstCast && !s.firstRound
  {
    var run0, s0;
    start, run0, s0 := OneBrowser(cfg);
    if cfg.first == 0 {
      run0, s0 := EmptyFirstRound(cfg, start, run0, s0);
    }
    var run1, s1 := StartedBroadcast(cfg, start, run0, s0);
    run, s := FinishCast(cfg, start, run1, s1);
    EveryRunIsSafe(cfg, start, run, s);
    CutMonotone(cfg, 1, |s.payloads|);
  }

  lemma StartedBroadcast(cfg: Config, start: State, run: seq<Label>, s: State) returns (run': seq<Label>, s': State)
    requires Reached(cfg, start, run, s) && 1 in s.pool && s.clients == map[1 := Peer(0, EMPTY_LINK, 0)]
    requires s.cast.WaitFrames? && s.firstCast && cfg.first <= MAX_BATCHES
    ensures Reached(cfg, start, run', s') && s'.cast.Fanning? && (!s.firstRound ==> !s'.firstRound)
  {
    var render: Renderer := _ => seq(FRAME_SIZE, _ => 0);
    EveryRunIsSafe(cfg, start, run, s);
    IdsLeftIsBudget(cfg, start, run, s, 1);
    ReachedIsReady(cfg, start, run, s, 1);
    var plan := BroadcastWithin(cfg, s, 1, render);
    RunContinuesWith(cfg, start, run, s, plan);
    RunRounds(cfg, s, plan);
    EveryRunIsSafe(cfg, start, run + plan, Exec(cfg, s, plan));
    run', s' := run + plan, Exec(cfg, s, plan);
  }

  /** The two waits can come to block each other exactly when a round or a broadcast exceeds the ring. */
  lemma WaitsDeadlockExactlyWhenOversized(cfg: Config)
    ensures (exists start, run, s :: Reached(cfg, start, run, s) && BothWaitsBlocked(cfg, s)) <==> !Fits(cfg)
  {
    if cfg.first > MAX_BATCHES {
      var start, run, s := OneBrowser(cfg);
      OversizedBlocks(cfg, start, run, s);
    } else if cfg.subsequent > MAX_BATCHES {
      var start, run, s := FirstBroadcast(cfg);
      OversizedBlocks(cfg, start, run, s);
    } else {
      forall start, run, s | Reached(cfg, start, run, s)
        ensures !BothWaitsBlocked(cfg, s)
      {
        SomeWaitPasses(cfg, start, run, s);
      }
    }
  }

  lemma OversizedBlocks(cfg: Config, start: State, run: seq<Label>, s: State)
    requires Reached(cfg, start, run, s) && s.cast.WaitFrames?
    requires RoundSize(cfg, s) > MAX_BATCHES && CastSize(cfg, s) > MAX_BATCHES
    ensures BothWaitsBlocked(cfg, s)
  {
    EveryRunIsSafe(cfg, start, run, s);
    QueriesCountBatches(s.store.ring, RoundSize(cfg, s));
    QueriesCountBatches(s.store.ring, CastSize(cfg, s));
  }
}
