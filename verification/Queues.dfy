/** Every client's queue lives alone: in any run of the pipeline it behaves as an isolated queue fed with exactly
    the messages addressed to that client. */
module Queues {
  import opened Wire
  import opened FrameRing
  import opened Fleet
  import opened Pipeline
  import opened Invariant
  import opened Safety
  import opened Runs

  /** What a step does to client c's queue: a request from a goroutine that has c as its worker, a broadcast's turn
      for c, telemetry to c, or c's own writer. */
  function OpFor(s: State, l: Label, c: u32): Option<LinkOp> {
    match l
    case Goroutine(k, Request) =>
      if AtStage(s, k) && Jobs(s)[k].stage.Registered? && Jobs(s)[k].stage.client == c
      then Some(Offered(Work(Jobs(s)[k].stage.id, Jobs(s)[k].start, Jobs(s)[k].end)))
      else None
    case Broadcaster(Fan(d)) => if d == c && s.cast.Fanning? then Some(Offered(Frames(s.cast.payload))) else None
    case Network(Telemetry(d, m)) => if d == c then Some(Offered(m)) else None
    case Network(Deliver(d)) => if d == c then Some(Written) else None
    case _ => None
  }

  function ListOf(op: Option<LinkOp>): seq<LinkOp> {
    if op.Some? then [op.value] else []
  }

  /** The events at c's queue along a run. */
  ghost function OpsFor(cfg: Config, s: State, run: seq<Label>, c: u32): seq<LinkOp>
    requires Legal(cfg, s, run)
    decreases |run|
  {
    if |run| == 0 then [] else ListOf(OpFor(s, run[0], c)) + OpsFor(cfg, Apply(cfg, s, run[0]), run[1..], c)
  }

  /** A client's queue; one that is not connected yet counts as empty. */
  function LinkOf(s: State, c: u32): Link {
    if c in s.clients then s.clients[c].link else EMPTY_LINK
  }

  function Stepped(l: Link, op: Option<LinkOp>): Link {
    if op.Some? then LinkStep(l, op.value) else l
  }

  lemma WorkOnQueue(s: State, k: nat, g: JobStep, c: u32)
    requires CanWork(s, k, g)
    ensures LinkOf(DoWork(s, k, g), c) == Stepped(LinkOf(s, c), OpFor(s, Goroutine(k, g), c))
  {
    WorkOnClients(s, k, g);
  }

  lemma CastOnQueue(cfg: Config, s: State, b: CastStep, c: u32)
    requires WellFormed(s.store.ring) && CanCast(cfg, s, b)
    ensures LinkOf(DoCast(cfg, s, b), c) == Stepped(LinkOf(s, c), OpFor(s, Broadcaster(b), c))
  {
  }

  lemma HappenOnQueue(s: State, f: FleetStep, c: u32)
    requires JoiningOk(s.joining, s.clients, s.connected) && WellFormed(s.store.ring) && CanHappen(s, f)
    ensures LinkOf(DoHappen(s, f), c) == Stepped(LinkOf(s, c), OpFor(s, Network(f), c))
  {
  }

  lemma StepOnQueue(cfg: Config, s: State, l: Label, c: u32)
    requires Inv(cfg, s) && Enabled(cfg, s, l)
    ensures LinkOf(Apply(cfg, s, l), c) == Stepped(LinkOf(s, c), OpFor(s, l, c))
  {
    match l
    case Dispatcher(_) =>
    case Goroutine(k, g) => WorkOnQueue(s, k, g, c);
    case Broadcaster(b) => CastOnQueue(cfg, s, b, c);
    case Network(f) => HappenOnQueue(s, f, c);
  }

  /** A queue run, first event first. */
  function Fold(l: Link, ops: seq<LinkOp>): Link
    decreases |ops|
  {
    if |ops| == 0 then l else Fold(LinkStep(l, ops[0]), ops[1..])
  }

  lemma FoldFirst(l: Link, op: Option<LinkOp>, ops: seq<LinkOp>)
    ensures Fold(l, ListOf(op) + ops) == Fold(Stepped(l, op), ops)
  {
    if op.Some? {
      assert ([op.value] + ops)[1..] == ops;
    } else {
      assert [] + ops == ops;
    }
  }

  lemma {:induction false} FoldLast(l: Link, ops: seq<LinkOp>, op: LinkOp)
    ensures Fold(l, ops + [op]) == LinkStep(Fold(l, ops), op)
    decreases |ops|
  {
    if |ops| == 0 {
      assert ops + [op] == [op];
    } else {
      assert (ops + [op])[1..] == ops[1..] + [op];
      FoldLast(LinkStep(l, ops[0]), ops[1..], op);
    }
  }

  lemma {:induction false} FoldIsRun(ops: seq<LinkOp>)
    ensures Fold(EMPTY_LINK, ops) == RunLink(ops)
    decreases |ops|
  {
    if |ops| == 0 {
    } else {
      var n := |ops| - 1;
      FoldIsRun(ops[..n]);
      FoldLast(EMPTY_LINK, ops[..n], ops[n]);
      assert ops[..n] + [ops[n]] == ops;
    }
  }

  lemma {:induction false} RunOnQueue(cfg: Config, s: State, run: seq<Label>, c: u32)
    requires Inv(cfg, s) && Legal(cfg, s, run) && Unwrapped(Exec(cfg, s, run))
    ensures LinkOf(Exec(cfg, s, run), c) == Fold(LinkOf(s, c), OpsFor(cfg, s, run, c))
    decreases |run|
  {
    if |run| == 0 {
    } else {
      var s1 := Apply(cfg, s, run[0]);
      FirstStepKeepsInv(cfg, s, run);
      StepOnQueue(cfg, s, run[0], c);
      RunOnQueue(cfg, s1, run[1..], c);
      FoldFirst(LinkOf(s, c), OpFor(s, run[0], c), OpsFor(cfg, s1, run[1..], c));
    }
  }

  /** In every run each client's queue, with its whole history, is that of a lone queue under the events addressed
      to it; nobody else's speed matters. In particular it has lost a message exactly when at some point more than
      15 were waiting for its own writer. */
  lemma QueuesAreIndependent(cfg: Config, start: State, run: seq<Label>, s: State, c: u32)
    requires Reached(cfg, start, run, s)
    ensures LinkOf(s, c) == RunLink(OpsFor(cfg, start, run, c))
    ensures LinkOf(s, c).dropped == 0 <==> KeepsUp(OpsFor(cfg, start, run, c))
  {
    InitialInv(cfg, start);
    RunOnQueue(cfg, start, run, c);
    FoldIsRun(OpsFor(cfg, start, run, c));
    LosesNothingExactlyWhenKeepingUp(OpsFor(cfg, start, run, c));
  }
}
