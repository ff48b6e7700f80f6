/** Runs with honest workers: the broadcast is the animation, frame by frame. */
module Timeline {
  import opened Wire
  import opened FrameRing
  import opened Fleet
  import opened Pipeline
  import opened Invariant
  import opened Safety
  import opened Runs

  /** A renderer: the packed bytes of a frame number. */
  type Renderer = nat -> seq<byte>

  ghost predicate WholeFrames(render: Renderer) {
    forall f: nat :: |render(f)| == FRAME_SIZE
  }

  /** What a worker returns for `count` frames from `start` on. */
  function RenderRange(render: Renderer, start: nat, count: nat): seq<byte> {
    if count == 0 then [] else RenderRange(render, start, count - 1) + render(start + count - 1)
  }

  ghost function RenderBatch(render: Renderer, b: nat): seq<byte> {
    RenderRange(render, StartFrame(b), EndFrame(b) as int - StartFrame(b) as int + 1)
  }

  /** The first n frames of the endless animation; frame numbers repeat after MAX_FRAMES. */
  function Animation(render: Renderer, n: nat): seq<byte> {
    if n == 0 then [] else Animation(render, n - 1) + render((n - 1) % MAX_FRAMES)
  }

  lemma {:induction false} RangeLength(render: Renderer, start: nat, count: nat)
    requires WholeFrames(render)
    ensures |RenderRange(render, start, count)| == FRAME_SIZE * count
  {
    if count == 0 {
    } else {
      RangeLength(render, start, count - 1);
    }
  }

  lemma {:induction false} AnimationLength(render: Renderer, n: nat)
    requires WholeFrames(render)
    ensures |Animation(render, n)| == FRAME_SIZE * n
  {
    if n == 0 {
    } else {
      AnimationLength(render, n - 1);
    }
  }

  /** Frame k of the animation is found at its place, and shows frame number k mod MAX_FRAMES. */
  lemma {:induction false} AnimationFrame(render: Renderer, n: nat, k: nat)
    requires WholeFrames(render) && k < n
    ensures |Animation(render, n)| == FRAME_SIZE * n
    ensures Animation(render, n)[FRAME_SIZE * k..FRAME_SIZE * (k + 1)] == render(k % MAX_FRAMES)
  {
    AnimationLength(render, n);
    AnimationLength(render, n - 1);
    if k < n - 1 {
      AnimationFrame(render, n - 1, k);
      assert Animation(render, n)[FRAME_SIZE * k..FRAME_SIZE * (k + 1)]
             == Animation(render, n - 1)[FRAME_SIZE * k..FRAME_SIZE * (k + 1)];
    }
  }

  lemma {:induction false} AnimationByBatch(render: Renderer, b: nat, count: nat)
    requires count <= FRAMES_PER_BATCH
    ensures Animation(render, FRAMES_PER_BATCH * b + count) == Animation(render, FRAMES_PER_BATCH * b)
            + RenderRange(render, StartFrame(b), count)
    decreases count
  {
    if count == 0 {
    } else {
      AnimationByBatch(render, b, count - 1);
      FrameOfBatch(b, count - 1);
    }
  }

  lemma AnimationNextBatch(render: Renderer, b: nat)
    ensures Animation(render, FRAMES_PER_BATCH * (b + 1)) == Animation(render, FRAMES_PER_BATCH * b)
            + RenderBatch(render, b)
  {
    var count := EndFrame(b) as int - StartFrame(b) as int + 1;
    assert FRAMES_PER_BATCH * b + count == FRAMES_PER_BATCH * (b + 1);
    AnimationByBatch(render, b, count);
  }

  lemma FrameOfBatch(b: nat, i: nat)
    requires i < FRAMES_PER_BATCH
    ensures (FRAMES_PER_BATCH * b + i) % MAX_FRAMES == StartFrame(b) as int + i
  {
    assert FRAMES_PER_BATCH * b + i == MAX_FRAMES * (b / MAX_BATCHES) + (FRAMES_PER_BATCH * (b % MAX_BATCHES) + i);
  }

  // ------------------------------------------------------------------ honest workers

  /** An answer under a task ID that was ever filed for its sender is the rendering of the frames that ID named.
      Answers may be late, repeated or missing, and answers under other IDs may carry anything. */
  ghost predicate Honest(render: Renderer, s: State, l: Label) {
    l.Network? && l.f.Result? && Ticket(l.f.c, l.f.id) in s.filed ==>
      l.f.frames == RenderBatch(render, s.filed[Ticket(l.f.c, l.f.id)])
  }

  ghost predicate HonestRun(cfg: Config, render: Renderer, s: State, run: seq<Label>)
    requires Legal(cfg, s, run)
    decreases |run|
  {
    |run| == 0 || (Honest(render, s, run[0]) && HonestRun(cfg, render, Apply(cfg, s, run[0]), run[1..]))
  }

  /** An answer to a request the writer actually delivered: same ID, the requested frames rendered. */
  ghost predicate AnswersRequest(render: Renderer, s: State, f: FleetStep)
    requires f.Result?
  {
    f.c in s.clients &&
    exists m :: m in s.clients[f.c].link.taken && m.Work? && m.id == f.id && m.start <= m.end
                && f.frames == RenderRange(render, m.start as int, m.end as int - m.start as int + 1)
  }

  lemma {:induction false} SubsequenceElements(a: seq<Msg>, b: seq<Msg>, m: Msg)
    requires Subsequence(a, b) && m in a
    ensures m in b
    decreases |b|
  {
    if |b| == 0 {
    } else {
      var b' := b[..|b| - 1];
      if |a| > 0 && a[|a| - 1] == b[|b| - 1] && Subsequence(a[..|a| - 1], b') {
        if m in a[..|a| - 1] {
          SubsequenceElements(a[..|a| - 1], b', m);
        }
      } else {
        SubsequenceElements(a, b', m);
      }
    }
  }

  /** A worker that only renders what it was sent is honest, through any chain of timeouts and handovers. */
  lemma AnsweringRequestsIsHonest(cfg: Config, start: State, run: seq<Label>, s: State, render: Renderer, f: FleetStep)
    requires Reached(cfg, start, run, s) && f.Result? && AnswersRequest(render, s, f)
    ensures Honest(render, s, Network(f))
    ensures Ticket(f.c, f.id) in s.filed && |f.frames| == |RenderBatch(render, s.filed[Ticket(f.c, f.id)])|
  {
    EveryRunIsSafe(cfg, start, run, s);
    AnswerMatchesTicket(s, render, f);
  }

  lemma AnswerMatchesTicket(s: State, render: Renderer, f: FleetStep)
    requires FleetInv(s) && f.Result? && AnswersRequest(render, s, f)
    ensures Ticket(f.c, f.id) in s.filed && f.frames == RenderBatch(render, s.filed[Ticket(f.c, f.id)])
  {
    var link := s.clients[f.c].link;
    var m :| m in link.taken && m.Work? && m.id == f.id && m.start <= m.end
             && f.frames == RenderRange(render, m.start as int, m.end as int - m.start as int + 1);
    assert LinkOk(link);
    SubsequenceElements(link.taken + link.queue, link.offered, m);
  }

  ghost predicate AllRendered(render: Renderer, accepted: map<nat, seq<byte>>) {
    forall b :: b in accepted ==> accepted[b] == RenderBatch(render, b)
  }

  lemma StepRendered(cfg: Config, render: Renderer, s: State, l: Label)
    requires Inv(cfg, s) && Enabled(cfg, s, l) && Honest(render, s, l) && AllRendered(render, s.accepted)
    ensures AllRendered(render, Apply(cfg, s, l).accepted)
  {
    match l
    case Dispatcher(_) =>
    case Goroutine(k, g) => WorkFrame(s, k, g);
    case Broadcaster(b) => CastKeepsResults(cfg, s, b);
    case Network(f) => HappenRendered(cfg, render, s, f);
  }

  lemma HappenRendered(cfg: Config, render: Renderer, s: State, f: FleetStep)
    requires CoreInv(cfg, s) && WellFormed(s.store.ring) && CanHappen(s, f) && Honest(render, s, Network(f))
             && AllRendered(render, s.accepted)
    ensures AllRendered(render, DoHappen(s, f).accepted)
  {
    if f.Result? {
      var stored, k := ResultEffect(s, f.c, f.id, f.frames);
      if stored {
        assert StageTicketOk(s.clients, s.filed, HeadBatch(s.store.ring) + k, Jobs(s)[k].stage);
      }
    }
  }

  lemma {:induction false} HonestRunRendered(cfg: Config, render: Renderer, s: State, run: seq<Label>)
    requires Inv(cfg, s) && Legal(cfg, s, run) && Unwrapped(Exec(cfg, s, run))
    requires HonestRun(cfg, render, s, run) && AllRendered(render, s.accepted)
    ensures AllRendered(render, Exec(cfg, s, run).accepted)
    decreases |run|
  {
    if |run| == 0 {
    } else {
      FirstStepKeepsInv(cfg, s, run);
      StepRendered(cfg, render, s, run[0]);
      HonestRunRendered(cfg, render, Apply(cfg, s, run[0]), run[1..]);
    }
  }

  lemma {:induction false} JoinedIsAnimation(render: Renderer, accepted: map<nat, seq<byte>>, n: nat)
    requires AllRendered(render, accepted) && forall b: nat :: b < n ==> b in accepted
    ensures Joined(accepted, 0, n) == Animation(render, FRAMES_PER_BATCH * n)
  {
    if n == 0 {
    } else {
      JoinedIsAnimation(render, accepted, n - 1);
      AnimationNextBatch(render, n - 1);
    }
  }

  /** The main claim. With honest workers that may stall, repeat, lose answers, join and leave at will, the
      concatenation of all broadcasts is the animation from frame 0 on: no gap, no repeat, no reordering. */
  lemma BroadcastIsTheAnimation(cfg: Config, start: State, run: seq<Label>, s: State, render: Renderer)
    requires Reached(cfg, start, run, s) && HonestRun(cfg, render, start, run)
    ensures Concat(s.payloads) == Animation(render, FRAMES_PER_BATCH * Cut(cfg, |s.payloads|))
  {
    BroadcastIsAcceptedResultsInOrder(cfg, start, run, s);
    InitialInv(cfg, start);
    HonestRunRendered(cfg, render, start, run);
    JoinedIsAnimation(render, s.accepted, Cut(cfg, |s.payloads|));
  }
}
