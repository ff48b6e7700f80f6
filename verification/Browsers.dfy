/** A fleet of browsers: every answer is what a browser sends back for a request its writer delivered. */
module Browsers {
  import opened Wire
  import opened FrameRing
  import opened Pipeline
  import opened Invariant
  import opened Runs
  import opened Timeline
  import opened Progress
  import opened EndToEnd
  import Viewer

  // --------------------------------------------------------------- answers as bytes

  /** The server takes the browser's reply to message m as this result. */
  ghost predicate RepliesTo(glyphs: Donut, m: Msg, result: RenderResult) {
    var reply := Reply(glyphs, Encode(m));
    reply.Some? && Classify(reply.value) == Answer(result)
  }

  /** A result step is a browser's reply to some message it has received, at any later time and any number of times. */
  ghost predicate Posts(glyphs: Donut, s: State, f: FleetStep)
    requires f.Result?
  {
    f.c in s.clients && exists m :: m in s.clients[f.c].link.taken && RepliesTo(glyphs, m, RenderResult(f.id, f.frames))
  }

  /** A run in which all results are browsers' replies. */
  ghost predicate BrowserRun(cfg: Config, glyphs: Donut, s: State, run: seq<Label>)
    requires Legal(cfg, s, run)
    decreases |run|
  {
    |run| == 0
    || ((run[0].Network? && run[0].f.Result? ==> Posts(glyphs, s, run[0].f))
        && BrowserRun(cfg, glyphs, Apply(cfg, s, run[0]), run[1..]))
  }

  lemma OneAnswerForEachEncoding(id: u32, frames: seq<byte>, result: RenderResult)
    requires Classify(EncodeAnswer(id, frames)) == Answer(result)
    ensures |frames| == BATCH_SIZE && result == RenderResult(id, frames)
  {
    var data := EncodeAnswer(id, frames);
    AnswersAreExactlyEncodings(data, id, frames);
  }

  /** Only a request is replied to, with the rendering of its range under its ID, and only whole batches count. */
  lemma ReplyRendersRequest(glyphs: Donut, m: Msg, result: RenderResult)
    requires WholeDonut(glyphs) && RepliesTo(glyphs, m, result)
    ensures m.Work? && m.id == result.id && m.start <= m.end
    ensures result.frames == RenderRange(Packed(glyphs), m.start as int, m.end as int - m.start as int + 1)
  {
    PageReadsWhatServerSends(m);
    PackedIsWhole(glyphs);
    var count := m.end as int - m.start as int + 1;
    RangeLength(Packed(glyphs), m.start as int, count);
    OneAnswerForEachEncoding(m.id, RenderRange(Packed(glyphs), m.start as int, count), result);
  }

  lemma PostIsHonest(s: State, glyphs: Donut, f: FleetStep)
    requires FleetInv(s) && WholeDonut(glyphs) && f.Result? && Posts(glyphs, s, f)
    ensures Honest(Packed(glyphs), s, Network(f))
  {
    var m :| m in s.clients[f.c].link.taken && RepliesTo(glyphs, m, RenderResult(f.id, f.frames));
    ReplyRendersRequest(glyphs, m, RenderResult(f.id, f.frames));
    AnswerMatchesTicket(s, Packed(glyphs), f);
  }

  lemma {:induction false} BrowsersAreHonest(cfg: Config, s: State, run: seq<Label>, glyphs: Donut)
    requires Inv(cfg, s) && Legal(cfg, s, run) && Unwrapped(Exec(cfg, s, run))
    requires WholeDonut(glyphs) && BrowserRun(cfg, glyphs, s, run)
    ensures HonestRun(cfg, Packed(glyphs), s, run)
    decreases |run|
  {
    if |run| == 0 {
    } else {
      FirstStepKeepsInv(cfg, s, run);
      if run[0].Network? && run[0].f.Result? {
        PostIsHonest(s, glyphs, run[0].f);
      }
      BrowsersAreHonest(cfg, Apply(cfg, s, run[0]), run[1..], glyphs);
    }
  }

  // ------------------------------------------------------------------- what they see

  /** From one browser's canvas to another's, in bytes all the way: if every result in the run is a browser's reply
      to a request it received, a connected viewer that lost no message and whose ring never overflowed plays
      exactly the frames of the animation, in order, from its first broadcast on. */
  lemma BrowsersPlayTheAnimation(cfg: Config, start: State, run: seq<Label>, s: State, glyphs: Donut, c: u32,
          ops: seq<Viewer.Op>)
    requires Reached(cfg, start, run, s) && WholeDonut(glyphs) && BrowserRun(cfg, glyphs, start, run)
    requires c in s.pool && c in s.clients && s.clients[c].link.dropped == 0
    requires Viewer.Play(ops).arrived == PageFramesOf(s.clients[c].link.taken) && Viewer.Play(ops).dropped == 0
    ensures Plays(glyphs, Viewer.Play(ops), FrameCut(cfg, s.clients[c].since), FrameCut(cfg, NextCast(s, c)))
  {
    InitialInv(cfg, start);
    BrowsersAreHonest(cfg, start, run, glyphs);
    ViewerPlaysWhatWorkersRendered(cfg, start, run, s, glyphs, c, ops);
  }

  /** One connected browser is enough for another broadcast that fits the ring. */
  lemma OneBrowserIsEnough(cfg: Config, start: State, run: seq<Label>, s: State, glyphs: Donut, w: u32)
    requires Reached(cfg, start, run, s) && WholeDonut(glyphs)
    requires w in s.pool && NextSize(cfg, s) <= MAX_BATCHES && IdsLeft(s)
    ensures w in s.clients && exists plan :: BroadcastPlan(cfg, Packed(glyphs), w, s, plan)
  {
    PackedIsWhole(glyphs);
    AnotherBroadcastIsReachable(cfg, start, run, s, w, Packed(glyphs));
    IdsLeftIsBudget(cfg, start, run, s, w);
  }
}
