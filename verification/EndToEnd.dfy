/** From the glyphs a worker renders to the glyphs a viewer plays: packing, parsing, storing, broadcasting,
    unpacking and playback composed. */
module EndToEnd {
  import opened Wire
  import opened FrameRing
  import opened Fleet
  import opened Pipeline
  import opened Invariant
  import opened Runs
  import opened Timeline
  import Codec
  import Viewer

  /** The donut renderer: frame number to characters. */
  type Donut = nat -> string

  ghost predicate WholeDonut(glyphs: Donut) {
    forall f: nat :: Codec.WholeDonut(glyphs(f))
  }

  /** A browser worker, seen by the server. */
  function Packed(glyphs: Donut): Renderer {
    f => if Codec.AllGlyphs(glyphs(f)) then Codec.PackFrame(glyphs(f)) else []
  }

  /** Frames lo, ..., hi - 1 of the animation, as text. */
  function Shown(glyphs: Donut, lo: nat, hi: nat): seq<string>
    decreases hi
  {
    if hi <= lo then [] else Shown(glyphs, lo, hi - 1) + [glyphs((hi - 1) % MAX_FRAMES)]
  }

  lemma {:induction false} ShownSplit(glyphs: Donut, lo: nat, mid: nat, hi: nat)
    requires lo <= mid <= hi
    ensures Shown(glyphs, lo, hi) == Shown(glyphs, lo, mid) + Shown(glyphs, mid, hi)
    decreases hi
  {
    if hi <= mid {
    } else {
      ShownSplit(glyphs, lo, mid, hi - 1);
    }
  }

  /** Frame i of what is shown is the animation frame number it should be. */
  lemma {:induction false} ShownFrames(glyphs: Donut, lo: nat, hi: nat)
    requires lo <= hi
    ensures |Shown(glyphs, lo, hi)| == hi - lo
    ensures forall i :: 0 <= i < hi - lo ==> Shown(glyphs, lo, hi)[i] == glyphs((lo + i) % MAX_FRAMES)
    decreases hi
  {
    if hi <= lo {
    } else {
      ShownFrames(glyphs, lo, hi - 1);
    }
  }

  lemma PackedIsWhole(glyphs: Donut)
    requires WholeDonut(glyphs)
    ensures WholeFrames(Packed(glyphs))
  {
    forall f: nat
      ensures |Packed(glyphs)(f)| == FRAME_SIZE
    {
      Codec.UnpackPack(glyphs(f));
    }
  }

  // --------------------------------------------------------------------- the worker's end

  lemma RenderedAreWhole(glyphs: Donut, start: nat, frames: seq<string>)
    requires WholeDonut(glyphs) && forall i :: 0 <= i < |frames| ==> frames[i] == glyphs(start + i)
    ensures Codec.WholeDonuts(frames) && Codec.AllFrames(frames)
  {
    forall i | 0 <= i < |frames|
      ensures Codec.WholeDonut(frames[i])
    {
      assert frames[i] == glyphs(start + i);
    }
  }

  /** What the worker's two loops produce for a request is what the pipeline calls rendering the range. */
  lemma {:induction false} WorkerRendersRange(glyphs: Donut, start: nat, frames: seq<string>)
    requires WholeDonut(glyphs) && forall i :: 0 <= i < |frames| ==> frames[i] == glyphs(start + i)
    ensures Codec.WholeDonuts(frames) && Codec.AllFrames(frames)
    ensures Codec.PackAll(frames) == RenderRange(Packed(glyphs), start, |frames|)
    decreases |frames|
  {
    RenderedAreWhole(glyphs, start, frames);
    if |frames| > 0 {
      var n := |frames| - 1;
      WorkerRendersRange(glyphs, start, frames[..n]);
      assert frames[n] == glyphs(start + n);
    }
  }

  /** The answer to a request for a range of frames, if there can be an array for them. */
  function RangeReply(glyphs: Donut, id: u32, start: u32, end: u32): Option<seq<byte>> {
    var count := end as int - start as int + 1;
    if 0 <= count < TWO_32 then Some(EncodeAnswer(id, RenderRange(Packed(glyphs), start as int, count))) else None
  }

  /** What a browser sends back for a message: nothing unless it parses as a request. */
  function Reply(glyphs: Donut, data: seq<byte>): Option<seq<byte>> {
    match ParseByPage(data)
    case Ok(Some(Work(id, start, end))) => RangeReply(glyphs, id, start, end)
    case _ => None
  }

  lemma ReplyToRequest(glyphs: Donut, id: u32, start: u32, end: u32)
    ensures Reply(glyphs, Encode(Work(id, start, end))) == RangeReply(glyphs, id, start, end)
  {
    PageReadsWhatServerSends(Work(id, start, end));
  }

  /** A browser answers requests for possible ranges, and no other message. */
  lemma OnlyRequestsAreAnswered(glyphs: Donut, m: Msg)
    ensures Reply(glyphs, Encode(m)).Some? <==> m.Work? && 0 <= m.end as int - m.start as int + 1 < TWO_32
  {
    PageReadsWhatServerSends(m);
  }

  /** The server takes an answer for a range exactly when the range is one whole batch. */
  lemma WholeBatchesAreAccepted(glyphs: Donut, id: u32, start: nat, count: nat)
    requires WholeDonut(glyphs)
    ensures var frames := RenderRange(Packed(glyphs), start, count);
            var message := EncodeAnswer(id, frames);
            if count == FRAMES_PER_BATCH
            then Classify(message) == Answer(RenderResult(id, frames)) && |message| <= MAX_INCOMING_BYTES
            else Classify(message).Invalid?
  {
    var frames := RenderRange(Packed(glyphs), start, count);
    PackedIsWhole(glyphs);
    RangeLength(Packed(glyphs), start, count);
    if count == FRAMES_PER_BATCH {
      AnswersAreExactlyEncodings(EncodeAnswer(id, frames), id, frames);
    } else {
      WrongSizeIsRefused(id, frames);
    }
  }

  /** A browser handling a delivered request: it posts the rendering of the requested frames under the requested ID,
      and the server takes that message as an honest worker's answer exactly when the range is one whole batch. */
  method HandleRequest(glyphs: Donut, id: u32, startFrame: u32, endFrame: u32) returns (message: Parsed<seq<byte>>)
    requires WholeDonut(glyphs)
    ensures message.Ok? <==> 0 <= endFrame as int - startFrame as int + 1 < TWO_32
    ensures Reply(glyphs, Encode(Work(id, startFrame, endFrame))) == if message.Ok? then Some(message.value) else None
    ensures message.Ok? ==>
              var frames := RenderRange(Packed(glyphs), startFrame as int, endFrame as int - startFrame as int + 1);
              && message.value == EncodeAnswer(id, frames)
              && (endFrame as int == startFrame as int + 59 ==>
                    Classify(message.value) == Answer(RenderResult(id, frames))
                        && |message.value| <= MAX_INCOMING_BYTES)
              && (endFrame as int != startFrame as int + 59 ==> Classify(message.value).Invalid?)
  {
    ReplyToRequest(glyphs, id, startFrame, endFrame);
    var created := Codec.CreateFrames(glyphs, startFrame, endFrame);
    if created.Err? {
      return Err(created.reason);
    }
    WorkerRendersRange(glyphs, startFrame as int, created.value);
    WholeBatchesAreAccepted(glyphs, id, startFrame as int, |created.value|);
    message := Codec.EncodeRenderResult(id, created.value);
  }

  // --------------------------------------------------------------------- the viewer's end

  /** What decoding one broadcast payload puts into the playback ring; a nibble outside the alphabet throws first. */
  function PayloadFrames(payload: seq<byte>): seq<string> {
    if Codec.Decodable(payload) then Codec.Decode(payload) else []
  }

  /** What the page's message handler hands to the playback ring for one message. */
  function PageFrames(m: Msg): seq<string> {
    match ParseByPage(Encode(m))
    case Ok(Some(Frames(payload))) => PayloadFrames(payload)
    case _ => []
  }

  /** The page's handler for one message: a broadcast that decodes goes into the playback ring in one push, a bad
      nibble throws before anything is pushed, and no other message touches the ring. */
  method OnMessage(ring: Viewer.CircularBuffer, data: seq<byte>)
    requires ring.Valid()
    modifies ring`head, ring`tail, ring`count, ring.frames
    ensures ring.Valid()
    ensures |data| > 0 && data[0] == FRAME_BROADCAST && Codec.Decodable(data[1..]) ==>
              ring.Contents() == Viewer.Newest(old(ring.Contents()) + Codec.Decode(data[1..]))
    ensures !(|data| > 0 && data[0] == FRAME_BROADCAST && Codec.Decodable(data[1..])) ==>
              ring.Contents() == old(ring.Contents())
  {
    PageThrowsExactlyOnShortMessages(data);
    match ParseByPage(data) {
      case Ok(Some(Frames(payload))) =>
        var decoded := Codec.DecodeFrames(payload);
        if decoded.Ok? {
          ring.Push(decoded.value);
        }
      case _ =>
    }
  }

  /** For a message from the server that is exactly what the handler adds; an undecodable payload adds no frame. */
  lemma HandlerAddsPageFrames(m: Msg)
    ensures var data := Encode(m);
            PageFrames(m) ==
            if data[0] == FRAME_BROADCAST && Codec.Decodable(data[1..]) then Codec.Decode(data[1..]) else []
  {
    PageReadsWhatServerSends(m);
    if m.Frames? {
      assert Encode(m)[1..] == m.payload;
    }
  }

  /** The results of f on each element, one after another. */
  function Gather<T>(f: T -> seq<string>, xs: seq<T>): seq<string> {
    if |xs| == 0 then [] else Gather(f, xs[..|xs| - 1]) + f(xs[|xs| - 1])
  }

  /** What the page hands to the playback ring for a sequence of messages. */
  function PageFramesOf(msgs: seq<Msg>): seq<string> {
    Gather(PageFrames, msgs)
  }

  ghost function AllPayloadFrames(payloads: seq<seq<byte>>): seq<string> {
    Gather(PayloadFrames, payloads)
  }

  lemma PageFramesOfMessage(m: Msg)
    ensures PageFrames(m) == if m.Frames? then PayloadFrames(m.payload) else []
  {
    PageReadsWhatServerSends(m);
  }

  lemma GatherAppend<T>(f: T -> seq<string>, xs: seq<T>, x: T)
    ensures Gather(f, xs + [x]) == Gather(f, xs) + f(x)
  {
    assert (xs + [x])[..|xs|] == xs;
  }

  /** Messages other than broadcasts contribute nothing. */
  lemma {:induction false} GatherBroadcasts(f: Msg -> seq<string>, g: seq<byte> -> seq<string>, msgs: seq<Msg>)
    requires forall m :: f(m) == if m.Frames? then g(m.payload) else []
    ensures Gather(f, msgs) == Gather(g, FramesOf(msgs))
    decreases |msgs|
  {
    if |msgs| == 0 {
    } else {
      var before, m := msgs[..|msgs| - 1], msgs[|msgs| - 1];
      assert before + [m] == msgs;
      GatherBroadcasts(f, g, before);
      GatherAppend(f, before, m);
      FramesOfAppend(before, m);
      if m.Frames? {
        GatherAppend(g, FramesOf(before), m.payload);
      } else {
        assert f(m) == [] && Gather(f, before) + [] == Gather(f, before);
        assert FramesOf(before) + [] == FramesOf(before);
      }
    }
  }

  /** Only broadcast messages put frames into the playback ring. */
  lemma PageTakesBroadcasts(msgs: seq<Msg>)
    ensures PageFramesOf(msgs) == AllPayloadFrames(FramesOf(msgs))
  {
    forall m: Msg
      ensures PageFrames(m) == if m.Frames? then PayloadFrames(m.payload) else []
    {
      PageFramesOfMessage(m);
    }
    GatherBroadcasts(PageFrames, PayloadFrames, msgs);
  }

  /** The packed batches lo, ..., hi - 1 of the timeline. */
  ghost function RenderedBatches(render: Renderer, lo: nat, hi: nat): seq<byte>
    decreases hi
  {
    if hi <= lo then [] else RenderedBatches(render, lo, hi - 1) + RenderBatch(render, hi - 1)
  }

  lemma {:induction false} JoinedIsRendered(render: Renderer, accepted: map<nat, seq<byte>>, lo: nat, hi: nat)
    requires AllRendered(render, accepted) && forall b: nat :: b < hi ==> b in accepted
    ensures Joined(accepted, lo, hi) == RenderedBatches(render, lo, hi)
    decreases hi
  {
    if hi <= lo {
    } else {
      JoinedIsRendered(render, accepted, lo, hi - 1);
    }
  }

  /** Every packed batch of the timeline decodes to its sixty frames of text. */
  ghost predicate Depicts(render: Renderer, glyphs: Donut) {
    forall b: nat :: BatchDepicts(RenderBatch(render, b), glyphs, b)
  }

  ghost predicate BatchDepicts(bytes: seq<byte>, glyphs: Donut, b: nat) {
    && |bytes| == BATCH_SIZE && Codec.Decodable(bytes)
    && Codec.Decode(bytes) == Shown(glyphs, FRAMES_PER_BATCH * b, FRAMES_PER_BATCH * (b + 1))
  }

  lemma PackedDepicts(glyphs: Donut)
    requires WholeDonut(glyphs)
    ensures Depicts(Packed(glyphs), glyphs)
  {
    forall b: nat
      ensures BatchDepicts(RenderBatch(Packed(glyphs), b), glyphs, b)
    {
      DecodeBatch(glyphs, b);
    }
  }

  lemma DecodeBatch(glyphs: Donut, b: nat)
    requires WholeDonut(glyphs)
    ensures BatchDepicts(RenderBatch(Packed(glyphs), b), glyphs, b)
  {
    var frames := Shown(glyphs, FRAMES_PER_BATCH * b, FRAMES_PER_BATCH * (b + 1));
    ShownFrames(glyphs, FRAMES_PER_BATCH * b, FRAMES_PER_BATCH * (b + 1));
    forall i | 0 <= i < |frames|
      ensures frames[i] == glyphs(StartFrame(b) as int + i)
    {
      FrameOfBatch(b, i);
    }
    WorkerRendersRange(glyphs, StartFrame(b) as int, frames);
    Codec.DecodeInvertsPack(frames);
    Codec.PackAllGlued(frames);
  }

  lemma DecodeAppend(a: seq<byte>, b: seq<byte>, n: nat)
    requires |a| == BATCH_SIZE * n && Codec.Decodable(a) && Codec.Decodable(b)
    ensures Codec.Decodable(a + b) && Codec.Decode(a + b) == Codec.Decode(a) + Codec.Decode(b)
  {
    assert |a| == FRAME_SIZE * (FRAMES_PER_BATCH * n);
    Codec.UnpackConcat(a, b);
    Codec.DecodeDistributes(a, b);
  }

  lemma {:induction false} DecodeBatches(render: Renderer, glyphs: Donut, lo: nat, hi: nat)
    requires Depicts(render, glyphs) && lo <= hi
    ensures var bytes := RenderedBatches(render, lo, hi);
            && |bytes| == BATCH_SIZE * (hi - lo) && Codec.Decodable(bytes)
            && Codec.Decode(bytes) == Shown(glyphs, FRAMES_PER_BATCH * lo, FRAMES_PER_BATCH * hi)
    decreases hi
  {
    if hi <= lo {
    } else {
      DecodeBatches(render, glyphs, lo, hi - 1);
      assert BatchDepicts(RenderBatch(render, hi - 1), glyphs, hi - 1);
      DecodeAppend(RenderedBatches(render, lo, hi - 1), RenderBatch(render, hi - 1), hi - 1 - lo);
      ShownSplit(glyphs, FRAMES_PER_BATCH * lo, FRAMES_PER_BATCH * (hi - 1), FRAMES_PER_BATCH * hi);
    }
  }

  /** The number of the first frame of broadcast j. */
  ghost function FrameCut(cfg: Config, j: nat): nat { FRAMES_PER_BATCH * Cut(cfg, j) }

  lemma CutGrows(cfg: Config, lo: nat, hi: nat)
    requires lo <= hi
    ensures Cut(cfg, lo) <= Cut(cfg, hi) && FrameCut(cfg, lo) <= FrameCut(cfg, hi)
  {
    CutMonotone(cfg, lo, hi);
  }

  /** The payload of the k-th broadcast of the timeline. */
  ghost predicate CarriesAt(cfg: Config, render: Renderer, payload: seq<byte>, k: nat) {
    payload == RenderedBatches(render, Cut(cfg, k), Cut(cfg, k + 1))
  }

  /** Payloads holding batches Cut(lo), Cut(lo) + 1, ... of the timeline, one broadcast each. */
  ghost predicate Carries(cfg: Config, render: Renderer, payloads: seq<seq<byte>>, lo: nat) {
    forall j :: 0 <= j < |payloads| ==> CarriesAt(cfg, render, payloads[j], lo + j)
  }

  /** The frames of the animation that the k-th broadcast covers. */
  ghost predicate ShowsAt(cfg: Config, glyphs: Donut, frames: seq<string>, k: nat) {
    frames == Shown(glyphs, FrameCut(cfg, k), FrameCut(cfg, k + 1))
  }

  lemma CarriedShows(cfg: Config, render: Renderer, glyphs: Donut, payload: seq<byte>, k: nat)
    requires Depicts(render, glyphs) && CarriesAt(cfg, render, payload, k)
    ensures ShowsAt(cfg, glyphs, PayloadFrames(payload), k)
  {
    CutGrows(cfg, k, k + 1);
    DecodeBatches(render, glyphs, Cut(cfg, k), Cut(cfg, k + 1));
  }

  lemma ShownNext(cfg: Config, glyphs: Donut, before: seq<string>, frames: seq<string>, lo: nat, k: nat, hi: nat)
    requires lo <= k && hi == k + 1 && ShowsAt(cfg, glyphs, frames, k)
    requires before == Shown(glyphs, FrameCut(cfg, lo), FrameCut(cfg, k))
    ensures before + frames == Shown(glyphs, FrameCut(cfg, lo), FrameCut(cfg, hi))
  {
    CutGrows(cfg, lo, k);
    CutGrows(cfg, k, hi);
    ShownSplit(glyphs, FrameCut(cfg, lo), FrameCut(cfg, k), FrameCut(cfg, hi));
  }

  lemma GatherLast<T>(f: T -> seq<string>, xs: seq<T>)
    requires |xs| > 0
    ensures Gather(f, xs) == Gather(f, xs[..|xs| - 1]) + f(xs[|xs| - 1])
  {
  }

  lemma ShownNothing(glyphs: Donut, lo: nat)
    ensures Shown(glyphs, lo, lo) == []
  {
  }

  lemma {:induction false} GatheredIsShown<T>(cfg: Config, glyphs: Donut, f: T -> seq<string>, xs: seq<T>, lo: nat,
          hi: nat)
    requires hi == lo + |xs| && forall i :: 0 <= i < |xs| ==> ShowsAt(cfg, glyphs, f(xs[i]), lo + i)
    ensures Gather(f, xs) == Shown(glyphs, FrameCut(cfg, lo), FrameCut(cfg, hi))
    decreases |xs|
  {
    if |xs| == 0 {
      ShownNothing(glyphs, FrameCut(cfg, lo));
    } else {
      var n := |xs| - 1;
      GatheredIsShown(cfg, glyphs, f, xs[..n], lo, lo + n);
      ShownNext(cfg, glyphs, Gather(f, xs[..n]), f(xs[n]), lo, lo + n, hi);
      GatherLast(f, xs);
    }
  }

  /** Payloads that carry a stretch of the timeline decode to its text. */
  lemma CarriedIsShown(cfg: Config, render: Renderer, glyphs: Donut, payloads: seq<seq<byte>>, lo: nat, hi: nat)
    requires Depicts(render, glyphs) && Carries(cfg, render, payloads, lo) && hi == lo + |payloads|
    ensures AllPayloadFrames(payloads) == Shown(glyphs, FrameCut(cfg, lo), FrameCut(cfg, hi))
  {
    forall i | 0 <= i < |payloads|
      ensures ShowsAt(cfg, glyphs, PayloadFrames(payloads[i]), lo + i)
    {
      CarriedShows(cfg, render, glyphs, payloads[i], lo + i);
    }
    GatheredIsShown(cfg, glyphs, PayloadFrames, payloads, lo, hi);
  }

  /** In an honest run any stretch of broadcasts carries its stretch of the timeline. */
  lemma BroadcastsCarryTheAnimation(cfg: Config, start: State, run: seq<Label>, s: State, render: Renderer, lo: nat,
          hi: nat)
    requires Reached(cfg, start, run, s) && HonestRun(cfg, render, start, run) && lo <= hi <= |s.payloads|
    ensures Carries(cfg, render, s.payloads[lo..hi], lo)
  {
    EveryRunIsSafe(cfg, start, run, s);
    InitialInv(cfg, start);
    HonestRunRendered(cfg, render, start, run);
    CarriedBatches(cfg, s, render, lo, hi);
  }

  lemma CarriedBatches(cfg: Config, s: State, render: Renderer, lo: nat, hi: nat)
    requires Inv(cfg, s) && AllRendered(render, s.accepted) && lo <= hi <= |s.payloads|
    ensures Carries(cfg, render, s.payloads[lo..hi], lo)
  {
    forall j | 0 <= j < hi - lo
      ensures CarriesAt(cfg, render, s.payloads[lo..hi][j], lo + j)
    {
      assert CastOk(cfg, s.accepted, HeadBatch(s.store.ring), lo + j, s.payloads[lo + j]);
      JoinedIsRendered(render, s.accepted, Cut(cfg, lo + j), Cut(cfg, lo + j + 1));
    }
  }

  lemma {:induction false} FramesOfConcat(a: seq<Msg>, b: seq<Msg>)
    ensures FramesOf(a + b) == FramesOf(a) + FramesOf(b)
    decreases |b|
  {
    if |b| == 0 {
      assert a + b == a;
    } else {
      var n := |b| - 1;
      FramesOfConcat(a, b[..n]);
      FramesOfAppend(a + b[..n], b[n]);
      FramesOfAppend(b[..n], b[n]);
      assert a + b == a + b[..n] + [b[n]] && b == b[..n] + [b[n]];
    }
  }

  /** How many broadcasts a client's writer has taken out for it. */
  ghost function ReceivedCasts(s: State, c: u32): nat
    requires c in s.clients
  {
    |FramesOf(s.clients[c].link.taken)|
  }

  /** The number of the first broadcast that a client has not received yet. */
  ghost function NextCast(s: State, c: u32): nat
    requires c in s.clients
  {
    s.clients[c].since + ReceivedCasts(s, c)
  }

  /** A client with nothing dropped has received its broadcasts without a gap, and all of them once its queue is
      empty. */
  lemma ReceivedInOrder(cfg: Config, s: State, c: u32)
    requires Inv(cfg, s) && c in s.pool && c in s.clients && s.clients[c].link.dropped == 0
    ensures NextCast(s, c) <= OfferedCasts(s, c) <= |s.payloads|
    ensures s.clients[c].link.queue == [] ==> NextCast(s, c) == OfferedCasts(s, c)
    ensures FramesOf(s.clients[c].link.taken) == s.payloads[s.clients[c].since..NextCast(s, c)]
  {
    var peer := s.clients[c];
    assert Heard(peer, c in Rest(s.cast), s.payloads);
    NothingDroppedNothingMissing(peer.link);
    FramesOfConcat(peer.link.taken, peer.link.queue);
    PrefixOfSlice(s.payloads, peer.since, OfferedCasts(s, c), FramesOf(peer.link.taken), FramesOf(peer.link.queue));
  }

  lemma PrefixOfSlice(all: seq<seq<byte>>, lo: nat, hi: nat, a: seq<seq<byte>>, b: seq<seq<byte>>)
    requires lo <= hi <= |all| && all[lo..hi] == a + b
    ensures lo + |a| <= hi && all[lo..lo + |a|] == a
    ensures b == [] ==> lo + |a| == hi
  {
    assert all[lo..hi][..|a|] == a;
  }

  /** A connected client that lost no message holds, decoded, exactly the text of the animation from the first
      broadcast after its admission up to the last one it received. */
  lemma ViewerReceivesTheAnimation(cfg: Config, start: State, run: seq<Label>, s: State, glyphs: Donut, c: u32)
    requires Reached(cfg, start, run, s) && WholeDonut(glyphs) && HonestRun(cfg, Packed(glyphs), start, run)
    requires c in s.pool && c in s.clients && s.clients[c].link.dropped == 0
    ensures NextCast(s, c) <= OfferedCasts(s, c)
    ensures s.clients[c].link.queue == [] ==> NextCast(s, c) == OfferedCasts(s, c)
    ensures PageFramesOf(s.clients[c].link.taken)
            == Shown(glyphs, FrameCut(cfg, s.clients[c].since), FrameCut(cfg, NextCast(s, c)))
  {
    PackedDepicts(glyphs);
    ReceivedShows(cfg, start, run, s, Packed(glyphs), glyphs, c);
  }

  lemma ReceivedShows(cfg: Config, start: State, run: seq<Label>, s: State, render: Renderer, glyphs: Donut, c: u32)
    requires Reached(cfg, start, run, s) && Depicts(render, glyphs) && HonestRun(cfg, render, start, run)
    requires c in s.pool && c in s.clients && s.clients[c].link.dropped == 0
    ensures NextCast(s, c) <= OfferedCasts(s, c)
    ensures s.clients[c].link.queue == [] ==> NextCast(s, c) == OfferedCasts(s, c)
    ensures PageFramesOf(s.clients[c].link.taken)
            == Shown(glyphs, FrameCut(cfg, s.clients[c].since), FrameCut(cfg, NextCast(s, c)))
  {
    EveryRunIsSafe(cfg, start, run, s);
    ReceivedInOrder(cfg, s, c);
    var since, upTo := s.clients[c].since, NextCast(s, c);
    BroadcastsCarryTheAnimation(cfg, start, run, s, render, since, upTo);
    PageTakesBroadcasts(s.clients[c].link.taken);
    CarriedIsShown(cfg, render, glyphs, s.payloads[since..upTo], since, upTo);
  }

  /** End to end: if that client's playback ring was fed what its page decoded and never overflowed, the text played
      so far is frame by frame the text the workers rendered, in timeline order, from its first broadcast on. */
  lemma ViewerPlaysWhatWorkersRendered(cfg: Config, start: State, run: seq<Label>, s: State, glyphs: Donut, c: u32,
          ops: seq<Viewer.Op>)
    requires Reached(cfg, start, run, s) && WholeDonut(glyphs) && HonestRun(cfg, Packed(glyphs), start, run)
    requires c in s.pool && c in s.clients && s.clients[c].link.dropped == 0
    requires Viewer.Play(ops).arrived == PageFramesOf(s.clients[c].link.taken) && Viewer.Play(ops).dropped == 0
    ensures Plays(glyphs, Viewer.Play(ops), FrameCut(cfg, s.clients[c].since), FrameCut(cfg, NextCast(s, c)))
  {
    var lo, hi := FrameCut(cfg, s.clients[c].since), FrameCut(cfg, NextCast(s, c));
    assert lo <= hi && Viewer.Play(ops).arrived == Shown(glyphs, lo, hi) by {
      ViewerReceivesTheAnimation(cfg, start, run, s, glyphs, c);
      CutGrows(cfg, s.clients[c].since, NextCast(s, c));
    }
    PlayedIsShown(glyphs, ops, lo, hi);
  }

  /** Frames lo, lo + 1, ... were played, in order; what is left up to hi is buffered. */
  ghost predicate Plays(glyphs: Donut, p: Viewer.Playback, lo: nat, hi: nat) {
    && (forall i :: 0 <= i < |p.played| ==> p.played[i] == glyphs((lo + i) % MAX_FRAMES))
    && lo + |p.played| + |p.buffered| == hi
  }

  lemma PlayedIsShown(glyphs: Donut, ops: seq<Viewer.Op>, lo: nat, hi: nat)
    requires lo <= hi && Viewer.Play(ops).arrived == Shown(glyphs, lo, hi) && Viewer.Play(ops).dropped == 0
    ensures Plays(glyphs, Viewer.Play(ops), lo, hi)
  {
    var p := Viewer.Play(ops);
    Viewer.PlaybackConserves(ops);
    ShownFrames(glyphs, lo, hi);
    assert forall i :: 0 <= i < |p.played| ==> p.played[i] == p.arrived[i];
  }
}
