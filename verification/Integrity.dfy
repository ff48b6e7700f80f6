/** The end-to-end integrity check: watermarked frames, and the checker that reads them back. */
module Integrity {
  import opened Wire
  import opened FrameRing
  import opened Pipeline
  import opened Invariant
  import opened Runs
  import opened Timeline

  /** A watermarked frame: its number big-endian, the rest filled with the number's low byte. */
  function Watermarked(f: nat): (frame: seq<byte>)
    ensures |frame| == FRAME_SIZE
  {
    Put32(f % TWO_32) + seq(FRAME_SIZE - 4, _ => f % 0x100)
  }

  const SYNTHETIC: Renderer := f => Watermarked(f)

  method WriteFrame(out: array<byte>, at: nat, n: u32)
    requires at + FRAME_SIZE <= out.Length
    modifies out
    ensures out[..] == old(out[..at]) + Watermarked(n) + old(out[at + FRAME_SIZE..])
  {
    PutUint32(out, at, n);
    ghost var stamped := out[..];
    var fill: byte := n as int % 0x100;
    for i := 4 to FRAME_SIZE
      invariant forall j :: 0 <= j < out.Length ==> out[j] == if at + 4 <= j < at + i then fill else stamped[j]
    {
      out[at + i] := fill;
    }
    FilledFrame(out[..], old(out[..]), stamped, at, n);
  }

  lemma FilledFrame(out: seq<byte>, before: seq<byte>, stamped: seq<byte>, at: nat, n: u32)
    requires at + FRAME_SIZE <= |before| && |out| == |stamped|
    requires stamped == before[..at] + Put32(n) + before[at + 4..]
    requires forall j :: 0 <= j < |out| ==>
               out[j] == if at + 4 <= j < at + FRAME_SIZE then n as int % 0x100 else stamped[j]
    ensures out == before[..at] + Watermarked(n) + before[at + FRAME_SIZE..]
  {
    var w := Watermarked(n);
    assert n as int % TWO_32 == n;
    forall j | 0 <= j < |out|
      ensures out[j] == (before[..at] + w + before[at + FRAME_SIZE..])[j]
    {
      if at <= j < at + 4 {
        assert stamped[j] == Put32(n)[j - at] == w[j - at];
      } else if at + 4 <= j < at + FRAME_SIZE {
        assert w[j - at] == n as int % 0x100;
      }
    }
  }

  /** The synthetic renderer, in its 32-bit frame arithmetic. */
  method Render(startFrame: u32, endFrame: u32) returns (out: array<byte>)
    ensures fresh(out)
    ensures out[..] == RenderRange(SYNTHETIC, startFrame as int, (endFrame as int - startFrame as int) % TWO_32 + 1)
  {
    var n := (endFrame as int - startFrame as int) % TWO_32 + 1;
    out := new byte[n * FRAME_SIZE](_ => 0);
    for i := 0 to n
      invariant out[..i * FRAME_SIZE] == RenderRange(SYNTHETIC, startFrame as int, i)
    {
      var frame := (startFrame as int + i) % TWO_32;
      ghost var before := out[..];
      WriteFrame(out, i * FRAME_SIZE, frame);
      SameWatermark(startFrame as int + i);
      assert out[..(i + 1) * FRAME_SIZE] == before[..i * FRAME_SIZE] + Watermarked(frame);
    }
    assert out[..n * FRAME_SIZE] == out[..];
  }

  lemma SameWatermark(f: nat)
    ensures Watermarked(f % TWO_32) == Watermarked(f)
  {
    LowByteOfWord(f);
    assert f % TWO_32 % TWO_32 == f % TWO_32;
  }

  lemma LowByteOfWord(f: nat)
    ensures f % TWO_32 % 0x100 == f % 0x100
  {
  }

  lemma SyntheticIsWhole()
    ensures WholeFrames(SYNTHETIC)
  {
  }

  /** A frame is the watermarked frame j exactly when its first four bytes and every other byte say so. */
  lemma WatermarkDecides(frame: seq<byte>, j: nat)
    requires |frame| == FRAME_SIZE
    ensures frame == Watermarked(j) <==>
            Get32(frame) == j % TWO_32 && forall k :: 4 <= k < FRAME_SIZE ==> frame[k] == j % 0x100
  {
    var w := Watermarked(j);
    BigEndianRoundTrip(j % TWO_32, frame);
    assert w[..4] == Put32(j % TWO_32);
    Get32Prefix(w, j % TWO_32);
    if Get32(frame) == j % TWO_32 && forall k :: 4 <= k < FRAME_SIZE ==> frame[k] == j % 0x100 {
      assert frame[..4] == w[..4];
      assert forall k :: 0 <= k < 4 ==> frame[k] == frame[..4][k] && w[k] == w[..4][k];
      assert frame == w;
    }
  }

  /** The first n frames of a stream are what n synthetic renderings make. */
  ghost predicate Intact(stream: seq<byte>, n: nat) {
    |stream| >= n * FRAME_SIZE && stream[..n * FRAME_SIZE] == RenderRange(SYNTHETIC, 0, n)
  }

  /** The checker accepts exactly the intact streams; a count of zero or less is accepted outright. */
  method VerifyContiguousFrames(stream: seq<byte>, n: int) returns (accepted: bool)
    ensures accepted <==> n <= 0 || Intact(stream, n)
  {
    if |stream| / FRAME_SIZE < n {
      return false;
    }
    if n <= 0 {
      return true;
    }
    assert |stream| >= n * FRAME_SIZE;
    for j := 0 to n
      invariant Intact(stream, j)
    {
      var frame := stream[j * FRAME_SIZE..(j + 1) * FRAME_SIZE];
      WatermarkDecides(frame, j);
      NextFrameDecides(stream, j, n);
      if Get32(frame) != j % TWO_32 {
        return false;
      }
      var fill: byte := j % 0x100;
      for k := 4 to |frame|
        invariant forall i :: 4 <= i < k ==> frame[i] == fill
      {
        if frame[k] != fill {
          return false;
        }
      }
    }
    accepted := true;
  }

  /** A stream whose j-th frame is wrong is not intact for any longer count. */
  lemma NextFrameDecides(stream: seq<byte>, j: nat, n: nat)
    requires j < n && n * FRAME_SIZE <= |stream| && Intact(stream, j)
    ensures Intact(stream, j + 1) <==> stream[j * FRAME_SIZE..(j + 1) * FRAME_SIZE] == Watermarked(j)
    ensures Intact(stream, n) ==> Intact(stream, j + 1)
  {
    SyntheticIsWhole();
    RangeLength(SYNTHETIC, 0, j);
    assert stream[..(j + 1) * FRAME_SIZE] == stream[..j * FRAME_SIZE] + stream[j * FRAME_SIZE..(j + 1) * FRAME_SIZE];
    assert RenderRange(SYNTHETIC, 0, j + 1) == RenderRange(SYNTHETIC, 0, j) + Watermarked(j);
    if Intact(stream, n) {
      IntactPrefix(stream, j + 1, n);
    }
  }

  lemma {:induction false} IntactPrefix(stream: seq<byte>, j: nat, n: nat)
    requires j <= n && Intact(stream, n)
    ensures Intact(stream, j)
    decreases n
  {
    if n <= j {
    } else {
      SyntheticIsWhole();
      RangeLength(SYNTHETIC, 0, n - 1);
      assert stream[..(n - 1) * FRAME_SIZE] == stream[..n * FRAME_SIZE][..(n - 1) * FRAME_SIZE];
      IntactPrefix(stream, j, n - 1);
    }
  }

  lemma {:induction false} AnimationPrefix(render: Renderer, n: nat)
    requires n <= MAX_FRAMES
    ensures Animation(render, n) == RenderRange(render, 0, n)
  {
    if n == 0 {
    } else {
      AnimationPrefix(render, n - 1);
      assert (n - 1) % MAX_FRAMES == n - 1 == 0 + n - 1;
    }
  }

  lemma {:induction false} AnimationExtends(render: Renderer, m: nat, n: nat)
    requires m <= n
    ensures Animation(render, m) <= Animation(render, n)
    decreases n
  {
    if n <= m {
    } else {
      AnimationExtends(render, m, n - 1);
    }
  }

  /** Frame MAX_FRAMES of the animation is stamped 0 again. */
  lemma RepeatIsNoticed(n: nat)
    requires n > MAX_FRAMES
    ensures !Intact(Animation(SYNTHETIC, n), n)
  {
    SyntheticIsWhole();
    AnimationFrame(SYNTHETIC, n, MAX_FRAMES);
    var stream := Animation(SYNTHETIC, n);
    if Intact(stream, n) {
      IntactPrefix(stream, MAX_FRAMES, n);
      NextFrameDecides(stream, MAX_FRAMES, n);
      var frame := Watermarked(MAX_FRAMES);
      WatermarkDecides(frame, MAX_FRAMES);
      WatermarkDecides(frame, 0);
      assert false;
    }
  }

  /** Every broadcast history made by synthetic workers passes the check for n frames exactly as long as the
      frame numbers have not started over. */
  lemma HonestHistoryPasses(cfg: Config, start: State, run: seq<Label>, s: State, n: nat)
    requires Reached(cfg, start, run, s) && HonestRun(cfg, SYNTHETIC, start, run)
    requires n <= FRAMES_PER_BATCH * Invariant.Cut(cfg, |s.payloads|)
    ensures Intact(Concat(s.payloads), n) <==> n <= MAX_FRAMES
  {
    var m := FRAMES_PER_BATCH * Invariant.Cut(cfg, |s.payloads|);
    BroadcastIsTheAnimation(cfg, start, run, s, SYNTHETIC);
    SyntheticIsWhole();
    AnimationExtends(SYNTHETIC, n, m);
    AnimationLength(SYNTHETIC, n);
    AnimationLength(SYNTHETIC, m);
    assert Concat(s.payloads)[..n * FRAME_SIZE] == Animation(SYNTHETIC, n);
    assert Animation(SYNTHETIC, n)[..n * FRAME_SIZE] == Animation(SYNTHETIC, n);
    if n <= MAX_FRAMES {
      AnimationPrefix(SYNTHETIC, n);
    } else {
      RepeatIsNoticed(n);
    }
  }
}
