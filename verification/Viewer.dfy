/** The page's playback ring: a fixed circular buffer that drops its oldest frame when full. */
module Viewer {
  import opened Wire
  import Codec

  const VIEWER_SIZE: nat := 1200 // 20 seconds of frames

  /** The newest VIEWER_SIZE frames. */
  function Newest(frames: seq<string>): seq<string> {
    if |frames| <= VIEWER_SIZE then frames else frames[|frames| - VIEWER_SIZE..]
  }

  lemma NewestOfNewest(a: seq<string>, b: seq<string>)
    ensures Newest(Newest(a) + b) == Newest(a + b)
  {
  }

  /** Frames arriving one at a time. */
  ghost function OneByOne(was: seq<string>, arriving: seq<string>): seq<string> {
    if |arriving| == 0 then was
    else Newest(OneByOne(was, arriving[..|arriving| - 1]) + [arriving[|arriving| - 1]])
  }

  lemma OneMore(was: seq<string>, arriving: seq<string>, i: nat)
    requires i < |arriving|
    ensures OneByOne(was, arriving[..i + 1]) == Newest(OneByOne(was, arriving[..i]) + [arriving[i]])
  {
    assert arriving[..i + 1][..i] == arriving[..i];
  }

  /** Dropping the oldest each time leaves what dropping them all at the end would. */
  lemma {:induction false} OneByOneIsNewest(was: seq<string>, arriving: seq<string>)
    requires |was| <= VIEWER_SIZE
    ensures OneByOne(was, arriving) == Newest(was + arriving)
    decreases |arriving|
  {
    if |arriving| == 0 {
      assert was + arriving == was;
    } else {
      var n := |arriving| - 1;
      OneByOneIsNewest(was, arriving[..n]);
      NewestOfNewest(was + arriving[..n], [arriving[n]]);
      assert was + arriving == was + arriving[..n] + [arriving[n]];
    }
  }

  /** The `count` frames from slot `tail` on, around the end of the array. */
  ghost function Around(slots: seq<string>, tail: nat, count: nat): (s: seq<string>)
    requires |slots| == VIEWER_SIZE
    ensures |s| == count
  {
    if count == 0 then [] else Around(slots, tail, count - 1) + [slots[(tail + (count - 1)) % VIEWER_SIZE]]
  }

  lemma {:induction false} DropOldest(slots: seq<string>, tail: nat, count: nat)
    requires |slots| == VIEWER_SIZE && tail < VIEWER_SIZE && 0 < count <= VIEWER_SIZE
    ensures Around(slots, tail, count)[0] == slots[tail]
    ensures Around(slots, (tail + 1) % VIEWER_SIZE, count - 1) == Around(slots, tail, count)[1..]
    decreases count
  {
    if count > 1 {
      DropOldest(slots, tail, count - 1);
      NextSlot(tail, count - 2);
    }
  }

  lemma NextSlot(tail: nat, i: nat)
    requires tail < VIEWER_SIZE && i < VIEWER_SIZE
    ensures ((tail + 1) % VIEWER_SIZE + i) % VIEWER_SIZE == (tail + (i + 1)) % VIEWER_SIZE
  {
    if tail + 1 == VIEWER_SIZE {
      assert tail + (i + 1) == VIEWER_SIZE + i;
    }
  }

  lemma OtherSlot(tail: nat, i: nat, j: nat)
    requires tail < VIEWER_SIZE && i < j < VIEWER_SIZE
    ensures (tail + i) % VIEWER_SIZE != (tail + j) % VIEWER_SIZE
  {
  }

  lemma {:induction false} OthersStay(slots: seq<string>, tail: nat, n: nat, count: nat, frame: string)
    requires |slots| == VIEWER_SIZE && tail < VIEWER_SIZE && n <= count < VIEWER_SIZE
    ensures Around(slots[(tail + count) % VIEWER_SIZE := frame], tail, n) == Around(slots, tail, n)
    decreases n
  {
    if n == 0 {
    } else {
      OthersStay(slots, tail, n - 1, count, frame);
      OtherSlot(tail, n - 1, count);
    }
  }

  lemma FillNext(slots: seq<string>, tail: nat, count: nat, frame: string)
    requires |slots| == VIEWER_SIZE && tail < VIEWER_SIZE && count < VIEWER_SIZE
    ensures Around(slots[(tail + count) % VIEWER_SIZE := frame], tail, count + 1) == Around(slots, tail, count)
            + [frame]
  {
    OthersStay(slots, tail, count, count, frame);
  }

  lemma NewestOfOneMore(frames: seq<string>, frame: string)
    requires |frames| <= VIEWER_SIZE
    ensures Newest(frames + [frame]) == (if |frames| == VIEWER_SIZE then frames[1..] else frames) + [frame]
  {
  }

  lemma HeadMoves(tail: nat, count: nat)
    requires tail < VIEWER_SIZE && count < VIEWER_SIZE
    ensures ((tail + count) % VIEWER_SIZE + 1) % VIEWER_SIZE == (tail + (count + 1)) % VIEWER_SIZE
  {
    if tail + count >= VIEWER_SIZE {
      assert (tail + count) % VIEWER_SIZE == tail + count - VIEWER_SIZE;
    }
  }

  /** A turn of the push loop on values: drop the oldest if the ring is full, then fill the next slot. */
  lemma PushedIsNewest(slots: seq<string>, tail: nat, count: nat, frame: string)
    requires |slots| == VIEWER_SIZE && tail < VIEWER_SIZE && count <= VIEWER_SIZE
    ensures var (t, c) := if count == VIEWER_SIZE then ((tail + 1) % VIEWER_SIZE, count - 1) else (tail, count);
            && (t + c) % VIEWER_SIZE == (tail + count) % VIEWER_SIZE
            && ((tail + count) % VIEWER_SIZE + 1) % VIEWER_SIZE == (t + (c + 1)) % VIEWER_SIZE
            && Around(slots[(tail + count) % VIEWER_SIZE := frame], t, c + 1)
                == Newest(Around(slots, tail, count) + [frame])
  {
    NewestOfOneMore(Around(slots, tail, count), frame);
    if count == VIEWER_SIZE {
      DropOldest(slots, tail, count);
      NextSlot(tail, count - 1);
      HeadMoves((tail + 1) % VIEWER_SIZE, count - 1);
      FillNext(slots, (tail + 1) % VIEWER_SIZE, count - 1, frame);
    } else {
      HeadMoves(tail, count);
      FillNext(slots, tail, count, frame);
    }
  }

  class CircularBuffer {
    const frames: array<string>
    var head: nat  // next write slot
    var tail: nat  // next read slot
    var count: nat

    ghost predicate Valid()
      reads this
    {
      frames.Length == VIEWER_SIZE && head < VIEWER_SIZE && tail < VIEWER_SIZE && count <= VIEWER_SIZE
      && head == (tail + count) % VIEWER_SIZE
    }

    ghost function Contents(): (s: seq<string>)
      reads this, frames
      requires Valid()
    {
      Around(frames[..], tail, count)
    }

    constructor ()
      ensures Valid() && Contents() == [] && fresh(frames)
    {
      frames := new string[VIEWER_SIZE](_ => "");
      head, tail, count := 0, 0, 0;
    }

    /** Whatever was buffered and however much arrives, the ring ends up holding exactly the newest frames. */
    method Push(arriving: seq<string>)
      requires Valid()
      modifies this`head, this`tail, this`count, frames
      ensures Valid() && Contents() == Newest(old(Contents()) + arriving)
    {
      ghost var was := Contents();
      for i := 0 to |arriving|
        invariant Valid() && Contents() == OneByOne(was, arriving[..i])
      {
        PushOne(arriving[i]);
        OneMore(was, arriving, i);
      }
      assert arriving[..|arriving|] == arriving;
      OneByOneIsNewest(was, arriving);
    }

    /** One turn of the push loop. */
    method PushOne(frame: string)
      requires Valid()
      modifies this`head, this`tail, this`count, frames
      ensures Valid() && Contents() == Newest(old(Contents()) + [frame])
    {
      ghost var before := frames[..];
      PushedIsNewest(before, tail, count, frame);
      if count == VIEWER_SIZE {
        tail := (tail + 1) % VIEWER_SIZE;
        count := count - 1;
      }
      frames[head] := frame;
      assert frames[..] == before[head := frame];
      head := (head + 1) % VIEWER_SIZE;
      count := count + 1;
    }

    method Get() returns (frame: Option<string>)
      requires Valid()
      modifies this`tail, this`count
      ensures Valid()
      ensures frame == if |old(Contents())| == 0 then None else Some(old(Contents())[0])
      ensures Contents() == if |old(Contents())| == 0 then [] else old(Contents())[1..]
    {
      if count == 0 {
        return None;
      }
      DropOldest(frames[..], tail, count);
      NextSlot(tail, count - 1);
      frame := Some(frames[tail]);
      tail := (tail + 1) % VIEWER_SIZE;
      count := count - 1;
    }

    method Size() returns (n: nat)
      requires Valid()
      ensures n == |Contents()|
    {
      n := count;
    }
  }

  // -------------------------------------------------------------------- runs of the ring

  datatype Op = Pushed(frames: seq<string>) | Got

  /** The ring's contents, with the history of what went in, what was played and how many were dropped. */
  datatype Playback = Playback(buffered: seq<string>, arrived: seq<string>, played: seq<string>, dropped: nat)

  function Arrive(p: Playback, frames: seq<string>): Playback {
    var all := p.buffered + frames;
    Playback(Newest(all), p.arrived + frames, p.played, p.dropped + |all| - |Newest(all)|)
  }

  function PlayOne(p: Playback): Playback {
    if |p.buffered| == 0 then p
    else Playback(p.buffered[1..], p.arrived, p.played + [p.buffered[0]], p.dropped)
  }

  function Play(ops: seq<Op>): Playback {
    if |ops| == 0 then Playback([], [], [], 0)
    else
      var p := Play(ops[..|ops| - 1]);
      match ops[|ops| - 1]
      case Pushed(frames) => Arrive(p, frames)
      case Got => PlayOne(p)
  }

  /** Frames in = played + dropped + buffered, at most 1200 are buffered, they are the newest ones, and without a
      drop playback is exactly the arrivals in order, up to what is still buffered. */
  ghost predicate Conserved(p: Playback) {
    && |p.arrived| == |p.played| + p.dropped + |p.buffered|
    && |p.buffered| <= VIEWER_SIZE
    && p.buffered == p.arrived[|p.arrived| - |p.buffered|..]
    && (p.dropped == 0 ==> p.arrived == p.played + p.buffered)
  }

  lemma LastOfAppend(a: seq<string>, b: seq<string>, n: nat)
    requires n <= |a|
    ensures (a + b)[|a| - n..] == a[|a| - n..] + b
  {
  }

  lemma LastOfLast(a: seq<string>, m: nat, n: nat)
    requires n <= m <= |a|
    ensures a[|a| - m..][m - n..] == a[|a| - n..]
  {
  }

  lemma ArriveConserves(p: Playback, frames: seq<string>)
    requires Conserved(p)
    ensures Conserved(Arrive(p, frames))
  {
    var all, arrived := p.buffered + frames, p.arrived + frames;
    LastOfAppend(p.arrived, frames, |p.buffered|);
    assert all == arrived[|arrived| - |all|..];
    LastOfLast(arrived, |all|, |Newest(all)|);
    if p.dropped == 0 {
      Codec.Associative(p.played, p.buffered, frames);
    }
  }

  lemma PlayOneConserves(p: Playback)
    requires Conserved(p)
    ensures Conserved(PlayOne(p))
  {
    if |p.buffered| > 0 {
      assert p.buffered == [p.buffered[0]] + p.buffered[1..];
      assert p.buffered[1..] == p.arrived[|p.arrived| - |p.buffered| + 1..];
    }
  }

  /** Over every run of pushes and gets nothing is lost uncounted, repeated or reordered. */
  lemma {:induction false} PlaybackConserves(ops: seq<Op>)
    ensures Conserved(Play(ops))
  {
    if |ops| == 0 {
    } else {
      var p := Play(ops[..|ops| - 1]);
      PlaybackConserves(ops[..|ops| - 1]);
      match ops[|ops| - 1]
      case Pushed(frames) => ArriveConserves(p, frames);
      case Got => PlayOneConserves(p);
    }
  }

  /** The real ring put through any run of pushes and gets holds and has played exactly what the run says. */
  method Replay(ops: seq<Op>) returns (ring: CircularBuffer, played: seq<string>)
    ensures ring.Valid() && fresh(ring) && fresh(ring.frames)
    ensures ring.Contents() == Play(ops).buffered && played == Play(ops).played
  {
    ring := new CircularBuffer();
    played := [];
    for i := 0 to |ops|
      invariant ring.Valid() && fresh(ring) && fresh(ring.frames)
      invariant ring.Contents() == Play(ops[..i]).buffered && played == Play(ops[..i]).played
    {
      assert ops[..i + 1][..i] == ops[..i];
      match ops[i] {
        case Pushed(frames) =>
          ring.Push(frames);
        case Got =>
          var frame := ring.Get();
          if frame.Some? {
            played := played + [frame.value];
          }
      }
    }
    assert ops[..|ops|] == ops;
  }
}
