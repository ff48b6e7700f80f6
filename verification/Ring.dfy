/** The server's circular frame buffer: its byte-level specification, the facts that make
    batch-aligned use of it a FIFO of batches, and the buffer itself. */
module FrameRing {
  import opened Wire

  const MAX_BATCHES: nat := 1800
  const MAX_FRAMES: nat := 108_000      // MAX_BATCHES * FRAMES_PER_BATCH
  const BUFFER_SIZE: nat := 95_040_000  // MAX_FRAMES * FRAME_SIZE

  /** `head` and `tail` are byte positions that only grow; a position lives at `position % BUFFER_SIZE`. */
  datatype Ring = Ring(data: seq<byte>, head: nat, tail: nat)

  ghost predicate WellFormed(r: Ring) {
    |r.data| == BUFFER_SIZE && r.tail <= r.head <= r.tail + BUFFER_SIZE
  }

  // ------------------------------------------------------------------- queries

  function LengthInFrames(r: Ring): nat
    requires r.tail <= r.head
  {
    (r.head - r.tail) / FRAME_SIZE
  }

  predicate Enough(r: Ring, seconds: nat)
    requires r.tail <= r.head
  {
    LengthInFrames(r) >= seconds * FRAMES_PER_BATCH
  }

  function BatchesRemaining(r: Ring): nat
    requires r.tail <= r.head <= r.tail + BUFFER_SIZE
  {
    if LengthInFrames(r) == MAX_FRAMES then 0
    else (MAX_FRAMES - LengthInFrames(r)) / FRAMES_PER_BATCH
  }

  predicate HasRoom(r: Ring, batches: nat)
    requires r.tail <= r.head <= r.tail + BUFFER_SIZE
  {
    BatchesRemaining(r) >= batches
  }

  function NextFrame(r: Ring): nat {
    r.head / FRAME_SIZE % MAX_FRAMES
  }

  // ------------------------------------------------------------------- updates

  datatype Outcome = Stored | StartAfterEnd | OutOfBounds

  /** Byte offset of a frame, in the 32-bit arithmetic of the source. */
  function Offset(start: u32): nat {
    start as int * FRAME_SIZE % TWO_32 % BUFFER_SIZE
  }

  /** Storing one batch: a start after the end is an error, a slice past the array end a panic. */
  function Write(r: Ring, start: u32, end: u32, frames: seq<byte>): (Outcome, Ring)
    requires |r.data| == BUFFER_SIZE && |frames| == BATCH_SIZE
  {
    var at := Offset(start);
    if start > end then (StartAfterEnd, r)
    else if at + BATCH_SIZE > BUFFER_SIZE then (OutOfBounds, r)
    else (Stored, r.(data := r.data[..at] + frames + r.data[at + BATCH_SIZE..]))
  }

  /** The bytes at `len` consecutive positions from `pos` on. */
  function Window(data: seq<byte>, pos: nat, len: nat): (w: seq<byte>)
    requires |data| == BUFFER_SIZE
    ensures |w| == len
  {
    seq(len, i requires 0 <= i => data[(pos + i) % BUFFER_SIZE])
  }

  /** What the buffer holds for broadcasting, oldest byte first. */
  function Contents(r: Ring): seq<byte>
    requires WellFormed(r)
  {
    Window(r.data, r.tail, r.head - r.tail)
  }

  function Read(r: Ring, seconds: nat): Option<seq<byte>>
    requires WellFormed(r)
  {
    if Enough(r, seconds) then Some(Window(r.data, r.tail, seconds * BATCH_SIZE)) else None
  }

  function Advance(r: Ring, batches: nat): Ring {
    r.(head := r.head + batches * BATCH_SIZE)
  }

  /** `None` is the panic on removing more than is buffered. */
  function Remove(r: Ring, seconds: nat): Option<Ring>
    requires r.tail <= r.head
  {
    if seconds * FRAMES_PER_BATCH > LengthInFrames(r) then None
    else Some(r.(tail := r.tail + seconds * FRAMES_PER_BATCH * FRAME_SIZE))
  }

  // ------------------------------------------------------------ batch alignment

  function HeadBatch(r: Ring): nat { r.head / BATCH_SIZE }
  function TailBatch(r: Ring): nat { r.tail / BATCH_SIZE }

  /** The shape every run keeps: whole batches only, never more than the ring holds. */
  ghost predicate Aligned(r: Ring) {
    && |r.data| == BUFFER_SIZE
    && r.head == BATCH_SIZE * HeadBatch(r)
    && r.tail == BATCH_SIZE * TailBatch(r)
    && TailBatch(r) <= HeadBatch(r) <= TailBatch(r) + MAX_BATCHES
  }

  /** First frame number of the b-th batch of the timeline. */
  function StartFrame(b: nat): u32 {
    FRAMES_PER_BATCH * (b % MAX_BATCHES)
  }

  function EndFrame(b: nat): u32 {
    FRAMES_PER_BATCH * (b % MAX_BATCHES) + 59
  }

  function Slot(data: seq<byte>, k: nat): (s: seq<byte>)
    requires |data| == BUFFER_SIZE && k < MAX_BATCHES
    ensures |s| == BATCH_SIZE
  {
    data[k * BATCH_SIZE..k * BATCH_SIZE + BATCH_SIZE]
  }

  /** An aligned ring in units of batches: each frame-counting query is a batch comparison. */
  lemma QueriesCountBatches(r: Ring, n: nat)
    requires Aligned(r)
    ensures WellFormed(r)
    ensures LengthInFrames(r) == FRAMES_PER_BATCH * (HeadBatch(r) - TailBatch(r))
    ensures Enough(r, n) <==> TailBatch(r) + n <= HeadBatch(r)
    ensures HasRoom(r, n) <==> HeadBatch(r) + n <= TailBatch(r) + MAX_BATCHES
    ensures NextFrame(r) == StartFrame(HeadBatch(r))
  {
    var h, l := HeadBatch(r), HeadBatch(r) - TailBatch(r);
    assert r.head - r.tail == FRAME_SIZE * (FRAMES_PER_BATCH * l);
    assert r.head / FRAME_SIZE == FRAMES_PER_BATCH * h;
    var q := h / MAX_BATCHES;
    assert FRAMES_PER_BATCH * h == MAX_FRAMES * q + FRAMES_PER_BATCH * (h % MAX_BATCHES);
  }

  lemma AdvanceAligned(r: Ring, n: nat)
    requires Aligned(r) && HeadBatch(r) + n <= TailBatch(r) + MAX_BATCHES
    ensures Aligned(Advance(r, n))
    ensures HeadBatch(Advance(r, n)) == HeadBatch(r) + n && TailBatch(Advance(r, n)) == TailBatch(r)
  {
  }

  lemma RemoveAligned(r: Ring, n: nat)
    requires Aligned(r) && TailBatch(r) + n <= HeadBatch(r)
    ensures Remove(r, n).Some? && Remove(r, n).value.data == r.data && Aligned(Remove(r, n).value)
    ensures HeadBatch(Remove(r, n).value) == HeadBatch(r) && TailBatch(Remove(r, n).value) == TailBatch(r) + n
  {
    QueriesCountBatches(r, n);
    assert n * FRAMES_PER_BATCH * FRAME_SIZE == n * BATCH_SIZE;
    assert r.tail + n * BATCH_SIZE == BATCH_SIZE * (TailBatch(r) + n);
  }

  /** A start frame below MAX_FRAMES never overflows 32 bits, and its copy fits the array
      exactly when a whole batch of frames is left before the end. */
  lemma OffsetFits(start: u32)
    requires start < MAX_FRAMES
    ensures Offset(start) == start as int * FRAME_SIZE
    ensures Offset(start) + BATCH_SIZE <= BUFFER_SIZE <==> start as int + FRAMES_PER_BATCH <= MAX_FRAMES
  {
  }

  /** Beyond the ring's own frame numbers the product does overflow: from frame 4 880 645 on 2^32 is lost. */
  lemma OffsetOverflows(start: u32)
    ensures start < 4_880_645 ==> Offset(start) == start as int * FRAME_SIZE % BUFFER_SIZE
    ensures 4_880_645 <= start < 9_761_290 ==> Offset(start) == (start as int * FRAME_SIZE - TWO_32) % BUFFER_SIZE
    ensures Offset(4_880_645) == 304 != 4_880_645 * FRAME_SIZE % BUFFER_SIZE
  {
  }

  /** Storing batch b succeeds, fills slot `b % MAX_BATCHES` and leaves every other slot alone. */
  lemma WriteFillsOneSlot(r: Ring, b: nat, frames: seq<byte>)
    requires |r.data| == BUFFER_SIZE && |frames| == BATCH_SIZE
    ensures var (out, r') := Write(r, StartFrame(b), EndFrame(b), frames);
            && out == Stored
            && r'.head == r.head && r'.tail == r.tail
            && |r'.data| == BUFFER_SIZE
            && forall k: nat :: k < MAX_BATCHES ==>
                 Slot(r'.data, k) == if k == b % MAX_BATCHES then frames else Slot(r.data, k)
  {
    var at := Offset(StartFrame(b));
    var i := b % MAX_BATCHES;
    assert at == BATCH_SIZE * i;
    var data' := r.data[..at] + frames + r.data[at + BATCH_SIZE..];
    assert |data'| == BUFFER_SIZE;
    forall k: nat | k < MAX_BATCHES
      ensures Slot(data', k) == if k == i then frames else Slot(r.data, k)
    {
      if k < i {
        assert k * BATCH_SIZE + BATCH_SIZE <= at;
      } else if k > i {
        assert at + BATCH_SIZE <= k * BATCH_SIZE;
      }
    }
  }

  lemma PositionOfByte(b: nat, i: nat)
    requires i < BATCH_SIZE
    ensures (BATCH_SIZE * b + i) % BUFFER_SIZE == BATCH_SIZE * (b % MAX_BATCHES) + i
  {
    var q := b / MAX_BATCHES;
    assert BATCH_SIZE * b + i == BUFFER_SIZE * q + (BATCH_SIZE * (b % MAX_BATCHES) + i);
  }

  lemma WindowOfOneBatch(data: seq<byte>, b: nat)
    requires |data| == BUFFER_SIZE
    ensures Window(data, BATCH_SIZE * b, BATCH_SIZE) == Slot(data, b % MAX_BATCHES)
  {
    var w, s := Window(data, BATCH_SIZE * b, BATCH_SIZE), Slot(data, b % MAX_BATCHES);
    forall i | 0 <= i < BATCH_SIZE
      ensures w[i] == s[i]
    {
      PositionOfByte(b, i);
    }
  }

  lemma WindowSplit(data: seq<byte>, pos: nat, m: nat, n: nat)
    requires |data| == BUFFER_SIZE
    ensures Window(data, pos, m + n) == Window(data, pos, m) + Window(data, pos + m, n)
  {
  }

  /** The slots of batches lo, ..., hi - 1, one after the other. */
  function Slots(data: seq<byte>, lo: nat, hi: nat): seq<byte>
    requires |data| == BUFFER_SIZE
    decreases hi
  {
    if hi <= lo then [] else Slots(data, lo, hi - 1) + Slot(data, (hi - 1) % MAX_BATCHES)
  }

  lemma WindowGrows(data: seq<byte>, lo: nat, n: nat)
    requires |data| == BUFFER_SIZE
    ensures Window(data, BATCH_SIZE * lo, BATCH_SIZE * (n + 1))
            == Window(data, BATCH_SIZE * lo, BATCH_SIZE * n) + Slot(data, (lo + n) % MAX_BATCHES)
  {
    var pos, len := BATCH_SIZE * lo, BATCH_SIZE * n;
    assert BATCH_SIZE * (n + 1) == len + BATCH_SIZE && pos + len == BATCH_SIZE * (lo + n);
    WindowSplit(data, pos, len, BATCH_SIZE);
    WindowOfOneBatch(data, lo + n);
  }

  /** An aligned window, wrapped or not, is its slots in batch order. */
  lemma {:induction false} WindowIsSlots(data: seq<byte>, lo: nat, n: nat)
    requires |data| == BUFFER_SIZE
    ensures Window(data, BATCH_SIZE * lo, BATCH_SIZE * n) == Slots(data, lo, lo + n)
  {
    if n == 0 {
    } else {
      WindowIsSlots(data, lo, n - 1);
      WindowGrows(data, lo, n - 1);
    }
  }

  // -------------------------------------------------------- refinement of a FIFO

  /** Reading `n` seconds gives exactly the oldest `n` batches of the FIFO, and succeeds iff they are there. */
  lemma ReadTakesPrefix(r: Ring, n: nat)
    requires Aligned(r)
    ensures WellFormed(r)
    ensures Read(r, n).Some? <==> n * BATCH_SIZE <= |Contents(r)|
    ensures Read(r, n).Some? ==> Read(r, n).value == Contents(r)[..n * BATCH_SIZE]
  {
    QueriesCountBatches(r, n);
  }

  /** Removing `n` seconds drops exactly that prefix, and panics iff it is not there. */
  lemma RemoveDropsPrefix(r: Ring, n: nat)
    requires Aligned(r)
    ensures WellFormed(r)
    ensures Remove(r, n).Some? <==> n * BATCH_SIZE <= |Contents(r)|
    ensures Remove(r, n).Some? ==>
              WellFormed(Remove(r, n).value) && Contents(Remove(r, n).value) == Contents(r)[n * BATCH_SIZE..]
  {
    QueriesCountBatches(r, n);
    if TailBatch(r) + n <= HeadBatch(r) {
      RemoveAligned(r, n);
      QueriesCountBatches(Remove(r, n).value, 0);
    }
  }

  /** The FIFO of an aligned ring is its published slots. */
  lemma ContentsAreSlots(r: Ring)
    requires Aligned(r)
    ensures WellFormed(r) && Contents(r) == Slots(r.data, TailBatch(r), HeadBatch(r))
  {
    QueriesCountBatches(r, 0);
    WindowIsSlots(r.data, TailBatch(r), HeadBatch(r) - TailBatch(r));
    assert r.head - r.tail == BATCH_SIZE * (HeadBatch(r) - TailBatch(r));
  }

  /** Storing a batch that is not yet published leaves the FIFO as it was. */
  lemma WriteAheadKeepsContents(r: Ring, b: nat, frames: seq<byte>)
    requires Aligned(r) && |frames| == BATCH_SIZE
    requires HeadBatch(r) <= b < TailBatch(r) + MAX_BATCHES
    ensures var (out, r') := Write(r, StartFrame(b), EndFrame(b), frames);
            WellFormed(r) && WellFormed(r') && out == Stored && Contents(r') == Contents(r)
  {
    WriteFillsOneSlot(r, b, frames);
    var r' := Write(r, StartFrame(b), EndFrame(b), frames).1;
    assert Aligned(r');
    WriteKeepsOtherSlots(r, r', b);
    ContentsAreSlots(r);
    ContentsAreSlots(r');
  }

  lemma WriteKeepsOtherSlots(r: Ring, r': Ring, b: nat)
    requires Aligned(r) && |r'.data| == BUFFER_SIZE
    requires HeadBatch(r) <= b < TailBatch(r) + MAX_BATCHES
    requires forall k: nat :: k < MAX_BATCHES && k != b % MAX_BATCHES ==> Slot(r'.data, k) == Slot(r.data, k)
    ensures Slots(r'.data, TailBatch(r), HeadBatch(r)) == Slots(r.data, TailBatch(r), HeadBatch(r))
  {
    forall k | TailBatch(r) <= k < HeadBatch(r)
      ensures Slot(r'.data, k % MAX_BATCHES) == Slot(r.data, k % MAX_BATCHES)
    {
      DistinctSlots(k, b);
    }
    SameSlots(r.data, r'.data, TailBatch(r), HeadBatch(r));
  }

  /** Filling the next `n` slots and advancing the head appends them to the FIFO. */
  lemma AdvanceAppendsSlots(r: Ring, n: nat)
    requires Aligned(r) && HeadBatch(r) + n <= TailBatch(r) + MAX_BATCHES
    ensures WellFormed(r) && WellFormed(Advance(r, n))
    ensures Contents(Advance(r, n)) == Contents(r) + Slots(r.data, HeadBatch(r), HeadBatch(r) + n)
  {
    AdvanceAligned(r, n);
    ContentsAreSlots(r);
    ContentsAreSlots(Advance(r, n));
    SlotsSplit(r.data, TailBatch(r), HeadBatch(r), HeadBatch(r) + n);
  }

  lemma {:induction false} SlotsSplit(data: seq<byte>, lo: nat, mid: nat, hi: nat)
    requires |data| == BUFFER_SIZE && lo <= mid <= hi
    ensures Slots(data, lo, hi) == Slots(data, lo, mid) + Slots(data, mid, hi)
    decreases hi
  {
    if hi <= mid {
    } else {
      SlotsSplit(data, lo, mid, hi - 1);
    }
  }

  lemma DistinctSlots(a: nat, b: nat)
    requires a < b < a + MAX_BATCHES
    ensures a % MAX_BATCHES != b % MAX_BATCHES
  {
  }

  lemma {:induction false} SameSlots(data: seq<byte>, data': seq<byte>, lo: nat, hi: nat)
    requires |data| == |data'| == BUFFER_SIZE
    requires forall k | lo <= k < hi :: Slot(data', k % MAX_BATCHES) == Slot(data, k % MAX_BATCHES)
    ensures Slots(data', lo, hi) == Slots(data, lo, hi)
    decreases hi
  {
    if hi <= lo {
    } else {
      SameSlots(data, data', lo, hi - 1);
    }
  }

  // ------------------------------------------------------------------ the buffer

  class FrameBuffer {
    const buffer: array<byte>
    var head: nat
    var tail: nat

    ghost function View(): Ring
      reads this, buffer
    {
      Ring(buffer[..], head, tail)
    }

    ghost predicate Valid()
      reads this, buffer
    {
      WellFormed(View())
    }

    constructor ()
      ensures Valid() && fresh(buffer)
      ensures Aligned(View()) && head == tail == 0 && Contents(View()) == []
    {
      buffer := new byte[BUFFER_SIZE](_ => 0);
      head, tail := 0, 0;
    }

    method AddFramesToBuffer(startFrame: u32, endFrame: u32, data: seq<byte>) returns (out: Outcome)
      requires Valid() && |data| == BATCH_SIZE
      modifies buffer
      ensures Valid() && (out, View()) == Write(old(View()), startFrame, endFrame, data)
      ensures out == StartAfterEnd <==> startFrame > endFrame
      ensures startFrame <= endFrame && startFrame < MAX_FRAMES ==>
                (out == Stored <==> startFrame as int + FRAMES_PER_BATCH <= MAX_FRAMES)
      ensures out != Stored ==> buffer[..] == old(buffer[..])
      ensures out == Stored && startFrame < MAX_FRAMES ==>
                forall i :: 0 <= i < BUFFER_SIZE ==>
                  var at := startFrame as int * FRAME_SIZE;
                  buffer[i] == if at <= i < at + BATCH_SIZE then data[i - at] else old(buffer[i])
    {
      if startFrame < MAX_FRAMES {
        OffsetFits(startFrame);
      }
      if startFrame > endFrame {
        return StartAfterEnd;
      }
      var batchStartIndex := startFrame as int * FRAME_SIZE % TWO_32 % BUFFER_SIZE;
      var batchEndIndex := batchStartIndex + BATCH_SIZE;
      if batchEndIndex > buffer.Length {
        return OutOfBounds;
      }
      ghost var before := buffer[..];
      forall i | batchStartIndex <= i < batchEndIndex {
        buffer[i] := data[i - batchStartIndex];
      }
      assert buffer[..] == before[..batchStartIndex] + data + before[batchEndIndex..];
      out := Stored;
    }

    method GetFramesToBroadcast(seconds: nat) returns (result: Option<seq<byte>>)
      requires Valid()
      ensures result == Read(View(), seconds)
    {
      if (head - tail) / FRAME_SIZE < seconds * FRAMES_PER_BATCH {
        return None;
      }
      var delta := seconds * FRAMES_PER_BATCH * FRAME_SIZE;
      var tailIdx := tail % BUFFER_SIZE;
      var n := if delta <= BUFFER_SIZE - tailIdx then delta else BUFFER_SIZE - tailIdx;
      var bytes := buffer[tailIdx..tailIdx + n];
      if n < delta {
        bytes := bytes + buffer[..delta - n];
      }
      ghost var w := Window(buffer[..], tail, delta);
      forall i | 0 <= i < delta
        ensures bytes[i] == w[i]
      {
        WrappedIndex(tail, i);
      }
      assert bytes == w;
      result := Some(bytes);
    }

    method RemoveSentFramesFromBuffer(secondsToRemove: nat) returns (panicked: bool)
      requires Valid()
      modifies this`tail
      ensures panicked <==> Remove(old(View()), secondsToRemove).None?
      ensures panicked ==> View() == old(View())
      ensures !panicked ==> View() == Remove(old(View()), secondsToRemove).value && Valid()
    {
      var framesToRemove := secondsToRemove * FRAMES_PER_BATCH;
      if framesToRemove > (head - tail) / FRAME_SIZE {
        return true;
      }
      tail := tail + framesToRemove * FRAME_SIZE;
      panicked := false;
    }

    method AdvanceHead(batchesToFetch: nat)
      requires Valid()
      modifies this`head
      ensures View() == Advance(old(View()), batchesToFetch)
      ensures Valid() <==> old(head) + batchesToFetch * BATCH_SIZE <= tail + BUFFER_SIZE
    {
      head := head + batchesToFetch * BATCH_SIZE;
    }

    method GetNextFrameNumber() returns (n: nat)
      requires Valid()
      ensures n == NextFrame(View()) && n < MAX_FRAMES
      ensures Aligned(View()) ==> n == StartFrame(HeadBatch(View())) && Offset(n) == head % BUFFER_SIZE
    {
      if Aligned(View()) {
        QueriesCountBatches(View(), 0);
        OffsetFits(StartFrame(HeadBatch(View())));
        PositionOfByte(HeadBatch(View()), 0);
      }
      n := head / FRAME_SIZE % MAX_FRAMES;
    }
  }

  /** Where the two-part copy puts byte i: before the array end, or wrapped to its start. */
  lemma WrappedIndex(tail: nat, i: nat)
    requires i < BUFFER_SIZE
    ensures var at := tail % BUFFER_SIZE;
            (tail + i) % BUFFER_SIZE == if at + i < BUFFER_SIZE then at + i else at + i - BUFFER_SIZE
  {
  }
}
