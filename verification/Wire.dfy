/** The wire format shared by the server, the browser page and its render worker:
    frame sizes, big-endian integers, message layouts and their parsers. */
module Wire {

  type byte = b: int | 0 <= b < 0x100
  type u32 = n: int | 0 <= n < 0x1_0000_0000

  const TWO_32: nat := 0x1_0000_0000

  const FRAME_SIZE: nat := 880          // bytes per frame
  const FRAMES_PER_BATCH: nat := 60     // one second at 60 frames a second
  const BATCH_SIZE: nat := 52_800       // FRAME_SIZE * FRAMES_PER_BATCH
  const MAX_INCOMING_BYTES: nat := 52_805 // 1 type byte, 4 ID bytes, one batch

  const RENDER_TASK: byte := 0
  const RENDER_RESULT: byte := 1
  const FRAME_BROADCAST: byte := 2
  const CLIENT_COUNT: byte := 3
  const BUFFER_FULLNESS: byte := 4

  datatype Option<+T> = None | Some(value: T)
  datatype Parsed<+T> = Ok(value: T) | Err(reason: string)

  // ---------------------------------------------------------------- big endian

  function Put32(n: u32): (b: seq<byte>)
    ensures |b| == 4
  {
    [n / 0x100_0000, n / 0x1_0000 % 0x100, n / 0x100 % 0x100, n % 0x100]
  }

  function Get32(b: seq<byte>): u32
    requires |b| >= 4
  {
    b[0] as int * 0x100_0000 + b[1] as int * 0x1_0000 + b[2] as int * 0x100 + b[3] as int
  }

  lemma QuotientsOfBytes(b0: byte, b1: byte, b2: byte, b3: byte)
    ensures var v := b0 as int * 0x100_0000 + b1 as int * 0x1_0000 + b2 as int * 0x100 + b3 as int;
            && v / 0x100_0000 == b0
            && v / 0x1_0000 % 0x100 == b1
            && v / 0x100 % 0x100 == b2
            && v % 0x100 == b3
  {
    var v := b0 as int * 0x100_0000 + b1 as int * 0x1_0000 + b2 as int * 0x100 + b3 as int;
    assert v / 0x1_0000 == b0 as int * 0x100 + b1 as int;
    assert v / 0x100 == b0 as int * 0x1_0000 + b1 as int * 0x100 + b2 as int;
  }

  lemma BytesOfQuotients(n: u32)
    ensures n / 0x100_0000 * 0x100_0000 + n / 0x1_0000 % 0x100 * 0x1_0000 + n / 0x100 % 0x100 * 0x100 + n % 0x100 == n
  {
    assert n / 0x1_0000 == n / 0x100 / 0x100 && n / 0x100_0000 == n / 0x100 / 0x100 / 0x100;
  }

  /** The two directions of the four-byte layout undo each other. */
  lemma BigEndianRoundTrip(n: u32, b: seq<byte>)
    requires |b| >= 4
    ensures Get32(Put32(n)) == n
    ensures Put32(Get32(b)) == b[..4]
  {
    BytesOfQuotients(n);
    QuotientsOfBytes(b[0], b[1], b[2], b[3]);
  }

  /** JavaScript reads a number as a signed 32-bit integer before it shifts. */
  function ToInt32(n: u32): int {
    if n < 0x8000_0000 then n else n - TWO_32
  }

  /** The four `(id >> k) & 0xff` bytes the browser writes; `>>` rounds towards minus infinity. */
  function BrowserId(n: u32): seq<byte> {
    [ToInt32(n) / 0x100_0000 % 0x100, ToInt32(n) / 0x1_0000 % 0x100, ToInt32(n) / 0x100 % 0x100, ToInt32(n) % 0x100]
  }

  /** The sign never shows: shifting the signed value gives the unsigned big-endian bytes. */
  lemma BrowserIdIsBigEndian(n: u32)
    ensures BrowserId(n) == Put32(n)
  {
    if n >= 0x8000_0000 {
      var m: int := n - TWO_32;
      ShiftBy24(n);
      ShiftBy16(n);
      ShiftBy8(n);
      SameByte(m / 0x100_0000, n / 0x100_0000, 1);
      SameByte(m / 0x1_0000, n / 0x1_0000, 0x100);
      SameByte(m / 0x100, n / 0x100, 0x1_0000);
      SameByte(m, n, 0x100_0000);
      TopByte(n);
    }
  }

  lemma ShiftBy24(n: int)
    ensures (n - TWO_32) / 0x100_0000 == n / 0x100_0000 - 0x100
  {
  }

  lemma ShiftBy16(n: int)
    ensures (n - TWO_32) / 0x1_0000 == n / 0x1_0000 - 0x1_0000
  {
  }

  lemma ShiftBy8(n: int)
    ensures (n - TWO_32) / 0x100 == n / 0x100 - 0x100_0000
  {
  }

  lemma TopByte(n: u32)
    ensures n / 0x100_0000 % 0x100 == n / 0x100_0000
  {
  }

  lemma SameByte(x: int, y: int, k: int)
    requires x == y - 0x100 * k
    ensures x % 0x100 == y % 0x100
  {
  }

  // ------------------------------------------------------ messages to a client

  datatype Msg =
    | Work(id: u32, start: u32, end: u32)
    | Frames(payload: seq<byte>)
    | Count(clients: u32)
    | Fullness(percent: byte)

  /** The bytes of a server message. */
  function Encode(m: Msg): (b: seq<byte>)
    ensures |b| > 0
  {
    match m
    case Work(id, start, end) => [RENDER_TASK] + Put32(id) + Put32(start) + Put32(end)
    case Frames(payload) => [FRAME_BROADCAST] + payload
    case Count(clients) => [CLIENT_COUNT] + Put32(clients)
    case Fullness(percent) => [BUFFER_FULLNESS, percent]
  }

  /** The page's message switch; a `DataView` read past the end throws, an unknown tag is logged. */
  function ParseByPage(data: seq<byte>): Parsed<Option<Msg>> {
    if |data| == 0 then Err("RangeError")
    else if data[0] == RENDER_TASK then
      if |data| < 13 then Err("RangeError")
      else Ok(Some(Work(Get32(data[1..]), Get32(data[5..]), Get32(data[9..]))))
    else if data[0] == FRAME_BROADCAST then Ok(Some(Frames(data[1..])))
    else if data[0] == CLIENT_COUNT then
      if |data| < 5 then Err("RangeError") else Ok(Some(Count(Get32(data[1..]))))
    else if data[0] == BUFFER_FULLNESS then
      if |data| < 2 then Err("RangeError") else Ok(Some(Fullness(data[1])))
    else Ok(None)
  }

  /** Every message the server can send is read back by the page as itself. */
  lemma PageReadsWhatServerSends(m: Msg)
    ensures ParseByPage(Encode(m)) == Ok(Some(m))
  {
    var b := Encode(m);
    match m
    case Work(id, start, end) =>
      assert b[1..][..4] == Put32(id) && b[5..][..4] == Put32(start) && b[9..][..4] == Put32(end);
      Get32Prefix(b[1..], id);
      Get32Prefix(b[5..], start);
      Get32Prefix(b[9..], end);
    case Frames(payload) =>
      assert b[1..] == payload;
    case Count(clients) =>
      Get32Prefix(b[1..], clients);
    case Fullness(percent) =>
  }

  /** What the page accepts is, up to trailing bytes it never looks at, an encoding of what it read. */
  lemma PageReadsOnlyEncodings(data: seq<byte>)
    requires ParseByPage(data).Ok? && ParseByPage(data).value.Some?
    ensures Encode(ParseByPage(data).value.value) <= data
  {
    var m := ParseByPage(data).value.value;
    match m
    case Work(_, _, _) =>
      BigEndianRoundTrip(0, data[1..]);
      BigEndianRoundTrip(0, data[5..]);
      BigEndianRoundTrip(0, data[9..]);
      assert data[1..][..4] == data[1..5] && data[5..][..4] == data[5..9] && data[9..][..4] == data[9..13];
      assert Encode(m) == data[..13];
    case Frames(_) =>
    case Count(_) =>
      BigEndianRoundTrip(0, data[1..]);
      assert data[1..][..4] == data[1..5];
      assert Encode(m) == data[..5];
    case Fullness(_) =>
  }

  /** The page's handler throws exactly on a message too short for its type, and passes over exactly the messages of
      a type it does not know; everything else it reads as what its tag says. */
  lemma PageThrowsExactlyOnShortMessages(data: seq<byte>)
    ensures ParseByPage(data).Err? <==>
              || |data| == 0
              || (data[0] == RENDER_TASK && |data| < 13)
              || (data[0] == CLIENT_COUNT && |data| < 5)
              || (data[0] == BUFFER_FULLNESS && |data| < 2)
    ensures ParseByPage(data) == Ok(None) <==>
              |data| > 0 && data[0] !in [RENDER_TASK, FRAME_BROADCAST, CLIENT_COUNT, BUFFER_FULLNESS]
    ensures |data| > 0 && data[0] == FRAME_BROADCAST ==> ParseByPage(data) == Ok(Some(Frames(data[1..])))
  {
  }

  lemma Get32Prefix(b: seq<byte>, n: u32)
    requires |b| >= 4 && b[..4] == Put32(n)
    ensures Get32(b) == n
  {
    BigEndianRoundTrip(n, b);
    assert forall k :: 0 <= k < 4 ==> b[k] == b[..4][k];
  }

  // ------------------------------------------- encoders that fill a fresh buffer

  method PutUint32(msg: array<byte>, at: nat, n: u32)
    requires at + 4 <= msg.Length
    modifies msg
    ensures msg[..] == old(msg[..at]) + Put32(n) + old(msg[at + 4..])
  {
    var bytes := Put32(n);
    msg[at], msg[at + 1], msg[at + 2], msg[at + 3] := bytes[0], bytes[1], bytes[2], bytes[3];
  }

  method EncodeRenderTask(id: u32, start: u32, end: u32) returns (msg: array<byte>)
    ensures fresh(msg) && msg[..] == Encode(Work(id, start, end))
  {
    msg := new byte[13](_ => 0);
    msg[0] := RENDER_TASK;
    PutUint32(msg, 1, id);
    assert msg[..5] == [RENDER_TASK] + Put32(id);
    PutUint32(msg, 5, start);
    assert msg[..9] == [RENDER_TASK] + Put32(id) + Put32(start);
    PutUint32(msg, 9, end);
  }

  method EncodeFrameBroadcast(frames: seq<byte>) returns (msg: array<byte>)
    ensures fresh(msg) && msg[..] == Encode(Frames(frames))
  {
    msg := new byte[|frames| + 1](_ => 0);
    msg[0] := FRAME_BROADCAST;
    forall i | 0 <= i < |frames| {
      msg[1 + i] := frames[i];
    }
  }

  method EncodeClientCount(count: u32) returns (msg: array<byte>)
    ensures fresh(msg) && msg[..] == Encode(Count(count))
  {
    msg := new byte[5](_ => 0);
    msg[0] := CLIENT_COUNT;
    PutUint32(msg, 1, count);
  }

  // ------------------------------------------------------- the worker's decoders

  function DecodeRenderTask(body: seq<byte>): Parsed<(u32, u32, u32)> {
    if |body| < 12 then Err("render task message too short")
    else Ok((Get32(body[0..4]), Get32(body[4..8]), Get32(body[8..12])))
  }

  function DecodeClientCount(body: seq<byte>): Parsed<u32> {
    if |body| < 4 then Err("client count message too short") else Ok(Get32(body[0..4]))
  }

  function DecodeBufferFullness(body: seq<byte>): Parsed<byte> {
    if |body| < 1 then Err("buffer fullness message too short") else Ok(body[0])
  }

  /** The Go decoders and the page agree on every body of every message type they both know. */
  lemma DecodersAgreeWithPage(data: seq<byte>)
    requires |data| > 0
    ensures data[0] == RENDER_TASK ==>
              (match DecodeRenderTask(data[1..])
               case Ok((id, start, end)) => ParseByPage(data) == Ok(Some(Work(id, start, end)))
               case Err(_) => ParseByPage(data).Err?)
    ensures data[0] == CLIENT_COUNT ==>
              (match DecodeClientCount(data[1..])
               case Ok(n) => ParseByPage(data) == Ok(Some(Count(n)))
               case Err(_) => ParseByPage(data).Err?)
    ensures data[0] == BUFFER_FULLNESS ==>
              (match DecodeBufferFullness(data[1..])
               case Ok(p) => ParseByPage(data) == Ok(Some(Fullness(p)))
               case Err(_) => ParseByPage(data).Err?)
  {
    var body := data[1..];
    if |body| >= 4 {
      assert body[0..4] == data[1..][..4];
    }
    if |body| >= 12 {
      assert body[4..8] == data[5..][..4];
      assert body[8..12] == data[9..][..4];
    }
  }

  // ------------------------------------------------------ a client's only answer

  datatype RenderResult = RenderResult(id: u32, frames: seq<byte>)

  /** The worker's message: type, task ID, packed frames. */
  function EncodeAnswer(id: u32, frames: seq<byte>): seq<byte> {
    [RENDER_RESULT] + Put32(id) + frames
  }

  /** The server's parser for the bytes after the type tag. */
  function NewRenderResult(body: seq<byte>): Parsed<RenderResult> {
    if |body| < 4 then Err("render result too short to contain a task ID")
    else if |body[4..]| != BATCH_SIZE then Err("invalid frame batch size")
    else Ok(RenderResult(Get32(body[0..4]), body[4..]))
  }

  /** What the server does with a whole incoming message. */
  datatype Incoming = Ignored | Answer(result: RenderResult) | Invalid(reason: string)

  function Classify(data: seq<byte>): Incoming {
    if |data| == 0 then Invalid("received empty message")
    else if data[0] != RENDER_RESULT then Ignored
    else match NewRenderResult(data[1..])
         case Err(reason) => Invalid(reason)
         case Ok(result) => Answer(result)
  }

  /** A message is taken as the answer (id, frames) exactly when it is the encoding of that answer
      with one whole batch; so any other length is rejected, and the read limit never cuts a valid answer. */
  lemma AnswersAreExactlyEncodings(data: seq<byte>, id: u32, frames: seq<byte>)
    ensures Classify(data) == Answer(RenderResult(id, frames)) <==>
            data == EncodeAnswer(id, frames) && |frames| == BATCH_SIZE
    ensures Classify(data).Answer? ==> |data| == MAX_INCOMING_BYTES
  {
    if |data| == MAX_INCOMING_BYTES && data[0] == RENDER_RESULT {
      var body := data[1..];
      BigEndianRoundTrip(id, body[0..4]);
      assert body[0..4] == data[1..5] && body[4..] == data[5..];
      assert data == [data[0]] + data[1..5] + data[5..];
      if Get32(body[0..4]) == id && body[4..] == frames {
        assert body[0..4][..4] == body[0..4];
        assert data == EncodeAnswer(id, frames);
      }
      if data == EncodeAnswer(id, frames) {
        assert data[1..5] == Put32(id);
        assert data[5..] == frames;
      }
    } else if data == EncodeAnswer(id, frames) {
      assert |frames| != BATCH_SIZE;
    }
  }

  /** An answer that is not one whole batch is refused. */
  lemma WrongSizeIsRefused(id: u32, frames: seq<byte>)
    requires |frames| != BATCH_SIZE
    ensures Classify(EncodeAnswer(id, frames)).Invalid?
  {
    assert EncodeAnswer(id, frames)[1..] == Put32(id) + frames;
  }

  method EncodeRenderResult(id: u32, frames: seq<byte>) returns (msg: array<byte>)
    ensures fresh(msg) && msg[..] == EncodeAnswer(id, frames)
  {
    msg := new byte[5 + |frames|](_ => 0);
    msg[0] := RENDER_RESULT;
    PutUint32(msg, 1, id);
    forall i | 0 <= i < |frames| {
      msg[5 + i] := frames[i];
    }
  }
}
