/** The 4-bit frame codec: the render worker packs two characters into a byte, the page unpacks them. */
module Codec {
  import opened Wire

  const GLYPHS: string := ".,-~:;=!*#$@ \n"
  const GLYPH_COUNT: nat := 14
  const DONUT_LENGTH: nat := 1760 // characters in a frame

  /** On bytes, the shifts and masks of the two scripts are the quotient and the remainder by 16. */
  lemma NibbleBits(b: bv8, hi: bv8, lo: bv8)
    requires hi < 16 && lo < 16
    ensures (b >> 4) & 0x0f == b / 16 && b & 0x0f == b % 16
    ensures (hi << 4) | lo == hi * 16 + lo
    ensures ((hi << 4) | lo) / 16 == hi && ((hi << 4) | lo) % 16 == lo
  {
  }

  // ------------------------------------------------------------------- the alphabet

  function Find(c: char, k: nat): Option<nat>
    requires k <= GLYPH_COUNT
    decreases GLYPH_COUNT - k
  {
    if k == GLYPH_COUNT then None
    else if GLYPHS[k] == c then Some(k)
    else Find(c, k + 1)
  }

  /** `charToIndex`. */
  function GlyphIndex(c: char): Option<nat> { Find(c, 0) }

  predicate IsGlyph(c: char) { GlyphIndex(c).Some? }

  lemma {:induction false} FindFinds(c: char, k: nat)
    requires k <= GLYPH_COUNT
    ensures match Find(c, k)
            case Some(i) => k <= i < GLYPH_COUNT && GLYPHS[i] == c
            case None => forall i :: k <= i < GLYPH_COUNT ==> GLYPHS[i] != c
    decreases GLYPH_COUNT - k
  {
    if GLYPH_COUNT <= k {
    } else {
      FindFinds(c, k + 1);
    }
  }

  lemma GlyphsDiffer(i: nat, j: nat)
    requires i < GLYPH_COUNT && j < GLYPH_COUNT && GLYPHS[i] == GLYPHS[j]
    ensures i == j
  {
  }

  /** The index table and the alphabet are inverse to each other. */
  lemma AlphabetRoundTrip(c: char, i: nat)
    ensures IsGlyph(c) <==> c in GLYPHS
    ensures GlyphIndex(c).Some? ==> GlyphIndex(c).value < GLYPH_COUNT && GLYPHS[GlyphIndex(c).value] == c
    ensures i < GLYPH_COUNT ==> GlyphIndex(GLYPHS[i]) == Some(i)
  {
    FindFinds(c, 0);
    if i < GLYPH_COUNT {
      FindFinds(GLYPHS[i], 0);
      GlyphsDiffer(GlyphIndex(GLYPHS[i]).value, i);
    }
  }

  // ------------------------------------------------------------------------- packing

  predicate AllGlyphs(frame: string) {
    forall i :: 0 <= i < |frame| ==> IsGlyph(frame[i])
  }

  function PairCount(frame: string): nat { (|frame| + 1) / 2 }

  /** The second character of a pair; an odd frame is padded with a space. */
  function Second(frame: string, k: nat): char
    requires k < PairCount(frame)
  {
    if 2 * k + 1 < |frame| then frame[2 * k + 1] else ' '
  }

  function PackPair(c1: char, c2: char): (b: byte)
    requires IsGlyph(c1) && IsGlyph(c2)
    ensures b / 16 < GLYPH_COUNT && b % 16 < GLYPH_COUNT
    ensures GLYPHS[b / 16] == c1 && GLYPHS[b % 16] == c2
  {
    AlphabetRoundTrip(c1, 0);
    AlphabetRoundTrip(c2, 0);
    JoinNibbles(GlyphIndex(c1).value, GlyphIndex(c2).value)
  }

  function JoinNibbles(hi: nat, lo: nat): (b: byte)
    requires hi < 16 && lo < 16
    ensures b / 16 == hi && b % 16 == lo
  {
    16 * hi + lo
  }

  lemma SpaceIsGlyph()
    ensures IsGlyph(' ')
  {
    assert GLYPHS[12] == ' ';
    AlphabetRoundTrip(' ', 12);
  }

  function PackFrame(frame: string): (b: seq<byte>)
    requires AllGlyphs(frame)
    ensures |b| == PairCount(frame)
  {
    SpaceIsGlyph();
    seq(PairCount(frame), k requires 0 <= k < PairCount(frame) => PackPair(frame[2 * k], Second(frame, k)))
  }

  predicate AllFrames(frames: seq<string>) {
    forall i :: 0 <= i < |frames| ==> AllGlyphs(frames[i])
  }

  function PackAll(frames: seq<string>): seq<byte>
    requires AllFrames(frames)
  {
    if |frames| == 0 then [] else PackAll(frames[..|frames| - 1]) + PackFrame(frames[|frames| - 1])
  }

  method EncodePair(char1: char, char2: char) returns (out: Parsed<byte>)
    ensures out.Ok? <==> IsGlyph(char1) && IsGlyph(char2)
    ensures out.Ok? ==> out.value == PackPair(char1, char2)
  {
    var index1, index2 := GlyphIndex(char1), GlyphIndex(char2);
    if index1.None? || index2.None? {
      return Err("Invalid character found");
    }
    AlphabetRoundTrip(char1, 0);
    AlphabetRoundTrip(char2, 0);
    out := Ok(JoinNibbles(index1.value, index2.value));
  }

  /** The encoder's loop over one frame: throws on a character outside the alphabet. */
  method EncodeFrame(frame: string) returns (out: Parsed<seq<byte>>)
    ensures out.Ok? <==> AllGlyphs(frame)
    ensures out.Ok? ==> out.value == PackFrame(frame)
  {
    SpaceIsGlyph();
    var bytes: seq<byte> := [];
    var i := 0;
    while i < |frame|
      invariant i == 2 * |bytes| && i <= |frame| + 1
      invariant forall j :: 0 <= j < i && j < |frame| ==> IsGlyph(frame[j])
      invariant forall k :: 0 <= k < |bytes| ==> bytes[k] == PackPair(frame[2 * k], Second(frame, k))
    {
      var char1 := frame[i];
      var char2 := if i + 1 < |frame| then frame[i + 1] else ' ';
      var byte := EncodePair(char1, char2);
      if byte.Err? {
        return Err(byte.reason);
      }
      bytes := bytes + [byte.value];
      i := i + 2;
    }
    assert |bytes| == PairCount(frame);
    assert bytes == PackFrame(frame);
    out := Ok(bytes);
  }

  method EncodeFrames(frames: seq<string>) returns (out: Parsed<seq<byte>>)
    ensures out.Ok? <==> AllFrames(frames)
    ensures out.Ok? ==> out.value == PackAll(frames)
  {
    var encoded: seq<byte> := [];
    for f := 0 to |frames|
      invariant AllFrames(frames[..f]) && encoded == PackAll(frames[..f])
    {
      var bytes := EncodeFrame(frames[f]);
      if bytes.Err? {
        return Err("Invalid character found");
      }
      encoded := encoded + bytes.value;
      assert frames[..f + 1][..f] == frames[..f];
    }
    assert frames[..|frames|] == frames;
    out := Ok(encoded);
  }

  // ----------------------------------------------------------------------- unpacking

  /** Neither nibble is 14 or 15. */
  predicate IsPair(b: byte) { b / 16 < GLYPH_COUNT && b % 16 < GLYPH_COUNT }

  /** The two characters of a byte. */
  function Pair(b: byte): (s: string)
    requires IsPair(b)
    ensures |s| == 2
  {
    [GLYPHS[b / 16], GLYPHS[b % 16]]
  }

  predicate Decodable(bytes: seq<byte>) {
    forall i :: 0 <= i < |bytes| ==> IsPair(bytes[i])
  }

  function Unpack(bytes: seq<byte>): (s: string)
    requires Decodable(bytes)
    ensures |s| == 2 * |bytes|
  {
    if |bytes| == 0 then "" else Unpack(bytes[..|bytes| - 1]) + Pair(bytes[|bytes| - 1])
  }

  /** Cutting the characters into frames; only the last may be short. */
  function Cut(s: string): seq<string> {
    if |s| == 0 then [] else if |s| <= DONUT_LENGTH then [s] else [s[..DONUT_LENGTH]] + Cut(s[DONUT_LENGTH..])
  }

  function Decode(bytes: seq<byte>): seq<string>
    requires Decodable(bytes)
  {
    Cut(Unpack(bytes))
  }

  /** Where the decoder stands after some bytes: whole frames, and the characters of a frame not yet whole. */
  ghost predicate Decoding(bytes: seq<byte>, frames: seq<string>, chars: string) {
    && Decodable(bytes) && Unpack(bytes) == Glue(frames) + chars
    && |chars| < DONUT_LENGTH && |chars| % 2 == 0
    && forall k :: 0 <= k < |frames| ==> |frames[k]| == DONUT_LENGTH
  }

  lemma DecodeTurn(bytes: seq<byte>, b: byte, frames: seq<string>, chars: string)
    requires Decoding(bytes, frames, chars) && IsPair(b)
    ensures var more := chars + Pair(b);
            if |more| == DONUT_LENGTH
            then Decoding(bytes + [b], frames + [more], "")
            else Decoding(bytes + [b], frames, more)
  {
    var more := chars + Pair(b);
    UnpackSnoc(bytes, b);
    assert Unpack(bytes + [b]) == Glue(frames) + more;
    GlueAppend(frames, more);
    assert Glue(frames + [more]) + "" == Glue(frames) + more;
  }

  lemma DecodingDone(bytes: seq<byte>, frames: seq<string>, chars: string)
    requires Decoding(bytes, frames, chars)
    ensures Decode(bytes) == frames + if |chars| > 0 then [chars] else []
  {
    CutGlued(frames, chars);
  }

  /** The two characters of a byte, each `undefined` past the end of the alphabet. */
  method DecodePair(encoded: byte) returns (out: Parsed<string>)
    ensures out.Ok? <==> IsPair(encoded)
    ensures out.Ok? ==> out.value == Pair(encoded)
  {
    var highNibble, lowNibble := encoded / 16, encoded % 16;
    if highNibble >= GLYPH_COUNT || lowNibble >= GLYPH_COUNT {
      return Err("Invalid nibble value");
    }
    out := Ok([GLYPHS[highNibble], GLYPHS[lowNibble]]);
  }

  /** The page's decoder fails exactly when some nibble is 14 or 15. */
  method DecodeFrames(encodedFrames: seq<byte>) returns (out: Parsed<seq<string>>)
    ensures out.Ok? <==> Decodable(encodedFrames)
    ensures out.Ok? ==> out.value == Decode(encodedFrames)
  {
    var decodedFrames: seq<string> := [];
    var chars: string := "";
    ghost var done: seq<byte> := [];
    for i := 0 to |encodedFrames|
      invariant done == encodedFrames[..i] && Decoding(done, decodedFrames, chars)
    {
      var pair := DecodePair(encodedFrames[i]);
      if pair.Err? {
        return Err(pair.reason);
      }
      DecodeTurn(done, encodedFrames[i], decodedFrames, chars);
      done := done + [encodedFrames[i]];
      chars := chars + pair.value;
      if |chars| == DONUT_LENGTH {
        decodedFrames := decodedFrames + [chars];
        chars := "";
      }
    }
    assert done == encodedFrames;
    DecodingDone(encodedFrames, decodedFrames, chars);
    if |chars| > 0 {
      decodedFrames := decodedFrames + [chars];
    }
    out := Ok(decodedFrames);
  }

  ghost function Glue(frames: seq<string>): string {
    if |frames| == 0 then "" else Glue(frames[..|frames| - 1]) + frames[|frames| - 1]
  }

  lemma GlueAppend(frames: seq<string>, frame: string)
    ensures Glue(frames + [frame]) == Glue(frames) + frame
  {
    assert (frames + [frame])[..|frames|] == frames;
  }

  lemma {:induction false} GlueCons(frame: string, frames: seq<string>)
    ensures Glue([frame] + frames) == frame + Glue(frames)
    decreases |frames|
  {
    if |frames| == 0 {
      assert [frame] + frames == [frame] && Glue([frame]) == Glue([]) + frame;
    } else {
      var n := |frames| - 1;
      assert ([frame] + frames)[..n + 1] == [frame] + frames[..n];
      GlueCons(frame, frames[..n]);
    }
  }

  lemma UnpackSnoc(bytes: seq<byte>, b: byte)
    requires Decodable(bytes) && IsPair(b)
    ensures Decodable(bytes + [b]) && Unpack(bytes + [b]) == Unpack(bytes) + Pair(b)
  {
    assert (bytes + [b])[..|bytes|] == bytes;
  }

  /** Cutting undoes gluing whole frames, with a shorter rest. */
  lemma {:induction false} CutGlued(frames: seq<string>, rest: string)
    requires forall k :: 0 <= k < |frames| ==> |frames[k]| == DONUT_LENGTH
    requires |rest| < DONUT_LENGTH
    ensures Cut(Glue(frames) + rest) == frames + Cut(rest)
    decreases |frames|
  {
    if |frames| == 0 {
      assert Glue(frames) + rest == rest;
    } else {
      GlueCons(frames[0], frames[1..]);
      assert [frames[0]] + frames[1..] == frames;
      var s := Glue(frames) + rest;
      assert s[..DONUT_LENGTH] == frames[0] && s[DONUT_LENGTH..] == Glue(frames[1..]) + rest;
      CutGlued(frames[1..], rest);
      CutStep(s);
    }
  }

  // ---------------------------------------------------------------------- round trips

  predicate WholeDonut(frame: string) {
    |frame| == DONUT_LENGTH && AllGlyphs(frame)
  }

  predicate WholeDonuts(frames: seq<string>) {
    forall i :: 0 <= i < |frames| ==> WholeDonut(frames[i])
  }

  lemma {:induction false} UnpackAt(bytes: seq<byte>, i: nat)
    requires Decodable(bytes) && i < |bytes|
    ensures Unpack(bytes)[2 * i] == Pair(bytes[i])[0] && Unpack(bytes)[2 * i + 1] == Pair(bytes[i])[1]
    decreases |bytes|
  {
    if i < |bytes| - 1 {
      UnpackAt(bytes[..|bytes| - 1], i);
    }
  }

  /** A frame of odd length is packed as if a space followed it. */
  function Padded(frame: string): string {
    if |frame| % 2 == 0 then frame else frame + " "
  }

  /** For every frame over the alphabet, whatever its length, unpacking gives back the padded frame. */
  lemma UnpackPackPads(frame: string)
    requires AllGlyphs(frame)
    ensures Decodable(PackFrame(frame)) && Unpack(PackFrame(frame)) == Padded(frame)
  {
    var b, padded := PackFrame(frame), Padded(frame);
    SpaceIsGlyph();
    forall i | 0 <= i < |b|
      ensures IsPair(b[i]) && Pair(b[i]) == [padded[2 * i], padded[2 * i + 1]]
    {
      assert b[i] == PackPair(frame[2 * i], Second(frame, i));
    }
    forall j | 0 <= j < |padded|
      ensures Unpack(b)[j] == padded[j]
    {
      var i := j / 2;
      assert j == 2 * i || j == 2 * i + 1;
      UnpackAt(b, i);
    }
  }

  lemma UnpackPack(frame: string)
    requires WholeDonut(frame)
    ensures |PackFrame(frame)| == FRAME_SIZE && Decodable(PackFrame(frame)) && Unpack(PackFrame(frame)) == frame
  {
    UnpackPackPads(frame);
  }

  lemma UnpackConcatNext(a: seq<byte>, b: seq<byte>, x: byte)
    requires Decodable(a) && Decodable(b) && IsPair(x)
    requires Decodable(a + b) && Unpack(a + b) == Unpack(a) + Unpack(b)
    ensures Decodable(b + [x]) && Decodable(a + (b + [x])) && Unpack(a + (b + [x])) == Unpack(a) + Unpack(b + [x])
  {
    UnpackSnoc(b, x);
    UnpackSnoc(a + b, x);
    Associative(a, b, [x]);
    Associative(Unpack(a), Unpack(b), Pair(x));
  }

  lemma Associative<T>(a: seq<T>, b: seq<T>, c: seq<T>)
    ensures a + b + c == a + (b + c)
  {
  }

  lemma {:induction false} UnpackConcat(a: seq<byte>, b: seq<byte>)
    requires Decodable(a) && Decodable(b)
    ensures Decodable(a + b) && Unpack(a + b) == Unpack(a) + Unpack(b)
    decreases |b|
  {
    if |b| == 0 {
      assert a + b == a;
    } else {
      var n := |b| - 1;
      assert b == b[..n] + [b[n]];
      UnpackConcat(a, b[..n]);
      UnpackConcatNext(a, b[..n], b[n]);
    }
  }

  lemma {:induction false} PackAllGlued(frames: seq<string>)
    requires WholeDonuts(frames)
    ensures AllFrames(frames) && Decodable(PackAll(frames)) && Unpack(PackAll(frames)) == Glue(frames)
    ensures |PackAll(frames)| == FRAME_SIZE * |frames|
    decreases |frames|
  {
    if |frames| == 0 {
    } else {
      var n := |frames| - 1;
      PackAllGlued(frames[..n]);
      UnpackPack(frames[n]);
      UnpackConcat(PackAll(frames[..n]), PackFrame(frames[n]));
    }
  }

  /** The page's decoder gives back exactly the list of frames the worker packed. */
  lemma DecodeInvertsPack(frames: seq<string>)
    requires WholeDonuts(frames)
    ensures AllFrames(frames) && Decodable(PackAll(frames)) && Decode(PackAll(frames)) == frames
  {
    PackAllGlued(frames);
    CutGlued(frames, "");
    assert Glue(frames) + "" == Glue(frames);
    assert Cut("") == [] && frames + [] == frames;
  }

  lemma CutStep(s: string)
    requires |s| >= DONUT_LENGTH
    ensures Cut(s) == [s[..DONUT_LENGTH]] + Cut(s[DONUT_LENGTH..])
  {
    if |s| == DONUT_LENGTH {
      assert s[..DONUT_LENGTH] == s && Cut(s[DONUT_LENGTH..]) == [];
    }
  }

  /** Decoding distributes over concatenation at a frame boundary. */
  lemma {:induction false} CutConcat(a: string, b: string)
    requires |a| % DONUT_LENGTH == 0
    ensures Cut(a + b) == Cut(a) + Cut(b)
    decreases |a|
  {
    if |a| == 0 {
      assert a + b == b;
    } else {
      assert |a| >= DONUT_LENGTH;
      var c := a[DONUT_LENGTH..];
      assert (a + b)[..DONUT_LENGTH] == a[..DONUT_LENGTH] && (a + b)[DONUT_LENGTH..] == c + b;
      CutStep(a);
      CutStep(a + b);
      CutConcat(c, b);
    }
  }

  lemma DecodeDistributes(a: seq<byte>, b: seq<byte>)
    requires |a| % FRAME_SIZE == 0
    ensures Decodable(a + b) <==> Decodable(a) && Decodable(b)
    ensures Decodable(a + b) ==> Decode(a + b) == Decode(a) + Decode(b)
  {
    assert (a + b)[..|a|] == a && (a + b)[|a|..] == b;
    if Decodable(a + b) {
      assert forall i :: 0 <= i < |b| ==> b[i] == (a + b)[|a| + i];
      UnpackConcat(a, b);
      CutConcat(Unpack(a), Unpack(b));
    }
  }

  /** Packing the two glyphs of a byte gives the byte back. */
  lemma PackPairOfByte(b: byte)
    requires IsPair(b)
    ensures AllGlyphs(Pair(b)) && PackPair(Pair(b)[0], Pair(b)[1]) == b
  {
    var hi, lo := b / 16, b % 16;
    AlphabetRoundTrip(GLYPHS[hi], hi);
    AlphabetRoundTrip(GLYPHS[lo], lo);
    var p := PackPair(GLYPHS[hi], GLYPHS[lo]);
    GlyphsDiffer(p / 16, hi);
    GlyphsDiffer(p % 16, lo);
    assert p == 16 * (p / 16) + p % 16;
  }

  lemma UnpackedGlyphs(bytes: seq<byte>)
    requires Decodable(bytes)
    ensures AllGlyphs(Unpack(bytes))
  {
    forall j | 0 <= j < 2 * |bytes|
      ensures IsGlyph(Unpack(bytes)[j])
    {
      var i := j / 2;
      assert j == 2 * i || j == 2 * i + 1;
      UnpackAt(bytes, i);
      PackPairOfByte(bytes[i]);
    }
  }

  lemma PackUnpackFrame(bytes: seq<byte>)
    requires |bytes| == FRAME_SIZE && Decodable(bytes)
    ensures WholeDonut(Unpack(bytes)) && PackFrame(Unpack(bytes)) == bytes
  {
    UnpackedGlyphs(bytes);
    var s := Unpack(bytes);
    forall i | 0 <= i < |bytes|
      ensures PackFrame(s)[i] == bytes[i]
    {
      UnpackAt(bytes, i);
      PackPairOfByte(bytes[i]);
    }
  }

  /** Re-packing the decoded frames of a whole number of frames gives back the bytes. */
  lemma {:induction false} PackInvertsDecode(bytes: seq<byte>)
    requires |bytes| % FRAME_SIZE == 0 && Decodable(bytes)
    ensures WholeDonuts(Decode(bytes)) && AllFrames(Decode(bytes)) && PackAll(Decode(bytes)) == bytes
    decreases |bytes|
  {
    if |bytes| == 0 {
    } else {
      var a, b := bytes[..|bytes| - FRAME_SIZE], bytes[|bytes| - FRAME_SIZE..];
      assert a + b == bytes;
      DecodeDistributes(a, b);
      PackInvertsDecode(a);
      PackUnpackFrame(b);
      assert Decode(b) == [Unpack(b)];
      assert Decode(bytes)[..|Decode(a)|] == Decode(a);
    }
  }

  // ------------------------------------------------------------------ a worker's answer

  /** The worker's loop over the requested frame numbers; `glyphs` stands for the donut renderer. Making the array
      throws when its length would be negative or need more than 32 bits. */
  method CreateFrames(glyphs: nat -> string, startFrame: u32, endFrame: u32) returns (out: Parsed<seq<string>>)
    ensures out.Ok? <==> 0 <= endFrame as int - startFrame as int + 1 < TWO_32
    ensures out.Ok? ==> |out.value| == endFrame as int - startFrame as int + 1
    ensures out.Ok? ==> forall i :: 0 <= i < |out.value| ==> out.value[i] == glyphs(startFrame as int + i)
  {
    var length := endFrame as int - startFrame as int + 1;
    if length < 0 || length >= TWO_32 {
      return Err("RangeError");
    }
    var frames: seq<string> := [];
    for i := startFrame as int to endFrame as int + 1
      invariant |frames| == i - startFrame as int
      invariant forall j :: 0 <= j < |frames| ==> frames[j] == glyphs(startFrame as int + j)
    {
      frames := frames + [glyphs(i)];
    }
    out := Ok(frames);
  }

  /** The whole message a worker posts back. */
  method EncodeRenderResult(renderTaskID: u32, frames: seq<string>) returns (out: Parsed<seq<byte>>)
    ensures out.Ok? <==> AllFrames(frames)
    ensures out.Ok? ==> out.value == EncodeAnswer(renderTaskID, PackAll(frames))
  {
    var encoded := EncodeFrames(frames);
    if encoded.Err? {
      return encoded;
    }
    BrowserIdIsBigEndian(renderTaskID);
    out := Ok([RENDER_RESULT] + BrowserId(renderTaskID) + encoded.value);
  }

  /** For any task ID and any 60 whole frames the answer has the one length the server reads, and is parsed
      to that ID and those packed frames. */
  lemma AnswerReachesServer(renderTaskID: u32, frames: seq<string>)
    requires WholeDonuts(frames) && |frames| == FRAMES_PER_BATCH
    ensures AllFrames(frames)
    ensures |EncodeAnswer(renderTaskID, PackAll(frames))| == MAX_INCOMING_BYTES
    ensures Classify(EncodeAnswer(renderTaskID, PackAll(frames))) == Answer(RenderResult(renderTaskID, PackAll(frames)))
  {
    PackAllGlued(frames);
    AnswersAreExactlyEncodings(EncodeAnswer(renderTaskID, PackAll(frames)), renderTaskID, PackAll(frames));
  }
}
