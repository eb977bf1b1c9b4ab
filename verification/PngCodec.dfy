/** PNG chunks as bytes (sections 3.2 and 3.4 of RFC 2083): a printer, the parser, and that they undo each other. */
module PngCodec {
  import opened Wrappers

  type Word = w: int | 0 <= w < 0x1_0000_0000

  datatype Chunk = Chunk(kind: Bytes, payload: Bytes)

  /** What one bounded call of the decompressor reports. */
  datatype Inflation = Undecodable | Inflated(pixels: Bytes, unusedData: Bytes, unconsumedTail: Bytes, eof: bool)

  /** The checksum and the compressor, as any functions of these types. */
  datatype Zlib = Zlib(crc32: Bytes -> Word, compress: Bytes -> Bytes, decompress: (Bytes, nat) -> Inflation)

  const SIGNATURE: Bytes := [137, 80, 78, 71, 13, 10, 26, 10]
  const IHDR: Bytes := [73, 72, 68, 82]
  const IDAT: Bytes := [73, 68, 65, 84]
  const IEND: Bytes := [73, 69, 78, 68]
  const MAX_CHUNKS := 64
  const MAX_PAYLOAD := 32 * 1024 * 1024

  // ---------- big-endian words ----------

  /** The last `width` base-256 digits of a number, most significant first. */
  function BigEndian(w: nat, width: nat): (b: Bytes)
    ensures |b| == width
    decreases width, w
  {
    if width == 0 then [] else BigEndian(w / 256, width - 1) + [w % 256]
  }

  function FromBigEndian(b: Bytes): nat
  {
    if b == [] then 0 else FromBigEndian(b[..|b| - 1]) * 256 + b[|b| - 1]
  }

  function Reach(width: nat): nat { if width == 0 then 1 else Reach(width - 1) * 256 }

  lemma {:induction false} FromBigEndianInRange(b: Bytes)
    ensures FromBigEndian(b) < Reach(|b|)
    decreases |b|
  {
    if b != [] { FromBigEndianInRange(b[..|b| - 1]); }
  }

  lemma {:induction false} UnpackPack(w: nat, width: nat)
    requires w < Reach(width)
    ensures FromBigEndian(BigEndian(w, width)) == w
    decreases width
  {
    if width > 0 {
      UnpackPack(w / 256, width - 1);
      var b := BigEndian(w, width);
      assert b[..|b| - 1] == BigEndian(w / 256, width - 1);
    }
  }

  lemma {:induction false} PackUnpack(b: Bytes)
    ensures BigEndian(FromBigEndian(b), |b|) == b
    decreases |b|
  {
    if b != [] {
      var high, last := FromBigEndian(b[..|b| - 1]), b[|b| - 1];
      PackUnpack(b[..|b| - 1]);
      assert (high * 256 + last) / 256 == high && (high * 256 + last) % 256 == last;
    }
  }

  lemma WordsReach()
    ensures Reach(4) == 0x1_0000_0000
  {
    assert Reach(4) == Reach(2) * 256 * 256;
  }

  function Pack(w: Word): Bytes { BigEndian(w, 4) }

  function Unpack(b: Bytes): (w: Word)
    requires |b| == 4
  {
    FromBigEndianInRange(b);
    WordsReach();
    FromBigEndian(b)
  }

  // ---------- the printer ----------

  predicate WellFormed(c: Chunk) { |c.kind| == 4 && |c.payload| <= MAX_PAYLOAD }

  function PrintChunk(z: Zlib, c: Chunk): Bytes
    requires WellFormed(c)
  {
    Pack(|c.payload|) + c.kind + c.payload + Pack(z.crc32(c.kind + c.payload))
  }

  /** Well-formed chunks, with IEND nowhere but at the end. */
  predicate Layout(chunks: seq<Chunk>)
  {
    chunks != [] ==>
      WellFormed(chunks[0]) && (chunks[0].kind == IEND ==> |chunks| == 1) && Layout(chunks[1..])
  }

  function Print(z: Zlib, chunks: seq<Chunk>): Bytes
    requires Layout(chunks)
  {
    if chunks == [] then [] else PrintChunk(z, chunks[0]) + Print(z, chunks[1..])
  }

  // ---------- reading one chunk ----------

  function Size(c: Chunk): nat { 12 + |c.payload| }

  /** The chunk at an offset, when its frame and its checksum hold. */
  function FrameAt(z: Zlib, data: Bytes, offset: nat): Option<Chunk>
  {
    if offset + 12 > |data| then None
    else
      var length := Unpack(data[offset..offset + 4]);
      var end := offset + 12 + length;
      if length > MAX_PAYLOAD || end > |data| then None
      else
        var c := Chunk(data[offset + 4..offset + 8], data[offset + 8..offset + 8 + length]);
        if Unpack(data[offset + 8 + length..end]) == z.crc32(c.kind + c.payload) then Some(c) else None
  }

  lemma Pieces(a: Bytes, b: Bytes, c: Bytes, d: Bytes)
    requires |a| == 4 && |b| == 4 && |d| == 4
    ensures var data, n := a + b + c + d, |c|;
            |data| == 12 + n && data[..4] == a && data[4..8] == b && data[8..8 + n] == c && data[8 + n..12 + n] == d
  {}

  lemma SubSlice(data: Bytes, offset: nat, end: nat, i: nat, j: nat)
    requires offset <= end <= |data| && i <= j <= end - offset
    ensures data[offset..end][i..j] == data[offset + i..offset + j]
  {
    var whole := data[offset..end];
    forall k | 0 <= k < j - i ensures whole[i..j][k] == data[offset + i..offset + j][k] {
      assert whole[i + k] == data[offset + i + k];
    }
  }

  lemma FrameOfPrinted(z: Zlib, data: Bytes, offset: nat, c: Chunk)
    requires WellFormed(c) && offset + Size(c) <= |data| && data[offset..offset + Size(c)] == PrintChunk(z, c)
    ensures FrameAt(z, data, offset) == Some(c)
  {
    var n, check, end := |c.payload|, z.crc32(c.kind + c.payload), offset + Size(c);
    WordsReach();
    UnpackPack(n, 4);
    UnpackPack(check, 4);
    Pieces(Pack(n), c.kind, c.payload, Pack(check));
    SubSlice(data, offset, end, 0, 4);
    SubSlice(data, offset, end, 4, 8);
    SubSlice(data, offset, end, 8, 8 + n);
    SubSlice(data, offset, end, 8 + n, 12 + n);
  }

  lemma Rejoin(data: Bytes, a: nat, b: nat, c: nat, d: nat, e: nat)
    requires a <= b <= c <= d <= e <= |data|
    ensures data[a..e] == data[a..b] + data[b..c] + data[c..d] + data[d..e]
  {
    assert data[a..e] == data[a..d] + data[d..e];
    assert data[a..d] == data[a..c] + data[c..d];
    assert data[a..c] == data[a..b] + data[b..c];
  }

  lemma PrintedFrame(z: Zlib, data: Bytes, offset: nat)
    requires FrameAt(z, data, offset).Some?
    ensures var c := FrameAt(z, data, offset).value;
            && WellFormed(c) && offset + Size(c) <= |data|
            && data[offset..offset + Size(c)] == PrintChunk(z, c)
  {
    var n := |FrameAt(z, data, offset).value.payload|;
    PackUnpack(data[offset..offset + 4]);
    PackUnpack(data[offset + 8 + n..offset + 12 + n]);
    Rejoin(data, offset, offset + 4, offset + 8, offset + 8 + n, offset + 12 + n);
  }

  // ---------- reading all chunks, over any reader of the chunk at an offset ----------

  type Reader = nat -> Option<Chunk>

  /** The reader is the frame reader of these bytes. */
  ghost predicate Reads(frame: Reader, z: Zlib, data: Bytes)
  {
    forall offset {:trigger FrameAt(z, data, offset)} :: frame(offset) == FrameAt(z, data, offset)
  }

  function Prepend(chunks: seq<Chunk>, more: Option<seq<Chunk>>): Option<seq<Chunk>>
  {
    if more.None? then None else Some(chunks + more.value)
  }

  /** All of `size` bytes from an offset on as chunks: at most `budget`, stopping at IEND, nothing left over. */
  function Parse(frame: Reader, size: nat, offset: nat, budget: nat): Option<seq<Chunk>>
    decreases budget
  {
    if offset >= size then (if offset == size then Some([]) else None)
    else if budget == 0 || frame(offset).None? then None
    else
      var c := frame(offset).value;
      var end := offset + Size(c);
      if c.kind == IEND then (if end == size then Some([c]) else None)
      else Prepend([c], Parse(frame, size, end, budget - 1))
  }

  lemma SplitPrinted(data: Bytes, offset: nat, a: Bytes, b: Bytes)
    requires offset <= |data|
    ensures data[offset..] == a + b
            <==> offset + |a| <= |data| && data[offset..offset + |a|] == a && data[offset + |a|..] == b
  {
    if data[offset..] == a + b {
      assert (a + b)[..|a|] == a && (a + b)[|a|..] == b;
    } else if offset + |a| <= |data| {
      assert data[offset..] == data[offset..offset + |a|] + data[offset + |a|..];
    }
  }

  lemma PrintedSize(z: Zlib, c: Chunk)
    requires WellFormed(c)
    ensures |PrintChunk(z, c)| == Size(c)
  {}

  lemma PrintedStep(frame: Reader, z: Zlib, data: Bytes, offset: nat, c: Chunk, rest: Bytes)
    requires Reads(frame, z, data) && WellFormed(c) && offset <= |data| && data[offset..] == PrintChunk(z, c) + rest
    ensures frame(offset) == Some(c) && offset + Size(c) <= |data| && data[offset + Size(c)..] == rest
  {
    SplitPrinted(data, offset, PrintChunk(z, c), rest);
    PrintedSize(z, c);
    FrameOfPrinted(z, data, offset, c);
  }

  lemma {:induction false} ParseOfPrinted(frame: Reader, z: Zlib, data: Bytes, offset: nat, chunks: seq<Chunk>, budget: nat)
    requires Reads(frame, z, data)
    requires Layout(chunks) && |chunks| <= budget && offset <= |data| && data[offset..] == Print(z, chunks)
    ensures Parse(frame, |data|, offset, budget) == Some(chunks)
    decreases |chunks|
  {
    if chunks == [] {
      assert |data[offset..]| == 0;
    } else {
      var c, others := chunks[0], chunks[1..];
      PrintedStep(frame, z, data, offset, c, Print(z, others));
      if c.kind == IEND { assert others == [] && chunks == [c] && |data[offset + Size(c)..]| == 0; }
      ParseOfPrinted(frame, z, data, offset + Size(c), others, budget - 1);
      assert chunks == [c] + others;
    }
  }

  lemma ReadBack(frame: Reader, z: Zlib, data: Bytes, offset: nat)
    requires Reads(frame, z, data) && frame(offset).Some?
    ensures var c := frame(offset).value;
            && WellFormed(c) && offset + Size(c) <= |data|
            && data[offset..] == PrintChunk(z, c) + data[offset + Size(c)..]
  {
    assert frame(offset) == FrameAt(z, data, offset);
    PrintedFrame(z, data, offset);
    var c := frame(offset).value;
    PrintedSize(z, c);
    SplitPrinted(data, offset, PrintChunk(z, c), data[offset + Size(c)..]);
  }

  lemma {:induction false} PrintOfParsed(frame: Reader, z: Zlib, data: Bytes, offset: nat, budget: nat)
    requires Reads(frame, z, data) && Parse(frame, |data|, offset, budget).Some?
    ensures var chunks := Parse(frame, |data|, offset, budget).value;
            Layout(chunks) && |chunks| <= budget && offset <= |data| && data[offset..] == Print(z, chunks)
    decreases budget
  {
    if offset < |data| {
      ReadBack(frame, z, data, offset);
      var c := frame(offset).value;
      var others := if c.kind == IEND then [] else Parse(frame, |data|, offset + Size(c), budget - 1).value;
      if c.kind != IEND { PrintOfParsed(frame, z, data, offset + Size(c), budget - 1); }
      assert ([c] + others)[1..] == others;
    }
  }

  /** The parser and the printer undo each other, within any budget of chunks. */
  lemma ParseExactlyUndoesPrint(frame: Reader, z: Zlib, data: Bytes, offset: nat, budget: nat, chunks: seq<Chunk>)
    requires Reads(frame, z, data) && offset <= |data|
    ensures Parse(frame, |data|, offset, budget) == Some(chunks)
            <==> Layout(chunks) && |chunks| <= budget && data[offset..] == Print(z, chunks)
  {
    if Parse(frame, |data|, offset, budget) == Some(chunks) { PrintOfParsed(frame, z, data, offset, budget); }
    if Layout(chunks) && |chunks| <= budget && data[offset..] == Print(z, chunks) {
      ParseOfPrinted(frame, z, data, offset, chunks, budget);
    }
  }

  datatype PngError = NotPng | BadChunkLayout | ChunkTooLong | BadChecksum | TrailingBytes | BadBoundaries | Metadata
                    | ManyHeaders | BrokenPixels | BadHeader | BadProfile | UndecodablePixels | BadPixelClosure | BadFilter

  /** The body of the loop: the chunk at an offset. */
  method ReadChunk(ghost frame: Reader, z: Zlib, data: Bytes, offset: nat) returns (r: Result<Chunk, PngError>)
    requires Reads(frame, z, data)
    ensures r.Success? <==> frame(offset).Some?
    ensures r.Success? ==> Some(r.value) == frame(offset) && offset + Size(r.value) <= |data|
  {
    assert frame(offset) == FrameAt(z, data, offset);
    if offset + 12 > |data| {
      return Failure(BadChunkLayout);
    }
    var length := Unpack(data[offset..offset + 4]);
    var kind := data[offset + 4..offset + 8];
    var end := offset + 12 + length;
    if length > MAX_PAYLOAD || end > |data| {
      return Failure(ChunkTooLong);
    }
    var payload := data[offset + 8..offset + 8 + length];
    var observed := Unpack(data[offset + 8 + length..end]);
    if observed != z.crc32(kind + payload) {
      return Failure(BadChecksum);
    }
    return Success(Chunk(kind, payload));
  }

  /** One turn of the loop, on the specification. */
  lemma ReadStep(frame: Reader, size: nat, offset: nat, chunks: seq<Chunk>, c: Chunk, budget: nat)
    requires offset < size && budget > 0 && frame(offset) == Some(c)
    ensures var end := offset + Size(c);
            Prepend(chunks, Parse(frame, size, offset, budget))
            == if c.kind == IEND then (if end == size then Some(chunks + [c]) else None)
               else Prepend(chunks + [c], Parse(frame, size, end, budget - 1))
  {
    PrependTwice(chunks, c, Parse(frame, size, offset + Size(c), budget - 1));
  }

  lemma PrependTwice(chunks: seq<Chunk>, c: Chunk, more: Option<seq<Chunk>>)
    ensures Prepend(chunks, Prepend([c], more)) == Prepend(chunks + [c], more)
  {
    if more.Some? { assert chunks + ([c] + more.value) == chunks + [c] + more.value; }
  }

  lemma PrependNothing(more: Option<seq<Chunk>>)
    ensures Prepend([], more) == more
  {
    if more.Some? { assert [] + more.value == more.value; }
  }

  /** One pass over the bytes with a moving offset. */
  method ReadChunks(ghost frame: Reader, z: Zlib, data: Bytes, limit: nat) returns (r: Result<seq<Chunk>, PngError>)
    requires |data| >= 8 && Reads(frame, z, data)
    ensures r.Success? <==> Parse(frame, |data|, 8, limit).Some?
    ensures r.Success? ==> Some(r.value) == Parse(frame, |data|, 8, limit)
  {
    var offset := 8;
    var chunks: seq<Chunk> := [];
    var ended := false;
    ghost var goal := Parse(frame, |data|, 8, limit);
    PrependNothing(goal);
    while offset < |data| && !ended
      invariant 8 <= offset <= |data| && |chunks| <= limit
      invariant !ended ==> goal == Prepend(chunks, Parse(frame, |data|, offset, limit - |chunks|))
      invariant ended ==> goal == if offset == |data| then Some(chunks) else None
      decreases |data| - offset
    {
      if |chunks| >= limit {
        return Failure(BadChunkLayout);
      }
      var chunk := ReadChunk(frame, z, data, offset);
      if chunk.Failure? {
        return Failure(chunk.error);
      }
      ReadStep(frame, |data|, offset, chunks, chunk.value, limit - |chunks|);
      chunks := chunks + [chunk.value];
      offset := offset + 12 + |chunk.value.payload|;
      ended := chunk.value.kind == IEND;
    }
    if offset != |data| {
      return Failure(TrailingBytes);
    }
    assert chunks + [] == chunks;
    return Success(chunks);
  }
}
