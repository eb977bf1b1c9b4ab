/** The reviewed image profile: exactly which bytes the asset pack accepts as a creative PNG. */
module PngProfile {
  import opened Wrappers
  import opened PngCodec

  const MAX_DIMENSION := 4096
  const MAX_PIXELS := 16_000_000

  // ---------- the header ----------

  datatype Header = Header(
    width: Word, height: Word, bitDepth: Byte, colorType: Byte, compression: Byte, filterMethod: Byte, interlace: Byte)

  function UnpackHeader(p: Bytes): Header
    requires |p| == 13
  {
    Header(Unpack(p[..4]), Unpack(p[4..8]), p[8], p[9], p[10], p[11], p[12])
  }

  function PackHeader(h: Header): (p: Bytes)
    ensures |p| == 13
  {
    Pack(h.width) + Pack(h.height) + [h.bitDepth, h.colorType, h.compression, h.filterMethod, h.interlace]
  }

  lemma HeaderRoundTrip(h: Header)
    ensures UnpackHeader(PackHeader(h)) == h
  {
    var p := PackHeader(h);
    WordsReach();
    UnpackPack(h.width, 4);
    UnpackPack(h.height, 4);
    assert p[..4] == Pack(h.width) && p[4..8] == Pack(h.height);
  }

  predicate Profile(h: Header)
  {
    && 0 < h.width <= MAX_DIMENSION && 0 < h.height <= MAX_DIMENSION && h.width * h.height <= MAX_PIXELS
    && h.bitDepth == 8 && (h.colorType == 2 || h.colorType == 6)
    && h.compression == 0 && h.filterMethod == 0 && h.interlace == 0
  }

  function RowSize(h: Header): nat { 1 + h.width * if h.colorType == 2 then 3 else 4 }

  function PixelSize(h: Header): nat { RowSize(h) * h.height }

  /** What the profile admits decodes to a bounded number of bytes. */
  lemma PixelSizeIsBounded(h: Header)
    requires Profile(h)
    ensures 4 <= PixelSize(h) <= 64_004_096
  {
    var n := if h.colorType == 2 then 3 else 4;
    assert RowSize(h) * h.height == h.height + n * (h.width * h.height);
    assert h.width * h.height >= 1;
  }

  // ---------- the pixels ----------

  predicate FiltersFit(h: Header, pixels: Bytes)
    requires |pixels| == PixelSize(h)
  {
    forall row | 0 <= row < h.height :: FilterOf(h, pixels, row) <= 4
  }

  /** The filter byte at the head of a scan line. */
  function FilterOf(h: Header, pixels: Bytes, row: nat): Byte
    requires |pixels| == PixelSize(h) && row < h.height
  {
    RowInside(h, row);
    pixels[row * RowSize(h)]
  }

  lemma RowInside(h: Header, row: nat)
    requires row < h.height
    ensures 0 <= row * RowSize(h) < PixelSize(h) && (row + 1) * RowSize(h) <= PixelSize(h)
  {
    Multiples(RowSize(h), row, h.height);
  }

  lemma {:induction false} Multiples(size: nat, row: nat, rows: nat)
    requires size > 0 && row < rows
    ensures 0 <= row * size < size * rows && (row + 1) * size <= size * rows
    decreases rows
  {
    if row < rows - 1 {
      Multiples(size, row, rows - 1);
      assert size * rows == size * (rows - 1) + size;
    } else {
      assert (row + 1) * size == row * size + size;
    }
  }

  predicate PixelsFit(z: Zlib, h: Header, compressed: Bytes)
  {
    var inflation := z.decompress(compressed, PixelSize(h) + 1);
    && inflation.Inflated? && |inflation.pixels| == PixelSize(h)
    && inflation.unusedData == [] && inflation.unconsumedTail == [] && inflation.eof
    && FiltersFit(h, inflation.pixels)
  }

  // ---------- the accepted files ----------

  function Payloads(chunks: seq<Chunk>): Bytes
  {
    if chunks == [] then []
    else
      var last := chunks[|chunks| - 1];
      Payloads(chunks[..|chunks| - 1]) + if last.kind == IDAT then last.payload else []
  }

  /** One header, then pixel data only, then one empty end. */
  predicate Skeleton(chunks: seq<Chunk>)
  {
    && |chunks| >= 3 && chunks[0].kind == IHDR && chunks[|chunks| - 1] == Chunk(IEND, [])
    && forall i | 0 < i < |chunks| - 1 :: chunks[i].kind == IDAT
  }

  predicate Sanitized(z: Zlib, chunks: seq<Chunk>)
  {
    && Skeleton(chunks) && |chunks[0].payload| == 13
    && Profile(UnpackHeader(chunks[0].payload))
    && PixelsFit(z, UnpackHeader(chunks[0].payload), Payloads(chunks))
  }

  /** The bytes are the signature and nothing but these chunks, printed. */
  predicate Prints(z: Zlib, data: Bytes, chunks: seq<Chunk>)
  {
    |data| >= 8 && data[..8] == SIGNATURE && |chunks| <= MAX_CHUNKS && Layout(chunks) && data[8..] == Print(z, chunks)
  }

  // ---------- the tests on the chunk sequence ----------

  lemma {:induction false} LayoutEndsOnce(chunks: seq<Chunk>, i: nat)
    requires Layout(chunks) && i < |chunks| - 1
    ensures chunks[i].kind != IEND
    decreases i
  {
    if i > 0 { LayoutEndsOnce(chunks[1..], i - 1); }
  }

  function Headers(chunks: seq<Chunk>): nat
  {
    if chunks == [] then 0
    else Headers(chunks[..|chunks| - 1]) + if chunks[|chunks| - 1].kind == IHDR then 1 else 0
  }

  lemma {:induction false} NoHeaders(chunks: seq<Chunk>)
    ensures Headers(chunks) == 0 <==> forall i | 0 <= i < |chunks| :: chunks[i].kind != IHDR
    decreases |chunks|
  {
    if chunks != [] { NoHeaders(chunks[..|chunks| - 1]); }
  }

  lemma {:induction false} OneHeaderFirst(chunks: seq<Chunk>)
    requires chunks != [] && chunks[0].kind == IHDR
    ensures Headers(chunks) == 1 <==> forall i | 0 < i < |chunks| :: chunks[i].kind != IHDR
    ensures Headers(chunks) >= 1
    decreases |chunks|
  {
    if |chunks| == 1 {
      assert chunks[..0] == [];
    } else {
      OneHeaderFirst(chunks[..|chunks| - 1]);
    }
  }

  function IdatIndexes(chunks: seq<Chunk>): seq<nat>
  {
    if chunks == [] then []
    else
      var n := |chunks| - 1;
      IdatIndexes(chunks[..n]) + if chunks[n].kind == IDAT then [n] else []
  }

  /** The indexes run from the first to the last without a gap. */
  predicate Contiguous(indexes: seq<nat>)
  {
    indexes == [] || indexes == seq(|indexes|, i requires 0 <= i < |indexes| => indexes[0] + i)
  }

  lemma {:induction false} IndexesOfRun(chunks: seq<Chunk>)
    requires chunks != [] && chunks[0].kind != IDAT && forall i | 0 < i < |chunks| :: chunks[i].kind == IDAT
    ensures |IdatIndexes(chunks)| == |chunks| - 1
    ensures forall i | 0 <= i < |chunks| - 1 :: IdatIndexes(chunks)[i] == i + 1
    decreases |chunks|
  {
    if |chunks| == 1 {
      assert chunks[..0] == [];
    } else {
      IndexesOfRun(chunks[..|chunks| - 1]);
    }
  }

  /** The header, boundary and metadata tests already force one run of pixel data: the contiguity test adds nothing. */
  lemma ContiguityIsImplied(chunks: seq<Chunk>)
    requires |chunks| >= 2 && chunks[0].kind == IHDR && chunks[|chunks| - 1].kind == IEND
    requires forall i | 0 < i < |chunks| - 1 :: chunks[i].kind == IDAT
    ensures Contiguous(IdatIndexes(chunks)) && (IdatIndexes(chunks) == [] <==> |chunks| == 2)
  {
    var run := chunks[..|chunks| - 1];
    IndexesOfRun(run);
    assert IDAT[1] != IEND[1] && IdatIndexes(chunks) == IdatIndexes(run) + [];
    RunIsContiguous(IdatIndexes(run));
  }

  lemma RunIsContiguous(indexes: seq<nat>)
    requires forall i | 0 <= i < |indexes| :: indexes[i] == i + 1
    ensures Contiguous(indexes)
  {}

  // ---------- the validator ----------

  /** Row by row, every scan line must start with a defined filter. */
  method CheckFilters(h: Header, pixels: Bytes) returns (ok: bool)
    requires |pixels| == PixelSize(h)
    ensures ok <==> FiltersFit(h, pixels)
  {
    var offset, row := 0, 0;
    while offset < |pixels|
      invariant offset == row * RowSize(h) && row <= h.height
      invariant forall k | 0 <= k < row :: FilterOf(h, pixels, k) <= 4
      decreases |pixels| - offset
    {
      RowInside(h, row);
      if pixels[offset] > 4 {
        assert FilterOf(h, pixels, row) > 4;
        return false;
      }
      offset, row := offset + RowSize(h), row + 1;
    }
    if row < h.height { RowInside(h, row); }
    return true;
  }

  /** The tests on the pixel data, given the header. */
  method CheckPixels(z: Zlib, h: Header, compressed: Bytes) returns (r: Option<PngError>)
    ensures r.None? <==> PixelsFit(z, h, compressed)
  {
    var inflation := z.decompress(compressed, PixelSize(h) + 1);
    if inflation.Undecodable? {
      return Some(UndecodablePixels);
    }
    if |inflation.pixels| != PixelSize(h) || inflation.unusedData != [] || inflation.unconsumedTail != [] || !inflation.eof {
      return Some(BadPixelClosure);
    }
    var ok := CheckFilters(h, inflation.pixels);
    return if ok then None else Some(BadFilter);
  }

  /** The boundary, metadata, header-count and contiguity tests accept exactly the skeleton. */
  method CheckSkeleton(chunks: seq<Chunk>) returns (r: Option<PngError>)
    requires Layout(chunks)
    ensures r.None? <==> Skeleton(chunks)
  {
    if chunks == [] || chunks[0].kind != IHDR || chunks[|chunks| - 1] != Chunk(IEND, []) {
      return Some(BadBoundaries);
    }
    OneHeaderFirst(chunks);
    forall i | 0 <= i < |chunks| - 1 ensures chunks[i].kind != IEND { LayoutEndsOnce(chunks, i); }
    if !(forall i | 0 <= i < |chunks| :: chunks[i].kind == IHDR || chunks[i].kind == IDAT || chunks[i].kind == IEND) {
      return Some(Metadata);
    }
    if Headers(chunks) != 1 {
      return Some(ManyHeaders);
    }
    var indexes := IdatIndexes(chunks);
    ContiguityIsImplied(chunks);
    if indexes == [] || !Contiguous(indexes) {
      return Some(BrokenPixels);
    }
    return None;
  }

  method CheckImage(z: Zlib, chunks: seq<Chunk>) returns (r: Option<PngError>)
    requires Layout(chunks)
    ensures r.None? <==> Sanitized(z, chunks)
  {
    r := CheckSkeleton(chunks);
    if r.Some? {
      return r;
    }
    var ihdr := chunks[0].payload;
    if |ihdr| != 13 {
      return Some(BadHeader);
    }
    var h := UnpackHeader(ihdr);
    if !Profile(h) {
      return Some(BadProfile);
    }
    r := CheckPixels(z, h, Payloads(chunks));
  }

  /** Acceptance is an exact description of the bytes. */
  method ValidateSanitizedPng(z: Zlib, data: Bytes) returns (r: Option<PngError>)
    ensures r.None? <==> exists chunks :: Prints(z, data, chunks) && Sanitized(z, chunks)
  {
    if |data| < 8 || data[..8] != SIGNATURE {
      return Some(NotPng);
    }
    ghost var frame: Reader := (offset: nat) => FrameAt(z, data, offset);
    var limit := MAX_CHUNKS;
    var chunks := ReadChunks(frame, z, data, limit);
    PrintsExactlyParsed(frame, z, data, limit);
    if chunks.Failure? {
      return Some(chunks.error);
    }
    r := CheckImage(z, chunks.value);
  }

  /** At most one chunk sequence prints as given bytes, and it is what the parser returns. */
  lemma PrintsExactlyParsed(frame: Reader, z: Zlib, data: Bytes, limit: nat)
    requires Reads(frame, z, data) && |data| >= 8 && data[..8] == SIGNATURE && limit == MAX_CHUNKS
    ensures forall chunks :: Prints(z, data, chunks) <==> Parse(frame, |data|, 8, limit) == Some(chunks)
    ensures Parse(frame, |data|, 8, limit).Some? ==> Layout(Parse(frame, |data|, 8, limit).value)
  {
    forall chunks ensures Prints(z, data, chunks) <==> Parse(frame, |data|, 8, limit) == Some(chunks) {
      ParseExactlyUndoesPrint(frame, z, data, 8, limit, chunks);
    }
    if Parse(frame, |data|, 8, limit).Some? {
      assert Prints(z, data, Parse(frame, |data|, 8, limit).value);
    }
  }

  // ---------- printed images ----------

  /** The compressor is undone by a decompressor that is given room for one byte more. */
  ghost predicate Inverts(z: Zlib, pixels: Bytes)
  {
    forall limit | limit > |pixels| :: z.decompress(z.compress(pixels), limit) == Inflated(pixels, [], [], true)
  }

  function ImageChunks(z: Zlib, h: Header, pixels: Bytes): seq<Chunk>
  {
    [Chunk(IHDR, PackHeader(h)), Chunk(IDAT, z.compress(pixels)), Chunk(IEND, [])]
  }

  lemma ImageLayout(z: Zlib, h: Header, pixels: Bytes)
    requires |z.compress(pixels)| <= MAX_PAYLOAD
    ensures Layout(ImageChunks(z, h, pixels)) && Payloads(ImageChunks(z, h, pixels)) == z.compress(pixels)
  {
    var chunks := ImageChunks(z, h, pixels);
    assert IHDR[1] != IEND[1] && IDAT[1] != IEND[1];
    assert chunks[1..] == [chunks[1], chunks[2]] && chunks[1..][1..] == [chunks[2]] && chunks[1..][1..][1..] == [];
    assert Layout([chunks[2]]) && Layout(chunks[1..]);
    assert chunks[..2] == [chunks[0], chunks[1]] && chunks[..2][..1] == [chunks[0]] && chunks[..2][..1][..0] == [];
    assert Payloads(chunks[..2]) == [] + [] + z.compress(pixels) by {
      assert Payloads([chunks[0]]) == Payloads([]) + [];
    }
  }

  /** Every image of the profile, printed as one header, one data chunk and one end, is accepted. */
  lemma PrintedImageIsAccepted(z: Zlib, h: Header, pixels: Bytes)
    requires Profile(h) && |pixels| == PixelSize(h) && FiltersFit(h, pixels)
    requires Inverts(z, pixels) && |z.compress(pixels)| <= MAX_PAYLOAD
    ensures var chunks := ImageChunks(z, h, pixels);
            && Layout(chunks) && Sanitized(z, chunks)
            && Prints(z, SIGNATURE + Print(z, chunks), chunks)
  {
    ImageLayout(z, h, pixels);
    HeaderRoundTrip(h);
  }

  /** The two-by-two fixture: one filter byte and two pixels of one colour on each of two lines. */
  function PlaceholderPixels(color: Bytes): Bytes { [0] + color + color + [0] + color + color }

  const PLACEHOLDER_HEADER := Header(2, 2, 8, 2, 0, 0, 0)

  function PlaceholderPng(z: Zlib, color: Bytes): Bytes
    requires |z.compress(PlaceholderPixels(color))| <= MAX_PAYLOAD
  {
    ImageLayout(z, PLACEHOLDER_HEADER, PlaceholderPixels(color));
    SIGNATURE + Print(z, ImageChunks(z, PLACEHOLDER_HEADER, PlaceholderPixels(color)))
  }

  lemma PlaceholderIsAccepted(z: Zlib, color: Bytes)
    requires |color| == 3 && Inverts(z, PlaceholderPixels(color)) && |z.compress(PlaceholderPixels(color))| <= MAX_PAYLOAD
    ensures exists chunks :: Prints(z, PlaceholderPng(z, color), chunks) && Sanitized(z, chunks)
  {
    var pixels := PlaceholderPixels(color);
    assert pixels[0] == 0 && pixels[7] == 0;
    PrintedImageIsAccepted(z, PLACEHOLDER_HEADER, pixels);
  }
}
