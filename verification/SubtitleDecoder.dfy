/** A reader for printed subtitle documents, and the proof that it undoes the printer. */
module SubtitleDecoder {
  import opened Wrappers
  import opened TextTools
  import opened Numerals
  import opened Subtitles

  // ---------- lines ----------

  function SplitLines(s: string): seq<string>
  {
    if s == "" then []
    else
      var rest := SplitLines(s[1..]);
      if s[0] == '\n' then [""] + rest
      else if rest == [] then [[s[0]]]
      else [[s[0]] + rest[0]] + rest[1..]
  }

  function Unlines(lines: seq<string>): string
  {
    if lines == [] then "" else lines[0] + "\n" + Unlines(lines[1..])
  }

  lemma {:induction false} SplitOne(line: string, rest: string)
    requires OneLine(line)
    ensures SplitLines(line + "\n" + rest) == [line] + SplitLines(rest)
    decreases |line|
  {
    var s := line + "\n" + rest;
    if line == "" {
      assert s[1..] == rest;
    } else {
      assert s[1..] == line[1..] + "\n" + rest;
      SplitOne(line[1..], rest);
      var after := SplitLines(s[1..]);
      assert after[0] == line[1..] && after[1..] == SplitLines(rest) && [line[0]] + line[1..] == line;
    }
  }

  lemma {:induction false} SplitUnlines(lines: seq<string>)
    requires forall i | 0 <= i < |lines| :: OneLine(lines[i])
    ensures SplitLines(Unlines(lines)) == lines
    decreases |lines|
  {
    if lines != [] {
      SplitOne(lines[0], Unlines(lines[1..]));
      SplitUnlines(lines[1..]);
    }
  }

  lemma {:induction false} JoinIsUnlines(lines: seq<string>)
    requires lines != []
    ensures Join("\n", lines) + "\n" == Unlines(lines)
    decreases |lines|
  {
    if |lines| > 1 {
      JoinIsUnlines(lines[1..]);
      assert Join("\n", lines) + "\n" == lines[0] + "\n" + (Join("\n", lines[1..]) + "\n");
    } else {
      assert lines[1..] == [];
    }
  }

  // ---------- the time line ----------

  function FirstBlank(s: string): (p: nat)
    ensures p <= |s|
  {
    if s == "" || s[0] == ' ' then 0 else 1 + FirstBlank(s[1..])
  }

  predicate NoBlank(s: string) { forall i | 0 <= i < |s| :: s[i] != ' ' }

  lemma {:induction false} FirstBlankAfter(a: string, b: string)
    requires NoBlank(a) && b != "" && b[0] == ' '
    ensures FirstBlank(a + b) == |a|
    decreases |a|
  {
    if a == "" {
      assert a + b == b;
    } else {
      assert (a + b)[1..] == a[1..] + b;
      FirstBlankAfter(a[1..], b);
    }
  }

  const ARROW := " --> "

  function DecodeTimes(line: string): Option<(int, int)>
  {
    var p := FirstBlank(line);
    if |line| < p + 5 || line[p..p + 5] != ARROW then None
    else
      var from, to := DecodeTimestamp(line[..p]), DecodeTimestamp(line[p + 5..]);
      if from.Some? && to.Some? then Some((from.value, to.value)) else None
  }

  lemma TimestampIsPlain(ms: nat)
    ensures NoBlank(Timestamp(ms)) && OneLine(Timestamp(ms))
  {
    var a := ms % 3_600_000;
    var b := a % 60_000;
    var t := Padded(2, ms / 3_600_000) + TimeTail(Padded(2, a / 60_000), Padded(2, b / 1000), Padded(3, b % 1000));
    assert t == Timestamp(ms);
    PaddedIsDigits(2, ms / 3_600_000);
    PaddedIsDigits(2, a / 60_000);
    PaddedIsDigits(2, b / 1000);
    PaddedIsDigits(3, b % 1000);
    forall i | 0 <= i < |t| ensures IsDigit(t[i]) || t[i] == ':' || t[i] == ',' {}
  }

  lemma DecodeTwoTimes(from: string, to: string)
    requires NoBlank(from) && DecodeTimestamp(from).Some? && DecodeTimestamp(to).Some?
    ensures DecodeTimes(from + ARROW + to) == Some((DecodeTimestamp(from).value, DecodeTimestamp(to).value))
  {
    var line, p := from + ARROW + to, |from|;
    assert line == from + (ARROW + to);
    FirstBlankAfter(from, ARROW + to);
    assert line[..p] == from && line[p..p + 5] == ARROW && line[p + 5..] == to;
  }

  lemma TimesRoundTrip(c: Subtitle)
    requires 0 <= c.startMs < c.endMs
    ensures DecodeTimes(Times(c)) == Some((c.startMs, c.endMs))
  {
    TimestampIsPlain(c.startMs);
    TimestampRoundTrip(c.startMs);
    TimestampRoundTrip(c.endMs);
    DecodeTwoTimes(Timestamp(c.startMs), Timestamp(c.endMs));
  }

  lemma OneLineConcat(a: string, b: string)
    requires OneLine(a) && OneLine(b)
    ensures OneLine(a + b)
  {}

  lemma TimesAreOneLine(c: Subtitle)
    requires 0 <= c.startMs < c.endMs
    ensures OneLine(Times(c))
  {
    TimestampIsPlain(c.startMs);
    TimestampIsPlain(c.endMs);
    assert OneLine(ARROW);
    OneLineConcat(Timestamp(c.startMs), ARROW);
    OneLineConcat(Timestamp(c.startMs) + ARROW, Timestamp(c.endMs));
  }

  // ---------- the document ----------

  function DecodeBlocks(lines: seq<string>): Option<seq<Block>>
  {
    if lines == [] then Some([])
    else if |lines| < 4 then None
    else
      var k := |lines| - 4;
      var before := DecodeBlocks(lines[..k]);
      if before.Some? && lines[k] == Decimal(|before.value| + 1) && lines[k + 3] == ""
      then Some(before.value + [(lines[k + 1], lines[k + 2])])
      else None
  }

  function DecodeCues(blocks: seq<Block>): Option<seq<Subtitle>>
  {
    if blocks == [] then Some([])
    else
      var n := |blocks| - 1;
      var before, times := DecodeCues(blocks[..n]), DecodeTimes(blocks[n].0);
      if before.Some? && times.Some?
      then Some(before.value + [Subtitle(times.value.0, times.value.1, blocks[n].1)])
      else None
  }

  function DecodeSrt(document: string): Option<seq<Subtitle>>
  {
    var blocks := DecodeBlocks(SplitLines(document));
    if blocks.Some? then DecodeCues(blocks.value) else None
  }

  function Cleaned(cues: seq<Subtitle>): seq<Subtitle>
  {
    if cues == [] then []
    else
      var last := cues[|cues| - 1];
      Cleaned(cues[..|cues| - 1]) + [last.(text := Clean(last.text))]
  }

  lemma {:induction false} BlocksRoundTrip(blocks: seq<Block>)
    ensures DecodeBlocks(Rendered(blocks)) == Some(blocks)
    decreases |blocks|
  {
    if blocks != [] {
      var n := |blocks|;
      BlocksRoundTrip(blocks[..n - 1]);
      var lines := Rendered(blocks);
      assert lines[..|lines| - 4] == Rendered(blocks[..n - 1]);
      assert blocks == blocks[..n - 1] + [blocks[n - 1]];
    }
  }

  lemma {:induction false} RenderedIsOneLineEach(blocks: seq<Block>)
    requires forall i | 0 <= i < |blocks| :: OneLine(blocks[i].0) && OneLine(blocks[i].1)
    ensures forall i | 0 <= i < |Rendered(blocks)| :: OneLine(Rendered(blocks)[i])
    decreases |blocks|
  {
    if blocks != [] {
      RenderedIsOneLineEach(blocks[..|blocks| - 1]);
      DecimalIsDigits(|blocks|);
      assert OneLine(Decimal(|blocks|));
    }
  }

  lemma DecodeOneCue(before: seq<Block>, cues: seq<Subtitle>, block: Block)
    requires DecodeCues(before) == Some(cues) && DecodeTimes(block.0).Some?
    ensures DecodeCues(before + [block])
            == Some(cues + [Subtitle(DecodeTimes(block.0).value.0, DecodeTimes(block.0).value.1, block.1)])
  {
    var blocks := before + [block];
    assert blocks[..|blocks| - 1] == before;
  }

  lemma {:induction false} CuesRoundTrip(cues: seq<Subtitle>)
    requires InOrder(cues)
    ensures DecodeCues(BlocksOf(cues)) == Some(Cleaned(cues))
    decreases |cues|
  {
    if cues != [] {
      var n := |cues| - 1;
      CuesRoundTrip(cues[..n]);
      TimesRoundTrip(cues[n]);
      DecodeOneCue(BlocksOf(cues[..n]), Cleaned(cues[..n]), BlockOf(cues[n]));
    }
  }

  lemma {:induction false} BlocksAreOneLine(cues: seq<Subtitle>)
    requires InOrder(cues)
    ensures forall i | 0 <= i < |BlocksOf(cues)| :: OneLine(BlocksOf(cues)[i].0) && OneLine(BlocksOf(cues)[i].1)
    decreases |cues|
  {
    if cues != [] {
      BlocksAreOneLine(cues[..|cues| - 1]);
      TimesAreOneLine(cues[|cues| - 1]);
      CleanIsEmptyExactlyForBlank(cues[|cues| - 1].text);
    }
  }

  /** Reading a printed document gives back every interval to the millisecond and every cleaned text. */
  lemma SrtRoundTrip(cues: seq<Subtitle>)
    requires InOrder(cues) && cues != []
    ensures DecodeSrt(SrtText(cues)) == Some(Cleaned(cues))
  {
    var blocks := BlocksOf(cues);
    BlocksAreOneLine(cues);
    RenderedIsOneLineEach(blocks);
    BlocksRoundTrip(blocks);
    CuesRoundTrip(cues);
    JoinIsUnlines(Rendered(blocks));
    SplitUnlines(Rendered(blocks));
  }
}
