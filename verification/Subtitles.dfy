/** Subtitle printing, a decoder for what is printed, and the timing tests of the audio master. */
module Subtitles {
  import opened Wrappers
  import opened TextTools
  import opened Numerals

  // ---------- time stamps ----------

  function Timestamp(ms: nat): string
  {
    var hours, afterHours := ms / 3_600_000, ms % 3_600_000;
    var minutes, afterMinutes := afterHours / 60_000, afterHours % 60_000;
    Padded(2, hours) + TimeTail(Padded(2, minutes), Padded(2, afterMinutes / 1000), Padded(3, afterMinutes % 1000))
  }

  function Numeral(s: string): Option<int>
  {
    if s != "" && Digits(s) then Some(ValueOf(s)) else None
  }

  /** `:MM:SS,mmm` */
  function DecodeTail(tail: string): Option<int>
    requires |tail| == 10
  {
    var m, s, f := Numeral(tail[1..3]), Numeral(tail[4..6]), Numeral(tail[7..]);
    if tail[0] == ':' && tail[3] == ':' && tail[6] == ',' && m.Some? && s.Some? && f.Some?
    then Some(m.value * 60_000 + s.value * 1000 + f.value)
    else None
  }

  /** The last ten characters are `:MM:SS,mmm`; whatever stands before them is the hours. */
  function DecodeTimestamp(t: string): Option<int>
  {
    if |t| < 11 then None
    else
      var h, rest := Numeral(t[..|t| - 10]), DecodeTail(t[|t| - 10..]);
      if h.Some? && rest.Some? then Some(h.value * 3_600_000 + rest.value) else None
  }

  function TimeTail(m: string, s: string, f: string): string { ":" + m + ":" + s + "," + f }

  lemma DecodeTailFields(m: string, s: string, f: string)
    requires |m| == 2 && |s| == 2 && |f| == 3 && Digits(m) && Digits(s) && Digits(f)
    ensures |TimeTail(m, s, f)| == 10
    ensures DecodeTail(TimeTail(m, s, f)) == Some(ValueOf(m) * 60_000 + ValueOf(s) * 1000 + ValueOf(f))
  {
    var tail := TimeTail(m, s, f);
    assert tail[1..3] == m && tail[4..6] == s && tail[7..] == f;
  }

  lemma DecodeFields(h: string, tail: string)
    requires h != "" && Digits(h) && |tail| == 10 && DecodeTail(tail).Some?
    ensures DecodeTimestamp(h + tail) == Some(ValueOf(h) * 3_600_000 + DecodeTail(tail).value)
  {
    var t := h + tail;
    assert t[|t| - 10..] == tail && t[..|t| - 10] == h;
  }

  lemma TimeSplits(ms: nat)
    ensures var a := ms % 3_600_000;
            var b := a % 60_000;
            ms / 3_600_000 * 3_600_000 + a / 60_000 * 60_000 + b / 1000 * 1000 + b % 1000 == ms
            && a / 60_000 < 60 && b / 1000 < 60 && b % 1000 < 1000
  {}

  /** What a padded number of a time stamp is. */
  lemma PaddedField(width: nat, n: nat)
    ensures Padded(width, n) != "" && Digits(Padded(width, n)) && ValueOf(Padded(width, n)) == n
    ensures (width == 2 && n < 100) || (width == 3 && n < 1000) ==> |Padded(width, n)| == width
  {
    PaddedIsDigits(width, n);
    PaddedValue(width, n);
    PaddedWidth(n);
  }

  /** A printed time decodes to the exact millisecond, whatever the number of hours. */
  lemma TimestampRoundTrip(ms: nat)
    ensures DecodeTimestamp(Timestamp(ms)) == Some(ms)
  {
    var a := ms % 3_600_000;
    var b := a % 60_000;
    TimeSplits(ms);
    PaddedField(2, ms / 3_600_000);
    PaddedField(2, a / 60_000);
    PaddedField(2, b / 1000);
    PaddedField(3, b % 1000);
    var m, s, f := Padded(2, a / 60_000), Padded(2, b / 1000), Padded(3, b % 1000);
    DecodeTailFields(m, s, f);
    DecodeFields(Padded(2, ms / 3_600_000), TimeTail(m, s, f));
  }

  // ---------- texts ----------

  /** The characters a Python string treats as white space. */
  predicate Space(c: char)
  {
    var n := c as int;
    9 <= n <= 13 || 28 <= n <= 32 || n == 0x85 || n == 0xA0 || n == 0x1680 || 0x2000 <= n <= 0x200A
    || n == 0x2028 || n == 0x2029 || n == 0x202F || n == 0x205F || n == 0x3000
  }

  /** Line breaks become blanks before the text is split. */
  function Flatten(text: string): string
  {
    seq(|text|, i requires 0 <= i < |text| => if text[i] == '\r' || text[i] == '\n' then ' ' else text[i])
  }

  /** A word: not empty, and free of white space. */
  predicate Word(w: string) { w != "" && forall i | 0 <= i < |w| :: !Space(w[i]) }

  /** Splitting at runs of white space. */
  function Words(s: string): (words: seq<string>)
    ensures forall k | 0 <= k < |words| :: Word(words[k])
    ensures s != "" && !Space(s[|s| - 1]) ==> words != []
  {
    if s == "" then []
    else
      var before, last := Words(s[..|s| - 1]), s[|s| - 1];
      if Space(last) then before
      else if |s| == 1 || Space(s[|s| - 2]) then before + [[last]]
      else before[..|before| - 1] + [before[|before| - 1] + [last]]
  }

  function Clean(text: string): string { Join(" ", Words(Flatten(text))) }

  predicate Blank(s: string) { forall i | 0 <= i < |s| :: Space(s[i]) }

  lemma {:induction false} NoWordsMeansBlank(s: string)
    ensures Words(s) == [] <==> Blank(s)
    decreases |s|
  {
    if s != "" {
      NoWordsMeansBlank(s[..|s| - 1]);
      assert Blank(s) ==> Blank(s[..|s| - 1]);
    }
  }

  predicate OneLine(s: string) { forall i | 0 <= i < |s| :: s[i] != '\n' }

  lemma {:induction false} JoinedWords(words: seq<string>)
    requires forall k | 0 <= k < |words| :: Word(words[k])
    ensures OneLine(Join(" ", words)) && (Join(" ", words) == "" <==> words == [])
    decreases |words|
  {
    if |words| > 1 {
      assert Word(words[0]);
      JoinedWords(words[1..]);
    } else if |words| == 1 {
      assert Word(words[0]);
    }
  }

  /** The printer's own test for an empty subtitle is a test for a blank text. */
  lemma CleanIsEmptyExactlyForBlank(text: string)
    ensures Clean(text) == "" <==> Blank(text)
    ensures OneLine(Clean(text))
  {
    JoinedWords(Words(Flatten(text)));
    NoWordsMeansBlank(Flatten(text));
    forall i | 0 <= i < |text| ensures Space(Flatten(text)[i]) <==> Space(text[i]) {}
  }

  // ---------- the document ----------

  datatype Subtitle = Subtitle(startMs: int, endMs: int, text: string)

  datatype SrtError = BadTiming | EmptyText

  predicate InOrder(cues: seq<Subtitle>)
  {
    && (forall i | 0 <= i < |cues| :: 0 <= cues[i].startMs < cues[i].endMs)
    && (forall i, j | 0 <= i < |cues| && 0 <= j < |cues| && j == i + 1 :: cues[i].endMs <= cues[j].startMs)
  }

  function Times(c: Subtitle): string
    requires 0 <= c.startMs < c.endMs
  {
    Timestamp(c.startMs) + " --> " + Timestamp(c.endMs)
  }

  /** The time line and the cleaned text of a subtitle. */
  type Block = (string, string)

  function BlockOf(c: Subtitle): Block
    requires 0 <= c.startMs < c.endMs
  {
    (Times(c), Clean(c.text))
  }

  function BlocksOf(cues: seq<Subtitle>): seq<Block>
    requires InOrder(cues)
  {
    if cues == [] then [] else BlocksOf(cues[..|cues| - 1]) + [BlockOf(cues[|cues| - 1])]
  }

  /** The printed lines: number, times, text, and an empty line, for each block. */
  function Rendered(blocks: seq<Block>): seq<string>
  {
    if blocks == [] then []
    else
      var n := |blocks|;
      Rendered(blocks[..n - 1]) + [Decimal(n), blocks[n - 1].0, blocks[n - 1].1, ""]
  }

  function SrtText(cues: seq<Subtitle>): string
    requires InOrder(cues)
  {
    Join("\n", Rendered(BlocksOf(cues))) + "\n"
  }

  /** The timing test of the loop is what keeps a prefix in order. */
  lemma OrderOneMore(cues: seq<Subtitle>, i: nat)
    requires i < |cues| && InOrder(cues[..i])
    ensures var previousEnd := if i == 0 then 0 else cues[i - 1].endMs;
            InOrder(cues[..i + 1]) <==> previousEnd <= cues[i].startMs < cues[i].endMs
  {
    var before, after := cues[..i], cues[..i + 1];
    forall k | 0 <= k < i ensures after[k] == before[k] {}
    if i > 0 { assert before[i - 1] == cues[i - 1]; }
    if InOrder(after) && i > 0 { assert after[i - 1].endMs <= after[i].startMs; }
  }

  lemma PrefixInOrder(cues: seq<Subtitle>, i: nat)
    requires i <= |cues| && InOrder(cues)
    ensures InOrder(cues[..i])
  {}

  lemma {:induction false} BlocksLength(cues: seq<Subtitle>)
    requires InOrder(cues)
    ensures |BlocksOf(cues)| == |cues|
    decreases |cues|
  {
    if cues != [] { BlocksLength(cues[..|cues| - 1]); }
  }

  lemma RenderedOneMore(cues: seq<Subtitle>, i: nat)
    requires i < |cues| && InOrder(cues[..i]) && InOrder(cues[..i + 1])
    ensures 0 <= cues[i].startMs < cues[i].endMs
    ensures Rendered(BlocksOf(cues[..i + 1]))
            == Rendered(BlocksOf(cues[..i])) + [Decimal(i + 1), BlockOf(cues[i]).0, BlockOf(cues[i]).1, ""]
  {
    var more := cues[..i + 1];
    assert more[..|more| - 1] == cues[..i] && more[i] == cues[i];
    BlocksLength(cues[..i]);
    var blocks := BlocksOf(more);
    assert blocks[..|blocks| - 1] == BlocksOf(cues[..i]);
  }

  predicate AllTexts(cues: seq<Subtitle>, n: nat)
    requires n <= |cues|
  {
    forall i | 0 <= i < n :: !Blank(cues[i].text)
  }

  method RenderSrt(cues: seq<Subtitle>) returns (r: Result<string, SrtError>)
    ensures r.Success? <==> InOrder(cues) && AllTexts(cues, |cues|)
    ensures r.Success? ==> r.value == SrtText(cues)
    ensures r == Failure(BadTiming) ==> !InOrder(cues)
    ensures r == Failure(EmptyText) ==> !AllTexts(cues, |cues|)
  {
    var previousEnd := 0;
    var rendered: seq<string> := [];
    for i := 0 to |cues|
      invariant previousEnd == if i == 0 then 0 else cues[i - 1].endMs
      invariant InOrder(cues[..i]) && AllTexts(cues, i) && rendered == Rendered(BlocksOf(cues[..i]))
    {
      OrderOneMore(cues, i);
      if cues[i].startMs < previousEnd || cues[i].endMs <= cues[i].startMs {
        if InOrder(cues) { PrefixInOrder(cues, i + 1); }
        return Failure(BadTiming);
      }
      var clean := Clean(cues[i].text);
      CleanIsEmptyExactlyForBlank(cues[i].text);
      if clean == "" {
        return Failure(EmptyText);
      }
      RenderedOneMore(cues, i);
      rendered := rendered + [Decimal(i + 1), Times(cues[i]), clean, ""];
      previousEnd := cues[i].endMs;
    }
    assert cues[..|cues|] == cues;
    return Success(Join("\n", rendered) + "\n");
  }
}
