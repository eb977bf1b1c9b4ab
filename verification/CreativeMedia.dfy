/** From a validated sample to its subtitles and its voice track: what the media steps accept. */
module CreativeMedia {
  import opened Wrappers
  import opened TextTools
  import opened CreativeSpec
  import opened CreativeTheorems
  import opened Subtitles
  import opened SubtitleDecoder

  datatype VoiceTrack = VoiceTrack(lineId: string, startMs: int, endMs: int)

  datatype VoiceError = BadDuration | RepeatedLine | Overlap | OutsideClock

  function VoiceIds(voices: seq<VoiceTrack>): seq<string>
  {
    seq(|voices|, i requires 0 <= i < |voices| => voices[i].lineId)
  }

  predicate VoicesSpaced(voices: seq<VoiceTrack>, n: nat)
    requires n <= |voices|
  {
    forall i, j | 0 <= i < n && 0 <= j < n && j == i + 1 :: voices[i].endMs <= voices[j].startMs
  }

  predicate VoicesInside(voices: seq<VoiceTrack>, n: nat, durationMs: int)
    requires n <= |voices|
  {
    forall i | 0 <= i < n :: 0 <= voices[i].startMs < voices[i].endMs <= durationMs
  }

  predicate VoicesFit(voices: seq<VoiceTrack>, durationMs: int)
  {
    && 60_000 <= durationMs <= 90_000 && Unique(VoiceIds(voices))
    && VoicesSpaced(voices, |voices|) && VoicesInside(voices, |voices|, durationMs)
  }

  /** The timing tests of the audio master, in the order it makes them. */
  method CheckVoiceTracks(voices: seq<VoiceTrack>, durationMs: int) returns (r: Option<VoiceError>)
    ensures r.None? <==> VoicesFit(voices, durationMs)
    ensures r == Some(RepeatedLine) ==> !Unique(VoiceIds(voices))
    ensures r == Some(OutsideClock) ==> VoicesSpaced(voices, |voices|)
  {
    if !(60_000 <= durationMs <= 90_000) {
      return Some(BadDuration);
    }
    if !Unique(VoiceIds(voices)) {
      return Some(RepeatedLine);
    }
    var previousEnd := 0;
    for i := 0 to |voices|
      invariant previousEnd == if i == 0 then 0 else voices[i - 1].endMs
      invariant VoicesSpaced(voices, i) && (|voices| > 0 && i > 0 ==> voices[0].startMs >= 0)
    {
      if voices[i].startMs < previousEnd {
        return Some(Overlap);
      }
      previousEnd := voices[i].endMs;
    }
    for i := 0 to |voices|
      invariant VoicesInside(voices, i, durationMs)
    {
      if voices[i].startMs < 0 || voices[i].endMs <= voices[i].startMs || voices[i].endMs > durationMs {
        return Some(OutsideClock);
      }
    }
    return None;
  }

  function SubtitlesOf(dialogue: seq<DialogueLine>): seq<Subtitle>
  {
    seq(|dialogue|, i requires 0 <= i < |dialogue| => Subtitle(dialogue[i].startMs, dialogue[i].endMs, dialogue[i].text))
  }

  function VoicesOf(dialogue: seq<DialogueLine>): seq<VoiceTrack>
  {
    seq(|dialogue|, i requires 0 <= i < |dialogue| => VoiceTrack(dialogue[i].lineId, dialogue[i].startMs, dialogue[i].endMs))
  }

  /** The dialogue of a validated sample always passes the timing tests of both media steps. */
  lemma DialogueTimingIsAccepted(spec: Spec)
    requires ValidSpec(spec)
    ensures InOrder(SubtitlesOf(spec.dialogue))
    ensures VoicesFit(VoicesOf(spec.dialogue), spec.durationMs)
  {
    var dialogue := spec.dialogue;
    forall i | 0 <= i < |dialogue| ensures ValidLine(dialogue[i]) {}
    assert VoiceIds(VoicesOf(dialogue)) == LineIds(dialogue);
  }

  /** Subtitles are printed for a validated sample exactly when no line is blank, which the contract does not test. */
  method SubtitlesForSample(spec: Spec) returns (r: Result<string, SrtError>)
    requires ValidSpec(spec)
    ensures r.Success? <==> forall line | line in spec.dialogue :: !Blank(line.text)
    ensures r.Failure? ==> r.error == EmptyText
    ensures r.Success? ==> DecodeSrt(r.value) == Some(Cleaned(SubtitlesOf(spec.dialogue)))
  {
    DialogueTimingIsAccepted(spec);
    var cues := SubtitlesOf(spec.dialogue);
    r := RenderSrt(cues);
    TextsOfDialogue(spec.dialogue);
    SrtRoundTrip(cues);
  }

  lemma TextsOfDialogue(dialogue: seq<DialogueLine>)
    ensures AllTexts(SubtitlesOf(dialogue), |dialogue|) <==> forall line | line in dialogue :: !Blank(line.text)
  {
    var cues := SubtitlesOf(dialogue);
    forall line | line in dialogue && AllTexts(cues, |cues|) ensures !Blank(line.text) {
      var i :| 0 <= i < |cues| && dialogue[i] == line;
      assert cues[i].text == line.text;
    }
  }

  /** Printed subtitle `k` is the `k`-th reference met when reading the shots in order. */
  lemma SubtitlesFollowTheShots(spec: Spec, k: nat)
    requires ValidSpec(spec) && k < |Lines(spec.shots)|
    ensures k < |spec.dialogue| && Lines(spec.shots)[k] in LineIds(spec.dialogue)
    ensures LineOf(spec.dialogue, Lines(spec.shots)[k]) == spec.dialogue[k]
    ensures SubtitlesOf(spec.dialogue)[k].text == LineOf(spec.dialogue, Lines(spec.shots)[k]).text
  {
    DialogueOrder(spec);
  }
}
