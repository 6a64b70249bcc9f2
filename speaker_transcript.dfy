/**
 * The fusion step of the speaker-transcript builder: load the diarization
 * and the transcript, check the recording's sample rate, name every
 * diarized label, then give each transcript chunk the name of the label
 * that overlaps it most.
 */
module SpeakerTranscript {
  import opened Wrappers
  import opened Failures
  import opened DiarizationGroups
  import opened TranscriptParsing
  import opened OverlapAttribution
  import opened SpeakerRecogniser
  import opened VoiceSamples

  /** One line of the speaker transcript: `[start–end] name: text`. */
  datatype FusedLine = FusedLine(start: real, end: real, name: string, text: string)

  /** `speaker_name_map.get(spk_id, spk_id)`: the recognised name, or the label itself. */
  function Display(m: map<string, string>, l: string): string {
    if l in m then m[l] else l
  }

  /** The line written for one chunk. */
  function LineFor(c: Chunk, d: Diarization, m: map<string, string>): FusedLine {
    FusedLine(c.start, c.end, Display(m, Attribution(d, c.start, c.end)), c.text)
  }

  /** The lines of the speaker transcript: one per chunk, in chunk order. */
  function FusedLines(chunks: seq<Chunk>, d: Diarization, m: map<string, string>): seq<FusedLine> {
    seq(|chunks|, k requires 0 <= k < |chunks| => LineFor(chunks[k], d, m))
  }

  /** The loop over the transcript chunks in `main`. */
  method Fuse(chunks: seq<Chunk>, d: Diarization, m: map<string, string>) returns (lines: seq<FusedLine>)
    ensures lines == FusedLines(chunks, d, m)
  {
    lines := [];
    for i := 0 to |chunks|
      invariant lines == FusedLines(chunks[..i], d, m)
    {
      var spkId := FindSpeaker(chunks[i].start, chunks[i].end, d);
      var spkName := if spkId in m then m[spkId] else spkId;
      FusedLinesStep(chunks, d, m, i);
      lines := lines + [FusedLine(chunks[i].start, chunks[i].end, spkName, chunks[i].text)];
    }
    assert chunks[..|chunks|] == chunks;
  }

  lemma FusedLinesStep(chunks: seq<Chunk>, d: Diarization, m: map<string, string>, i: nat)
    requires i < |chunks|
    ensures FusedLines(chunks[..i + 1], d, m) == FusedLines(chunks[..i], d, m) + [LineFor(chunks[i], d, m)]
  {
  }

  /**
   * What `main` ends with: the first fatal failure among loading the
   * diarization, loading the transcript and the 16 kHz check, or the lines
   * of the speaker transcript.
   */
  function PipelineResult<E>(rttmLines: seq<string>, transcriptLines: seq<string>, audio: seq<real>, rate: int,
                             speakers: seq<(string, E)>, embed: seq<real> -> E, cosine: (E, E) -> real)
    : Result<seq<FusedLine>, Failure>
  {
    match LoadRttmResult(rttmLines)
    case Err(e) => Err(e)
    case Ok(d) =>
      match LoadTranscriptResult(transcriptLines)
      case Err(e) => Err(e)
      case Ok(chunks) =>
        if rate != SampleRate then Err(SampleRateMismatch(rate))
        else Ok(FusedLines(chunks, d, SpeakerNameMap(audio, d, speakers, embed, cosine)))
  }

  /** `main`, with the files given as their lines and the recording as its samples and rate. */
  method BuildSpeakerTranscript<E>(rttmLines: seq<string>, transcriptLines: seq<string>, audio: seq<real>, rate: int,
                                   speakers: seq<(string, E)>, embed: seq<real> -> E, cosine: (E, E) -> real)
    returns (r: Result<seq<FusedLine>, Failure>)
    ensures r == PipelineResult(rttmLines, transcriptLines, audio, rate, speakers, embed, cosine)
  {
    var diar := LoadRttm(rttmLines);
    if diar.Err? {
      return Err(diar.error);
    }
    var transcript := LoadTranscript(transcriptLines);
    if transcript.Err? {
      return Err(transcript.error);
    }
    if rate != SampleRate {
      return Err(SampleRateMismatch(rate));
    }
    var nameMap := BuildSpeakerNameMap(audio, diar.value, speakers, embed, cosine);
    var lines := Fuse(transcript.value, diar.value, nameMap);
    return Ok(lines);
  }

  /** The speaker transcript is produced exactly when both files load and the recording is at 16 kHz. */
  lemma PipelineSucceeds<E>(rttmLines: seq<string>, transcriptLines: seq<string>, audio: seq<real>, rate: int,
                            speakers: seq<(string, E)>, embed: seq<real> -> E, cosine: (E, E) -> real)
    ensures PipelineResult(rttmLines, transcriptLines, audio, rate, speakers, embed, cosine).Ok? <==>
      LoadRttmResult(rttmLines).Ok? && (exists i :: 0 <= i < |transcriptLines| && ParseChunk(transcriptLines[i]).Some?) &&
      rate == SampleRate
  {
    ParsedChunksEmpty(transcriptLines);
  }

  /**
   * A produced transcript has one line per parsed chunk, never none, each
   * keeping the chunk's times and text, and each naming either "UNKNOWN"
   * (no diarized speech overlaps it), "Unknown" (the recogniser rejected the
   * voice) or an enrolled speaker.
   */
  lemma PipelineLines<E>(rttmLines: seq<string>, transcriptLines: seq<string>, audio: seq<real>, rate: int,
                         speakers: seq<(string, E)>, embed: seq<real> -> E, cosine: (E, E) -> real)
    requires PipelineResult(rttmLines, transcriptLines, audio, rate, speakers, embed, cosine).Ok?
    ensures var lines := PipelineResult(rttmLines, transcriptLines, audio, rate, speakers, embed, cosine).value;
      var chunks := ParsedChunks(transcriptLines);
      |lines| == |chunks| > 0 &&
      forall k :: 0 <= k < |lines| ==>
        lines[k].start == chunks[k].start && lines[k].end == chunks[k].end && lines[k].text == chunks[k].text &&
        (lines[k].name == UnknownLabel || KnownName(speakers, lines[k].name))
  {
    var d := LoadRttmResult(rttmLines).value;
    var m := SpeakerNameMap(audio, d, speakers, embed, cosine);
    var chunks := ParsedChunks(transcriptLines);
    var lines := FusedLines(chunks, d, m);
    LoadRttmResultFacts(rttmLines);
    LabelMapKeys(d, Namer(audio, speakers, embed, cosine));
    NameMapEnrolled(audio, d, speakers, embed, cosine);
    forall k | 0 <= k < |lines|
      ensures lines[k].name == UnknownLabel || KnownName(speakers, lines[k].name)
    {
      var l := Attribution(d, chunks[k].start, chunks[k].end);
      AttributionIsLabel(d, chunks[k].start, chunks[k].end);
      if l != UnknownLabel {
        var i :| 0 <= i < |d| && d[i].speaker == l;
        assert l in m;
      }
    }
  }
}
