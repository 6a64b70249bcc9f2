# Speaker–transcript fusion, modelled in Dafny

This project models the part of the meeting assistant that turns two
machine-made streams into a named transcript. The first stream is the
diarization: an RTTM file of "who spoke when" under anonymous labels. The
second is the transcript: bracketed `[start → end] text` lines. The core
covers:

- reading both files;
- deciding which diarized label each utterance belongs to;
- cutting a voice clip for each label, collecting the label's intervals
  until the total first exceeds 15 seconds (so it may overshoot by one
  whole interval), and naming the label by nearest-neighbour search over an enrolment table
  with a reject threshold;
- writing one output line per utterance.

The pipeline script carries a second, simpler copy of the same step: a flat
RTTM reader, a stricter transcript reader, and attribution by containment
of the utterance start. It is modelled beside the first so that the two can
be compared.

Both programs are imperative loops. The model follows that form:

- Each reading, scanning and collecting loop is a `method` with a loop.
- Each method is proved equal to a declarative function of its input.
- Lemmas state what those functions promise.

Files arrive as sequences of lines. The recording arrives as a sequence of
samples and its rate. The speaker-embedding network and the cosine distance
are function parameters.

Modules:

- `Wrappers`, `Failures`: `Option`/`Result` and the fatal failures. Calls to
  `fail(...)` and uncaught `ValueError`s become `Err` values.
- `PyText`:
  - Python's `str.isspace`, `strip()` and `split()`;
  - the ASCII `\d` class;
  - `float()` of decimal literals.
- `Search`: the first index of a value, which is how both minimum and
  maximum scans break ties.
- `Rttm`: the line reader that both RTTM loaders share, with their
  different field minimums as a parameter.
- `DiarizationGroups`: the builder's `load_rttm`. It produces a table of
  label → intervals in first-appearance order.
- `TranscriptParsing`: the builder's `load_transcript` and its regular
  expression.
- `OverlapAttribution`: the builder's `find_speaker`, which picks the
  largest positive overlap.
- `SpeakerRecogniser`: `identify_speaker`.
- `VoiceSamples`: `build_speaker_name_map`, with Python slice and `int()`
  semantics.
- `SpeakerTranscript`: the builder's fusion loop and `main`'s order of
  failures.
- `Orchestrate`: step 3 of the pipeline script, plus the transcript line
  that the script's step 1 writes.

Three behaviours of the code are worth stating outright. The model
follows each of them:

- Threshold: the matcher rejects only a best distance strictly above 0.70
  (`best_score > THRESHOLD`, speakerrecogniser.py:39). A distance of exactly
  0.70 is accepted.
- Empty clip: a label whose intervals all cut to empty slices of the
  recording still gets a clip, the empty one, and that clip goes to the
  embedder like any other. Here the embedder is a total function parameter.
- Sample rate: `main` rejects a recording whose rate is not 16000
  (buildspeakertraans.py:125), and the model includes that check.

## Model

| member | source | states |
|---|---|---|
| `PyText.IsSpace` | buildspeakertraans.py:34 | a character is whitespace exactly when `str.isspace()` holds of it: `\t` to `\r`, `\x1c` to `\x1f`, space, U+0085, U+00A0, U+1680, U+2000 to U+200A, U+2028, U+2029, U+202F, U+205F and U+3000; the same class serves the regular expressions' `\s` |
| `PyText.SkipSpace` | buildspeakertraans.py:54 | what `\s*` consumes: the whole leading run of whitespace is dropped, so the rest is empty or starts with a non-space |
| `PyText.TrimEnd` | buildspeakertraans.py:60 | the trailing run of whitespace is dropped, leaving a prefix that is empty or ends with a non-space (`TrimEndIsPrefix`) |
| `PyText.Strip` | buildspeakertraans.py:34 | `str.strip()`: both runs of edge whitespace removed; `StripFramed` proves a line padded with whitespace strips to the text between the padding |
| `PyText.Split` | buildspeakertraans.py:34 | every token `split()` returns is non-empty and free of whitespace |
| `PyText.SplitJoinSpaced` | buildspeakertraans.py:34 | splitting words joined by single spaces gives the words back, so a written RTTM line splits into its fields |
| `PyText.SplitWordThen` | buildspeakertraans.py:34 | a leading word followed by whitespace is split off as the first field |
| `PyText.UnsignedDecimal` | buildspeakertraans.py:38-39 | an unsigned decimal literal reads as a non-negative value and holds at least one digit |
| `PyText.ParseFloat` | buildspeakertraans.py:38-39 | `float()` of a token succeeds only if the token holds at least one digit |
| `PyText.UnsignedDecimalReads` | buildspeakertraans.py:38-39 | digits with an optional `.` and digits, at least one digit in all, convert to their exact decimal value |
| `PyText.ParseFloatLiteral` | buildspeakertraans.py:38-39 | every literal (optional `+` or `-`, digits, optional `.` and digits, at least one digit) converts to its decimal value, negated under `-` |
| `PyText.UnsignedDecimalShape` | buildspeakertraans.py:38-39 | every unsigned token that converts is two digit runs around an optional `.`, with at least one digit |
| `PyText.ParseFloatExact` | buildspeakertraans.py:38-39 | `float()` succeeds on a token exactly when the token is such a literal; with `ParseFloatLiteral`, anything else is a `ValueError` and a literal has its decimal value |
| `PyText.ParseFloatDecimal` | buildspeakertraans.py:38-39 | a literal `ip.fp` or `ip` converts to its exact decimal value |
| `Search.FirstIndexOf` | buildspeakertraans.py:110 | the index found is the first occurrence of the value, or the length when there is none |
| `Search.FirstIndexOfAppend` | speakerrecogniser.py:35 | scanning one more element never moves an occurrence already found: a strict comparison keeps the first of equals |
| `Rttm.Fields` | buildspeakertraans.py:34 | `line.strip().split()`: the whitespace-separated words of the line; `FieldsOfJoined` proves a space-joined line gives its words back |
| `Rttm.ParseLine` | buildspeakertraans.py:34-41 | one line's outcome: skipped when it has fewer fields than the minimum (8 here, 9 in the pipeline script), the offending token when `float()` fails on field 4 (tried first) or field 5, else the segment (p[3], p[3] + p[4], p[7]) |
| `Rttm.Records` | buildspeakertraans.py:32-41 | the segments of every line with enough fields, in file order, or the conversion error of the first line whose field 4 or 5 is not a number, which aborts the read as the uncaught `ValueError` does |
| `Rttm.ParseFields` | buildspeakertraans.py:35-41 | a line with too few fields is skipped. Otherwise it yields (start, start + dur, field 8), with start and dur from fields 4 and 5, or the conversion error of field 4 or 5 |
| `Rttm.RecordsStep` | buildspeakertraans.py:33-41 | reading one more line either keeps the first error or appends that line's segment |
| `Rttm.RecordsCount` | buildspeakertraans.py:35-41 | a successful read holds exactly one segment per line that has enough fields |
| `Rttm.RecordsAllShort` | buildspeakertraans.py:35-36 | a file whose lines are all too short yields no segment and no error |
| `Rttm.RecordsErrors` | orcastrate.py:117-118 | the only way reading can fail is a field that does not convert to a number |
| `Rttm.RecordsPrefixErr` | buildspeakertraans.py:38-39 | once a line fails to convert, the whole read fails with that line's error |
| `Rttm.FieldsOfJoined` | buildspeakertraans.py:34 | a line of space-joined words is left alone by `strip()` and splits back into those words |
| `Rttm.ParseWrittenLine` | buildspeakertraans.py:34-41 | an RTTM line written with onset and duration as decimals reads back as (onset, onset + duration, label) |
| `DiarizationGroups.TimesOf` | buildspeakertraans.py:41 | `segments[l]` of the defaultdict: the label's list of intervals, or the empty list for a label never seen |
| `DiarizationGroups.SpokenBy` | buildspeakertraans.py:41 | the reference each label's list is compared against: the intervals of the segments with that label, in file order |
| `DiarizationGroups.FirstAppearance` | buildspeakertraans.py:80 | the reference for the dict's key order: the distinct labels in order of first appearance |
| `DiarizationGroups.Group` | buildspeakertraans.py:30-41 | the defaultdict after `segments[speaker].append((start, start + dur))` for each parsed segment in file order; `GroupLabels`, `GroupTimes`, `GroupTotal` and `GroupWellFormed` characterise it |
| `DiarizationGroups.LoadRttmResult` | buildspeakertraans.py:29-46 | `load_rttm`'s outcome: the first line's conversion error, else "No diarization segments found" when no line has eight fields, else the grouped table |
| `DiarizationGroups.Labels` | buildspeakertraans.py:80 | the keys of the table, in iteration order |
| `DiarizationGroups.IndexOfLabel` | buildspeakertraans.py:41 | the position of a label's entry, or the table size when the label has no entry |
| `DiarizationGroups.AppendUnder` | buildspeakertraans.py:41 | appending under a label adds the label as a new last key only when it is absent, and keeps the table well formed |
| `DiarizationGroups.GroupTotal` | buildspeakertraans.py:41 | grouping keeps every segment: the table holds as many intervals as there were segments |
| `DiarizationGroups.GroupWellFormed` | buildspeakertraans.py:30-41 | the grouped table has distinct labels and no empty interval list |
| `DiarizationGroups.GroupLabels` | buildspeakertraans.py:30-41 | the labels appear in order of their first appearance in the file |
| `DiarizationGroups.AppendUnderTimes` | buildspeakertraans.py:41 | an append under one label adds the interval to the end of that label's list and changes no other label's list |
| `DiarizationGroups.GroupTimes` | buildspeakertraans.py:41 | each label's intervals are exactly that label's segments, in file order |
| `DiarizationGroups.GroupEmpty` | buildspeakertraans.py:43 | the table is empty exactly when there were no segments |
| `DiarizationGroups.LoadRttm` | buildspeakertraans.py:29-46 | the loop returns `LoadRttmResult(lines)`. On success the table is well formed and holds one interval per long line; if every line is short, the result is "No diarization segments found" |
| `DiarizationGroups.LoadRttmResultFacts` | buildspeakertraans.py:41-46 | a successful load is well formed with one interval per long line, and an all-short file fails |
| `TranscriptParsing.Arrow` | buildspeakertraans.py:54 | `(?:→|->|–|-)` at the front of the input: `→` and `–` consume one character, `->` is tried before `-` and consumes two, and `-` alone consumes one; anything else fails |
| `TranscriptParsing.LooseNumber` | buildspeakertraans.py:54 | `\d+\.?\d*` reads a non-negative number |
| `TranscriptParsing.LineText` | buildspeakertraans.py:54 | `.` repeated: the longest prefix without a newline |
| `TranscriptParsing.Tail` | buildspeakertraans.py:54 | after the end number, a match keeps both times and captures non-empty text that starts with no whitespace and has no newline |
| `TranscriptParsing.AfterArrow` | buildspeakertraans.py:54 | after the arrow, a match keeps the start and reads a non-negative end |
| `TranscriptParsing.MatchChunk` | buildspeakertraans.py:54 | a match has non-negative times and non-empty text |
| `TranscriptParsing.ParseChunk` | buildspeakertraans.py:60-66 | the chunk made from `pattern.match(line.strip())` has non-negative times and non-empty text |
| `TranscriptParsing.SomesEmpty` | buildspeakertraans.py:61 | the kept values are empty exactly when no outcome matched |
| `TranscriptParsing.ParsedChunks` | buildspeakertraans.py:57-66 | the chunks of the lines that match, in file order, with non-matching lines dropped; `ParsedChunksStep` and `ParsedChunksEmpty` characterise it |
| `TranscriptParsing.LoadTranscriptResult` | buildspeakertraans.py:52-71 | `load_transcript`'s outcome: the parsed chunks, or "No transcript segments parsed" when no line matches |
| `TranscriptParsing.ParsedChunksStep` | buildspeakertraans.py:59-66 | reading one more line appends its chunk when it matches, and nothing otherwise |
| `TranscriptParsing.ParsedChunksEmpty` | buildspeakertraans.py:68 | no chunk at all exactly when no line matches |
| `TranscriptParsing.LoadTranscript` | buildspeakertraans.py:52-71 | the loop returns `LoadTranscriptResult(lines)`: the chunks of the matching lines in file order. It fails exactly when no line matches |
| `TranscriptParsing.NumeralReads` | buildspeakertraans.py:54 | a decimal literal followed by a non-digit, non-dot character reads back as its value |
| `TranscriptParsing.WholeReads` | buildspeakertraans.py:54 | digits without a dot read back as their integer value, leaving the rest unread |
| `TranscriptParsing.DottedReads` | buildspeakertraans.py:54 | `digits.digits` followed by a non-digit reads back as its decimal value, leaving the rest unread |
| `TranscriptParsing.ArrowReads` | buildspeakertraans.py:54 | each of the four glyphs is consumed whole |
| `TranscriptParsing.StripFramed` | buildspeakertraans.py:60 | `strip()` of a padded line is the line's content with trailing whitespace removed |
| `TranscriptParsing.MatchThroughArrow` | buildspeakertraans.py:54 | the pattern up to the arrow reads the start whatever the padding |
| `TranscriptParsing.ArrowSplit` | buildspeakertraans.py:54 | up to the arrow, a line reads the same for any of the four glyphs |
| `TranscriptParsing.ArrowGlyphsEquivalent` | buildspeakertraans.py:53-55 | lines that differ only in `→`, `->`, `–` or `-` give the same chunk, provided what follows the glyph does not start with `>` (which would turn `-` into `->`) |
| `TranscriptParsing.AfterArrowWritten` | buildspeakertraans.py:54 | the part after the arrow reads back as (end, text), with any padding |
| `TranscriptParsing.ParseNoTextSkipped` | buildspeakertraans.py:53-66 | `[a ARROW b]` with only whitespace after `]` is skipped, because `(.+)` needs at least one character |
| `TranscriptParsing.AfterArrowNoText` | buildspeakertraans.py:54 | after the arrow, an end number and `]` with nothing after it do not match |
| `TranscriptParsing.ParseWrittenChunk` | buildspeakertraans.py:53-66 | `[a ARROW b] text`, with whitespace after `[`, around the numbers, after `]` and around the line, reads back as (a, b, text) |
| `OverlapAttribution.Slots` | buildspeakertraans.py:107-108 | the (label, interval) pairs in the order the nested loops visit them: labels in table order, each label's intervals in stored order; `SlotsFromTracks` and `TracksInSlots` prove it visits exactly the table's pairs |
| `OverlapAttribution.Overlap` | buildspeakertraans.py:109 | `min(end, e) - max(start, s)`, positive exactly when the utterance and the interval share a stretch of time |
| `OverlapAttribution.Winner` | buildspeakertraans.py:104-114 | the label of the first visited slot that attains the largest overlap, if that overlap is positive, else "UNKNOWN"; `WinnerStep` proves the scan's update rule yields it |
| `OverlapAttribution.Attribution` | buildspeakertraans.py:103-114 | `find_speaker`'s answer: `Winner` over the table's slots; `BestOverlapWins`, `NoOverlapIsUnknown` and `AttributionIsLabel` characterise it |
| `OverlapAttribution.Tag` | buildspeakertraans.py:108 | one visited slot per interval of a label, in stored order |
| `OverlapAttribution.Overlaps` | buildspeakertraans.py:109 | the overlap `min(end, e) - max(start, s)` of each visited interval |
| `OverlapAttribution.BestOverlap` | buildspeakertraans.py:105-112 | the best overlap is non-negative, at least every overlap, and either 0.0 or one of the overlaps |
| `OverlapAttribution.WinnerStep` | buildspeakertraans.py:109-112 | one more interval replaces the answer exactly when its overlap is positive and strictly above the best so far |
| `OverlapAttribution.FindSpeaker` | buildspeakertraans.py:103-114 | the nested scan returns `Attribution(d, start, end)` |
| `OverlapAttribution.NoOverlapIsUnknown` | buildspeakertraans.py:104-114 | with no positive overlap, the answer is "UNKNOWN" |
| `OverlapAttribution.BestOverlapWins` | buildspeakertraans.py:107-112 | with some positive overlap, the answer is the label of the winning slot: its overlap is positive, at least every other's, and strictly above every earlier one's (the first maximum wins ties) |
| `OverlapAttribution.SlotsFromTracks` | buildspeakertraans.py:107-108 | every visited slot is a (label, interval) pair of the table |
| `OverlapAttribution.TracksInSlots` | buildspeakertraans.py:107-108 | every (label, interval) pair of the table is visited |
| `OverlapAttribution.AttributionIsLabel` | buildspeakertraans.py:104-114 | the answer is "UNKNOWN" or a diarized label |
| `OverlapAttribution.TwoSpeakerExamples` | buildspeakertraans.py:103-114 | with S1 on [0, 5] and S2 on [5, 10]: [4, 6] ties and goes to S1, [0, 4] goes to S1, and [20, 21] is "UNKNOWN" |
| `SpeakerRecogniser.Identify` | speakerrecogniser.py:30-42 | the best score starts at 1.0 and is replaced only by a strictly smaller distance; a best score above 0.70 gives ("Unknown", score), otherwise the first enrolled name at that minimum with the score; `IdentifyScore` and `IdentifyDecision` characterise it |
| `SpeakerRecogniser.Distances` | speakerrecogniser.py:33-34 | the cosine distance to each enrolled reference, in table order |
| `SpeakerRecogniser.BestScore` | speakerrecogniser.py:31-37 | the best score is at most 1.0, at most every distance, and either 1.0 or one of the distances |
| `SpeakerRecogniser.IdentifySpeaker` | speakerrecogniser.py:20-42 | the scan returns `Identify(speakers, embed(clip), cosine)`, and the name is "Unknown" or enrolled |
| `SpeakerRecogniser.IdentifyScore` | speakerrecogniser.py:31-37 | the score is min(1.0, every distance) |
| `SpeakerRecogniser.IdentifyDecision` | speakerrecogniser.py:35-42 | a best score above 0.70 gives "Unknown". At or below 0.70 it gives the first enrolled name at that distance (strict `<` keeps the first of equals) |
| `SpeakerRecogniser.IdentifyNoCandidate` | speakerrecogniser.py:30-35 | with an empty table, or with every distance at least 1.0, the result is ("Unknown", 1.0) |
| `SpeakerRecogniser.IdentifyNameEnrolled` | speakerrecogniser.py:30-42 | the name is "Unknown" or an enrolled name |
| `SpeakerRecogniser.ThresholdBoundary` | speakerrecogniser.py:39-42 | a distance of exactly 0.70 is accepted; 0.70 + ε is rejected |
| `VoiceSamples.Trunc` | buildspeakertraans.py:84-85 | `int()` truncates toward zero |
| `VoiceSamples.SliceBound` | buildspeakertraans.py:86 | slice bounds are normalised as Python does: negative bounds count from the end, then are clamped to the length |
| `VoiceSamples.PySlice` | buildspeakertraans.py:86 | `audio[s:e]` is the sub-range for in-range bounds, the sub-range between the normalised bounds when a bound is negative or past the end (an interval running past the recording gives `audio[s:]`), and empty when the normalised bounds cross |
| `VoiceSamples.Piece` | buildspeakertraans.py:84-86 | `audio[int(start * 16000):int(end * 16000)]`, with `int()` truncating and the slice following Python's bound rules |
| `VoiceSamples.Pieces` | buildspeakertraans.py:83-86 | the piece of every interval, in stored order (`PiecesAt`) |
| `VoiceSamples.TotalLen` | buildspeakertraans.py:88 | `sum(len(x) for x in samples)`: the combined length of the pieces |
| `VoiceSamples.PiecesAt` | buildspeakertraans.py:83-86 | the k-th piece is the slice `audio[int(start*16000):int(end*16000)]` of the k-th interval, in stored order |
| `VoiceSamples.PrefixStep` | buildspeakertraans.py:86-88 | one more collected piece adds its length to the running total and its samples to the end of the clip |
| `VoiceSamples.Concat` | buildspeakertraans.py:91 | the joined clip is as long as the pieces together |
| `VoiceSamples.UsedFrom` | buildspeakertraans.py:83-89 | collection resumed after `k` pieces takes at least one more piece when any is left, and never more than there are |
| `VoiceSamples.UsedFromStops` | buildspeakertraans.py:83-89 | collection stops right after the first piece that takes the running total above 240000, or at the end. Every earlier total is within the cap |
| `VoiceSamples.UsedStep` | buildspeakertraans.py:87-89 | a piece that takes the total past the cap is the last one collected; otherwise collection goes on |
| `VoiceSamples.UsedCount` | buildspeakertraans.py:83-89 | the number of pieces collected never exceeds the number of intervals |
| `VoiceSamples.VoiceClip` | buildspeakertraans.py:81-91 | the clip of a label: the concatenated pieces up to and including the first one that takes the running total above 240000 samples, or all pieces; `ClipLength` and `ShortSpeechUsesAll` characterise it |
| `VoiceSamples.CollectVoiceSample` | buildspeakertraans.py:81-91 | the collect-then-check loop with its `break` returns `VoiceClip(audio, times)` |
| `VoiceSamples.TotalLenMonotone` | buildspeakertraans.py:88 | running totals only grow |
| `VoiceSamples.ClipLength` | buildspeakertraans.py:83-91 | at least one piece is used, and all pieces but the last collected keep the total within 240000. So the clip may overshoot the cap by one interval but is never cut short of it, unless all intervals were used |
| `VoiceSamples.ShortSpeechUsesAll` | buildspeakertraans.py:83-91 | when all of a label's speech fits within 240000 samples, the clip is every interval's samples |
| `VoiceSamples.NameFor` | buildspeakertraans.py:91-93 | a label's name: the name `identify_speaker` gives the embedding of the label's clip |
| `VoiceSamples.LabelMap` | buildspeakertraans.py:78-93 | the map after the labels are processed in table order, each set to the name of its own intervals, a later entry for the same label replacing an earlier one; `LabelMapKeys`, `LabelMapValues` and `LabelMapFrom` characterise it |
| `VoiceSamples.SpeakerNameMap` | buildspeakertraans.py:77-97 | `speaker_map` as returned: `LabelMap` with each label named by the recogniser on its clip |
| `VoiceSamples.BuildSpeakerNameMap` | buildspeakertraans.py:77-97 | the loop builds `SpeakerNameMap(audio, d, speakers, embed, cosine)` |
| `VoiceSamples.LabelMapStep` | buildspeakertraans.py:80-93 | handling one more label sets that label's entry to the name of its own intervals |
| `VoiceSamples.LabelMapKeys` | buildspeakertraans.py:80-93 | the map's keys are exactly the diarized labels |
| `VoiceSamples.LabelMapValues` | buildspeakertraans.py:91-93 | with distinct labels, each label maps to the name computed from that label's own intervals (its clip's recognised name) |
| `VoiceSamples.LabelMapFrom` | buildspeakertraans.py:91-93 | every value in the map is the name of some label's intervals |
| `VoiceSamples.NameMapEnrolled` | buildspeakertraans.py:92-93 | every value in the map is "Unknown" or an enrolled name |
| `SpeakerTranscript.Display` | buildspeakertraans.py:133 | `speaker_name_map.get(spk_id, spk_id)`: the recognised name for a mapped label, the label itself otherwise |
| `SpeakerTranscript.LineFor` | buildspeakertraans.py:132-137 | the line for one chunk: its times and text, with `Display` of the label `find_speaker` attributes it to |
| `SpeakerTranscript.FusedLines` | buildspeakertraans.py:130-137 | one `LineFor` per chunk, in chunk order |
| `SpeakerTranscript.PipelineResult` | buildspeakertraans.py:120-137 | `main`'s outcome: the RTTM failure, else the transcript failure, else a sample-rate mismatch for a rate other than 16000, else `FusedLines` under `SpeakerNameMap`; `PipelineSucceeds` and `PipelineLines` characterise it |
| `SpeakerTranscript.FusedLinesStep` | buildspeakertraans.py:130-137 | one more chunk appends exactly its own line |
| `SpeakerTranscript.Fuse` | buildspeakertraans.py:130-137 | the loop emits `FusedLines(chunks, d, m)`: one line per chunk, in chunk order, with the name `map.get(label, label)` |
| `SpeakerTranscript.BuildSpeakerTranscript` | buildspeakertraans.py:120-137 | `main` returns the first fatal failure in the order RTTM, transcript, sample rate; otherwise it returns the lines |
| `SpeakerTranscript.PipelineSucceeds` | buildspeakertraans.py:120-128 | the transcript is produced exactly when the RTTM file loads, some transcript line matches, and the rate is 16000 |
| `SpeakerTranscript.PipelineLines` | buildspeakertraans.py:128-137 | a produced transcript has one line per chunk, never none. Each line keeps its chunk's times and text and names "UNKNOWN", "Unknown" or an enrolled speaker |
| `Orchestrate.LoadRttmFlat` | orcastrate.py:110-125 | the loop returns `Records(lines, 9)`: the flat segment list in file order, with one segment per line of nine or more fields. A file with only short lines gives an empty list, not a failure |
| `Orchestrate.EightFieldLine` | orcastrate.py:115-116 | a line of exactly eight fields is a segment for the builder's reader and is skipped by this one |
| `Orchestrate.StrictNumber` | orcastrate.py:129 | `\d+\.\d+` reads a non-negative number and consumes at least one character |
| `Orchestrate.StrictTail` | orcastrate.py:129 | after the end number, a match keeps both times and captures text without a newline |
| `Orchestrate.StrictAfterArrow` | orcastrate.py:129 | after the arrow, a match keeps the start and reads a non-negative end |
| `Orchestrate.StrictMatch` | orcastrate.py:129 | a match has non-negative times; `StrictMatchShape` proves it matches only `[digits.digits ws → ws digits.digits] …`, and `StrictRejectsOtherArrows` / `StrictRejectsLooseStart` prove the other joiners and undotted numbers fail |
| `Orchestrate.StrictChunk` | orcastrate.py:133 | `pattern.match(line.strip())` for the strict pattern `\[(\d+\.\d+)\s*→\s*(\d+\.\d+)\]\s*(.*)` |
| `Orchestrate.StrictChunks` | orcastrate.py:130-140 | the chunks of the lines that match the strict pattern, in file order |
| `Orchestrate.StrictChunksStep` | orcastrate.py:131-139 | reading one more line appends its chunk when it matches |
| `Orchestrate.LoadTranscriptFlat` | orcastrate.py:128-140 | the loop returns `StrictChunks(lines)`: the chunks of the matching lines in order. The result is empty exactly when no line matches, and that is not a failure |
| `Orchestrate.StrictNumeralReads` | orcastrate.py:129 | `digits.digits` followed by a non-digit reads back as its value |
| `Orchestrate.StrictDottedReads` | orcastrate.py:129 | the same for the literal's two digit runs given separately |
| `Orchestrate.StrictThroughArrow` | orcastrate.py:129 | the pattern up to `→` reads the start when no space follows `[` |
| `Orchestrate.StrictAfterArrowWritten` | orcastrate.py:129 | the part after the arrow reads back as (end, text), and the text may be empty |
| `Orchestrate.StrictReadsWritten` | orcastrate.py:129-139 | `[a → b] text`, with no space after `[` and with padding elsewhere, reads back as (a, b, text) |
| `Orchestrate.StrictReadsEmptyText` | orcastrate.py:129-139 | `[a → b]` with nothing after `]` reads back with empty text |
| `Orchestrate.PadOf` | orcastrate.py:72 | the spaces `:7.2f` puts in front of a numeral shorter than seven characters, none for a longer one |
| `Orchestrate.Padded7` | orcastrate.py:72 | a numeral right-aligned in a field of width 7 |
| `Orchestrate.WrittenLine` | orcastrate.py:72-73 | the step-1 line `[{start:7.2f} → {end:7.2f}] {text}` followed by a newline, with the two-decimal numerals given |
| `Orchestrate.Spaces` | orcastrate.py:72 | the padding `:7.2f` puts in front of a short number: the requested number of spaces |
| `Orchestrate.WrittenLineBuilderReads` | orcastrate.py:72 | the builder's reader reads every step-1 line whose stripped text is non-empty |
| `Orchestrate.WrittenLineUnpadded` | orcastrate.py:72 | a step-1 line whose start takes seven or more characters is read back by the strict reader |
| `Orchestrate.StrictRejectsSpaceAfterBracket` | orcastrate.py:129-133 | a stripped line with whitespace right after `[` never matches the strict pattern |
| `Orchestrate.StrictNumberShape` | orcastrate.py:129 | `\d+\.\d+` reads only a `digits.digits` numeral: the consumed prefix is that numeral's text, the value is its value, and the rest does not start with a digit |
| `Orchestrate.StrictMatchPastStart` | orcastrate.py:129 | after `[` and the start number, the pattern goes on exactly when the next non-whitespace character is `→` |
| `Orchestrate.StrictArrowSplit` | orcastrate.py:129 | `\s*→` splits the rest after the start into whitespace, `→` and what follows |
| `Orchestrate.StrictTailShape` | orcastrate.py:129 | `\]\s*(.*)` matches only text starting with `]`, and captures the first line of the rest after whitespace |
| `Orchestrate.StrictAfterArrowShape` | orcastrate.py:129 | what follows `→` in a match is whitespace, a `digits.digits` end, `]` and a tail, and the match carries that end and the tail's first line |
| `Orchestrate.StrictMatchShape` | orcastrate.py:129 | the converse of `StrictReadsWritten`: every matched stripped line is `[` + `digits.digits` + whitespace + `→` + whitespace + `digits.digits` + `]` + tail, read as (start, end, first line of the tail after whitespace) |
| `Orchestrate.StrictRejectsAfterStart` | orcastrate.py:129 | after the start, any first non-whitespace character other than `→` makes the match fail |
| `Orchestrate.StrictRejectsOtherArrows` | orcastrate.py:129 | a line joined by `->`, `–` or `-` never matches, whatever follows |
| `Orchestrate.StrictSkipsOtherArrows` | orcastrate.py:129-133 | the same on an unstripped line: `pattern.match(line.strip())` gives no match |
| `Orchestrate.ReadersDisagreeOnOtherArrows` | orcastrate.py:129-133 | on `[a -> b] text` (or with `–` or `-`) the builder's `load_transcript` reads the chunk but this `load_transcript` skips the line |
| `Orchestrate.StrictRejectsLooseStart` | orcastrate.py:129 | a start of the form `5` or `5.`, which the builder's `\d+\.?\d*` reads, makes the strict pattern fail |
| `PyText.SkipSpaceSplit` | orcastrate.py:129 | what `\s*` consumes is a run of whitespace in front of the rest |
| `Orchestrate.WrittenLinePaddedSkipped` | orcastrate.py:72 | a step-1 line whose start is padded is skipped by the strict reader |
| `Orchestrate.WrittenLineReadBack` | orcastrate.py:72 | for a step-1 line with non-empty text, step 3 reads it exactly when the start is at least seven characters wide (1000.00 s or more), and the builder's reader reads it at any start |
| `Orchestrate.WrittenLineEmptyText` | orcastrate.py:72 | a step-1 line whose stripped text is empty is skipped by the builder's reader at any start, and read by step 3, with empty text, exactly when the start is at least seven characters wide |
| `Orchestrate.Contains` | orcastrate.py:145 | `d["start"] <= start <= d["end"]`: the closed interval holds the utterance start |
| `Orchestrate.SpeakerAt` | orcastrate.py:143-147 | the speaker of the first segment whose closed interval contains the utterance start, or "UNKNOWN" when none does |
| `Orchestrate.FindSpeakerAt` | orcastrate.py:143-147 | the scan with its early return returns `SpeakerAt(t, segs)` |
| `Orchestrate.AlignedLines` | orcastrate.py:153-158 | one line per chunk, in chunk order, with the chunk's times and text and `SpeakerAt` of its start; `AlignedLinesFacts` characterises it |
| `Orchestrate.AlignResult` | orcastrate.py:150-158 | step 3's outcome: the flat RTTM reader's conversion error, else `AlignedLines` of the strict chunks and the segments; empty files are not failures |
| `Orchestrate.BuildLines` | orcastrate.py:153-158 | the loop emits `AlignedLines(chunks, segs)`: one line per chunk, in chunk order, naming the raw label |
| `Orchestrate.AlignSpeakers` | orcastrate.py:150-158 | step 3 returns `AlignResult(rttmLines, transcriptLines)` |
| `Orchestrate.AlignedLinesFacts` | orcastrate.py:153-158 | each built line keeps its chunk's times and text and names "UNKNOWN" or a label some segment carries |
| `Orchestrate.AlignLines` | orcastrate.py:150-158 | step 3 fails only on a non-numeric field. Otherwise it gives one line per matching transcript line, keeping times and text and naming "UNKNOWN" or an unmapped RTTM label |
| `Orchestrate.PoliciesDiffer` | orcastrate.py:143-147 | overlap and containment disagree. With S1 on [0, 5] and S2 on [6, 10], [5.5, 9] is S2 by overlap and "UNKNOWN" by containment, and [4, 10] is S2 by overlap and S1 by containment |

## Left out

- File and audio I/O: `open`, `sf.read`, `write_text` and the final `"\n".join`. Files are given as lists of lines. The recording is given as one channel of samples and its rate. A multi-channel recording (a two-dimensional array) is not modelled.
- Number formatting: output lines are records (start, end, name, text). The `:.2f` and `:7.2f` renderings of floats are not modelled. The step-1 writer is modelled on numerals that have already been formatted.
- Float arithmetic is modelled with exact reals. Rounding in `start + dur`, `start * 16000` and the overlap subtraction is not captured.
- `PyText.ParseFloat`: modelled on decimal literals with an optional sign. Exponents, `inf`, `nan` and underscores are treated as conversion errors, although Python accepts them. So `ParseFloatExact` characterises this model of `float()`, not all of Python's.
- `\d` is modelled as ASCII digits, and `\s` as Python's whitespace set. Other Unicode decimal digits, which Python's `\d` also matches, are not modelled.
- The speaker-embedding network, the cosine distance and the pickle loading of the enrolment table are function parameters and a value parameter. The enrolment table is read-only by construction, because it is passed by value and `IdentifySpeaker` modifies nothing.
- `print` logging, including the per-label score line, and the process exit in `fail` are not modelled. `fail` becomes an `Err` result, and so does an uncaught `ValueError` from `float()`.
- `np.concatenate` of an empty list raises. `CollectVoiceSample` therefore requires at least one interval, which every label of a loaded table has.
- The builder imports `identify_speaker` from a module named `speaker_recognizer`, while the file is `speakerrecogniser.py`. The model treats that file's function as the one called.
- Steps 1, 2 and 4 of the pipeline script are not modelled: model loading, transcription, diarization and the language-model calls. Only step 3 and the step-1 line layout are modelled.
