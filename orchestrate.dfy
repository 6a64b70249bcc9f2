/**
 * Step 3 of the pipeline script: its own RTTM reader (a flat list, nine
 * fields required), its own transcript reader (only `→`, numbers written as
 * `digits.digits`, nothing between `[` and the first digit), attribution by
 * the first segment containing the utterance's start, and one output line
 * per chunk carrying the raw diarization label. Also the transcript line the
 * same script writes in step 1, `[start:7.2f → end:7.2f] text`.
 */
module Orchestrate {
  import opened Wrappers
  import opened Failures
  import opened PyText
  import opened Rttm
  import opened DiarizationGroups
  import opened TranscriptParsing
  import opened OverlapAttribution
  import opened SpeakerTranscript

  /** This reader skips lines with fewer than nine fields. */
  const OrcaMinFields: nat := 9

  // ---------------------------------------------------------------------
  // load_rttm: a flat list of segments in file order.
  // ---------------------------------------------------------------------

  /** The reading loop of the flat `load_rttm`: no segment at all is not an error here. */
  method LoadRttmFlat(lines: seq<string>) returns (r: Result<seq<Segment>, Failure>)
    ensures r == Records(lines, OrcaMinFields)
    ensures r.Ok? ==> |r.value| == LongLines(lines, OrcaMinFields)
    ensures (forall i :: 0 <= i < |lines| ==> |Fields(lines[i])| < OrcaMinFields) ==> r == Ok([])
  {
    var segments: seq<Segment> := [];
    for i := 0 to |lines|
      invariant Records(lines[..i], OrcaMinFields) == Ok(segments)
    {
      var outcome := ParseLine(lines[i], OrcaMinFields);
      RecordsStep(lines, i, OrcaMinFields);
      match outcome
      case Skipped =>
      case Malformed(t) =>
        RecordsPrefixErr(lines, i + 1, OrcaMinFields);
        return Err(MalformedNumber(t));
      case Parsed(seg) =>
        segments := segments + [seg];
    }
    assert lines[..|lines|] == lines;
    r := Ok(segments);
    RecordsCount(lines, OrcaMinFields);
    if forall i :: 0 <= i < |lines| ==> |Fields(lines[i])| < OrcaMinFields {
      RecordsAllShort(lines, OrcaMinFields);
    }
  }

  /**
   * A line of exactly eight fields is a segment for the speaker-transcript
   * builder's reader and is skipped by this one.
   */
  lemma EightFieldLine(ws: seq<string>, startInt: string, startFrac: string, durInt: string, durFrac: string)
    requires |ws| == 8 && forall k :: 0 <= k < |ws| ==> IsWord(ws[k])
    requires startInt != [] && AllDigits(startInt) && AllDigits(startFrac)
    requires durInt != [] && AllDigits(durInt) && AllDigits(durFrac)
    requires ws[3] == startInt + "." + startFrac && ws[4] == durInt + "." + durFrac
    ensures ParseLine(JoinSpaced(ws), MinFields) ==
      Parsed(Segment(DecimalValue(startInt, startFrac),
                     DecimalValue(startInt, startFrac) + DecimalValue(durInt, durFrac), ws[7]))
    ensures ParseLine(JoinSpaced(ws), OrcaMinFields) == Skipped
  {
    ParseWrittenLine(ws, startInt, startFrac, durInt, durFrac, MinFields);
    FieldsOfJoined(ws);
  }

  // ---------------------------------------------------------------------
  // load_transcript: \[(\d+\.\d+)\s*→\s*(\d+\.\d+)\]\s*(.*)
  // ---------------------------------------------------------------------

  /** `\d+\.\d+`: the value read and the unread rest. */
  function StrictNumber(s: string): (r: Option<(real, string)>)
    ensures r.Some? ==> r.value.0 >= 0.0 && |r.value.1| < |s|
  {
    var n := DigitRun(s);
    if n == 0 || n == |s| || s[n] != '.' then None
    else
      var fs := s[n + 1..];
      var m := DigitRun(fs);
      if m == 0 then None else Some((DecimalValue(s[..n], fs[..m]), fs[m..]))
  }

  /** `\]\s*(.*)` after the end number. */
  function StrictTail(start: real, end: real, s: string): (r: Option<Chunk>)
    ensures r.Some? ==> r.value.start == start && r.value.end == end && '\n' !in r.value.text
  {
    if s == [] || s[0] != ']' then None
    else Some(Chunk(start, end, LineText(SkipSpace(s[1..]))))
  }

  /** `\s*(\d+\.\d+)\]\s*(.*)` after the arrow. */
  function StrictAfterArrow(start: real, s: string): (r: Option<Chunk>)
    ensures r.Some? ==> r.value.start == start && r.value.end >= 0.0
  {
    match StrictNumber(SkipSpace(s))
    case None => None
    case Some((end, rest)) => StrictTail(start, end, rest)
  }

  /** The strict pattern anchored at the start of an already stripped line; the text may be empty. */
  function StrictMatch(s: string): (r: Option<Chunk>)
    ensures r.Some? ==> r.value.start >= 0.0 && r.value.end >= 0.0
  {
    if s == [] || s[0] != '[' then None
    else
      match StrictNumber(s[1..])
      case None => None
      case Some((start, r1)) =>
        var r2 := SkipSpace(r1);
        if r2 == [] || r2[0] != '\U{2192}' then None
        else StrictAfterArrow(start, r2[1..])
  }

  /** `pattern.match(line.strip())` for this reader. */
  function StrictChunk(line: string): Option<Chunk> {
    StrictMatch(Strip(line))
  }

  function StrictOutcomes(lines: seq<string>): (os: seq<Option<Chunk>>)
    ensures |os| == |lines|
  {
    seq(|lines|, i requires 0 <= i < |lines| => StrictChunk(lines[i]))
  }

  /** The chunks of the matching lines, in file order. */
  function StrictChunks(lines: seq<string>): seq<Chunk> {
    Somes(StrictOutcomes(lines))
  }

  lemma StrictChunksStep(lines: seq<string>, i: nat)
    requires i < |lines|
    ensures StrictChunks(lines[..i + 1]) ==
      StrictChunks(lines[..i]) + (if StrictChunk(lines[i]).Some? then [StrictChunk(lines[i]).value] else [])
  {
    var os, os' := StrictOutcomes(lines[..i]), StrictOutcomes(lines[..i + 1]);
    assert os'[..i] == os;
    assert os'[i] == StrictChunk(lines[i]);
  }

  /** The reading loop of this `load_transcript`: nothing matching is not an error here. */
  method LoadTranscriptFlat(lines: seq<string>) returns (chunks: seq<Chunk>)
    ensures chunks == StrictChunks(lines)
    ensures chunks == [] <==> forall i :: 0 <= i < |lines| ==> StrictChunk(lines[i]).None?
  {
    chunks := [];
    for i := 0 to |lines|
      invariant chunks == StrictChunks(lines[..i])
    {
      var m := StrictChunk(lines[i]);
      StrictChunksStep(lines, i);
      if m.Some? {
        chunks := chunks + [m.value];
      }
    }
    assert lines[..|lines|] == lines;
    var os := StrictOutcomes(lines);
    SomesEmpty(os);
    assert forall i | 0 <= i < |lines| :: os[i] == StrictChunk(lines[i]);
  }

  /** A number as `digits.digits`, the only form this reader accepts. */
  predicate StrictNumeral(n: Numeral) {
    ValidNumeral(n) && n.dot && n.frac != []
  }

  lemma StrictNumeralReads(n: Numeral, q: string)
    requires StrictNumeral(n)
    requires q == [] || !IsDigit(q[0])
    ensures StrictNumber(NumeralText(n) + q) == Some((NumeralValue(n), q))
  {
    Assoc(n.whole, "." + n.frac, q);
    Assoc(".", n.frac, q);
    StrictDottedReads(n.whole, n.frac, q);
  }

  lemma StrictDottedReads(ip: string, fp: string, q: string)
    requires ip != [] && fp != [] && AllDigits(ip) && AllDigits(fp)
    requires q == [] || !IsDigit(q[0])
    ensures StrictNumber(ip + ("." + (fp + q))) == Some((DecimalValue(ip, fp), q))
  {
    var t := "." + (fp + q);
    DigitRunOf(ip, t);
    assert (ip + t)[..|ip|] == ip && (ip + t)[|ip|..] == t;
    assert (ip + t)[|ip| + 1..] == fp + q;
    DigitRunOf(fp, q);
    assert (fp + q)[..|fp|] == fp && (fp + q)[|fp|..] == q;
  }

  /** The strict pattern up to and including the arrow, on a stripped line. */
  lemma StrictThroughArrow(a: Numeral, pad2: string, q: string)
    requires AllSpace(pad2) && StrictNumeral(a)
    ensures StrictMatch("[" + NumeralText(a) + pad2 + "\U{2192}" + q) == StrictAfterArrow(NumeralValue(a), q)
  {
    var afterStart := pad2 + ("\U{2192}" + q);
    var s := "[" + NumeralText(a) + pad2 + "\U{2192}" + q;
    assert s[1..] == NumeralText(a) + afterStart;
    assert afterStart[0] == '\U{2192}' || afterStart[0] == pad2[0];
    StrictNumeralReads(a, afterStart);
    SkipSpaceOver(pad2, "\U{2192}" + q);
    assert ("\U{2192}" + q)[1..] == q;
  }

  /** The part after the arrow of a line the strict pattern accepts. */
  lemma StrictAfterArrowWritten(start: real, pad3: string, b: Numeral, pad5: string, text: string)
    requires AllSpace(pad3) && AllSpace(pad5) && StrictNumeral(b)
    requires text == [] || (!IsSpace(text[0]) && '\n' !in text)
    ensures StrictAfterArrow(start, pad3 + NumeralText(b) + "]" + pad5 + text) == Some(Chunk(start, NumeralValue(b), text))
  {
    var close := "]" + (pad5 + text);
    assert pad3 + NumeralText(b) + "]" + pad5 + text == pad3 + (NumeralText(b) + close);
    SkipSpaceOver(pad3, NumeralText(b) + close);
    StrictNumeralReads(b, close);
    assert close[1..] == pad5 + text;
    SkipSpaceOver(pad5, text);
    LineTextWhole(text);
  }

  /**
   * A line `[a → b] text` with nothing between `[` and `a`, any whitespace
   * around the arrow, after `]` and around the line, reads back as
   * `(a, b, text)`.
   */
  lemma StrictReadsWritten(lead: string, a: Numeral, pad2: string, pad3: string, b: Numeral,
                           pad5: string, text: string, trail: string)
    requires AllSpace(lead) && AllSpace(pad2) && AllSpace(pad3) && AllSpace(pad5) && AllSpace(trail)
    requires StrictNumeral(a) && StrictNumeral(b) && CapturableText(text)
    ensures StrictChunk(lead + "[" + NumeralText(a) + pad2 + "\U{2192}" + pad3 + NumeralText(b) + "]" + pad5 + text + trail) ==
            Some(Chunk(NumeralValue(a), NumeralValue(b), text))
  {
    var q := pad3 + NumeralText(b) + "]" + pad5 + text;
    var x := "[" + NumeralText(a) + pad2 + "\U{2192}" + q;
    StrictLineSplit(lead, NumeralText(a), pad2, pad3, NumeralText(b), pad5 + text, trail);
    Assoc(pad3 + NumeralText(b) + "]", pad5, text);
    Assoc(lead + "[" + NumeralText(a) + pad2 + "\U{2192}" + pad3 + NumeralText(b) + "]", pad5, text);
    assert x[|x| - 1] == text[|text| - 1];
    StripFramed(lead, x, trail);
    TrimEndAllSpace(trail);
    assert x + [] == x;
    StrictThroughArrow(a, pad2, q);
    StrictAfterArrowWritten(NumeralValue(a), pad3, b, pad5, text);
  }

  /** Regrouping a strict line as lead, the part that survives stripping, and the trail. */
  lemma StrictLineSplit(lead: string, an: string, pad2: string, pad3: string, bn: string, rest: string, trail: string)
    ensures lead + "[" + an + pad2 + "\U{2192}" + pad3 + bn + "]" + rest + trail ==
            lead + ("[" + an + pad2 + "\U{2192}" + (pad3 + bn + "]" + rest)) + trail
  {
    var p := "[" + an + pad2 + "\U{2192}";
    Assoc(lead, "[", an);
    Assoc(lead, "[" + an, pad2);
    Assoc(lead, "[" + an + pad2, "\U{2192}");
    var m := lead + p;
    Assoc(lead, p, pad3 + bn + "]" + rest);
    Assoc(m, pad3 + bn + "]", rest);
    Assoc(m, pad3 + bn, "]");
    Assoc(m, pad3, bn);
  }

  /** A line `[a → b]` with nothing after `]` reads back with empty text. */
  lemma StrictReadsEmptyText(lead: string, a: Numeral, pad2: string, pad3: string, b: Numeral, trail: string)
    requires AllSpace(lead) && AllSpace(pad2) && AllSpace(pad3) && AllSpace(trail)
    requires StrictNumeral(a) && StrictNumeral(b)
    ensures StrictChunk(lead + "[" + NumeralText(a) + pad2 + "\U{2192}" + pad3 + NumeralText(b) + "]" + trail) ==
            Some(Chunk(NumeralValue(a), NumeralValue(b), []))
  {
    var close := pad3 + NumeralText(b) + "]";
    var x := "[" + NumeralText(a) + pad2 + "\U{2192}" + close;
    StrictLineSplit(lead, NumeralText(a), pad2, pad3, NumeralText(b), [], trail);
    assert close + [] == close;
    assert lead + "[" + NumeralText(a) + pad2 + "\U{2192}" + pad3 + NumeralText(b) + "]" + [] ==
      lead + "[" + NumeralText(a) + pad2 + "\U{2192}" + pad3 + NumeralText(b) + "]";
    assert x[|x| - 1] == ']';
    StripFramed(lead, x, trail);
    TrimEndAllSpace(trail);
    assert x + [] == x;
    StrictThroughArrow(a, pad2, close);
    StrictAfterArrowWritten(NumeralValue(a), pad3, b, [], []);
  }

  /** The converse of `StrictNumeralReads`: `\d+\.\d+` only ever reads a `digits.digits` numeral. */
  lemma StrictNumberShape(s: string) returns (a: Numeral)
    requires StrictNumber(s).Some?
    ensures StrictNumeral(a) && StrictNumber(s).value.0 == NumeralValue(a)
    ensures s == NumeralText(a) + StrictNumber(s).value.1
    ensures StrictNumber(s).value.1 == [] || !IsDigit(StrictNumber(s).value.1[0])
  {
    var n := DigitRun(s);
    var fs := s[n + 1..];
    var m := DigitRun(fs);
    a := Numeral(s[..n], true, fs[..m]);
    assert s == s[..n] + ([s[n]] + fs);
    assert fs == fs[..m] + fs[m..];
    assert [s[n]] == ".";
    Assoc(".", fs[..m], fs[m..]);
    Assoc(s[..n], "." + fs[..m], fs[m..]);
  }

  /** Regrouping a strict line to the right, piece by piece. */
  lemma StrictShapeRegroup(an: string, pad2: string, pad3: string, bn: string, tail: string)
    ensures "[" + an + pad2 + "\U{2192}" + pad3 + bn + "]" + tail ==
            "[" + (an + (pad2 + ("\U{2192}" + (pad3 + (bn + ("]" + tail))))))
  {
    var x1 := "[" + an;
    var x2 := x1 + pad2;
    var x3 := x2 + "\U{2192}";
    var x4 := x3 + pad3;
    var x5 := x4 + bn;
    Assoc(x5, "]", tail);
    Assoc(x4, bn, "]" + tail);
    Assoc(x3, pad3, bn + ("]" + tail));
    Assoc(x2, "\U{2192}", pad3 + (bn + ("]" + tail)));
    Assoc(x1, pad2, "\U{2192}" + (pad3 + (bn + ("]" + tail))));
    Assoc("[", an, pad2 + ("\U{2192}" + (pad3 + (bn + ("]" + tail)))));
  }

  /** One step of the strict pattern past a `\d+\.\d+` start, on an unexpanded line. */
  lemma StrictMatchPastStart(s: string, start: real, r1: string)
    requires s != [] && s[0] == '[' && StrictNumber(s[1..]) == Some((start, r1))
    ensures StrictMatch(s) ==
      if SkipSpace(r1) == [] || SkipSpace(r1)[0] != '\U{2192}' then None
      else StrictAfterArrow(start, SkipSpace(r1)[1..])
  {
  }

  /** The pieces a strict match is cut into, put back together. */
  lemma StrictShapeCompose(s: string, t1: string, an: string, r1: string, pad2: string, q: string,
                           pad3: string, bn: string, tail: string)
    requires s == "[" + t1 && t1 == an + r1 && r1 == pad2 + ("\U{2192}" + q)
    requires q == pad3 + (bn + ("]" + tail))
    ensures s == "[" + an + pad2 + "\U{2192}" + pad3 + bn + "]" + tail
  {
    StrictShapeRegroup(an, pad2, pad3, bn, tail);
  }

  /** `\]\s*(.*)`: a match has `]` first, and captures the first line of the rest after whitespace. */
  lemma StrictTailShape(start: real, end: real, r3: string) returns (tail: string)
    requires StrictTail(start, end, r3).Some?
    ensures r3 == "]" + tail && StrictTail(start, end, r3) == Some(Chunk(start, end, LineText(SkipSpace(tail))))
  {
    tail := r3[1..];
    assert r3 == "]" + tail;
  }

  /** What follows the arrow in a strict match: whitespace, a `digits.digits` end, `]` and the tail. */
  lemma StrictAfterArrowShape(start: real, q: string) returns (pad3: string, b: Numeral, tail: string)
    requires StrictAfterArrow(start, q).Some?
    ensures StrictNumeral(b) && AllSpace(pad3)
    ensures q == pad3 + (NumeralText(b) + ("]" + tail))
    ensures StrictAfterArrow(start, q) == Some(Chunk(start, NumeralValue(b), LineText(SkipSpace(tail))))
  {
    pad3 := SkipSpaceSplit(q);
    var u := SkipSpace(q);
    b := StrictNumberShape(u);
    var r3 := StrictNumber(u).value.1;
    assert StrictAfterArrow(start, q) == StrictTail(start, NumeralValue(b), r3);
    tail := StrictTailShape(start, NumeralValue(b), r3);
  }

  /** `\s*→` after the start: the whitespace, and what follows the arrow. */
  lemma StrictArrowSplit(r1: string) returns (pad2: string, q: string)
    requires SkipSpace(r1) != [] && SkipSpace(r1)[0] == '\U{2192}'
    ensures AllSpace(pad2) && r1 == pad2 + ("\U{2192}" + q) && q == SkipSpace(r1)[1..]
  {
    pad2 := SkipSpaceSplit(r1);
    q := SkipSpace(r1)[1..];
    assert SkipSpace(r1) == "\U{2192}" + q;
  }

  /**
   * Everything the strict pattern accepts has the written shape: `[`, a
   * `digits.digits` start with nothing before it, whitespace, `→` and no
   * other glyph, whitespace, a `digits.digits` end, `]`, and a tail whose
   * first line after the whitespace is the text.
   */
  lemma StrictMatchShape(s: string) returns (a: Numeral, pad2: string, pad3: string, b: Numeral, tail: string)
    requires StrictMatch(s).Some?
    ensures StrictNumeral(a) && StrictNumeral(b) && AllSpace(pad2) && AllSpace(pad3)
    ensures s == "[" + NumeralText(a) + pad2 + "\U{2192}" + pad3 + NumeralText(b) + "]" + tail
    ensures StrictMatch(s) == Some(Chunk(NumeralValue(a), NumeralValue(b), LineText(SkipSpace(tail))))
  {
    var t1 := s[1..];
    assert s == "[" + t1;
    a := StrictNumberShape(t1);
    var r1 := StrictNumber(t1).value.1;
    StrictMatchPastStart(s, NumeralValue(a), r1);
    var q;
    pad2, q := StrictArrowSplit(r1);
    pad3, b, tail := StrictAfterArrowShape(NumeralValue(a), q);
    StrictShapeCompose(s, t1, NumeralText(a), r1, pad2, q, pad3, NumeralText(b), tail);
  }

  /** After a `\d+\.\d+` start, anything but whitespace and `→` makes the strict pattern fail. */
  lemma StrictRejectsAfterStart(t: string, start: real, r1: string)
    requires StrictNumber(t) == Some((start, r1))
    requires SkipSpace(r1) == [] || SkipSpace(r1)[0] != '\U{2192}'
    ensures StrictMatch("[" + t) == None
  {
    assert ("[" + t)[1..] == t;
    StrictMatchPastStart("[" + t, start, r1);
  }

  /** The other joiners start with a character that is neither whitespace, a digit nor `→`. */
  lemma OtherArrowHead(g: string, q: string)
    requires IsArrow(g) && g != "\U{2192}"
    ensures SkipSpace(g + q) == g + q && (g + q)[0] != '\U{2192}' && !IsDigit((g + q)[0])
  {
    assert (g + q)[0] == g[0];
  }

  /** A line joined by `->`, `–` or `-` instead of `→` never matches the strict pattern. */
  lemma StrictRejectsOtherArrows(a: Numeral, pad2: string, g: string, q: string)
    requires StrictNumeral(a) && AllSpace(pad2) && IsArrow(g) && g != "\U{2192}"
    ensures StrictMatch("[" + NumeralText(a) + pad2 + g + q) == None
  {
    var an := NumeralText(a);
    var r1 := pad2 + (g + q);
    OtherArrowHead(g, q);
    assert r1[0] == g[0] || r1[0] == pad2[0];
    StrictNumeralReads(a, r1);
    SkipSpaceOver(pad2, g + q);
    StrictRejectsAfterStart(an + r1, NumeralValue(a), r1);
    Assoc("[" + an + pad2, g, q);
    Assoc("[" + an, pad2, g + q);
    Assoc("[", an, r1);
  }

  /** The bare line `[a G b] text`, as the builder's reader lemma spells it and cut after the joiner. */
  lemma BareLineRegroup(an: string, pad2: string, g: string, pad3: string, bn: string, pad5: string, text: string)
    ensures [] + "[" + [] + an + pad2 + g + pad3 + bn + [] + "]" + pad5 + text + [] ==
            "[" + an + pad2 + g + (pad3 + bn + "]" + pad5 + text)
  {
    var x := "[" + an + pad2 + g;
    assert [] + "[" + [] == "[";
    assert x + pad3 + bn + [] == x + pad3 + bn;
    Assoc(x, pad3 + bn + "]" + pad5, text);
    Assoc(x, pad3 + bn + "]", pad5);
    Assoc(x, pad3 + bn, "]");
    Assoc(x, pad3, bn);
  }

  /** Step 3's reader skips a line joined by `->`, `–` or `-`, whatever whitespace surrounds it. */
  lemma StrictSkipsOtherArrows(a: Numeral, pad2: string, g: string, q: string)
    requires StrictNumeral(a) && AllSpace(pad2) && IsArrow(g) && g != "\U{2192}"
    requires q != [] && !IsSpace(q[|q| - 1])
    ensures StrictChunk("[" + NumeralText(a) + pad2 + g + q) == None
  {
    var line := "[" + NumeralText(a) + pad2 + g + q;
    assert line[|line| - 1] == q[|q| - 1];
    StripFramed([], line, []);
    TrimEndAllSpace([]);
    assert [] + line + [] == line && line + [] == line;
    StrictRejectsOtherArrows(a, pad2, g, q);
  }

  /**
   * On a line joined by `->`, `–` or `-` the two readers disagree: the
   * builder's reader takes the chunk, step 3's reader skips the line.
   */
  lemma ReadersDisagreeOnOtherArrows(a: Numeral, pad2: string, g: string, pad3: string, b: Numeral,
                                     pad5: string, text: string)
    requires StrictNumeral(a) && StrictNumeral(b) && IsArrow(g) && g != "\U{2192}"
    requires AllSpace(pad2) && AllSpace(pad3) && AllSpace(pad5) && CapturableText(text)
    ensures var line := "[" + NumeralText(a) + pad2 + g + (pad3 + NumeralText(b) + "]" + pad5 + text);
      ParseChunk(line) == Some(Chunk(NumeralValue(a), NumeralValue(b), text)) && StrictChunk(line) == None
  {
    var q := pad3 + NumeralText(b) + "]" + pad5 + text;
    BareLineRegroup(NumeralText(a), pad2, g, pad3, NumeralText(b), pad5, text);
    ParseWrittenChunk([], [], a, pad2, g, pad3, b, [], pad5, text, []);
    assert q[|q| - 1] == text[|text| - 1];
    StrictSkipsOtherArrows(a, pad2, g, q);
  }

  /**
   * A start the builder's `\d+\.?\d*` reads but `\d+\.\d+` does not, such as
   * `5` or `5.`, makes the strict pattern fail.
   */
  lemma StrictRejectsLooseStart(a: Numeral, q: string)
    requires ValidNumeral(a) && !StrictNumeral(a)
    requires q == [] || (!IsDigit(q[0]) && q[0] != '.')
    ensures StrictMatch("[" + NumeralText(a) + q) == None
  {
    var t := NumeralText(a) + q;
    assert ("[" + NumeralText(a) + q)[1..] == t;
    if a.dot {
      assert NumeralText(a) == a.whole + ".";
      assert t == a.whole + ("." + q);
      DigitRunOf(a.whole, "." + q);
      assert t[|a.whole| + 1..] == q;
      assert DigitRun(q) == 0;
    } else {
      assert NumeralText(a) + q == a.whole + q;
      DigitRunOf(a.whole, q);
    }
  }

  // ---------------------------------------------------------------------
  // The transcript line written in step 1: `[{start:7.2f} → {end:7.2f}] text`.
  // ---------------------------------------------------------------------

  function Spaces(n: nat): (s: string)
    ensures |s| == n && AllSpace(s)
  {
    if n == 0 then [] else " " + Spaces(n - 1)
  }

  /** The spaces `:7.2f` puts in front of a numeral shorter than seven characters. */
  function PadOf(n: Numeral): string {
    Spaces(if |NumeralText(n)| < 7 then 7 - |NumeralText(n)| else 0)
  }

  /** A numeral right-aligned in a field of width 7, as `:7.2f` lays it out. */
  function Padded7(n: Numeral): string {
    PadOf(n) + NumeralText(n)
  }

  /** One line of the step-1 transcript file, with the two-decimal numerals already formatted. */
  function WrittenLine(a: Numeral, b: Numeral, text: string): string {
    "[" + Padded7(a) + " \U{2192} " + Padded7(b) + "] " + text + "\n"
  }

  /** The step-1 line spelled out piece by piece. */
  lemma WrittenLineParts(a: Numeral, b: Numeral, text: string)
    ensures WrittenLine(a, b, text) ==
      [] + "[" + PadOf(a) + NumeralText(a) + " " + "\U{2192}" + (" " + PadOf(b)) + NumeralText(b) + [] + "]" + " " + text + "\n"
  {
  }

  /** The speaker-transcript builder's reader reads every step-1 line with non-empty text. */
  lemma WrittenLineBuilderReads(a: Numeral, b: Numeral, text: string)
    requires StrictNumeral(a) && StrictNumeral(b) && CapturableText(text)
    ensures ParseChunk(WrittenLine(a, b, text)) == Some(Chunk(NumeralValue(a), NumeralValue(b), text))
  {
    assert AllSpace("\n") && AllSpace(" ") && AllSpace(" " + PadOf(b));
    WrittenLineParts(a, b, text);
    ParseWrittenChunk([], PadOf(a), a, " ", "\U{2192}", " " + PadOf(b), b, [], " ", text, "\n");
  }

  /** A start of seven or more characters gets no padding, and the line reads back. */
  lemma WrittenLineUnpadded(a: Numeral, b: Numeral, text: string)
    requires StrictNumeral(a) && StrictNumeral(b) && CapturableText(text) && |NumeralText(a)| >= 7
    ensures StrictChunk(WrittenLine(a, b, text)) == Some(Chunk(NumeralValue(a), NumeralValue(b), text))
  {
    assert AllSpace("\n") && AllSpace(" ") && AllSpace(" " + PadOf(b));
    WrittenLineParts(a, b, text);
    assert PadOf(a) == [];
    assert [] + "[" + PadOf(a) == [] + "[";
    assert WrittenLine(a, b, text) ==
      [] + "[" + NumeralText(a) + " " + "\U{2192}" + (" " + PadOf(b)) + NumeralText(b) + "]" + " " + text + "\n";
    StrictReadsWritten([], a, " ", " " + PadOf(b), b, " ", text, "\n");
  }

  /** A shorter start is padded after `[`, and the strict pattern rejects the line. */
  lemma WrittenLinePaddedSkipped(a: Numeral, b: Numeral, text: string)
    requires StrictNumeral(a) && CapturableText(text) && |NumeralText(a)| < 7
    ensures StrictChunk(WrittenLine(a, b, text)) == None
  {
    var x := "[" + Padded7(a) + " \U{2192} " + Padded7(b) + "] " + text;
    assert x[1] == Padded7(a)[0] == PadOf(a)[0];
    assert x[|x| - 1] == text[|text| - 1];
    StrictRejectsSpaceAfterBracket(x, "\n");
  }

  /** Whitespace right after `[` is never accepted by this reader. */
  lemma StrictRejectsSpaceAfterBracket(x: string, trail: string)
    requires |x| >= 2 && x[0] == '[' && IsSpace(x[1]) && !IsSpace(x[|x| - 1])
    requires AllSpace(trail)
    ensures StrictChunk(x + trail) == None
  {
    assert [] + x == x;
    StripFramed([], x, trail);
    TrimEndAllSpace(trail);
    assert x + [] == x;
    assert DigitRun(x[1..]) == 0;
  }

  /**
   * A step-1 line with non-empty text is read back by this reader exactly
   * when the start needs no padding, i.e. when its two-decimal text is at
   * least seven characters (a start of 1000.00 s or more); every earlier
   * utterance is skipped. The speaker-transcript builder's reader, which
   * allows whitespace after `[`, reads every such line. Empty text is
   * `WrittenLineEmptyText`.
   */
  lemma WrittenLineReadBack(a: Numeral, b: Numeral, text: string)
    requires StrictNumeral(a) && StrictNumeral(b) && CapturableText(text)
    ensures StrictChunk(WrittenLine(a, b, text)).Some? <==> |NumeralText(a)| >= 7
    ensures |NumeralText(a)| >= 7 ==> StrictChunk(WrittenLine(a, b, text)) == Some(Chunk(NumeralValue(a), NumeralValue(b), text))
    ensures ParseChunk(WrittenLine(a, b, text)) == Some(Chunk(NumeralValue(a), NumeralValue(b), text))
  {
    WrittenLineBuilderReads(a, b, text);
    if |NumeralText(a)| >= 7 {
      WrittenLineUnpadded(a, b, text);
    } else {
      WrittenLinePaddedSkipped(a, b, text);
    }
  }

  /**
   * A step-1 line whose stripped text is empty: the builder's reader skips it
   * whatever the start, and this reader reads it, with empty text, exactly
   * when the start needs no padding.
   */
  lemma WrittenLineEmptyText(a: Numeral, b: Numeral)
    requires StrictNumeral(a) && StrictNumeral(b)
    ensures ParseChunk(WrittenLine(a, b, [])) == None
    ensures StrictChunk(WrittenLine(a, b, [])).Some? <==> |NumeralText(a)| >= 7
    ensures |NumeralText(a)| >= 7 ==> StrictChunk(WrittenLine(a, b, [])) == Some(Chunk(NumeralValue(a), NumeralValue(b), []))
  {
    assert AllSpace(" " + "\n") && AllSpace(" ") && AllSpace(" " + PadOf(b));
    var x := "[" + Padded7(a) + " \U{2192} " + Padded7(b) + "]";
    assert WrittenLine(a, b, []) == x + (" " + "\n");
    WrittenLineParts(a, b, []);
    var y := [] + "[" + PadOf(a) + NumeralText(a) + " " + "\U{2192}" + (" " + PadOf(b)) + NumeralText(b) + [] + "]";
    assert WrittenLine(a, b, []) == y + (" " + "\n");
    ParseNoTextSkipped([], PadOf(a), a, " ", "\U{2192}", " " + PadOf(b), b, [], " " + "\n");
    if |NumeralText(a)| >= 7 {
      assert PadOf(a) == [];
      assert [] + "[" + PadOf(a) == [] + "[";
      assert y + (" " + "\n") == [] + "[" + NumeralText(a) + " " + "\U{2192}" + (" " + PadOf(b)) + NumeralText(b) + "]" + (" " + "\n");
      StrictReadsEmptyText([], a, " ", " " + PadOf(b), b, " " + "\n");
    } else {
      assert x[1] == Padded7(a)[0] == PadOf(a)[0];
      StrictRejectsSpaceAfterBracket(x, " " + "\n");
    }
  }

  // ---------------------------------------------------------------------
  // find_speaker by containment, and the line-building loop.
  // ---------------------------------------------------------------------

  predicate Contains(seg: Segment, t: real) {
    seg.start <= t <= seg.end
  }

  /**
   * The speaker of the first segment, in list order, whose closed interval
   * contains the utterance start `t`; "UNKNOWN" if none does.
   */
  function SpeakerAt(t: real, segs: seq<Segment>): (r: string)
    ensures (forall k :: 0 <= k < |segs| ==> !Contains(segs[k], t)) ==> r == UnknownLabel
    ensures forall k :: 0 <= k < |segs| && Contains(segs[k], t) && (forall m :: 0 <= m < k ==> !Contains(segs[m], t)) ==>
      r == segs[k].speaker
    ensures r == UnknownLabel || exists k :: 0 <= k < |segs| && segs[k].speaker == r
  {
    if segs == [] then UnknownLabel
    else if Contains(segs[0], t) then segs[0].speaker
    else
      var r := SpeakerAt(t, segs[1..]);
      assert forall k :: 0 <= k < |segs| && Contains(segs[k], t) && (forall m :: 0 <= m < k ==> !Contains(segs[m], t)) ==>
        r == segs[k].speaker by {
        forall k | 0 <= k < |segs| && Contains(segs[k], t) && (forall m :: 0 <= m < k ==> !Contains(segs[m], t))
          ensures r == segs[k].speaker
        {
          assert segs[k] == segs[1..][k - 1];
          forall m | 0 <= m < k - 1 ensures !Contains(segs[1..][m], t) {
            assert segs[1..][m] == segs[m + 1];
          }
        }
      }
      assert r == UnknownLabel || exists k :: 0 <= k < |segs| && segs[k].speaker == r by {
        if r != UnknownLabel {
          var k :| 0 <= k < |segs[1..]| && segs[1..][k].speaker == r;
          assert segs[k + 1].speaker == r;
        }
      }
      r
  }

  /** The lines of step 3: one per chunk, in chunk order, naming the raw label. */
  function AlignedLines(chunks: seq<Chunk>, segs: seq<Segment>): seq<FusedLine> {
    seq(|chunks|, k requires 0 <= k < |chunks| => FusedLine(chunks[k].start, chunks[k].end, SpeakerAt(chunks[k].start, segs), chunks[k].text))
  }

  /** The line-building loop of step 3. */
  method BuildLines(chunks: seq<Chunk>, segs: seq<Segment>) returns (lines: seq<FusedLine>)
    ensures lines == AlignedLines(chunks, segs)
  {
    lines := [];
    for i := 0 to |chunks|
      invariant lines == AlignedLines(chunks[..i], segs)
    {
      var speaker := FindSpeakerAt(chunks[i].start, segs);
      AlignedLinesStep(chunks, segs, i);
      lines := lines + [FusedLine(chunks[i].start, chunks[i].end, speaker, chunks[i].text)];
    }
    assert chunks[..|chunks|] == chunks;
  }

  lemma AlignedLinesStep(chunks: seq<Chunk>, segs: seq<Segment>, i: nat)
    requires i < |chunks|
    ensures AlignedLines(chunks[..i + 1], segs) ==
      AlignedLines(chunks[..i], segs) + [FusedLine(chunks[i].start, chunks[i].end, SpeakerAt(chunks[i].start, segs), chunks[i].text)]
  {
  }

  /** `find_speaker`'s loop with its early return. */
  method FindSpeakerAt(t: real, segs: seq<Segment>) returns (r: string)
    ensures r == SpeakerAt(t, segs)
  {
    for i := 0 to |segs|
      invariant SpeakerAt(t, segs) == SpeakerAt(t, segs[i..])
    {
      if segs[i].start <= t <= segs[i].end {
        return segs[i].speaker;
      }
      assert segs[i..][1..] == segs[i + 1..];
    }
    return UnknownLabel;
  }

  /** Step 3 as a whole: the flat RTTM reader may fail on a bad number; otherwise the lines. */
  function AlignResult(rttmLines: seq<string>, transcriptLines: seq<string>): Result<seq<FusedLine>, Failure> {
    match Records(rttmLines, OrcaMinFields)
    case Err(e) => Err(e)
    case Ok(segs) => Ok(AlignedLines(StrictChunks(transcriptLines), segs))
  }

  method AlignSpeakers(rttmLines: seq<string>, transcriptLines: seq<string>) returns (r: Result<seq<FusedLine>, Failure>)
    ensures r == AlignResult(rttmLines, transcriptLines)
  {
    var diar := LoadRttmFlat(rttmLines);
    if diar.Err? {
      return Err(diar.error);
    }
    var trans := LoadTranscriptFlat(transcriptLines);
    var lines := BuildLines(trans, diar.value);
    return Ok(lines);
  }

  /**
   * Step 3 fails only on a field that is not a number; it then gives one
   * line per matching transcript line, in order, keeping times and text and
   * naming "UNKNOWN" or a label read from the RTTM file, unmapped.
   */
  lemma AlignLines(rttmLines: seq<string>, transcriptLines: seq<string>)
    ensures AlignResult(rttmLines, transcriptLines).Err? ==> AlignResult(rttmLines, transcriptLines).error.MalformedNumber?
    ensures AlignResult(rttmLines, transcriptLines).Ok? ==>
      Records(rttmLines, OrcaMinFields).Ok? &&
      LinesFollow(AlignResult(rttmLines, transcriptLines).value, StrictChunks(transcriptLines), Records(rttmLines, OrcaMinFields).value)
  {
    RecordsErrors(rttmLines, OrcaMinFields);
    if Records(rttmLines, OrcaMinFields).Ok? {
      AlignedLinesFacts(StrictChunks(transcriptLines), Records(rttmLines, OrcaMinFields).value);
    }
  }

  /**
   * One line per chunk, in order, each keeping its chunk's times and text and
   * naming "UNKNOWN" or a label some segment carries.
   */
  predicate LinesFollow(lines: seq<FusedLine>, chunks: seq<Chunk>, segs: seq<Segment>) {
    |lines| == |chunks| &&
    forall k :: 0 <= k < |lines| ==>
      lines[k].start == chunks[k].start && lines[k].end == chunks[k].end && lines[k].text == chunks[k].text &&
      (lines[k].name == UnknownLabel || exists j :: 0 <= j < |segs| && segs[j].speaker == lines[k].name)
  }

  lemma AlignedLinesFacts(chunks: seq<Chunk>, segs: seq<Segment>)
    ensures LinesFollow(AlignedLines(chunks, segs), chunks, segs)
  {
    var lines := AlignedLines(chunks, segs);
    forall k | 0 <= k < |chunks|
      ensures lines[k].name == UnknownLabel || exists j :: 0 <= j < |segs| && segs[j].speaker == lines[k].name
    {
      assert lines[k].name == SpeakerAt(chunks[k].start, segs);
    }
  }

  /**
   * The two attribution rules on one diarization (S1 over [0, 5], S2 over
   * [6, 10]): an utterance starting in the gap is S2's by overlap but
   * "UNKNOWN" by containment, and one starting inside S1's turn but lying
   * mostly in S2's is S2's by overlap and S1's by containment.
   */
  lemma PoliciesDiffer()
    ensures var segs := [Segment(0.0, 5.0, "S1"), Segment(6.0, 10.0, "S2")];
      var d := [Track("S1", [Interval(0.0, 5.0)]), Track("S2", [Interval(6.0, 10.0)])];
      Attribution(d, 5.5, 9.0) == "S2" && SpeakerAt(5.5, segs) == UnknownLabel &&
      Attribution(d, 4.0, 10.0) == "S2" && SpeakerAt(4.0, segs) == "S1"
  {
    var d := [Track("S1", [Interval(0.0, 5.0)]), Track("S2", [Interval(6.0, 10.0)])];
    var ss := [Slot("S1", Interval(0.0, 5.0)), Slot("S2", Interval(6.0, 10.0))];
    assert d[..1] == [d[0]] && d[..1][..0] == [];
    assert Slots(d) == ss;
    assert Overlaps(ss, 5.5, 9.0) == [-0.5, 3.0];
    assert Overlaps(ss, 4.0, 10.0) == [1.0, 4.0];
    assert [-0.5, 3.0][..1] == [-0.5] && [1.0, 4.0][..1] == [1.0];
    assert [-0.5][..0] == [] && [1.0][..0] == [];
    assert [-0.5, 3.0][1..] == [3.0] && [1.0, 4.0][1..] == [4.0];
  }
}
