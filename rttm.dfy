/**
 * One line of an RTTM ("Rich Transcription Time Marked") diarization file,
 * as both fusion scripts read it: the line is stripped and split on
 * whitespace, the 4th field is the turn's onset in seconds, the 5th its
 * duration and the 8th the speaker name. The scripts differ only in how many
 * fields a line needs before it is read; shorter lines are skipped.
 */
module Rttm {
  import opened Wrappers
  import opened Failures
  import opened PyText

  /** A diarized speaker turn, end = onset + duration. */
  datatype Segment = Segment(start: real, end: real, speaker: string)

  datatype LineOutcome =
    | Skipped                   // too few fields: `continue`
    | Malformed(token: string)  // `float()` raised on this field
    | Parsed(seg: Segment)

  function Fields(line: string): seq<string> {
    Split(Strip(line))
  }

  /** Reads the fields of one line: 4, 5 and 8 sit at indices 3, 4 and 7. */
  function ParseFields(p: seq<string>, minFields: nat): (o: LineOutcome)
    requires minFields >= 8
    ensures o.Skipped? <==> |p| < minFields
    ensures o.Malformed? ==> (o.token == p[3] || o.token == p[4]) && ParseFloat(o.token).None?
    ensures o.Parsed? ==>
      ParseFloat(p[3]) == Some(o.seg.start) &&
      ParseFloat(p[4]) == Some(o.seg.end - o.seg.start) &&
      o.seg.speaker == p[7]
  {
    if |p| < minFields then Skipped
    else
      match ParseFloat(p[3])
      case None => Malformed(p[3])
      case Some(start) =>
        match ParseFloat(p[4])
        case None => Malformed(p[4])
        case Some(dur) => Parsed(Segment(start, start + dur, p[7]))
  }

  /** `p = line.strip().split()` followed by the field checks. */
  function ParseLine(line: string, minFields: nat): LineOutcome
    requires minFields >= 8
  {
    ParseFields(Fields(line), minFields)
  }

  /**
   * The segments of a whole file in file order, or the first line's
   * conversion failure: the loop body shared by both `load_rttm`s.
   */
  function Records(lines: seq<string>, minFields: nat): Result<seq<Segment>, Failure>
    requires minFields >= 8
  {
    if lines == [] then Ok([])
    else
      match Records(lines[..|lines| - 1], minFields)
      case Err(e) => Err(e)
      case Ok(segs) =>
        match ParseLine(lines[|lines| - 1], minFields)
        case Skipped => Ok(segs)
        case Malformed(t) => Err(MalformedNumber(t))
        case Parsed(seg) => Ok(segs + [seg])
  }

  /** Reading one more line: the step of the reading loop. */
  lemma RecordsStep(lines: seq<string>, i: nat, minFields: nat)
    requires i < |lines| && minFields >= 8
    ensures Records(lines[..i + 1], minFields) ==
      match Records(lines[..i], minFields)
      case Err(e) => Err(e)
      case Ok(segs) =>
        match ParseLine(lines[i], minFields)
        case Skipped => Ok(segs)
        case Malformed(t) => Err(MalformedNumber(t))
        case Parsed(seg) => Ok(segs + [seg])
  {
    assert lines[..i + 1][..i] == lines[..i];
  }

  /** The only failure a file can cause is a field that does not read as a number. */
  lemma {:induction false} RecordsErrors(lines: seq<string>, minFields: nat)
    requires minFields >= 8
    ensures Records(lines, minFields).Err? ==> Records(lines, minFields).error.MalformedNumber?
  {
    if lines != [] {
      RecordsErrors(lines[..|lines| - 1], minFields);
    }
  }

  /** Once a line fails to convert, the whole file fails with that line's error. */
  lemma {:induction false} RecordsPrefixErr(lines: seq<string>, n: nat, minFields: nat)
    requires n <= |lines| && minFields >= 8
    requires Records(lines[..n], minFields).Err?
    ensures Records(lines, minFields) == Records(lines[..n], minFields)
    decreases |lines| - n
  {
    if n < |lines| {
      assert lines[..n + 1][..n] == lines[..n];
      RecordsPrefixErr(lines, n + 1, minFields);
    } else {
      assert lines[..n] == lines;
    }
  }

  /** The number of lines with at least `minFields` fields. */
  function LongLines(lines: seq<string>, minFields: nat): nat {
    if lines == [] then 0
    else LongLines(lines[..|lines| - 1], minFields) + (if |Fields(lines[|lines| - 1])| < minFields then 0 else 1)
  }

  /** Every line with enough fields contributes exactly one segment; no other line does. */
  lemma {:induction false} RecordsCount(lines: seq<string>, minFields: nat)
    requires minFields >= 8
    ensures Records(lines, minFields).Ok? ==> |Records(lines, minFields).value| == LongLines(lines, minFields)
  {
    if lines != [] {
      RecordsCount(lines[..|lines| - 1], minFields);
    }
  }

  /** An input whose every line is too short yields no segment and no failure. */
  lemma {:induction false} RecordsAllShort(lines: seq<string>, minFields: nat)
    requires minFields >= 8
    requires forall i :: 0 <= i < |lines| ==> |Fields(lines[i])| < minFields
    ensures Records(lines, minFields) == Ok([])
  {
    if lines != [] {
      RecordsAllShort(lines[..|lines| - 1], minFields);
    }
  }

  lemma {:induction false} JoinLast(ws: seq<string>)
    requires |ws| > 0 && forall k :: 0 <= k < |ws| ==> IsWord(ws[k])
    ensures JoinSpaced(ws) != [] && !IsSpace(JoinSpaced(ws)[|JoinSpaced(ws)| - 1])
  {
    if |ws| > 1 {
      JoinLast(ws[1..]);
    }
  }

  /** A space-joined line of words is left alone by `strip()` and splits back into its words. */
  lemma FieldsOfJoined(ws: seq<string>)
    requires forall k :: 0 <= k < |ws| ==> IsWord(ws[k])
    ensures Fields(JoinSpaced(ws)) == ws
  {
    var s := JoinSpaced(ws);
    if |ws| > 0 {
      JoinHead(ws);
      JoinLast(ws);
      SkipSpaceOver([], s);
      assert [] + s == s;
    }
    SplitJoinSpaced(ws);
  }

  /**
   * Writing a turn as an RTTM line (onset and duration as decimal literals in
   * fields 4 and 5, the label in field 8) and reading it back gives the turn
   * with end = onset + duration, whichever of the two field minimums applies.
   */
  lemma ParseWrittenLine(ws: seq<string>, startInt: string, startFrac: string, durInt: string, durFrac: string, minFields: nat)
    requires 8 <= minFields <= |ws|
    requires forall k :: 0 <= k < |ws| ==> IsWord(ws[k])
    requires startInt != [] && AllDigits(startInt) && AllDigits(startFrac)
    requires durInt != [] && AllDigits(durInt) && AllDigits(durFrac)
    requires ws[3] == startInt + "." + startFrac && ws[4] == durInt + "." + durFrac
    ensures ParseLine(JoinSpaced(ws), minFields) ==
      Parsed(Segment(DecimalValue(startInt, startFrac),
                     DecimalValue(startInt, startFrac) + DecimalValue(durInt, durFrac), ws[7]))
  {
    FieldsOfJoined(ws);
    ParseWrittenFields(ws, startInt, startFrac, durInt, durFrac, minFields);
  }

  lemma ParseWrittenFields(ws: seq<string>, startInt: string, startFrac: string, durInt: string, durFrac: string, minFields: nat)
    requires 8 <= minFields <= |ws|
    requires startInt != [] && AllDigits(startInt) && AllDigits(startFrac)
    requires durInt != [] && AllDigits(durInt) && AllDigits(durFrac)
    requires ws[3] == startInt + "." + startFrac && ws[4] == durInt + "." + durFrac
    ensures ParseFields(ws, minFields) ==
      Parsed(Segment(DecimalValue(startInt, startFrac),
                     DecimalValue(startInt, startFrac) + DecimalValue(durInt, durFrac), ws[7]))
  {
    ParseFloatDecimal(startInt, startFrac, true);
    Assoc(startInt, ".", startFrac);
    ParseFloatDecimal(durInt, durFrac, true);
    Assoc(durInt, ".", durFrac);
  }
}
