/**
 * `load_transcript` of the speaker-transcript builder. Each stripped line is
 * matched against
 *     \[ \s* NUM \s* ARROW \s* NUM \s* \] \s* TEXT
 * where NUM is `\d+\.?\d*`, ARROW is one of `→`, `->`, `–` (en dash) or `-`,
 * and TEXT (`.+`) is at least one character up to the next newline.
 * Lines that do not match are skipped; no match at all is fatal.
 *
 * The matcher consumes a prefix at each step and hands on the rest. Every
 * step is deterministic: a number is followed by whitespace, an arrow or `]`,
 * none of which a shorter number could be followed by, so the regex engine's
 * backtracking never finds a second way to match.
 */
module TranscriptParsing {
  import opened Wrappers
  import opened Failures
  import opened PyText

  /** One transcript utterance: `{"start", "end", "text"}`. */
  datatype Chunk = Chunk(start: real, end: real, text: string)

  /** `\d+\.?\d*`: the value read and the unread rest. */
  function LooseNumber(s: string): (r: Option<(real, string)>)
    ensures r.Some? ==> r.value.0 >= 0.0
  {
    var n := DigitRun(s);
    if n == 0 then None
    else
      var ip, rest := s[..n], s[n..];
      if rest != [] && rest[0] == '.' then
        var m := DigitRun(rest[1..]);
        Some((DecimalValue(ip, rest[1..][..m]), rest[1..][m..]))
      else Some((DecimalValue(ip, []), rest))
  }

  /** `(?:→|->|–|-)`, the alternatives tried in this order. */
  function Arrow(s: string): Option<string> {
    if |s| >= 1 && s[0] == '\U{2192}' then Some(s[1..])
    else if |s| >= 2 && s[0] == '-' && s[1] == '>' then Some(s[2..])
    else if |s| >= 1 && (s[0] == '\U{2013}' || s[0] == '-') then Some(s[1..])
    else None
  }

  /** The four separator glyphs the pattern accepts. */
  predicate IsArrow(a: string) {
    a == "\U{2192}" || a == "->" || a == "\U{2013}" || a == "-"
  }

  /** What `.` repeats over: everything up to the first newline. */
  function LineText(s: string): (t: string)
    ensures |t| <= |s| && t == s[..|t|] && '\n' !in t
    ensures |t| < |s| ==> s[|t|] == '\n'
  {
    if s == [] || s[0] == '\n' then [] else [s[0]] + LineText(s[1..])
  }

  /** `\s* \] \s* (.+)` after the end number. */
  function Tail(start: real, end: real, s: string): (r: Option<Chunk>)
    ensures r.Some? ==> r.value.start == start && r.value.end == end
    ensures r.Some? ==> r.value.text != [] && !IsSpace(r.value.text[0]) && '\n' !in r.value.text
  {
    var s1 := SkipSpace(s);
    if s1 == [] || s1[0] != ']' then None
    else
      var t := LineText(SkipSpace(s1[1..]));
      if t == [] then None else Some(Chunk(start, end, t))
  }

  /** `\s* NUM \s* \] \s* (.+)` after the arrow. */
  function AfterArrow(start: real, s: string): (r: Option<Chunk>)
    ensures r.Some? ==> r.value.start == start && r.value.end >= 0.0 && r.value.text != []
  {
    match LooseNumber(SkipSpace(s))
    case None => None
    case Some((end, rest)) => Tail(start, end, rest)
  }

  /** The pattern anchored at the start of an already stripped line. */
  function MatchChunk(s: string): (r: Option<Chunk>)
    ensures r.Some? ==> r.value.start >= 0.0 && r.value.end >= 0.0 && r.value.text != []
  {
    if s == [] || s[0] != '[' then None
    else
      match LooseNumber(SkipSpace(s[1..]))
      case None => None
      case Some((start, rest)) =>
        match Arrow(SkipSpace(rest))
        case None => None
        case Some(rest') => AfterArrow(start, rest')
  }

  /** `pattern.match(line.strip())` turned into a chunk. */
  function ParseChunk(line: string): (r: Option<Chunk>)
    ensures r.Some? ==> r.value.start >= 0.0 && r.value.end >= 0.0 && r.value.text != []
  {
    MatchChunk(Strip(line))
  }

  /** The values of the `Some`s, in order: what the loop appends. */
  function Somes<T>(os: seq<Option<T>>): seq<T> {
    if os == [] then []
    else Somes(os[..|os| - 1]) + (if os[|os| - 1].Some? then [os[|os| - 1].value] else [])
  }

  lemma {:induction false} SomesEmpty<T>(os: seq<Option<T>>)
    ensures Somes(os) == [] <==> forall i :: 0 <= i < |os| ==> os[i].None?
  {
    if os != [] {
      SomesEmpty(os[..|os| - 1]);
    }
  }

  function Outcomes(lines: seq<string>): (os: seq<Option<Chunk>>)
    ensures |os| == |lines|
  {
    seq(|lines|, i requires 0 <= i < |lines| => ParseChunk(lines[i]))
  }

  /** The chunks of the matching lines, in file order. */
  function ParsedChunks(lines: seq<string>): seq<Chunk> {
    Somes(Outcomes(lines))
  }

  /** Reading one more line appends its chunk, if it has one. */
  lemma ParsedChunksStep(lines: seq<string>, i: nat)
    requires i < |lines|
    ensures ParsedChunks(lines[..i + 1]) ==
      ParsedChunks(lines[..i]) + (if ParseChunk(lines[i]).Some? then [ParseChunk(lines[i]).value] else [])
  {
    var os, os' := Outcomes(lines[..i]), Outcomes(lines[..i + 1]);
    assert os'[..i] == os;
    assert os'[i] == ParseChunk(lines[i]);
  }

  /** No chunk at all exactly when no line matches. */
  lemma ParsedChunksEmpty(lines: seq<string>)
    ensures ParsedChunks(lines) == [] <==> forall i :: 0 <= i < |lines| ==> ParseChunk(lines[i]).None?
  {
    var os := Outcomes(lines);
    SomesEmpty(os);
    assert forall i | 0 <= i < |lines| :: os[i] == ParseChunk(lines[i]);
  }

  /** `load_transcript`: the parsed chunks, or the fatal "No transcript segments parsed". */
  function LoadTranscriptResult(lines: seq<string>): Result<seq<Chunk>, Failure> {
    var cs := ParsedChunks(lines);
    if cs == [] then Err(NoTranscriptSegments) else Ok(cs)
  }

  /** The reading loop of `load_transcript`. */
  method LoadTranscript(lines: seq<string>) returns (r: Result<seq<Chunk>, Failure>)
    ensures r == LoadTranscriptResult(lines)
    ensures r.Err? <==> forall i :: 0 <= i < |lines| ==> ParseChunk(lines[i]).None?
  {
    var chunks: seq<Chunk> := [];
    for i := 0 to |lines|
      invariant chunks == ParsedChunks(lines[..i])
    {
      var m := ParseChunk(lines[i]);
      ParsedChunksStep(lines, i);
      if m.Some? {
        chunks := chunks + [m.value];
      }
    }
    assert lines[..|lines|] == lines;
    ParsedChunksEmpty(lines);
    if chunks == [] {
      r := Err(NoTranscriptSegments);
    } else {
      r := Ok(chunks);
    }
  }

  // ---------------------------------------------------------------------
  // The separator glyphs are interchangeable, and written lines read back.
  // ---------------------------------------------------------------------

  lemma {:induction false} TrimEndAfter(x: string, q: string)
    requires x != [] && !IsSpace(x[|x| - 1])
    ensures TrimEnd(x + q) == x + TrimEnd(q)
    decreases |q|
  {
    if q != [] && IsSpace(q[|q| - 1]) {
      assert (x + q)[..|x + q| - 1] == x + q[..|q| - 1];
      TrimEndAfter(x, q[..|q| - 1]);
    } else {
      assert TrimEnd(q) == q;
    }
  }

  /** The decimal literal `\d+\.?\d*` a writer may emit. */
  datatype Numeral = Numeral(whole: string, dot: bool, frac: string)

  predicate ValidNumeral(n: Numeral) {
    n.whole != [] && AllDigits(n.whole) && AllDigits(n.frac) && (!n.dot ==> n.frac == [])
  }

  function NumeralText(n: Numeral): string {
    n.whole + (if n.dot then "." + n.frac else [])
  }

  function NumeralValue(n: Numeral): real
    requires ValidNumeral(n)
  {
    DecimalValue(n.whole, n.frac)
  }

  lemma NumeralReads(n: Numeral, q: string)
    requires ValidNumeral(n)
    requires q == [] || (!IsDigit(q[0]) && q[0] != '.')
    ensures LooseNumber(NumeralText(n) + q) == Some((NumeralValue(n), q))
  {
    if n.dot {
      Assoc(n.whole, "." + n.frac, q);
      Assoc(".", n.frac, q);
      DottedReads(n.whole, n.frac, q);
    } else {
      assert NumeralText(n) == n.whole + [];
      assert n.whole + [] == n.whole;
      WholeReads(n.whole, q);
    }
  }

  lemma WholeReads(ip: string, q: string)
    requires ip != [] && AllDigits(ip)
    requires q == [] || (!IsDigit(q[0]) && q[0] != '.')
    ensures LooseNumber(ip + q) == Some((DecimalValue(ip, []), q))
  {
    DigitRunOf(ip, q);
    assert (ip + q)[..|ip|] == ip && (ip + q)[|ip|..] == q;
  }

  lemma DottedReads(ip: string, fp: string, q: string)
    requires ip != [] && AllDigits(ip) && AllDigits(fp)
    requires q == [] || !IsDigit(q[0])
    ensures LooseNumber(ip + ("." + (fp + q))) == Some((DecimalValue(ip, fp), q))
  {
    var t := "." + (fp + q);
    DigitRunOf(ip, t);
    assert (ip + t)[..|ip|] == ip && (ip + t)[|ip|..] == t;
    assert t[1..] == fp + q;
    DigitRunOf(fp, q);
    assert (fp + q)[..|fp|] == fp && (fp + q)[|fp|..] == q;
  }

  lemma ArrowReads(a: string, q: string)
    requires IsArrow(a)
    requires q == [] || q[0] != '>'
    ensures Arrow(a + q) == Some(q)
  {
    assert (a + q)[|a|..] == q;
  }

  /** A text the pattern captures whole: no edge whitespace, no newline. */
  predicate CapturableText(t: string) {
    t != [] && !IsSpace(t[0]) && !IsSpace(t[|t| - 1]) && '\n' !in t
  }

  lemma {:induction false} LineTextWhole(t: string)
    requires '\n' !in t
    ensures LineText(t) == t
  {
    if t != [] {
      LineTextWhole(t[1..]);
    }
  }

  lemma {:induction false} TrimEndAllSpace(t: string)
    requires AllSpace(t)
    ensures TrimEnd(t) == []
  {
    if t != [] {
      TrimEndAllSpace(t[..|t| - 1]);
    }
  }

  /** Stripping a line that is `x` padded with whitespace in front and anything behind. */
  lemma StripFramed(lead: string, x: string, q: string)
    requires AllSpace(lead)
    requires x != [] && !IsSpace(x[0]) && !IsSpace(x[|x| - 1])
    ensures Strip(lead + x + q) == x + TrimEnd(q)
  {
    assert lead + x + q == lead + (x + q);
    SkipSpaceOver(lead, x + q);
    TrimEndAfter(x, q);
  }

  /** `MatchChunk` once its opening bracket, start number and arrow are read. */
  lemma MatchChunkVia(s: string, start: real, rest: string, q: string)
    requires s != [] && s[0] == '['
    requires LooseNumber(SkipSpace(s[1..])) == Some((start, rest))
    requires Arrow(SkipSpace(rest)) == Some(q)
    ensures MatchChunk(s) == AfterArrow(start, q)
  {
  }

  /** Spaces before an arrow stop a number read just before them. */
  lemma PadArrowStops(pad: string, a: string, q: string)
    requires AllSpace(pad) && IsArrow(a)
    ensures pad + (a + q) != [] && !IsDigit((pad + (a + q))[0]) && (pad + (a + q))[0] != '.'
  {
    if pad != [] {
      assert (pad + (a + q))[0] == pad[0];
    } else {
      assert (pad + (a + q))[0] == a[0];
    }
  }

  /** The pattern up to and including the arrow, on a stripped line. */
  lemma MatchThroughArrow(pad1: string, n: Numeral, pad2: string, a: string, q: string)
    requires AllSpace(pad1) && AllSpace(pad2)
    requires ValidNumeral(n) && IsArrow(a)
    requires q == [] || q[0] != '>'
    ensures MatchChunk("[" + pad1 + NumeralText(n) + pad2 + a + q) == AfterArrow(NumeralValue(n), q)
  {
    var afterNum := pad2 + (a + q);
    var body := pad1 + (NumeralText(n) + afterNum);
    Regroup6("[", pad1, NumeralText(n), pad2, a, q);
    assert ("[" + body)[1..] == body;
    SkipSpaceOver(pad1, NumeralText(n) + afterNum);
    PadArrowStops(pad2, a, q);
    NumeralReads(n, afterNum);
    SkipSpaceOver(pad2, a + q);
    ArrowReads(a, q);
    MatchChunkVia("[" + body, NumeralValue(n), afterNum, q);
  }

  /**
   * Up to the arrow, a line reads the same whichever of the four glyphs it
   * uses: what follows the arrow is read on from the same point.
   */
  lemma ArrowSplit(lead: string, pad1: string, n: Numeral, pad2: string, a: string, q: string)
    requires AllSpace(lead) && AllSpace(pad1) && AllSpace(pad2)
    requires ValidNumeral(n) && IsArrow(a)
    requires q == [] || q[0] != '>'
    ensures ParseChunk(lead + "[" + pad1 + NumeralText(n) + pad2 + a + q) == AfterArrow(NumeralValue(n), TrimEnd(q))
  {
    var x := "[" + pad1 + NumeralText(n) + pad2 + a;
    var q' := TrimEnd(q);
    Assoc(lead, "[", pad1);
    Assoc(lead, "[" + pad1, NumeralText(n));
    Assoc(lead, "[" + pad1 + NumeralText(n), pad2);
    Assoc(lead, "[" + pad1 + NumeralText(n) + pad2, a);
    assert x[0] == '[' && x[|x| - 1] == a[|a| - 1];
    StripFramed(lead, x, q);
    TrimEndKeepsHead(q);
    MatchThroughArrow(pad1, n, pad2, a, q');
  }

  /**
   * Lines that differ only in which of `→`, `->`, `–` and `-` separates the
   * two numbers read the same, whatever follows the separator (as long as it
   * does not begin with `>`, which would turn `-` into `->`).
   */
  lemma ArrowGlyphsEquivalent(lead: string, pad1: string, n: Numeral, pad2: string, a1: string, a2: string, q: string)
    requires AllSpace(lead) && AllSpace(pad1) && AllSpace(pad2)
    requires ValidNumeral(n) && IsArrow(a1) && IsArrow(a2)
    requires q == [] || q[0] != '>'
    ensures ParseChunk(lead + "[" + pad1 + NumeralText(n) + pad2 + a1 + q) ==
            ParseChunk(lead + "[" + pad1 + NumeralText(n) + pad2 + a2 + q)
  {
    ArrowSplit(lead, pad1, n, pad2, a1, q);
    ArrowSplit(lead, pad1, n, pad2, a2, q);
  }

  /** The part after the arrow of a well-formed line. */
  lemma AfterArrowWritten(start: real, pad3: string, b: Numeral, pad4: string, pad5: string, text: string)
    requires AllSpace(pad3) && AllSpace(pad4) && AllSpace(pad5)
    requires ValidNumeral(b) && CapturableText(text)
    ensures AfterArrow(start, pad3 + NumeralText(b) + pad4 + "]" + pad5 + text) ==
            Some(Chunk(start, NumeralValue(b), text))
  {
    var close := pad4 + ("]" + (pad5 + text));
    assert pad3 + NumeralText(b) + pad4 + "]" + pad5 + text == pad3 + (NumeralText(b) + close);
    SkipSpaceOver(pad3, NumeralText(b) + close);
    assert close != [] && !IsDigit(close[0]) && close[0] != '.' by {
      if pad4 != [] { assert close[0] == pad4[0]; } else { assert close[0] == ']'; }
    }
    NumeralReads(b, close);
    SkipSpaceOver(pad4, "]" + (pad5 + text));
    assert ("]" + (pad5 + text))[1..] == pad5 + text;
    SkipSpaceOver(pad5, text);
    LineTextWhole(text);
  }

  /**
   * A line `[a ARROW b] text`, with any whitespace padding inside the
   * brackets, after `]` and around the line, reads back as `(a, b, text)`:
   * the transcript writer's line round-trips through this reader.
   */
  lemma ParseWrittenChunk(lead: string, pad1: string, a: Numeral, pad2: string, arrow: string,
                          pad3: string, b: Numeral, pad4: string, pad5: string, text: string, trail: string)
    requires AllSpace(lead) && AllSpace(pad1) && AllSpace(pad2) && AllSpace(pad3)
    requires AllSpace(pad4) && AllSpace(pad5) && AllSpace(trail)
    requires ValidNumeral(a) && ValidNumeral(b) && IsArrow(arrow) && CapturableText(text)
    ensures ParseChunk(lead + "[" + pad1 + NumeralText(a) + pad2 + arrow + pad3 + NumeralText(b)
                       + pad4 + "]" + pad5 + text + trail)
            == Some(Chunk(NumeralValue(a), NumeralValue(b), text))
  {
    var rest := pad3 + NumeralText(b) + pad4 + "]" + pad5 + text;
    var q := rest + trail;
    assert rest[|rest| - 1] == text[|text| - 1];
    assert q == [] || q[0] != '>' by {
      if pad3 != [] { assert q[0] == pad3[0]; } else { assert q[0] == b.whole[0]; }
    }
    assert lead + "[" + pad1 + NumeralText(a) + pad2 + arrow + pad3 + NumeralText(b) + pad4 + "]" + pad5 + text + trail
        == lead + "[" + pad1 + NumeralText(a) + pad2 + arrow + q;
    ArrowSplit(lead, pad1, a, pad2, arrow, q);
    TrimEndAfter(rest, trail);
    TrimEndAllSpace(trail);
    assert rest + [] == rest;
    AfterArrowWritten(NumeralValue(a), pad3, b, pad4, pad5, text);
  }

  /** `\s* NUM \s* \]` with nothing after `]`: `(.+)` has nothing to capture. */
  lemma AfterArrowNoText(start: real, pad3: string, b: Numeral, pad4: string)
    requires AllSpace(pad3) && AllSpace(pad4) && ValidNumeral(b)
    ensures AfterArrow(start, pad3 + NumeralText(b) + pad4 + "]") == None
  {
    var close := pad4 + "]";
    Assoc(pad3 + NumeralText(b), pad4, "]");
    Assoc(pad3, NumeralText(b), close);
    SkipSpaceOver(pad3, NumeralText(b) + close);
    assert close != [] && !IsDigit(close[0]) && close[0] != '.' by {
      if pad4 != [] { assert close[0] == pad4[0]; } else { assert close[0] == ']'; }
    }
    NumeralReads(b, close);
    SkipSpaceOver(pad4, "]");
    assert "]"[1..] == [];
  }

  /**
   * A line `[a ARROW b]` with only whitespace after `]` is skipped: the
   * pattern's `(.+)` needs at least one character of text.
   */
  lemma ParseNoTextSkipped(lead: string, pad1: string, a: Numeral, pad2: string, arrow: string,
                           pad3: string, b: Numeral, pad4: string, trail: string)
    requires AllSpace(lead) && AllSpace(pad1) && AllSpace(pad2) && AllSpace(pad3)
    requires AllSpace(pad4) && AllSpace(trail)
    requires ValidNumeral(a) && ValidNumeral(b) && IsArrow(arrow)
    ensures ParseChunk(lead + "[" + pad1 + NumeralText(a) + pad2 + arrow + pad3 + NumeralText(b) + pad4 + "]" + trail) == None
  {
    var rest := pad3 + NumeralText(b) + pad4 + "]";
    var q := rest + trail;
    assert rest[|rest| - 1] == ']';
    assert q == [] || q[0] != '>' by {
      if pad3 != [] { assert q[0] == pad3[0]; } else { assert q[0] == b.whole[0]; }
    }
    assert lead + "[" + pad1 + NumeralText(a) + pad2 + arrow + pad3 + NumeralText(b) + pad4 + "]" + trail
        == lead + "[" + pad1 + NumeralText(a) + pad2 + arrow + q;
    ArrowSplit(lead, pad1, a, pad2, arrow, q);
    TrimEndAfter(rest, trail);
    TrimEndAllSpace(trail);
    assert rest + [] == rest;
    AfterArrowNoText(NumeralValue(a), pad3, b, pad4);
  }
}
