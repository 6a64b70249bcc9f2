/**
 * The pieces of Python's text handling the fusion scripts lean on:
 * `str.isspace` (which `str.strip`, `str.split` and the regex class `\s`
 * all use), `str.strip()`, `str.split()` with no separator, the regex class
 * `\d` restricted to ASCII digits, and `float()` on decimal literals.
 */
module PyText {
  import opened Wrappers

  /** Python's `str.isspace()` for one character. */
  predicate IsSpace(c: char) {
    ('\t' <= c <= '\r') || ('\U{1C}' <= c <= '\U{1F}') || c == ' ' ||
    c == '\U{85}' || c == '\U{A0}' || c == '\U{1680}' ||
    ('\U{2000}' <= c <= '\U{200A}') || c == '\U{2028}' || c == '\U{2029}' ||
    c == '\U{202F}' || c == '\U{205F}' || c == '\U{3000}'
  }

  predicate AllSpace(s: string) {
    forall k :: 0 <= k < |s| ==> IsSpace(s[k])
  }

  predicate NoSpace(s: string) {
    forall k :: 0 <= k < |s| ==> !IsSpace(s[k])
  }

  /** A token `str.split()` can produce. */
  predicate IsWord(w: string) {
    w != [] && NoSpace(w)
  }

  predicate IsDigit(c: char) {
    '0' <= c <= '9'
  }

  predicate AllDigits(s: string) {
    forall k :: 0 <= k < |s| ==> IsDigit(s[k])
  }

  /** What the regex `\s*` consumes: the leading run of whitespace is dropped. */
  function SkipSpace(s: string): (r: string)
    ensures |r| <= |s|
    ensures r == [] || !IsSpace(r[0])
  {
    if |s| > 0 && IsSpace(s[0]) then SkipSpace(s[1..]) else s
  }

  /** Drops the trailing run of whitespace. */
  function TrimEnd(s: string): (r: string)
    ensures |r| <= |s|
    ensures r == [] || !IsSpace(r[|r| - 1])
  {
    if |s| > 0 && IsSpace(s[|s| - 1]) then TrimEnd(s[..|s| - 1]) else s
  }

  lemma {:induction false} TrimEndIsPrefix(s: string)
    ensures TrimEnd(s) == s[..|TrimEnd(s)|]
  {
    if |s| > 0 && IsSpace(s[|s| - 1]) {
      TrimEndIsPrefix(s[..|s| - 1]);
    }
  }

  lemma TrimEndKeepsHead(s: string)
    ensures TrimEnd(s) == [] || TrimEnd(s)[0] == s[0]
  {
    TrimEndIsPrefix(s);
  }

  /** `str.strip()` with no argument. */
  function Strip(s: string): string {
    TrimEnd(SkipSpace(s))
  }

  /**
   * Proof helper, not a model of any source operation: regrouping a
   * concatenation of three strings, so that the string lemmas below can
   * name the pieces they reason about without the verifier searching for
   * the grouping itself.
   */
  lemma Assoc(u: string, v: string, w: string)
    ensures u + (v + w) == u + v + w
  {
  }

  /** Proof helper: a left-nested concatenation of six strings, regrouped to the right. */
  lemma Regroup6(u1: string, u2: string, u3: string, u4: string, u5: string, w: string)
    ensures u1 + u2 + u3 + u4 + u5 + w == u1 + (u2 + (u3 + (u4 + (u5 + w))))
  {
    Assoc(u1 + u2 + u3 + u4, u5, w);
    Assoc(u1 + u2 + u3, u4, u5 + w);
    Assoc(u1 + u2, u3, u4 + (u5 + w));
    Assoc(u1, u2, u3 + (u4 + (u5 + w)));
  }

  /** Length of the leading run of non-whitespace characters. */
  function WordLength(s: string): (n: nat)
    ensures n <= |s|
    ensures NoSpace(s[..n])
    ensures n < |s| ==> IsSpace(s[n])
  {
    if |s| > 0 && !IsSpace(s[0]) then 1 + WordLength(s[1..]) else 0
  }

  /** `str.split()` with no separator: the maximal runs of non-whitespace, in order. */
  function Split(s: string): (ws: seq<string>)
    ensures forall k :: 0 <= k < |ws| ==> IsWord(ws[k])
    decreases |s|
  {
    var t := SkipSpace(s);
    if t == [] then []
    else
      var n := WordLength(t);
      var ws := Split(t[n..]);
      var r := [t[..n]] + ws;
      assert forall k | 0 <= k < |r| :: IsWord(r[k]) by {
        forall k | 0 <= k < |r| ensures IsWord(r[k]) {
          if k > 0 { assert r[k] == ws[k - 1]; }
        }
      }
      r
  }

  /** `" ".join(ws)`: the partner of `Split`. */
  function JoinSpaced(ws: seq<string>): string {
    if |ws| == 0 then []
    else if |ws| == 1 then ws[0]
    else ws[0] + " " + JoinSpaced(ws[1..])
  }

  lemma {:induction false} SkipSpaceOver(p: string, t: string)
    requires AllSpace(p)
    requires t == [] || !IsSpace(t[0])
    ensures SkipSpace(p + t) == t
  {
    if p != [] {
      assert (p + t)[1..] == p[1..] + t;
      SkipSpaceOver(p[1..], t);
    }
  }

  /** The converse: what `\s*` consumed is a run of whitespace in front of the rest. */
  lemma {:induction false} SkipSpaceSplit(s: string) returns (pad: string)
    ensures AllSpace(pad) && s == pad + SkipSpace(s)
  {
    if |s| > 0 && IsSpace(s[0]) {
      var p := SkipSpaceSplit(s[1..]);
      pad := [s[0]] + p;
      assert s == [s[0]] + s[1..];
    } else {
      pad := [];
    }
  }

  lemma {:induction false} WordLengthOf(w: string, t: string)
    requires NoSpace(w)
    requires t == [] || IsSpace(t[0])
    ensures WordLength(w + t) == |w|
  {
    if w != [] {
      assert (w + t)[1..] == w[1..] + t;
      WordLengthOf(w[1..], t);
    }
  }

  lemma SplitSkipsLeadingSpace(p: string, rest: string)
    requires AllSpace(p)
    requires rest == [] || !IsSpace(rest[0])
    ensures Split(p + rest) == Split(rest)
  {
    SkipSpaceOver(p, rest);
    SkipSpaceOver([], rest);
    assert [] + rest == rest;
  }

  lemma SplitWordThen(w: string, rest: string)
    requires IsWord(w)
    requires rest == [] || IsSpace(rest[0])
    ensures Split(w + rest) == [w] + Split(rest)
  {
    var s := w + rest;
    SkipSpaceOver([], s);
    assert [] + s == s;
    WordLengthOf(w, rest);
    assert s[..|w|] == w && s[|w|..] == rest;
  }

  /** Splitting a space-joined list of words gives the words back. */
  lemma {:induction false} SplitJoinSpaced(ws: seq<string>)
    requires forall k :: 0 <= k < |ws| ==> IsWord(ws[k])
    ensures Split(JoinSpaced(ws)) == ws
  {
    if |ws| == 1 {
      var w := ws[0];
      assert Split([]) == [] by { assert SkipSpace([]) == []; }
      SplitWordThen(w, []);
      assert w + [] == w;
      assert [w] + [] == [w] == ws;
    } else if |ws| > 1 {
      var w, rest := ws[0], JoinSpaced(ws[1..]);
      JoinHead(ws[1..]);
      calc {
        Split(JoinSpaced(ws));
        { assert JoinSpaced(ws) == w + (" " + rest); }
        Split(w + (" " + rest));
        { SplitWordThen(w, " " + rest); }
        [w] + Split(" " + rest);
        { SplitSkipsLeadingSpace(" ", rest); }
        [w] + Split(rest);
        { SplitJoinSpaced(ws[1..]); }
        [w] + ws[1..];
      }
      assert [w] + ws[1..] == ws;
    }
  }

  lemma {:induction false} JoinHead(ws: seq<string>)
    requires |ws| > 0 && IsWord(ws[0])
    ensures JoinSpaced(ws) != [] && !IsSpace(JoinSpaced(ws)[0])
  {
  }

  /** Length of the leading run of ASCII digits (the regex `\d*`). */
  function DigitRun(s: string): (n: nat)
    ensures n <= |s|
    ensures AllDigits(s[..n])
    ensures n < |s| ==> !IsDigit(s[n])
  {
    if |s| > 0 && IsDigit(s[0]) then 1 + DigitRun(s[1..]) else 0
  }

  lemma {:induction false} DigitRunOf(ds: string, t: string)
    requires AllDigits(ds)
    requires t == [] || !IsDigit(t[0])
    ensures DigitRun(ds + t) == |ds|
  {
    if ds != [] {
      assert (ds + t)[1..] == ds[1..] + t;
      DigitRunOf(ds[1..], t);
    }
  }

  function Pow10(n: nat): (p: nat)
    ensures p >= 1
  {
    if n == 0 then 1 else 10 * Pow10(n - 1)
  }

  /** The natural number a string of decimal digits denotes. */
  function DigitsValue(ds: string): nat
    requires AllDigits(ds)
  {
    if ds == [] then 0
    else 10 * DigitsValue(ds[..|ds| - 1]) + (ds[|ds| - 1] as int - '0' as int)
  }

  /** The value of the decimal literal `ip.fp` (either part may be empty). */
  function DecimalValue(ip: string, fp: string): (v: real)
    requires AllDigits(ip) && AllDigits(fp)
    ensures v >= 0.0
  {
    DigitsValue(ip) as real + DigitsValue(fp) as real / Pow10(|fp|) as real
  }

  predicate HasDigit(tok: string) {
    exists k :: 0 <= k < |tok| && IsDigit(tok[k])
  }

  /**
   * An unsigned decimal literal: digits with an optional fractional part,
   * at least one digit in all.
   */
  function UnsignedDecimal(body: string): (r: Option<real>)
    ensures r.Some? ==> HasDigit(body) && r.value >= 0.0
  {
    var n := DigitRun(body);
    var ip, rest := body[..n], body[n..];
    if rest == [] then
      if n == 0 then None
      else
        assert IsDigit(body[0]);
        Some(DecimalValue(ip, []))
    else if rest[0] != '.' then None
    else
      var fp := rest[1..];
      var m := DigitRun(fp);
      if m != |fp| then None
      else if n == 0 && m == 0 then None
      else
        assert fp[..m] == fp;
        assert HasDigit(body) by {
          if n > 0 {
            assert IsDigit(body[0]);
          } else {
            assert body[1] == fp[0];
          }
        }
        Some(DecimalValue(ip, fp))
  }

  /**
   * Python's `float(tok)` on a token without surrounding whitespace,
   * for decimal literals: an optional sign, then an unsigned literal.
   * `None` stands for the `ValueError` Python raises.
   */
  function ParseFloat(tok: string): (r: Option<real>)
    ensures r.Some? ==> HasDigit(tok)
  {
    var signed := |tok| > 0 && (tok[0] == '-' || tok[0] == '+');
    var body := if signed then tok[1..] else tok;
    match UnsignedDecimal(body)
    case None => None
    case Some(v) =>
      assert HasDigit(tok) by {
        var k :| 0 <= k < |body| && IsDigit(body[k]);
        assert tok[if signed then k + 1 else k] == body[k];
      }
      Some(if signed && tok[0] == '-' then -v else v)
  }

  /**
   * A decimal literal as `float()` accepts it: an optional sign, a run of
   * digits, and optionally `.` and a second run of digits, with at least
   * one digit in all.
   */
  datatype Literal = Literal(sign: string, whole: string, dot: bool, frac: string)

  predicate ValidLiteral(l: Literal) {
    && (l.sign == [] || l.sign == "+" || l.sign == "-")
    && AllDigits(l.whole) && AllDigits(l.frac)
    && (!l.dot ==> l.frac == [])
    && (l.whole != [] || l.frac != [])
  }

  function LiteralText(l: Literal): string {
    l.sign + l.whole + (if l.dot then "." + l.frac else [])
  }

  function LiteralValue(l: Literal): real
    requires ValidLiteral(l)
  {
    if l.sign == "-" then -DecimalValue(l.whole, l.frac) else DecimalValue(l.whole, l.frac)
  }

  /** The unsigned part of a literal reads as its decimal value. */
  lemma UnsignedDecimalReads(whole: string, dot: bool, frac: string)
    requires AllDigits(whole) && AllDigits(frac)
    requires !dot ==> frac == []
    requires whole != [] || frac != []
    ensures UnsignedDecimal(whole + (if dot then "." + frac else [])) == Some(DecimalValue(whole, frac))
  {
    var tail := if dot then "." + frac else [];
    var body := whole + tail;
    DigitRunOf(whole, tail);
    assert body[..|whole|] == whole && body[|whole|..] == tail;
    if dot {
      assert tail[1..] == frac;
      DigitRunOf(frac, []);
      assert frac + [] == frac;
    }
  }

  /** A sign, if any, in front of an unsigned literal of value `v`. */
  lemma ParseFloatSigned(sign: string, body: string, v: real)
    requires sign == [] || sign == "+" || sign == "-"
    requires sign == [] ==> body != [] && body[0] != '-' && body[0] != '+'
    requires UnsignedDecimal(body) == Some(v)
    ensures ParseFloat(sign + body) == Some(if sign == "-" then -v else v)
  {
    if sign == [] {
      assert sign + body == body;
    } else {
      assert (sign + body)[0] == sign[0];
      assert (sign + body)[1..] == body;
    }
  }

  /** Every literal converts to its signed decimal value. */
  lemma ParseFloatLiteral(l: Literal)
    requires ValidLiteral(l)
    ensures ParseFloat(LiteralText(l)) == Some(LiteralValue(l))
  {
    var tail := if l.dot then "." + l.frac else [];
    var body := l.whole + tail;
    Assoc(l.sign, l.whole, tail);
    UnsignedDecimalReads(l.whole, l.dot, l.frac);
    if l.whole != [] {
      assert body[0] == l.whole[0];
    } else {
      assert body[0] == '.';
    }
    ParseFloatSigned(l.sign, body, DecimalValue(l.whole, l.frac));
  }

  /** What `UnsignedDecimal` accepts splits into the two digit runs around `.`. */
  lemma UnsignedDecimalShape(body: string) returns (whole: string, dot: bool, frac: string)
    requires UnsignedDecimal(body).Some?
    ensures AllDigits(whole) && AllDigits(frac) && (!dot ==> frac == []) && (whole != [] || frac != [])
    ensures body == whole + (if dot then "." + frac else [])
  {
    var n := DigitRun(body);
    whole := body[..n];
    var rest := body[n..];
    assert body == whole + rest;
    if rest == [] {
      dot, frac := false, [];
      assert whole + [] == whole;
    } else {
      dot, frac := true, rest[1..];
      assert rest == "." + frac;
      assert frac[..DigitRun(frac)] == frac;
    }
  }

  /** `float()` succeeds on exactly the tokens that are literals. */
  lemma ParseFloatExact(tok: string)
    ensures ParseFloat(tok).Some? <==> exists l :: ValidLiteral(l) && LiteralText(l) == tok
  {
    forall l | ValidLiteral(l) && LiteralText(l) == tok
      ensures ParseFloat(tok).Some?
    {
      ParseFloatLiteral(l);
    }
    if ParseFloat(tok).Some? {
      var signed := |tok| > 0 && (tok[0] == '-' || tok[0] == '+');
      var off := if signed then 1 else 0;
      var sign, body := tok[..off], tok[off..];
      assert tok == sign + body;
      assert signed ==> sign == [tok[0]];
      var whole, dot, frac := UnsignedDecimalShape(body);
      var l := Literal(sign, whole, dot, frac);
      Assoc(sign, whole, if dot then "." + frac else []);
      assert LiteralText(l) == tok;
      assert ValidLiteral(l);
    }
  }

  /** A literal `ip.fp` or `ip` reads back as its decimal value. */
  lemma ParseFloatDecimal(ip: string, fp: string, dot: bool)
    requires ip != [] && AllDigits(ip) && AllDigits(fp)
    requires !dot ==> fp == []
    ensures ParseFloat(ip + (if dot then "." + fp else [])) == Some(DecimalValue(ip, fp))
  {
    ParseFloatLiteral(Literal([], ip, dot, fp));
    assert [] + ip == ip;
  }
}
