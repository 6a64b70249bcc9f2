/**
 * `load_rttm` of the speaker-transcript builder: every RTTM line with at least
 * eight fields becomes an interval (onset, onset + duration) appended, in file
 * order, to the list kept under its speaker label. The label table is a
 * Python dict, so labels are distinct and iterate in order of first insertion;
 * here it is a sequence of tracks in that order.
 */
module DiarizationGroups {
  import opened Wrappers
  import opened Failures
  import opened Rttm

  /** The minimum field count of this script's reader. */
  const MinFields: nat := 8

  datatype Interval = Interval(start: real, end: real)

  /** One dict entry: a speaker label and its intervals in file order. */
  datatype Track = Track(speaker: string, times: seq<Interval>)

  type Diarization = seq<Track>

  function Labels(d: Diarization): (ls: seq<string>)
    ensures |ls| == |d| && forall i :: 0 <= i < |d| ==> ls[i] == d[i].speaker
  {
    seq(|d|, i requires 0 <= i < |d| => d[i].speaker)
  }

  predicate DistinctLabels(d: Diarization) {
    forall i, j :: 0 <= i < j < |d| ==> d[i].speaker != d[j].speaker
  }

  /** What a dict built by `load_rttm` always satisfies: distinct keys, no empty list. */
  predicate WellFormed(d: Diarization) {
    DistinctLabels(d) && forall i :: 0 <= i < |d| ==> d[i].times != []
  }

  /** Position of the label's entry, or `|d|` when the label has none. */
  function IndexOfLabel(d: Diarization, l: string): (k: nat)
    ensures k <= |d|
    ensures k < |d| ==> d[k].speaker == l
    ensures forall m :: 0 <= m < k ==> d[m].speaker != l
  {
    if |d| == 0 then 0
    else if d[0].speaker == l then 0
    else 1 + IndexOfLabel(d[1..], l)
  }

  /** `segments[l]` of a defaultdict: the label's intervals, or none. */
  function TimesOf(d: Diarization, l: string): seq<Interval> {
    var k := IndexOfLabel(d, l);
    if k < |d| then d[k].times else []
  }

  /** `segments[l].append(iv)` on a defaultdict of lists. */
  function AppendUnder(d: Diarization, l: string, iv: Interval): (r: Diarization)
    ensures Labels(r) == if l in Labels(d) then Labels(d) else Labels(d) + [l]
    ensures WellFormed(d) ==> WellFormed(r)
  {
    var k := IndexOfLabel(d, l);
    if k < |d| then
      assert l in Labels(d) by { assert Labels(d)[k] == l; }
      var r := d[k := Track(l, d[k].times + [iv])];
      assert Labels(r) == Labels(d);
      r
    else
      assert l !in Labels(d) by {
        forall i | 0 <= i < |d| ensures Labels(d)[i] != l { }
      }
      var r := d + [Track(l, [iv])];
      assert Labels(r) == Labels(d) + [l];
      r
  }

  /** The label table a sequence of parsed segments builds, one `append` per segment. */
  function Group(segs: seq<Segment>): Diarization {
    if segs == [] then []
    else
      var s := segs[|segs| - 1];
      AppendUnder(Group(segs[..|segs| - 1]), s.speaker, Interval(s.start, s.end))
  }

  /** The intervals of the segments spoken by `l`, in file order. */
  function SpokenBy(segs: seq<Segment>, l: string): seq<Interval> {
    if segs == [] then []
    else
      var s := segs[|segs| - 1];
      SpokenBy(segs[..|segs| - 1], l) + (if s.speaker == l then [Interval(s.start, s.end)] else [])
  }

  function Speakers(segs: seq<Segment>): seq<string> {
    seq(|segs|, i requires 0 <= i < |segs| => segs[i].speaker)
  }

  /** The distinct elements of `xs` in order of first appearance. */
  function FirstAppearance(xs: seq<string>): seq<string> {
    if xs == [] then []
    else
      var prior := FirstAppearance(xs[..|xs| - 1]);
      if xs[|xs| - 1] in prior then prior else prior + [xs[|xs| - 1]]
  }

  function TotalIntervals(d: Diarization): nat {
    if d == [] then 0 else |d[0].times| + TotalIntervals(d[1..])
  }

  lemma {:induction false} TotalAppend(d: Diarization, t: Track)
    ensures TotalIntervals(d + [t]) == TotalIntervals(d) + |t.times|
  {
    if d != [] {
      assert (d + [t])[1..] == d[1..] + [t];
      TotalAppend(d[1..], t);
    }
  }

  lemma {:induction false} TotalUpdate(d: Diarization, k: nat, t: Track)
    requires k < |d|
    ensures TotalIntervals(d[k := t]) == TotalIntervals(d) - |d[k].times| + |t.times|
  {
    if k > 0 {
      assert d[k := t][1..] == d[1..][k - 1 := t];
      TotalUpdate(d[1..], k - 1, t);
    }
  }

  /** Every append lands in exactly one list: the table holds one interval per segment. */
  lemma {:induction false} GroupTotal(segs: seq<Segment>)
    ensures TotalIntervals(Group(segs)) == |segs|
  {
    if segs != [] {
      var s, d := segs[|segs| - 1], Group(segs[..|segs| - 1]);
      GroupTotal(segs[..|segs| - 1]);
      var k := IndexOfLabel(d, s.speaker);
      var iv := Interval(s.start, s.end);
      if k < |d| {
        TotalUpdate(d, k, Track(s.speaker, d[k].times + [iv]));
      } else {
        TotalAppend(d, Track(s.speaker, [iv]));
      }
    }
  }

  /** Labels are distinct and no label's list is empty. */
  lemma {:induction false} GroupWellFormed(segs: seq<Segment>)
    ensures WellFormed(Group(segs))
  {
    if segs != [] {
      GroupWellFormed(segs[..|segs| - 1]);
    }
  }

  /** Labels appear in the order the file first mentions them. */
  lemma {:induction false} GroupLabels(segs: seq<Segment>)
    ensures Labels(Group(segs)) == FirstAppearance(Speakers(segs))
  {
    if segs != [] {
      var init := segs[..|segs| - 1];
      GroupLabels(init);
      assert Speakers(segs)[..|segs| - 1] == Speakers(init);
    }
  }

  /** Under each label sit exactly the intervals of that speaker's lines, in file order. */
  lemma {:induction false} GroupTimes(segs: seq<Segment>, l: string)
    ensures TimesOf(Group(segs), l) == SpokenBy(segs, l)
  {
    if segs != [] {
      var s := segs[|segs| - 1];
      GroupTimes(segs[..|segs| - 1], l);
      AppendUnderTimes(Group(segs[..|segs| - 1]), s.speaker, Interval(s.start, s.end), l);
    }
  }

  /** An append under `k` adds the interval to `k`'s list and to no other. */
  lemma AppendUnderTimes(d: Diarization, k: string, iv: Interval, l: string)
    ensures TimesOf(AppendUnder(d, k, iv), l) == TimesOf(d, l) + (if k == l then [iv] else [])
  {
    var r := AppendUnder(d, k, iv);
    var i := IndexOfLabel(d, k);
    var j := IndexOfLabel(d, l);
    if i < |d| {
      assert r == d[i := Track(k, d[i].times + [iv])];
      assert IndexOfLabel(r, l) == j by {
        IndexOfLabelSame(d, r, l);
      }
    } else {
      assert r == d + [Track(k, [iv])];
      IndexOfLabelSame(d, r[..|d|], l);
      IndexOfLabelAppend(d, Track(k, [iv]), l);
    }
  }

  lemma {:induction false} IndexOfLabelSame(d: Diarization, e: Diarization, l: string)
    requires |d| == |e| && forall m :: 0 <= m < |d| ==> d[m].speaker == e[m].speaker
    ensures IndexOfLabel(d, l) == IndexOfLabel(e, l)
  {
    if d != [] && d[0].speaker != l {
      IndexOfLabelSame(d[1..], e[1..], l);
    }
  }

  lemma {:induction false} IndexOfLabelAppend(d: Diarization, t: Track, l: string)
    ensures IndexOfLabel(d + [t], l) == if IndexOfLabel(d, l) < |d| then IndexOfLabel(d, l)
      else if t.speaker == l then |d| else |d| + 1
  {
    if d != [] && d[0].speaker != l {
      assert (d + [t])[1..] == d[1..] + [t];
      IndexOfLabelAppend(d[1..], t, l);
    }
  }

  lemma GroupEmpty(segs: seq<Segment>)
    ensures Group(segs) == [] <==> segs == []
  {
    if segs != [] {
      assert |Labels(Group(segs))| > 0;
    }
  }

  /**
   * `load_rttm`'s result: the first conversion failure if a field does not
   * read as a number, the fatal "No diarization segments found" if no line
   * has enough fields, and the label table otherwise.
   */
  function LoadRttmResult(lines: seq<string>): Result<Diarization, Failure> {
    match Records(lines, MinFields)
    case Err(e) => Err(e)
    case Ok(segs) => if segs == [] then Err(NoDiarizationSegments) else Ok(Group(segs))
  }

  /** The reading loop of `load_rttm`, appending under each line's label. */
  method LoadRttm(lines: seq<string>) returns (r: Result<Diarization, Failure>)
    ensures r == LoadRttmResult(lines)
    ensures r.Ok? ==> WellFormed(r.value) && TotalIntervals(r.value) == LongLines(lines, MinFields)
    ensures (forall i :: 0 <= i < |lines| ==> |Fields(lines[i])| < MinFields) ==> r == Err(NoDiarizationSegments)
  {
    var segments: Diarization := [];
    ghost var segs: seq<Segment> := [];
    for i := 0 to |lines|
      invariant Records(lines[..i], MinFields) == Ok(segs)
      invariant segments == Group(segs)
    {
      var outcome := ParseLine(lines[i], MinFields);
      RecordsStep(lines, i, MinFields);
      match outcome
      case Skipped =>
      case Malformed(t) =>
        RecordsPrefixErr(lines, i + 1, MinFields);
        return Err(MalformedNumber(t));
      case Parsed(seg) =>
        segments := AppendUnder(segments, seg.speaker, Interval(seg.start, seg.end));
        assert (segs + [seg])[..|segs|] == segs;
        segs := segs + [seg];
    }
    assert lines[..|lines|] == lines;
    GroupEmpty(segs);
    if |segments| == 0 {
      r := Err(NoDiarizationSegments);
    } else {
      r := Ok(segments);
    }
    LoadRttmResultFacts(lines);
  }

  /** A successful load is well formed and holds one interval per long line; an all-short file fails. */
  lemma LoadRttmResultFacts(lines: seq<string>)
    ensures LoadRttmResult(lines).Ok? ==>
      WellFormed(LoadRttmResult(lines).value) && TotalIntervals(LoadRttmResult(lines).value) == LongLines(lines, MinFields)
    ensures (forall i :: 0 <= i < |lines| ==> |Fields(lines[i])| < MinFields) ==> LoadRttmResult(lines) == Err(NoDiarizationSegments)
  {
    if Records(lines, MinFields).Ok? {
      var segs := Records(lines, MinFields).value;
      GroupWellFormed(segs);
      GroupTotal(segs);
      RecordsCount(lines, MinFields);
    }
    if forall i :: 0 <= i < |lines| ==> |Fields(lines[i])| < MinFields {
      RecordsAllShort(lines, MinFields);
    }
  }
}
