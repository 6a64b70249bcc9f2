/**
 * `build_speaker_name_map`: for each diarized label, cut its intervals out of
 * the 16 kHz recording, stop collecting once more than 15 seconds of samples
 * are gathered, join the pieces into one clip and ask the speaker recogniser
 * who it is. The recording is one channel of samples.
 */
module VoiceSamples {
  import opened DiarizationGroups
  import opened SpeakerRecogniser

  /** `SAMPLE_RATE`. */
  const SampleRate: int := 16000

  /** `SAMPLE_RATE * 15`: once the collected samples exceed this, collection stops. */
  const Cap: int := SampleRate * 15

  /** Python's `int()` of a float: truncation toward zero. */
  function Trunc(x: real): (n: int)
    ensures x >= 0.0 ==> 0 <= n && n as real <= x < n as real + 1.0
    ensures x < 0.0 ==> n <= 0 && n as real - 1.0 < x <= n as real
  {
    if x >= 0.0 then x.Floor else -((-x).Floor)
  }

  /** A slice bound as Python normalises it for a sequence of length `n`: negative counts from the end, then clamped to [0, n]. */
  function SliceBound(i: int, n: nat): (b: nat)
    ensures b <= n
    ensures 0 <= i <= n ==> b == i
    ensures i < 0 <= i + n ==> b == i + n
    ensures i + n < 0 ==> b == 0
    ensures n < i ==> b == n
  {
    if i < 0 then (if i + n < 0 then 0 else i + n)
    else if i > n then n
    else i
  }

  /** `a[s:e]` on a one-dimensional array: empty when the normalised bounds cross. */
  function PySlice(a: seq<real>, s: int, e: int): (r: seq<real>)
    ensures |r| <= |a|
    ensures 0 <= s <= e <= |a| ==> r == a[s..e]
    ensures SliceBound(e, |a|) <= SliceBound(s, |a|) ==> r == []
    ensures SliceBound(s, |a|) < SliceBound(e, |a|) ==> r == a[SliceBound(s, |a|)..SliceBound(e, |a|)]
  {
    var lo, hi := SliceBound(s, |a|), SliceBound(e, |a|);
    if lo < hi then a[lo..hi] else []
  }

  /** The samples of one interval: `audio[int(start * SAMPLE_RATE):int(end * SAMPLE_RATE)]`. */
  function Piece(audio: seq<real>, iv: Interval): seq<real> {
    PySlice(audio, Trunc(iv.start * SampleRate as real), Trunc(iv.end * SampleRate as real))
  }

  function Pieces(audio: seq<real>, times: seq<Interval>): (ps: seq<seq<real>>)
    ensures |ps| == |times|
  {
    if times == [] then [] else Pieces(audio, times[..|times| - 1]) + [Piece(audio, times[|times| - 1])]
  }

  lemma {:induction false} PiecesAt(audio: seq<real>, times: seq<Interval>, k: nat)
    requires k < |times|
    ensures Pieces(audio, times)[k] == Piece(audio, times[k])
  {
    if k < |times| - 1 {
      PiecesAt(audio, times[..|times| - 1], k);
    }
  }

  /** `sum(len(x) for x in samples)`. */
  function TotalLen(ps: seq<seq<real>>): nat {
    if ps == [] then 0 else TotalLen(ps[..|ps| - 1]) + |ps[|ps| - 1]|
  }

  /** `np.concatenate(samples)`: the pieces one after another. */
  function Concat(ps: seq<seq<real>>): (r: seq<real>)
    ensures |r| == TotalLen(ps)
  {
    if ps == [] then [] else Concat(ps[..|ps| - 1]) + ps[|ps| - 1]
  }

  lemma PrefixStep(ps: seq<seq<real>>, j: nat)
    requires j < |ps|
    ensures ps[..j + 1] == ps[..j] + [ps[j]]
    ensures TotalLen(ps[..j + 1]) == TotalLen(ps[..j]) + |ps[j]|
    ensures Concat(ps[..j + 1]) == Concat(ps[..j]) + ps[j]
  {
    assert ps[..j + 1][..j] == ps[..j];
  }

  /**
   * How many pieces the collection loop takes when it has already taken `k`
   * without passing the cap: it stops right after the first piece that takes
   * the running total above `Cap`, or at the end.
   */
  function UsedFrom(ps: seq<seq<real>>, k: nat): (u: nat)
    requires k <= |ps|
    ensures k <= u <= |ps|
    ensures k < |ps| ==> k < u
    decreases |ps| - k
  {
    if k == |ps| then k
    else if TotalLen(ps[..k + 1]) > Cap then k + 1
    else UsedFrom(ps, k + 1)
  }

  /**
   * Collection from `k` on stops right after the first piece that takes the
   * running total past the cap: every total before it is within the cap.
   */
  lemma {:induction false} UsedFromStops(ps: seq<seq<real>>, k: nat)
    requires k <= |ps|
    ensures forall j :: k < j < UsedFrom(ps, k) ==> TotalLen(ps[..j]) <= Cap
    ensures UsedFrom(ps, k) < |ps| ==> TotalLen(ps[..UsedFrom(ps, k)]) > Cap
    decreases |ps| - k
  {
    if k < |ps| && TotalLen(ps[..k + 1]) <= Cap {
      UsedFromStops(ps, k + 1);
    }
  }

  /** The number of pieces collected for one label. */
  function UsedCount(ps: seq<seq<real>>): nat
    ensures UsedCount(ps) <= |ps|
  {
    UsedFrom(ps, 0)
  }

  /** The clip handed to the recogniser for a label speaking over `times`. */
  function VoiceClip(audio: seq<real>, times: seq<Interval>): seq<real> {
    Concat(Pieces(audio, times)[..UsedCount(Pieces(audio, times))])
  }

  /** One more collected piece: either it takes the total past the cap and collection stops, or the loop goes on. */
  lemma UsedStep(ps: seq<seq<real>>, i: nat)
    requires i < |ps| && UsedCount(ps) == UsedFrom(ps, i)
    ensures TotalLen(ps[..i + 1]) > Cap ==> UsedCount(ps) == i + 1
    ensures TotalLen(ps[..i + 1]) <= Cap ==> UsedCount(ps) == UsedFrom(ps, i + 1)
  {
  }

  /** The inner loop of `build_speaker_name_map`: collect pieces until more than 15 s are gathered, then join them. */
  method CollectVoiceSample(audio: seq<real>, times: seq<Interval>) returns (clip: seq<real>)
    requires |times| > 0
    ensures clip == VoiceClip(audio, times)
  {
    ghost var ps := Pieces(audio, times);
    var samples: seq<seq<real>> := [];
    var total := 0;
    var i := 0;
    while i < |times|
      invariant 0 <= i <= |times|
      invariant samples == ps[..i]
      invariant total == TotalLen(samples)
      invariant UsedCount(ps) == UsedFrom(ps, i)
    {
      var piece := Piece(audio, times[i]);
      PiecesAt(audio, times, i);
      PrefixStep(ps, i);
      UsedStep(ps, i);
      samples := samples + [piece];
      total := total + |piece|;
      i := i + 1;
      assert samples == ps[..i];
      if total > Cap {
        break;
      }
    }
    assert UsedCount(ps) == i;
    clip := Concat(samples);
  }

  /** Running totals only grow as pieces are added. */
  lemma {:induction false} TotalLenMonotone(ps: seq<seq<real>>, j: nat, k: nat)
    requires j <= k <= |ps|
    ensures TotalLen(ps[..j]) <= TotalLen(ps[..k])
    decreases k - j
  {
    if j < k {
      PrefixStep(ps, j);
      TotalLenMonotone(ps, j + 1, k);
    }
  }

  /**
   * The clip's length: every piece but the last collected one keeps the total
   * within the cap, so the clip is at most the cap plus one interval's
   * samples; it falls short of the cap only when every interval was used.
   */
  lemma ClipLength(audio: seq<real>, times: seq<Interval>)
    requires |times| > 0
    ensures var ps := Pieces(audio, times); var u := UsedCount(ps);
      1 <= u && |VoiceClip(audio, times)| == TotalLen(ps[..u]) &&
      TotalLen(ps[..u - 1]) <= Cap &&
      (u < |times| ==> |VoiceClip(audio, times)| > Cap)
  {
    var ps := Pieces(audio, times);
    var u := UsedCount(ps);
    UsedFromStops(ps, 0);
    if u > 1 {
      assert 0 < u - 1 < u;
    }
  }

  /** When all the label's speech fits within the cap, the clip is every interval's samples. */
  lemma ShortSpeechUsesAll(audio: seq<real>, times: seq<Interval>)
    requires TotalLen(Pieces(audio, times)) <= Cap
    ensures VoiceClip(audio, times) == Concat(Pieces(audio, times))
  {
    var ps := Pieces(audio, times);
    var u := UsedCount(ps);
    UsedFromStops(ps, 0);
    assert ps[..|ps|] == ps;
    if u < |ps| {
      TotalLenMonotone(ps, u, |ps|);
    }
    assert ps[..u] == ps;
  }

  /** The name the recogniser gives a label speaking over `times`. */
  function NameFor<E>(audio: seq<real>, times: seq<Interval>, speakers: seq<(string, E)>,
                      embed: seq<real> -> E, cosine: (E, E) -> real): string {
    Identify(speakers, embed(VoiceClip(audio, times)), cosine).0
  }

  /** The recogniser's naming of a label's intervals, as a function. */
  function Namer<E>(audio: seq<real>, speakers: seq<(string, E)>, embed: seq<real> -> E, cosine: (E, E) -> real)
    : seq<Interval> -> string
  {
    times => NameFor(audio, times, speakers, embed, cosine)
  }

  /** The map the label loop builds when each label is named by `nameOf` of its intervals. */
  function LabelMap(d: Diarization, nameOf: seq<Interval> -> string): map<string, string> {
    if d == [] then map[]
    else LabelMap(d[..|d| - 1], nameOf)[d[|d| - 1].speaker := nameOf(d[|d| - 1].times)]
  }

  /** `speaker_map` after the labels of `d` are processed in order. */
  function SpeakerNameMap<E>(audio: seq<real>, d: Diarization, speakers: seq<(string, E)>,
                             embed: seq<real> -> E, cosine: (E, E) -> real): map<string, string> {
    LabelMap(d, Namer(audio, speakers, embed, cosine))
  }

  /** `build_speaker_name_map`, without its progress printing. */
  method BuildSpeakerNameMap<E>(audio: seq<real>, d: Diarization, speakers: seq<(string, E)>,
                                embed: seq<real> -> E, cosine: (E, E) -> real)
    returns (m: map<string, string>)
    requires WellFormed(d)
    ensures m == SpeakerNameMap(audio, d, speakers, embed, cosine)
  {
    ghost var nameOf := Namer(audio, speakers, embed, cosine);
    m := map[];
    for i := 0 to |d|
      invariant m == LabelMap(d[..i], nameOf)
    {
      var clip := CollectVoiceSample(audio, d[i].times);
      var name, score := IdentifySpeaker(clip, speakers, embed, cosine);
      assert name == NameFor(audio, d[i].times, speakers, embed, cosine);
      LabelMapStep(d, i, nameOf);
      m := m[d[i].speaker := name];
    }
    assert d[..|d|] == d;
  }

  lemma LabelMapStep(d: Diarization, i: nat, nameOf: seq<Interval> -> string)
    requires i < |d|
    ensures LabelMap(d[..i + 1], nameOf) == LabelMap(d[..i], nameOf)[d[i].speaker := nameOf(d[i].times)]
  {
    assert d[..i + 1][..i] == d[..i];
  }

  /** The map's keys are exactly the labels. */
  lemma {:induction false} LabelMapKeys(d: Diarization, nameOf: seq<Interval> -> string)
    ensures LabelMap(d, nameOf).Keys == set i | 0 <= i < |d| :: d[i].speaker
  {
    if d != [] {
      var init := d[..|d| - 1];
      LabelMapKeys(init, nameOf);
      var before := set i | 0 <= i < |init| :: init[i].speaker;
      var after := set i | 0 <= i < |d| :: d[i].speaker;
      assert after == before + {d[|d| - 1].speaker} by {
        forall l | l in after ensures l in before + {d[|d| - 1].speaker} {
          var i :| 0 <= i < |d| && d[i].speaker == l;
          if i < |init| { assert init[i] == d[i]; }
        }
        forall l | l in before ensures l in after {
          var i :| 0 <= i < |init| && init[i].speaker == l;
          assert d[i] == init[i];
        }
      }
    }
  }

  /** With distinct labels, each label's entry is the name of that label's own intervals. */
  lemma {:induction false} LabelMapValues(d: Diarization, nameOf: seq<Interval> -> string)
    requires DistinctLabels(d)
    ensures forall i :: 0 <= i < |d| ==> d[i].speaker in LabelMap(d, nameOf) && LabelMap(d, nameOf)[d[i].speaker] == nameOf(d[i].times)
  {
    if d != [] {
      var init := d[..|d| - 1];
      assert DistinctLabels(init) by {
        forall i, j | 0 <= i < j < |init| ensures init[i].speaker != init[j].speaker {
          assert init[i] == d[i] && init[j] == d[j];
        }
      }
      LabelMapValues(init, nameOf);
      forall i | 0 <= i < |init| ensures init[i] == d[i] && d[i].speaker != d[|d| - 1].speaker {
      }
    }
  }

  /** Every entry is the name of some label's intervals. */
  lemma {:induction false} LabelMapFrom(d: Diarization, nameOf: seq<Interval> -> string)
    ensures forall l :: l in LabelMap(d, nameOf) ==> exists i :: 0 <= i < |d| && LabelMap(d, nameOf)[l] == nameOf(d[i].times)
  {
    if d != [] {
      var init := d[..|d| - 1];
      LabelMapFrom(init, nameOf);
      forall l | l in LabelMap(d, nameOf)
        ensures exists i :: 0 <= i < |d| && LabelMap(d, nameOf)[l] == nameOf(d[i].times)
      {
        var last := d[|d| - 1];
        if l == last.speaker {
          assert LabelMap(d, nameOf)[l] == nameOf(d[|d| - 1].times);
        } else {
          assert l in LabelMap(init, nameOf) && LabelMap(d, nameOf)[l] == LabelMap(init, nameOf)[l];
          assert exists i :: 0 <= i < |init| && LabelMap(init, nameOf)[l] == nameOf(init[i].times);
          var i :| 0 <= i < |init| && LabelMap(init, nameOf)[l] == nameOf(init[i].times);
          assert init[i] == d[i];
        }
      }
    }
  }

  /** "Unknown" or a name of the enrolment table. */
  predicate KnownName<E>(speakers: seq<(string, E)>, name: string) {
    name == UnknownName || exists k :: 0 <= k < |speakers| && speakers[k].0 == name
  }

  /** Every value in the name map is "Unknown" or an enrolled name. */
  lemma NameMapEnrolled<E>(audio: seq<real>, d: Diarization, speakers: seq<(string, E)>,
                           embed: seq<real> -> E, cosine: (E, E) -> real)
    ensures forall l :: l in SpeakerNameMap(audio, d, speakers, embed, cosine) ==>
      KnownName(speakers, SpeakerNameMap(audio, d, speakers, embed, cosine)[l])
  {
    var nameOf := Namer(audio, speakers, embed, cosine);
    LabelMapFrom(d, nameOf);
    forall l | l in LabelMap(d, nameOf)
      ensures KnownName(speakers, LabelMap(d, nameOf)[l])
    {
      var i :| 0 <= i < |d| && LabelMap(d, nameOf)[l] == nameOf(d[i].times);
      IdentifyNameEnrolled(speakers, embed(VoiceClip(audio, d[i].times)), cosine);
    }
  }
}
