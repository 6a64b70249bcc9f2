/**
 * `find_speaker` of the speaker-transcript builder: an utterance goes to the
 * speaker owning the interval with the largest positive overlap
 * min(end, e) - max(start, s), scanning labels in dict order and each
 * label's intervals in file order, and replacing the best only on a strictly
 * larger overlap. With no positive overlap the answer is "UNKNOWN".
 */
module OverlapAttribution {
  import opened Search
  import opened DiarizationGroups

  const UnknownLabel: string := "UNKNOWN"

  /** One (label, interval) pair, as the nested loops visit them. */
  datatype Slot = Slot(speaker: string, iv: Interval)

  function Tag(speaker: string, times: seq<Interval>): (ss: seq<Slot>)
    ensures |ss| == |times| && forall k :: 0 <= k < |times| ==> ss[k] == Slot(speaker, times[k])
  {
    seq(|times|, k requires 0 <= k < |times| => Slot(speaker, times[k]))
  }

  /** Every (label, interval) pair in the order the nested loops visit them. */
  function Slots(d: Diarization): seq<Slot> {
    if d == [] then []
    else Slots(d[..|d| - 1]) + Tag(d[|d| - 1].speaker, d[|d| - 1].times)
  }

  function Min(a: real, b: real): real { if a <= b then a else b }

  function Max(a: real, b: real): real { if a >= b then a else b }

  /** `min(end, e) - max(start, s)`: positive exactly when the two intervals share a stretch of time. */
  function Overlap(start: real, end: real, iv: Interval): real {
    Min(end, iv.end) - Max(start, iv.start)
  }

  function Overlaps(ss: seq<Slot>, start: real, end: real): (os: seq<real>)
    ensures |os| == |ss| && forall k :: 0 <= k < |ss| ==> os[k] == Overlap(start, end, ss[k].iv)
  {
    seq(|ss|, k requires 0 <= k < |ss| => Overlap(start, end, ss[k].iv))
  }

  /** The best overlap the scan ends with: the largest overlap, or 0.0 if none is positive. */
  function BestOverlap(os: seq<real>): (b: real)
    ensures b >= 0.0
    ensures forall k :: 0 <= k < |os| ==> os[k] <= b
    ensures b == 0.0 || b in os
  {
    if os == [] then 0.0
    else
      var prior := BestOverlap(os[..|os| - 1]);
      assert forall k :: 0 <= k < |os| - 1 ==> os[..|os| - 1][k] == os[k];
      if os[|os| - 1] > prior then os[|os| - 1] else prior
  }

  /** The label of the first slot reaching the best positive overlap, or "UNKNOWN". */
  function Winner(ss: seq<Slot>, start: real, end: real): string {
    var os := Overlaps(ss, start, end);
    var b := BestOverlap(os);
    if b == 0.0 then UnknownLabel else ss[FirstIndexOf(os, b)].speaker
  }

  /** The speaker label `find_speaker` attributes the utterance [start, end] to. */
  function Attribution(d: Diarization, start: real, end: real): string {
    Winner(Slots(d), start, end)
  }

  /** One more visited slot: the scan's update rule. */
  lemma WinnerStep(ss: seq<Slot>, x: Slot, start: real, end: real)
    ensures var ov, b := Overlap(start, end, x.iv), BestOverlap(Overlaps(ss, start, end));
      BestOverlap(Overlaps(ss + [x], start, end)) == (if ov > b && ov > 0.0 then ov else b) &&
      Winner(ss + [x], start, end) == (if ov > b && ov > 0.0 then x.speaker else Winner(ss, start, end))
  {
    var os, ov := Overlaps(ss, start, end), Overlap(start, end, x.iv);
    var os' := Overlaps(ss + [x], start, end);
    assert os' == os + [ov];
    assert os'[..|os|] == os;
    var b := BestOverlap(os);
    FirstIndexOfAppend(os, ov, b);
    FirstIndexOfAppend(os, ov, ov);
    if b != 0.0 {
      assert FirstIndexOf(os, b) < |os|;
    }
  }

  lemma SlotsSnoc(d: Diarization, i: nat, j: nat)
    requires i < |d| && j < |d[i].times|
    ensures Slots(d[..i]) + Tag(d[i].speaker, d[i].times[..j + 1]) ==
            Slots(d[..i]) + Tag(d[i].speaker, d[i].times[..j]) + [Slot(d[i].speaker, d[i].times[j])]
  {
  }

  lemma SlotsNextTrack(d: Diarization, i: nat)
    requires i < |d|
    ensures Slots(d[..i + 1]) == Slots(d[..i]) + Tag(d[i].speaker, d[i].times[..|d[i].times|])
  {
    assert d[..i + 1][..i] == d[..i];
    assert d[i].times[..|d[i].times|] == d[i].times;
  }

  /** The nested scan of `find_speaker`. */
  method FindSpeaker(start: real, end: real, d: Diarization) returns (spk: string)
    ensures spk == Attribution(d, start, end)
  {
    spk := UnknownLabel;
    var best := 0.0;
    ghost var seen: seq<Slot> := [];
    for i := 0 to |d|
      invariant seen == Slots(d[..i])
      invariant best == BestOverlap(Overlaps(seen, start, end))
      invariant spk == Winner(seen, start, end)
    {
      var times := d[i].times;
      for j := 0 to |times|
        invariant seen == Slots(d[..i]) + Tag(d[i].speaker, times[..j])
        invariant best == BestOverlap(Overlaps(seen, start, end))
        invariant spk == Winner(seen, start, end)
      {
        var overlap := Min(end, times[j].end) - Max(start, times[j].start);
        WinnerStep(seen, Slot(d[i].speaker, times[j]), start, end);
        SlotsSnoc(d, i, j);
        if overlap > best && overlap > 0.0 {
          best := overlap;
          spk := d[i].speaker;
        }
        seen := seen + [Slot(d[i].speaker, times[j])];
      }
      SlotsNextTrack(d, i);
    }
    assert d[..|d|] == d;
  }

  /** No interval overlapping the utterance by a positive amount: "UNKNOWN". */
  lemma NoOverlapIsUnknown(d: Diarization, start: real, end: real)
    requires forall i, j :: 0 <= i < |d| && 0 <= j < |d[i].times| ==> Overlap(start, end, d[i].times[j]) <= 0.0
    ensures Attribution(d, start, end) == UnknownLabel
  {
    var ss := Slots(d);
    var os := Overlaps(ss, start, end);
    var b := BestOverlap(os);
    if b != 0.0 {
      var k :| 0 <= k < |os| && os[k] == b;
      SlotsFromTracks(d, k);
    }
  }

  /**
   * Slot `k` holds a positive overlap that is at least every other slot's
   * and strictly greater than that of every slot visited before it.
   */
  predicate WinsAt(ss: seq<Slot>, start: real, end: real, k: int) {
    0 <= k < |ss| && Overlap(start, end, ss[k].iv) > 0.0 &&
    (forall m :: 0 <= m < |ss| ==> Overlap(start, end, ss[m].iv) <= Overlap(start, end, ss[k].iv)) &&
    (forall m :: 0 <= m < k ==> Overlap(start, end, ss[m].iv) < Overlap(start, end, ss[k].iv))
  }

  /**
   * With some positive overlap, the answer is the label of the slot that
   * wins: on a tie the first in label order, then in file order.
   */
  lemma BestOverlapWins(d: Diarization, start: real, end: real, i0: nat, j0: nat)
    requires i0 < |d| && j0 < |d[i0].times| && Overlap(start, end, d[i0].times[j0]) > 0.0
    ensures exists k :: WinsAt(Slots(d), start, end, k) && Attribution(d, start, end) == Slots(d)[k].speaker
  {
    var ss := Slots(d);
    var os := Overlaps(ss, start, end);
    var b := BestOverlap(os);
    var m0 := TracksInSlots(d, i0, j0);
    assert os[m0] > 0.0;
    var k := FirstIndexOf(os, b);
    assert k < |ss| && os[k] == b;
    assert WinsAt(ss, start, end, k) by {
      assert forall m :: 0 <= m < |ss| ==> os[m] <= b;
      assert forall m :: 0 <= m < k ==> os[m] < b;
    }
    assert Attribution(d, start, end) == ss[k].speaker;
  }

  /** Every visited slot is a (label, interval) pair of the diarization. */
  lemma {:induction false} SlotsFromTracks(d: Diarization, k: nat)
    requires k < |Slots(d)|
    ensures exists i, j :: 0 <= i < |d| && 0 <= j < |d[i].times| && Slots(d)[k] == Slot(d[i].speaker, d[i].times[j])
  {
    var init := d[..|d| - 1];
    var last := d[|d| - 1];
    if k < |Slots(init)| {
      SlotsFromTracks(init, k);
      var i, j :| 0 <= i < |init| && 0 <= j < |init[i].times| && Slots(init)[k] == Slot(init[i].speaker, init[i].times[j]);
      assert d[i] == init[i];
    } else {
      var j := k - |Slots(init)|;
      assert Slots(d)[k] == Slot(last.speaker, last.times[j]);
    }
  }

  /** Every (label, interval) pair of the diarization is visited. */
  lemma {:induction false} TracksInSlots(d: Diarization, i: nat, j: nat) returns (k: nat)
    requires i < |d| && j < |d[i].times|
    ensures k < |Slots(d)| && Slots(d)[k] == Slot(d[i].speaker, d[i].times[j])
  {
    var init := d[..|d| - 1];
    if i < |d| - 1 {
      assert init[i] == d[i];
      k := TracksInSlots(init, i, j);
    } else {
      k := |Slots(init)| + j;
    }
  }

  /** The answer is "UNKNOWN" or one of the diarization's labels. */
  lemma AttributionIsLabel(d: Diarization, start: real, end: real)
    ensures Attribution(d, start, end) == UnknownLabel ||
      exists i :: 0 <= i < |d| && d[i].speaker == Attribution(d, start, end)
  {
    var ss := Slots(d);
    var os := Overlaps(ss, start, end);
    var b := BestOverlap(os);
    if b != 0.0 {
      SlotsFromTracks(d, FirstIndexOf(os, b));
    }
  }

  /** The worked cases: S1 speaks over [0, 5), S2 over [5, 10). */
  lemma TwoSpeakerExamples()
    ensures var d := [Track("S1", [Interval(0.0, 5.0)]), Track("S2", [Interval(5.0, 10.0)])];
      Attribution(d, 4.0, 6.0) == "S1" &&   // overlaps of 1 each: the first label wins
      Attribution(d, 0.0, 4.0) == "S1" &&   // overlap 4 with S1, none with S2
      Attribution(d, 20.0, 21.0) == UnknownLabel
  {
    var d := [Track("S1", [Interval(0.0, 5.0)]), Track("S2", [Interval(5.0, 10.0)])];
    var ss := [Slot("S1", Interval(0.0, 5.0)), Slot("S2", Interval(5.0, 10.0))];
    assert d[..1] == [d[0]] && d[..1][..0] == [];
    assert Slots(d) == ss;
    assert Overlaps(ss, 4.0, 6.0) == [1.0, 1.0];
    assert Overlaps(ss, 0.0, 4.0) == [4.0, -1.0];
    assert Overlaps(ss, 20.0, 21.0) == [-15.0, -10.0];
    assert [1.0, 1.0][..1] == [1.0] && [4.0, -1.0][..1] == [4.0] && [-15.0, -10.0][..1] == [-15.0];
    assert [1.0][..0] == [] && [4.0][..0] == [] && [-15.0][..0] == [];
  }
}
