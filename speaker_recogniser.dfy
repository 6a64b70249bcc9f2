/**
 * `identify_speaker`: nearest-neighbour matching of one voice clip against
 * the enrolled speaker table, with a reject threshold. The embedding network
 * and the cosine distance are given as functions; the enrolment table is the
 * dict of enrolled names to reference embeddings, in its iteration order.
 */
module SpeakerRecogniser {
  import opened Search

  /** `THRESHOLD`: the largest cosine distance still accepted as a match. */
  const Threshold: real := 0.70

  /** The score the search starts from; only a strictly smaller distance replaces it. */
  const Seed: real := 1.0

  const UnknownName: string := "Unknown"

  /** The cosine distance of the query to each enrolled reference, in table order. */
  function Distances<E>(speakers: seq<(string, E)>, emb: E, cosine: (E, E) -> real): (ds: seq<real>)
    ensures |ds| == |speakers|
    ensures forall k :: 0 <= k < |ds| ==> ds[k] == cosine(emb, speakers[k].1)
  {
    seq(|speakers|, k requires 0 <= k < |speakers| => cosine(emb, speakers[k].1))
  }

  /** The best score the strict `<` search ends with: min(1.0, every distance). */
  function BestScore(ds: seq<real>): (b: real)
    ensures b <= Seed
    ensures forall k :: 0 <= k < |ds| ==> b <= ds[k]
    ensures b == Seed || b in ds
  {
    if ds == [] then Seed
    else
      var prior := BestScore(ds[..|ds| - 1]);
      assert forall k :: 0 <= k < |ds| - 1 ==> ds[..|ds| - 1][k] == ds[k];
      if ds[|ds| - 1] < prior then ds[|ds| - 1] else prior
  }

  /**
   * What `identify_speaker` returns for the embedding `emb`: the best score,
   * with the first enrolled name reaching it if that score is within the
   * threshold, and "Unknown" otherwise.
   */
  function Identify<E>(speakers: seq<(string, E)>, emb: E, cosine: (E, E) -> real): (string, real) {
    var ds := Distances(speakers, emb, cosine);
    var b := BestScore(ds);
    if b > Threshold then (UnknownName, b)
    else
      var k := FirstIndexOf(ds, b);
      (speakers[k].0, b)
  }

  /** The scan over `SPEAKERS.items()` followed by the threshold test. */
  method IdentifySpeaker<E>(clip: seq<real>, speakers: seq<(string, E)>, embed: seq<real> -> E, cosine: (E, E) -> real)
    returns (name: string, score: real)
    ensures (name, score) == Identify(speakers, embed(clip), cosine)
    ensures name == UnknownName || exists k :: 0 <= k < |speakers| && speakers[k].0 == name
  {
    var emb := embed(clip);
    ghost var ds := Distances(speakers, emb, cosine);
    var bestName := UnknownName;
    var bestScore := Seed;
    for i := 0 to |speakers|
      invariant bestScore == BestScore(ds[..i])
      invariant bestName == if bestScore < Seed then speakers[FirstIndexOf(ds[..i], bestScore)].0 else UnknownName
    {
      var d := cosine(emb, speakers[i].1);
      assert ds[..i + 1] == ds[..i] + [d];
      FirstIndexOfAppend(ds[..i], d, bestScore);
      FirstIndexOfAppend(ds[..i], d, d);
      if d < bestScore {
        bestScore := d;
        bestName := speakers[i].0;
      }
    }
    assert ds[..|speakers|] == ds;
    if bestScore > Threshold {
      return UnknownName, bestScore;
    }
    return bestName, bestScore;
  }

  /** The reported score is the smallest distance, capped at 1.0. */
  lemma IdentifyScore<E>(speakers: seq<(string, E)>, emb: E, cosine: (E, E) -> real)
    ensures var score := Identify(speakers, emb, cosine).1;
      score <= Seed &&
      (forall k :: 0 <= k < |speakers| ==> score <= cosine(emb, speakers[k].1)) &&
      (score == Seed || exists k :: 0 <= k < |speakers| && score == cosine(emb, speakers[k].1))
  {
    var ds := Distances(speakers, emb, cosine);
    if BestScore(ds) != Seed {
      var k :| 0 <= k < |ds| && ds[k] == BestScore(ds);
    }
  }

  /**
   * A best score above the threshold is rejected as "Unknown"; one at or below
   * it (0.70 included) names the first enrolled speaker at that distance, so
   * of two equally near speakers the earlier in the table wins.
   */
  lemma IdentifyDecision<E>(speakers: seq<(string, E)>, emb: E, cosine: (E, E) -> real)
    ensures var (name, score) := Identify(speakers, emb, cosine);
      (score > Threshold ==> name == UnknownName) &&
      (score <= Threshold ==>
         exists k :: 0 <= k < |speakers| && name == speakers[k].0 &&
           cosine(emb, speakers[k].1) == score &&
           (forall m :: 0 <= m < k ==> cosine(emb, speakers[m].1) > score))
  {
    var ds := Distances(speakers, emb, cosine);
    var b := BestScore(ds);
    if b <= Threshold {
      var k := FirstIndexOf(ds, b);
      assert k < |ds|;
      assert forall m :: 0 <= m < k ==> ds[m] > b;
    }
  }

  /** With no enrolled speaker, or none nearer than 1.0, the answer is ("Unknown", 1.0). */
  lemma IdentifyNoCandidate<E>(speakers: seq<(string, E)>, emb: E, cosine: (E, E) -> real)
    requires forall k :: 0 <= k < |speakers| ==> cosine(emb, speakers[k].1) >= Seed
    ensures Identify(speakers, emb, cosine) == (UnknownName, Seed)
  {
    var ds := Distances(speakers, emb, cosine);
    if BestScore(ds) in ds {
      var k :| 0 <= k < |ds| && ds[k] == BestScore(ds);
    }
  }

  /** The returned name is "Unknown" or one of the enrolled names. */
  lemma IdentifyNameEnrolled<E>(speakers: seq<(string, E)>, emb: E, cosine: (E, E) -> real)
    ensures var name := Identify(speakers, emb, cosine).0;
      name == UnknownName || exists k :: 0 <= k < |speakers| && speakers[k].0 == name
  {
    IdentifyDecision(speakers, emb, cosine);
  }

  /** The threshold is inclusive: a distance of exactly 0.70 is a match, anything above it is not. */
  lemma ThresholdBoundary(name: string, ref: int, eps: real)
    requires name != UnknownName && 0.0 < eps < Seed - 0.70
    ensures Identify([(name, ref)], 0, (q: int, r: int) => 0.70) == (name, 0.70)
    ensures Identify([(name, ref)], 0, (q: int, r: int) => 0.70 + eps) == (UnknownName, 0.70 + eps)
  {
    var ds := Distances([(name, ref)], 0, (q: int, r: int) => 0.70);
    assert ds == [0.70];
    assert BestScore(ds) == 0.70 by { assert ds[..0] == []; }
    assert FirstIndexOf(ds, 0.70) == 0;
    var ds' := Distances([(name, ref)], 0, (q: int, r: int) => 0.70 + eps);
    assert ds' == [0.70 + eps];
    assert BestScore(ds') == 0.70 + eps by { assert ds'[..0] == []; }
  }
}
