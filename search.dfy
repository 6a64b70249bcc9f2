/** First-occurrence search over a sequence of scores, as a left-to-right scan sees it. */
module Search {

  /** Index of the first element equal to `v`, or `|xs|` when there is none. */
  function FirstIndexOf(xs: seq<real>, v: real): (k: nat)
    ensures k <= |xs|
    ensures forall m :: 0 <= m < k ==> xs[m] != v
    ensures k < |xs| ==> xs[k] == v
  {
    if |xs| == 0 then 0
    else if xs[0] == v then 0
    else 1 + FirstIndexOf(xs[1..], v)
  }

  /** Extending the scanned prefix by one element does not move an occurrence already found. */
  lemma FirstIndexOfAppend(xs: seq<real>, x: real, v: real)
    ensures FirstIndexOf(xs + [x], v) ==
      if FirstIndexOf(xs, v) < |xs| then FirstIndexOf(xs, v)
      else if x == v then |xs| else |xs| + 1
  {
    var k, k' := FirstIndexOf(xs, v), FirstIndexOf(xs + [x], v);
    if k < |xs| {
      assert (xs + [x])[k] == v;
    } else if x == v {
      assert (xs + [x])[|xs|] == v;
    }
  }
}
