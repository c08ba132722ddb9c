/** Sums, means and extrema over real sequences, standing in for Python's `sum`, `max`, `min` and NumPy's `np.mean`,
    `np.min`, `np.max` (with exact real arithmetic in place of floating point). */
module Stats {

  function Sum(s: seq<real>): real
    decreases |s|
  {
    if |s| == 0 then 0.0 else Sum(s[..|s| - 1]) + s[|s| - 1]
  }

  lemma SumSnoc(s: seq<real>, x: real)
    ensures Sum(s + [x]) == Sum(s) + x
  {
    assert (s + [x])[..|s|] == s;
  }

  /** Arithmetic mean; callers guard the empty case themselves, as the source does. */
  function Mean(s: seq<real>): real
    requires |s| > 0
  {
    Sum(s) / (|s| as real)
  }

  /** The largest element (`np.max` / Python `max`). */
  function Max(s: seq<real>): (m: real)
    requires |s| > 0
    ensures m in s
    ensures forall i :: 0 <= i < |s| ==> s[i] <= m
    decreases |s|
  {
    if |s| == 1 then s[0]
    else
      var m' := Max(s[..|s| - 1]);
      if s[|s| - 1] > m' then s[|s| - 1] else m'
  }

  /** The smallest element (`np.min`). */
  function Min(s: seq<real>): (m: real)
    requires |s| > 0
    ensures m in s
    ensures forall i :: 0 <= i < |s| ==> m <= s[i]
    decreases |s|
  {
    if |s| == 1 then s[0]
    else
      var m' := Min(s[..|s| - 1]);
      if s[|s| - 1] < m' then s[|s| - 1] else m'
  }

  /** A sum of values that are all at least `lo` is at least `lo` times the length. */
  lemma {:induction false} SumAtLeast(s: seq<real>, lo: real)
    requires forall i :: 0 <= i < |s| ==> lo <= s[i]
    ensures lo * (|s| as real) <= Sum(s)
    decreases |s|
  {
    if |s| > 0 {
      var s' := s[..|s| - 1];
      SumAtLeast(s', lo);
      assert lo * (|s| as real) == lo * (|s'| as real) + lo;
    }
  }

  /** A sum of values that are all at most `hi` is at most `hi` times the length. */
  lemma {:induction false} SumAtMost(s: seq<real>, hi: real)
    requires forall i :: 0 <= i < |s| ==> s[i] <= hi
    ensures Sum(s) <= hi * (|s| as real)
    decreases |s|
  {
    if |s| > 0 {
      var s' := s[..|s| - 1];
      SumAtMost(s', hi);
      assert hi * (|s| as real) == hi * (|s'| as real) + hi;
    }
  }

  /** A sum of values that are all strictly below `hi` is strictly below `hi` times a non-zero length. */
  lemma {:induction false} SumBelow(s: seq<real>, hi: real)
    requires |s| > 0
    requires forall i :: 0 <= i < |s| ==> s[i] < hi
    ensures Sum(s) < hi * (|s| as real)
    decreases |s|
  {
    var s' := s[..|s| - 1];
    if |s'| == 0 {
      assert Sum(s) == s[0];
    } else {
      SumBelow(s', hi);
      assert hi * (|s| as real) == hi * (|s'| as real) + hi;
    }
  }

  /** The mean of values all at least `lo` is at least `lo`. */
  lemma MeanAtLeast(s: seq<real>, lo: real)
    requires |s| > 0
    requires forall i :: 0 <= i < |s| ==> lo <= s[i]
    ensures lo <= Mean(s)
  {
    SumAtLeast(s, lo);
    var n := |s| as real;
    assert Mean(s) * n == Sum(s);
  }

  /** The mean of values all at most `hi` is at most `hi`. */
  lemma MeanAtMost(s: seq<real>, hi: real)
    requires |s| > 0
    requires forall i :: 0 <= i < |s| ==> s[i] <= hi
    ensures Mean(s) <= hi
  {
    SumAtMost(s, hi);
    var n := |s| as real;
    assert Mean(s) * n == Sum(s);
  }

  /** The mean lies between the smallest and the largest element. */
  lemma MeanBetweenMinAndMax(s: seq<real>)
    requires |s| > 0
    ensures Min(s) <= Mean(s) <= Max(s)
  {
    MeanAtLeast(s, Min(s));
    MeanAtMost(s, Max(s));
  }

  /** A sum of non-negative values is non-negative. */
  lemma SumNonNegative(s: seq<real>)
    requires forall i :: 0 <= i < |s| ==> 0.0 <= s[i]
    ensures 0.0 <= Sum(s)
  {
    SumAtLeast(s, 0.0);
  }

  /** The index of the first largest element (`np.argmax`, and Python's `max` with a key, which keep the first
      maximum they meet). */
  function FirstArgMax(s: seq<real>): (k: nat)
    requires |s| > 0
    ensures k < |s|
    ensures forall i :: 0 <= i < |s| ==> s[i] <= s[k]
    ensures forall i :: 0 <= i < k ==> s[i] < s[k]
    decreases |s|
  {
    if |s| == 1 then 0
    else
      var k' := FirstArgMax(s[..|s| - 1]);
      if s[|s| - 1] > s[k'] then |s| - 1 else k'
  }

  function Abs(x: real): real
  {
    if x < 0.0 then -x else x
  }
}
