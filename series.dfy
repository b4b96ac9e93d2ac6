/** Reductions over a price series, as numpy's `sum`, `mean`, `min` and `max` compute them
    (prices are reals: rounding and NaN are not modelled). */
module Series {

  /** Sum of all elements. */
  function Sum(s: seq<real>): real
  {
    if s == [] then 0.0 else s[0] + Sum(s[1..])
  }

  /** Arithmetic mean; numpy's mean of an empty array is NaN, which has no counterpart here. */
  function Mean(s: seq<real>): real
    requires |s| > 0
  {
    Sum(s) / (|s| as real)
  }

  function Last(s: seq<real>): real
    requires |s| > 0
  {
    s[|s| - 1]
  }

  predicate Constant(s: seq<real>, v: real)
  {
    forall i :: 0 <= i < |s| ==> s[i] == v
  }

  predicate NonDecreasing(s: seq<real>)
  {
    forall i :: 0 <= i < |s| - 1 ==> s[i] <= s[i + 1]
  }

  predicate StrictlyIncreasing(s: seq<real>)
  {
    forall i, j :: 0 <= i < j < |s| ==> s[i] < s[j]
  }

  /** Smallest element (`np.min`, Python's `min`). */
  function Min(s: seq<real>): (m: real)
    requires |s| > 0
    ensures m in s
    ensures forall i :: 0 <= i < |s| ==> m <= s[i]
  {
    if |s| == 1 then s[0]
    else
      var rest := Min(s[1..]);
      if s[0] <= rest then s[0] else rest
  }

  /** Largest element (`np.max`, Python's `max`). */
  function Max(s: seq<real>): (m: real)
    requires |s| > 0
    ensures m in s
    ensures forall i :: 0 <= i < |s| ==> s[i] <= m
  {
    if |s| == 1 then s[0]
    else
      var rest := Max(s[1..]);
      if s[0] >= rest then s[0] else rest
  }

  /** A sum of elements that are all at least lo is at least n * lo. */
  lemma {:induction false} SumAtLeast(s: seq<real>, lo: real)
    requires forall i :: 0 <= i < |s| ==> lo <= s[i]
    ensures (|s| as real) * lo <= Sum(s)
  {
    if s != [] {
      SumAtLeast(s[1..], lo);
      assert (|s| as real) * lo == (|s[1..]| as real) * lo + lo;
    }
  }

  /** A sum of elements that are all at most hi is at most n * hi. */
  lemma {:induction false} SumAtMost(s: seq<real>, hi: real)
    requires forall i :: 0 <= i < |s| ==> s[i] <= hi
    ensures Sum(s) <= (|s| as real) * hi
  {
    if s != [] {
      SumAtMost(s[1..], hi);
      assert (|s| as real) * hi == (|s[1..]| as real) * hi + hi;
    }
  }

  /** If every element is at most hi and one is strictly below, the sum is strictly below n * hi. */
  lemma {:induction false} SumStrictlyBelow(s: seq<real>, hi: real, j: nat)
    requires j < |s|
    requires forall i :: 0 <= i < |s| ==> s[i] <= hi
    requires s[j] < hi
    ensures Sum(s) < (|s| as real) * hi
  {
    var rest := (|s[1..]| as real) * hi;
    assert (|s| as real) * hi == rest + hi;
    assert Sum(s) == s[0] + Sum(s[1..]);
    if j == 0 {
      SumAtMost(s[1..], hi);
      assert Sum(s[1..]) <= rest;
    } else {
      SumStrictlyBelow(s[1..], hi, j - 1);
      assert Sum(s[1..]) < rest;
    }
  }

  /** The mean lies between any lower and upper bound of the elements. */
  lemma MeanBounds(s: seq<real>, lo: real, hi: real)
    requires |s| > 0
    requires forall i :: 0 <= i < |s| ==> lo <= s[i] <= hi
    ensures lo <= Mean(s) <= hi
  {
    SumAtLeast(s, lo);
    SumAtMost(s, hi);
    var n := |s| as real;
    assert Mean(s) - lo == (Sum(s) - n * lo) / n;
    assert hi - Mean(s) == (n * hi - Sum(s)) / n;
  }

  /** The mean of a constant series is that constant. */
  lemma MeanConstant(s: seq<real>, v: real)
    requires |s| > 0
    requires Constant(s, v)
    ensures Mean(s) == v
  {
    MeanBounds(s, v, v);
  }

  /** The mean of a series whose elements are at most hi, one of them strictly less, is below hi. */
  lemma MeanStrictlyBelow(s: seq<real>, hi: real, j: nat)
    requires j < |s|
    requires forall i :: 0 <= i < |s| ==> s[i] <= hi
    requires s[j] < hi
    ensures Mean(s) < hi
  {
    SumStrictlyBelow(s, hi, j);
    var n := |s| as real;
    assert hi - Mean(s) == (n * hi - Sum(s)) / n;
  }
}
