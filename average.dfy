/** numpy's average over a list of reals: the sum divided by the length. Used by
    the prototype builder and by the overall accuracy. */
module Average {

  function Sum(s: seq<real>): real
  {
    if s == [] then 0.0 else s[0] + Sum(s[1..])
  }

  /** np.average of a non-empty list (of an empty one numpy yields NaN): the
      value that, taken |s| times, makes up the sum of the entries. */
  function Mean(s: seq<real>): (r: real)
    requires |s| > 0
    ensures |s| as real * r == Sum(s)
  {
    Sum(s) / |s| as real
  }

  /** A total between n * lo and n * hi, shared out n ways, is between lo and hi. */
  lemma QuotientBounds(total: real, n: real, lo: real, hi: real)
    requires n > 0.0 && n * lo <= total <= n * hi
    ensures lo <= total / n <= hi
  {
    var q := total / n;
    assert q * n == total;
    assert (q - lo) * n >= 0.0;
    assert (hi - q) * n >= 0.0;
  }

  /** The smallest entry. */
  function Min(s: seq<real>): (m: real)
    requires |s| > 0
    ensures forall i | 0 <= i < |s| :: m <= s[i]
  {
    if |s| == 1 then s[0]
    else
      var m := Min(s[1..]);
      if s[0] <= m then s[0] else m
  }

  /** The largest entry. */
  function Max(s: seq<real>): (m: real)
    requires |s| > 0
    ensures forall i | 0 <= i < |s| :: s[i] <= m
  {
    if |s| == 1 then s[0]
    else
      var m := Max(s[1..]);
      if m <= s[0] then s[0] else m
  }

  /** Min and Max are entries of the sequence, so they are its smallest and
      largest entry. */
  lemma {:induction false} MinMaxAreEntries(s: seq<real>)
    requires |s| > 0
    ensures Min(s) in s && Max(s) in s
  {
    if |s| > 1 {
      MinMaxAreEntries(s[1..]);
      assert s == [s[0]] + s[1..];
    }
  }

  /** Entries between lo and hi sum to between |s| * lo and |s| * hi. */
  lemma {:induction false} SumBounds(s: seq<real>, lo: real, hi: real)
    requires forall i | 0 <= i < |s| :: lo <= s[i] <= hi
    ensures |s| as real * lo <= Sum(s) <= |s| as real * hi
  {
    if s != [] {
      SumBounds(s[1..], lo, hi);
      assert |s| as real * lo == |s[1..]| as real * lo + lo;
      assert |s| as real * hi == |s[1..]| as real * hi + hi;
    }
  }

  /** The mean of entries between lo and hi is between lo and hi. */
  lemma MeanBounds(s: seq<real>, lo: real, hi: real)
    requires |s| > 0
    requires forall i | 0 <= i < |s| :: lo <= s[i] <= hi
    ensures lo <= Mean(s) <= hi
  {
    SumBounds(s, lo, hi);
    QuotientBounds(Sum(s), |s| as real, lo, hi);
  }

  /** A mean lies between the smallest and the largest of its entries. */
  lemma MeanBetweenMinMax(s: seq<real>)
    requires |s| > 0
    ensures Min(s) <= Mean(s) <= Max(s)
  {
    MeanBounds(s, Min(s), Max(s));
  }

  /** The mean of entries that all equal a is a. */
  lemma MeanOfConstant(s: seq<real>, a: real)
    requires |s| > 0
    requires forall i | 0 <= i < |s| :: s[i] == a
    ensures Mean(s) == a
  {
    MeanBounds(s, a, a);
  }
}
