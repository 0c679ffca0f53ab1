/** The accuracy scorer (SpeakerProject.py, calculate_recognition_accuracy). */
module Scoring {

  /** How many matched values occur in the expected list: the generator sum of
      `val in test_feature_vectors`, compared by exact equality. */
  function CorrectCount(expected: seq<real>, matches: seq<real>): (n: nat)
    ensures n <= |matches|
    ensures n == |matches| <==> forall i | 0 <= i < |matches| :: matches[i] in expected
  {
    if matches == [] then 0
    else
      var rest := CorrectCount(expected, matches[1..]);
      assert forall i | 1 <= i < |matches| :: matches[i] == matches[1..][i - 1];
      (if matches[0] in expected then 1 else 0) + rest
  }

  /** The percentage of the values matched to a speaker that were expected
      for that speaker; 0 when nothing was matched to it. */
  function Accuracy(expected: seq<real>, matches: seq<real>): (r: real)
    ensures 0.0 <= r <= 100.0
    ensures |matches| == 0 ==> r == 0.0
    ensures r == 100.0 <==> |matches| > 0 && forall i | 0 <= i < |matches| :: matches[i] in expected
  {
    var correct := CorrectCount(expected, matches);
    var total := |matches|;
    if total != 0 then
      PercentageBounds(correct, total);
      (correct as real / total as real) * 100.0
    else 0.0
  }

  /** c out of t, in percent, is a percentage, and 100 exactly when c is t. */
  lemma PercentageBounds(c: nat, t: nat)
    requires 0 < t && c <= t
    ensures 0.0 <= (c as real / t as real) * 100.0 <= 100.0
    ensures (c as real / t as real) * 100.0 == 100.0 <==> c == t
  {
    var ratio := c as real / t as real;
    assert ratio * t as real == c as real;
    assert (1.0 - ratio) * t as real == (t - c) as real;
    assert ratio >= 0.0;
    if ratio * 100.0 == 100.0 {
      assert ratio == 1.0;
    }
  }

  /** Taking out position i of the matched values lowers the count by exactly
      that entry's contribution. */
  lemma {:induction false} CountWithout(expected: seq<real>, matches: seq<real>, i: nat)
    requires i < |matches|
    ensures CorrectCount(expected, matches)
         == (if matches[i] in expected then 1 else 0)
            + CorrectCount(expected, matches[..i] + matches[i + 1..])
  {
    if i > 0 {
      var tail := matches[1..];
      CountWithout(expected, tail, i - 1);
      assert matches[..i] + matches[i + 1..] == [matches[0]] + (tail[..i - 1] + tail[i..]);
      assert (matches[..i] + matches[i + 1..])[1..] == tail[..i - 1] + tail[i..];
    } else {
      assert matches[..i] + matches[i + 1..] == matches[1..];
    }
  }

  /** Taking out position i removes one occurrence of s[i] from the multiset. */
  lemma MultisetWithout(s: seq<real>, i: nat)
    requires i < |s|
    ensures multiset(s[..i] + s[i + 1..]) == multiset(s) - multiset{s[i]}
  {
    assert s == s[..i] + [s[i]] + s[i + 1..];
    assert multiset(s) == multiset(s[..i] + s[i + 1..]) + multiset{s[i]};
  }

  /** A value of the multiset of s occurs at some position of s. */
  lemma {:induction false} Occurrence(s: seq<real>, x: real) returns (i: nat)
    requires x in multiset(s)
    ensures i < |s| && s[i] == x
  {
    if s[0] == x {
      i := 0;
    } else {
      assert s == [s[0]] + s[1..];
      i := Occurrence(s[1..], x);
      i := i + 1;
    }
  }

  /** The count depends only on which values were matched, not on their order. */
  lemma {:induction false} CountOrderIndependent(expected: seq<real>, a: seq<real>, b: seq<real>)
    requires multiset(a) == multiset(b)
    ensures CorrectCount(expected, a) == CorrectCount(expected, b)
  {
    if a == [] {
      assert |b| == |multiset(b)| == 0;
    } else {
      var x := a[0];
      assert a == [x] + a[1..];
      assert x in multiset(b);
      var i := Occurrence(b, x);
      var rest := b[..i] + b[i + 1..];
      MultisetWithout(b, i);
      assert multiset(a[1..]) == multiset(rest);
      CountOrderIndependent(expected, a[1..], rest);
      CountWithout(expected, b, i);
    }
  }

  /** Reordering the matched values leaves the accuracy unchanged. */
  lemma AccuracyOrderIndependent(expected: seq<real>, a: seq<real>, b: seq<real>)
    requires multiset(a) == multiset(b)
    ensures Accuracy(expected, a) == Accuracy(expected, b)
  {
    assert |a| == |multiset(a)| == |multiset(b)| == |b|;
    CountOrderIndependent(expected, a, b);
  }
}
