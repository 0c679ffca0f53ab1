/** The prototype builder (SpeakerProject.py, calculate_average_feature_vector)
    and the enrollment/test split of a speaker's dominant frequencies in main. */
module Prototype {
  import opened Average

  /** How many of a speaker's clips build the prototype: the slice bound 10. */
  const EnrollmentSize: nat := 10

  /** Python's slice freqs[:10], which stops early on a shorter list. */
  function Enrollment(freqs: seq<real>): (e: seq<real>)
    ensures |e| == if |freqs| < EnrollmentSize then |freqs| else EnrollmentSize
    ensures e <= freqs
  {
    if |freqs| <= EnrollmentSize then freqs else freqs[..EnrollmentSize]
  }

  /** Python's slice freqs[10:], empty on a list of at most ten entries. */
  function HeldOut(freqs: seq<real>): (t: seq<real>)
    ensures |t| == if |freqs| < EnrollmentSize then 0 else |freqs| - EnrollmentSize
    ensures forall i | 0 <= i < |t| :: t[i] == freqs[EnrollmentSize + i]
  {
    if |freqs| <= EnrollmentSize then [] else freqs[EnrollmentSize..]
  }

  /** calculate_average_feature_vector: the mean of at most the first ten
      entries (numpy's average of an empty slice is NaN, hence the requires). */
  function AverageFeatureVector(freqs: seq<real>): (r: real)
    requires |freqs| > 0
    ensures Min(Enrollment(freqs)) <= r <= Max(Enrollment(freqs))
  {
    MeanBetweenMinMax(Enrollment(freqs));
    Mean(Enrollment(freqs))
  }

  /** Enrollment and test parts put back together give the speaker's whole list. */
  lemma SplitRebuilds(freqs: seq<real>)
    ensures Enrollment(freqs) + HeldOut(freqs) == freqs
  {
  }

  /** Slicing [:10] a second time, as main does before the call, changes nothing. */
  lemma EnrollmentIdempotent(freqs: seq<real>)
    requires |freqs| > 0
    ensures Enrollment(Enrollment(freqs)) == Enrollment(freqs)
    ensures AverageFeatureVector(Enrollment(freqs)) == AverageFeatureVector(freqs)
  {
  }

  /** The prototype depends on nothing but the first ten entries: two lists
      that agree on them, whatever follows, have the same prototype. */
  lemma PrototypeDependsOnEnrollment(f: seq<real>, g: seq<real>)
    requires |f| >= EnrollmentSize && |g| >= EnrollmentSize
    requires f[..EnrollmentSize] == g[..EnrollmentSize]
    ensures AverageFeatureVector(f) == AverageFeatureVector(g)
  {
    assert Enrollment(f) == Enrollment(g);
  }

  /** The prototype lies between the smallest and the largest averaged entry. */
  lemma PrototypeWithinRange(freqs: seq<real>)
    requires |freqs| > 0
    ensures Min(Enrollment(freqs)) <= AverageFeatureVector(freqs) <= Max(Enrollment(freqs))
  {
    MeanBetweenMinMax(Enrollment(freqs));
  }

  /** A speaker whose averaged entries all equal a has prototype exactly a. */
  lemma PrototypeOfIdentical(freqs: seq<real>, a: real)
    requires |freqs| > 0
    requires forall i | 0 <= i < |freqs| && i < EnrollmentSize :: freqs[i] == a
    ensures AverageFeatureVector(freqs) == a
  {
    MeanOfConstant(Enrollment(freqs), a);
  }
}
