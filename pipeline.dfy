/** The body of main in SpeakerProject.py: dominant frequencies for every clip,
    a prototype and a test part per speaker, nearest-prototype classification of
    the pooled test values, and per-speaker and overall accuracy.
    The dictionaries keyed by "SpeakerA", "SpeakerB", "SpeakerC" become
    sequences indexed by the speaker's position in that key order. */
module Pipeline {
  import opened Results
  import opened Spectrum
  import opened Average
  import opened Prototype
  import opened Scoring
  import opened Classifier

  /** The speaker labels, in the key order of the script's dictionaries. */
  const Speakers: seq<string> := ["SpeakerA", "SpeakerB", "SpeakerC"]

  /** Files {speaker}_1.wav .. {speaker}_15.wav are read for every speaker. */
  const ClipsPerSpeaker: nat := 15

  /** A loaded audio file, reduced to what the model keeps of it: the magnitude
      of its FFT (one entry per sample) and its sample rate. */
  datatype Clip = Clip(magnitudes: seq<real>, sampleRate: int)

  /** The clip whose dominant frequency could not be computed, and why. The
      positions count from 0: clip c of speaker s is the file
      {Speakers[s]}_{c + 1}.wav, since the script numbers its files from 1. */
  datatype ExtractionError = ExtractionError(speaker: nat, clip: nat, reason: SpectrumError)

  /** What the script prints: the recognised speaker of each test, in pool
      order, the accuracy of each speaker and the overall accuracy. */
  datatype Report = Report(recognised: seq<string>, accuracies: seq<real>, overall: real)

  /** Three speakers with fifteen clips each, as the script reads them. */
  predicate WellFormed(clips: seq<seq<Clip>>)
  {
    |clips| == |Speakers| && forall s | 0 <= s < |clips| :: |clips[s]| == ClipsPerSpeaker
  }

  function Frequency(c: Clip): Result<real, SpectrumError>
  {
    DominantFrequency(c.magnitudes, c.sampleRate)
  }

  /** Every clip has a dominant frequency. */
  predicate Extractable(clips: seq<seq<Clip>>)
  {
    forall s, i | 0 <= s < |clips| && 0 <= i < |clips[s]| :: Frequency(clips[s][i]).Success?
  }

  /** dominant_freq_dict once all clips are processed. */
  function Frequencies(clips: seq<seq<Clip>>): (freqs: seq<seq<real>>)
    requires Extractable(clips)
  {
    seq(|clips|, s requires 0 <= s < |clips| =>
      seq(|clips[s]|, i requires 0 <= i < |clips[s]| => Frequency(clips[s][i]).value))
  }

  /** e names the first clip, in reading order, without a dominant frequency. */
  predicate FirstFailure(clips: seq<seq<Clip>>, e: ExtractionError)
  {
    && e.speaker < |clips| && e.clip < |clips[e.speaker]|
    && Frequency(clips[e.speaker][e.clip]) == Failure(e.reason)
    && (forall s, i | 0 <= s < e.speaker && 0 <= i < |clips[s]| :: Frequency(clips[s][i]).Success?)
    && (forall i | 0 <= i < e.clip :: Frequency(clips[e.speaker][i]).Success?)
  }

  /** feature_vector_dict: the prototype of each speaker, built from the first
      ten frequencies (main slices [:10] and the builder slices again). */
  function Prototypes(freqs: seq<seq<real>>): seq<real>
    requires forall s | 0 <= s < |freqs| :: |freqs[s]| > 0
  {
    seq(|freqs|, s requires 0 <= s < |freqs| => AverageFeatureVector(Enrollment(freqs[s])))
  }

  /** test_feature_vector_dict: each speaker's frequencies after the first ten. */
  function TestParts(freqs: seq<seq<real>>): seq<seq<real>>
  {
    seq(|freqs|, s requires 0 <= s < |freqs| => HeldOut(freqs[s]))
  }

  /** The lists one after the other, as repeated `extend` builds them. */
  function Concat(parts: seq<seq<real>>): seq<real>
  {
    if parts == [] then [] else Concat(parts[..|parts| - 1]) + parts[|parts| - 1]
  }

  /** The speaker position chosen for each value of the test pool. */
  function Labels(prototypes: seq<real>, pool: seq<real>): seq<nat>
    requires |prototypes| > 0
  {
    seq(|pool|, j requires 0 <= j < |pool| => Classify(prototypes, pool[j]))
  }

  /** closest_match_dict[s]: the pool values labelled s, in pool order. */
  function Bucket(pool: seq<real>, labels: seq<nat>, s: nat): seq<real>
    requires |labels| == |pool|
  {
    if pool == [] then []
    else
      var n := |pool| - 1;
      Bucket(pool[..n], labels[..n], s) + (if labels[n] == s then [pool[n]] else [])
  }

  /** closest_match_dict for k speakers. */
  function Buckets(pool: seq<real>, labels: seq<nat>, k: nat): seq<seq<real>>
    requires |labels| == |pool|
  {
    seq(k, s requires 0 <= s < k => Bucket(pool, labels, s))
  }

  /** recognition_accuracy_dict. */
  function Accuracies(tests: seq<seq<real>>, buckets: seq<seq<real>>): seq<real>
    requires |tests| == |buckets|
  {
    seq(|tests|, s requires 0 <= s < |tests| => Accuracy(tests[s], buckets[s]))
  }

  /** Speaker positions turned into the labels that are printed. */
  function Names(labels: seq<nat>): seq<string>
    requires forall j | 0 <= j < |labels| :: labels[j] < |Speakers|
  {
    seq(|labels|, j requires 0 <= j < |labels| => Speakers[labels[j]])
  }

  /** Everything main computes once the dominant frequencies are known. */
  function Analyse(freqs: seq<seq<real>>): (r: Report)
    requires |freqs| == |Speakers|
    requires forall s | 0 <= s < |freqs| :: |freqs[s]| > 0
    ensures |r.recognised| == |Concat(TestParts(freqs))|
    ensures |r.accuracies| == |Speakers|
    ensures forall s | 0 <= s < |Speakers| :: 0.0 <= r.accuracies[s] <= 100.0
    ensures 0.0 <= r.overall <= 100.0
  {
    var prototypes := Prototypes(freqs);
    var tests := TestParts(freqs);
    var pool := Concat(tests);
    assert |prototypes| == |tests| == |Speakers|;
    var labels := Labels(prototypes, pool);
    assert forall j | 0 <= j < |labels| :: labels[j] < |Speakers|;
    var accuracies := Accuracies(tests, Buckets(pool, labels, |prototypes|));
    OverallIsPercentage(tests, Buckets(pool, labels, |prototypes|));
    Report(Names(labels), accuracies, Mean(accuracies))
  }

  /** The mean of the per-speaker accuracies is a percentage too. */
  lemma OverallIsPercentage(tests: seq<seq<real>>, buckets: seq<seq<real>>)
    requires |tests| == |buckets| > 0
    ensures 0.0 <= Mean(Accuracies(tests, buckets)) <= 100.0
  {
    MeanBounds(Accuracies(tests, buckets), 0.0, 100.0);
  }

  /** Lists of m entries each make a concatenation of |parts| * m entries. */
  lemma {:induction false} ConcatLength(parts: seq<seq<real>>, m: nat)
    requires forall s | 0 <= s < |parts| :: |parts[s]| == m
    ensures |Concat(parts)| == |parts| * m
  {
    if parts != [] {
      var n := |parts| - 1;
      ConcatLength(parts[..n], m);
      assert |Concat(parts)| == n * m + m;
      assert n * m + m == (n + 1) * m;
    }
  }

  /** With fifteen clips per speaker the pool holds five values per speaker:
      fifteen for the three speakers. */
  lemma PoolSize(freqs: seq<seq<real>>)
    requires forall s | 0 <= s < |freqs| :: |freqs[s]| == ClipsPerSpeaker
    ensures |Concat(TestParts(freqs))| == |freqs| * (ClipsPerSpeaker - EnrollmentSize)
  {
    ConcatLength(TestParts(freqs), ClipsPerSpeaker - EnrollmentSize);
  }

  /** Empty buckets concatenate to nothing. */
  lemma {:induction false} ConcatOfEmpty(parts: seq<seq<real>>)
    requires forall s | 0 <= s < |parts| :: parts[s] == []
    ensures Concat(parts) == []
  {
    if parts != [] {
      ConcatOfEmpty(parts[..|parts| - 1]);
    }
  }

  /** Appending x to one of the lists adds exactly x to the concatenation's
      multiset of values. */
  lemma {:induction false} ConcatAppendAt(parts: seq<seq<real>>, l: nat, x: real)
    requires l < |parts|
    ensures multiset(Concat(parts[l := parts[l] + [x]])) == multiset(Concat(parts)) + multiset{x}
  {
    var n := |parts| - 1;
    var updated := parts[l := parts[l] + [x]];
    assert Concat(updated) == Concat(updated[..n]) + updated[n];
    assert Concat(parts) == Concat(parts[..n]) + parts[n];
    if l == n {
      assert updated[..n] == parts[..n];
      assert Concat(updated) == Concat(parts[..n]) + (parts[n] + [x]);
    } else {
      assert updated[..n] == parts[..n][l := parts[..n][l] + [x]];
      assert updated[n] == parts[n];
      ConcatAppendAt(parts[..n], l, x);
    }
  }

  /** The classification loop partitions the pool: every value lands in
      exactly one bucket, so the buckets hold the pool's values, each as often
      as in the pool, and their sizes add up to the pool's size. */
  lemma {:induction false} BucketsPartitionPool(pool: seq<real>, labels: seq<nat>, k: nat)
    requires |labels| == |pool|
    requires forall j | 0 <= j < |labels| :: labels[j] < k
    ensures multiset(Concat(Buckets(pool, labels, k))) == multiset(pool)
    ensures |Concat(Buckets(pool, labels, k))| == |pool|
  {
    if pool == [] {
      ConcatOfEmpty(Buckets(pool, labels, k));
    } else {
      var n := |pool| - 1;
      var p, l, x, m := pool[..n], labels[..n], pool[n], labels[n];
      BucketsPartitionPool(p, l, k);
      var before := Buckets(p, l, k);
      assert pool == p + [x] && labels == l + [m];
      BucketsAppend(p, l, x, m, k);
      assert Buckets(pool, labels, k) == before[m := before[m] + [x]];
      ConcatAppendAt(before, m, x);
      assert multiset(pool) == multiset(p) + multiset{x};
    }
    var all := Concat(Buckets(pool, labels, k));
    assert |all| == |multiset(all)|;
  }

  /** Buckets keep pool order: the bucket of a pool made of two parts is the
      bucket of the first part followed by that of the second. */
  lemma {:induction false} BucketKeepsOrder(p1: seq<real>, l1: seq<nat>, p2: seq<real>, l2: seq<nat>, s: nat)
    requires |l1| == |p1| && |l2| == |p2|
    ensures Bucket(p1 + p2, l1 + l2, s) == Bucket(p1, l1, s) + Bucket(p2, l2, s)
  {
    if p2 == [] {
      assert p1 + p2 == p1 && l1 + l2 == l1;
    } else {
      var n := |p2| - 1;
      BucketKeepsOrder(p1, l1, p2[..n], l2[..n], s);
      assert (p1 + p2)[..|p1| + n] == p1 + p2[..n];
      assert (l1 + l2)[..|l1| + n] == l1 + l2[..n];
    }
  }

  /** The report of three speakers with fifteen clips each: fifteen recognised
      labels, three accuracies and an overall accuracy, all percentages. */
  lemma ReportBounds(freqs: seq<seq<real>>)
    requires |freqs| == |Speakers|
    requires forall s | 0 <= s < |freqs| :: |freqs[s]| == ClipsPerSpeaker
    ensures |Analyse(freqs).recognised| == |Speakers| * (ClipsPerSpeaker - EnrollmentSize)
    ensures |Analyse(freqs).accuracies| == |Speakers|
    ensures forall s | 0 <= s < |Speakers| :: 0.0 <= Analyse(freqs).accuracies[s] <= 100.0
    ensures 0.0 <= Analyse(freqs).overall <= 100.0
  {
    PoolSize(freqs);
  }

  /** freqs holds the dominant frequency of each clip of row, in order. */
  predicate ExtractedRow(row: seq<Clip>, freqs: seq<real>)
  {
    |freqs| == |row| && forall i | 0 <= i < |row| :: Frequency(row[i]) == Success(freqs[i])
  }

  /** The inner loop of the frequency pass: one speaker's clips, in order,
      stopping at the first clip without a dominant frequency. */
  method ExtractRow(row: seq<Clip>) returns (r: Result<seq<real>, nat>)
    ensures r.Success? ==> ExtractedRow(row, r.value)
    ensures r.Failure? ==>
      && r.error < |row| && Frequency(row[r.error]).Failure?
      && forall i | 0 <= i < r.error :: Frequency(row[i]).Success?
  {
    var freqs: seq<real> := [];
    var i := 0;
    while i < |row|
      invariant 0 <= i <= |row|
      invariant ExtractedRow(row[..i], freqs)
    {
      var f := Frequency(row[i]);
      if f.Failure? {
        return Failure(i);
      }
      freqs := freqs + [f.value];
      i := i + 1;
    }
    assert row[..i] == row;
    return Success(freqs);
  }

  /** The nested loops that fill dominant_freq_dict: every clip of every
      speaker, in order; the first clip without a dominant frequency aborts. */
  method ExtractFrequencies(clips: seq<seq<Clip>>) returns (r: Result<seq<seq<real>>, ExtractionError>)
    ensures r.Success? ==> Extractable(clips) && r.value == Frequencies(clips)
    ensures r.Failure? ==> FirstFailure(clips, r.error)
  {
    var freqs: seq<seq<real>> := [];
    var s := 0;
    while s < |clips|
      invariant 0 <= s <= |clips|
      invariant |freqs| == s
      invariant forall s' | 0 <= s' < s :: ExtractedRow(clips[s'], freqs[s'])
    {
      var row := ExtractRow(clips[s]);
      if row.Failure? {
        var i := row.error;
        return Failure(ExtractionError(s, i, Frequency(clips[s][i]).error));
      }
      freqs := freqs + [row.value];
      s := s + 1;
    }
    assert Extractable(clips);
    assert forall s' | 0 <= s' < |clips| :: freqs[s'] == Frequencies(clips)[s'];
    return Success(freqs);
  }

  /** The end of each outer iteration: the speaker's prototype, its test part,
      and the test part appended to test_vector_list. */
  /** One round of the enrollment loop extends the prototypes, the test
      parts and the pool by speaker s's share. */
  lemma EnrollStep(freqs: seq<seq<real>>, s: nat, tests: seq<seq<real>>)
    requires forall t | 0 <= t < |freqs| :: |freqs[t]| > 0
    requires s < |freqs|
    ensures Prototypes(freqs)[..s + 1] == Prototypes(freqs)[..s] + [AverageFeatureVector(Enrollment(freqs[s]))]
    ensures TestParts(freqs)[..s + 1] == TestParts(freqs)[..s] + [HeldOut(freqs[s])]
    ensures Concat(tests + [HeldOut(freqs[s])]) == Concat(tests) + HeldOut(freqs[s])
  {
    assert (tests + [HeldOut(freqs[s])])[..|tests|] == tests;
  }

  method Enroll(freqs: seq<seq<real>>) returns (prototypes: seq<real>, tests: seq<seq<real>>, pool: seq<real>)
    requires forall s | 0 <= s < |freqs| :: |freqs[s]| > 0
    ensures prototypes == Prototypes(freqs)
    ensures tests == TestParts(freqs)
    ensures pool == Concat(tests)
  {
    prototypes, tests, pool := [], [], [];
    var s := 0;
    while s < |freqs|
      invariant 0 <= s <= |freqs|
      invariant prototypes == Prototypes(freqs)[..s]
      invariant tests == TestParts(freqs)[..s]
      invariant pool == Concat(tests)
    {
      var prototype := AverageFeatureVector(Enrollment(freqs[s]));
      var test := HeldOut(freqs[s]);
      EnrollStep(freqs, s, tests);
      prototypes, tests, pool := prototypes + [prototype], tests + [test], pool + test;
      s := s + 1;
    }
  }

  /** The classification loop: each pool value goes to the nearest prototype
      (`min` then `.index`) and is appended to that speaker's bucket. */
  method ClassifyPool(prototypes: seq<real>, pool: seq<real>) returns (labels: seq<nat>, buckets: seq<seq<real>>)
    requires |prototypes| > 0
    ensures labels == Labels(prototypes, pool)
    ensures buckets == Buckets(pool, labels, |prototypes|)
  {
    labels := [];
    buckets := seq(|prototypes|, _ => []);
    var j := 0;
    while j < |pool|
      invariant 0 <= j <= |pool|
      invariant labels == Labels(prototypes, pool[..j])
      invariant buckets == Buckets(pool[..j], labels, |prototypes|)
    {
      var test := pool[j];
      var closest := ClosestValue(prototypes, test);
      var k := IndexOf(prototypes, closest);
      BucketsAppend(pool[..j], labels, test, k, |prototypes|);
      LabelsAppend(prototypes, pool[..j], test);
      assert pool[..j + 1] == pool[..j] + [test];
      buckets := buckets[k := buckets[k] + [test]];
      labels := labels + [k];
      j := j + 1;
    }
    assert pool[..j] == pool;
  }

  /** One more pool value gets one more label, its own. */
  lemma LabelsAppend(prototypes: seq<real>, pool: seq<real>, x: real)
    requires |prototypes| > 0
    ensures Labels(prototypes, pool + [x]) == Labels(prototypes, pool) + [Classify(prototypes, x)]
  {
  }

  /** Classifying one more value extends exactly the bucket of its label. */
  lemma BucketsAppend(pool: seq<real>, labels: seq<nat>, x: real, l: nat, k: nat)
    requires |labels| == |pool| && l < k
    ensures Buckets(pool + [x], labels + [l], k)
         == Buckets(pool, labels, k)[l := Bucket(pool, labels, l) + [x]]
  {
    forall s | 0 <= s < k
      ensures Bucket(pool + [x], labels + [l], s) == Bucket(pool, labels, s) + (if l == s then [x] else [])
    {
      BucketAppend(pool, labels, x, l, s);
    }
    var after := Buckets(pool + [x], labels + [l], k);
    var before := Buckets(pool, labels, k);
    assert |after| == |before[l := Bucket(pool, labels, l) + [x]]| == k;
    assert forall s | 0 <= s < k :: after[s] == before[l := Bucket(pool, labels, l) + [x]][s];
  }

  /** The bucket of s after one more value: the value is added iff labelled s. */
  lemma BucketAppend(pool: seq<real>, labels: seq<nat>, x: real, l: nat, s: nat)
    requires |labels| == |pool|
    ensures Bucket(pool + [x], labels + [l], s) == Bucket(pool, labels, s) + (if l == s then [x] else [])
  {
    var n := |pool|;
    assert (pool + [x])[..n] == pool && (labels + [l])[..n] == labels;
  }

  /** The accuracy loop and the overall mean, which stays a percentage. */
  method ScoreSpeakers(tests: seq<seq<real>>, buckets: seq<seq<real>>) returns (accuracies: seq<real>, overall: real)
    requires |tests| == |buckets| > 0
    ensures accuracies == Accuracies(tests, buckets)
    ensures overall == Mean(accuracies)
    ensures 0.0 <= overall <= 100.0
  {
    accuracies := seq(|tests|, _ => 0.0);
    var s := 0;
    while s < |tests|
      invariant 0 <= s <= |tests|
      invariant |accuracies| == |tests|
      invariant forall s' | 0 <= s' < s :: accuracies[s'] == Accuracy(tests[s'], buckets[s'])
      invariant forall s' | s <= s' < |tests| :: accuracies[s'] == 0.0
    {
      accuracies := accuracies[s := Accuracy(tests[s], buckets[s])];
      s := s + 1;
    }
    overall := Mean(accuracies);
    MeanBounds(accuracies, 0.0, 100.0);
  }

  /** main after the frequency pass: prototypes and test pool, classification,
      scoring. */
  method RunAnalysis(freqs: seq<seq<real>>) returns (report: Report)
    requires |freqs| == |Speakers|
    requires forall s | 0 <= s < |freqs| :: |freqs[s]| == ClipsPerSpeaker
    ensures report == Analyse(freqs)
    ensures |report.recognised| == |Speakers| * (ClipsPerSpeaker - EnrollmentSize)
    ensures 0.0 <= report.overall <= 100.0
  {
    var prototypes, tests, pool := Enroll(freqs);
    var labels, buckets := ClassifyPool(prototypes, pool);
    var accuracies, overall := ScoreSpeakers(tests, buckets);
    report := Report(Names(labels), accuracies, overall);
    ReportBounds(freqs);
  }

  /** main: the report, or the first clip that makes the script abort. */
  method IdentifySpeakers(clips: seq<seq<Clip>>) returns (r: Result<Report, ExtractionError>)
    requires WellFormed(clips)
    ensures r.Success? <==> Extractable(clips)
    ensures r.Success? ==> r.value == Analyse(Frequencies(clips))
    ensures r.Success? ==> |r.value.recognised| == |Speakers| * (ClipsPerSpeaker - EnrollmentSize)
    ensures r.Success? ==> 0.0 <= r.value.overall <= 100.0
    ensures r.Failure? ==> FirstFailure(clips, r.error)
  {
    var extracted := ExtractFrequencies(clips);
    if extracted.Failure? {
      return Failure(extracted.error);
    }
    var freqs := extracted.value;
    assert forall s | 0 <= s < |freqs| :: |freqs[s]| == |clips[s]| == ClipsPerSpeaker;
    var report := RunAnalysis(freqs);
    return Success(report);
  }
}
