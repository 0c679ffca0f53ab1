# Speaker identification by dominant frequency — a Dafny model

This project models the analysis logic of `SpeakerProject.py`, a script that
identifies which of three speakers ("SpeakerA", "SpeakerB", "SpeakerC") spoke a
clip by one scalar feature: the clip's dominant FFT frequency.

- **Dominant-frequency extractor** (`Spectrum`): the clip's magnitude spectrum
  is cut to its first `L / 2` bins, numpy's `argmax` picks the first bin of
  largest magnitude, and the bin is mapped through numpy's `fftfreq` axis.
  Failures the script would raise on become `Result` values: an empty signal,
  a zero sample rate and a one-sample signal.
- **Prototype builder** (`Average`, `Prototype`): the mean (`np.average`) of
  at most the first ten dominant frequencies of a speaker; the enrollment slice
  `[:10]` and the test slice `[10:]`.
- **Accuracy scorer** (`Scoring`): the share, in percent, of the values matched
  to a speaker that occur in that speaker's test list; 0 when nothing was
  matched.
- **Nearest-prototype classifier** (`Classifier`): `min` by `abs` distance
  followed by `.index`, which together pick the smallest speaker position at
  minimal distance.
- **Driver** (`Pipeline`): the loops of `main`. They compute every clip's
  frequency (stopping at the first clip that fails) and split each speaker's
  fifteen frequencies into a prototype and five test values. They pool the test
  values in speaker order, classify each pooled value into its speaker's bucket,
  and score each speaker and the overall mean. The script's dictionaries, whose
  keys are the three fixed labels, are sequences indexed by the label's position
  in that key order. `Analyse` is the specification of everything after
  extraction, and the methods are proved equal to it.

Values are `real`s compared by exact equality, which is what the script's `in`
test on lists does.

The model follows what the code does, including where a cleaner design would
differ. A speaker with fewer than ten frequencies gets the mean of those it has
(`Enrollment` stops early), with no "insufficient data" failure. The expected
values of the scorer are a list, not a set.

## Model

| member | source | states |
|---|---|---|
| `Spectrum.ArgMax` | SpeakerProject.py:21 | the index is in range, its entry is at least every entry, and every earlier entry is strictly smaller (first maximum wins ties) |
| `Spectrum.FftFreq` | SpeakerProject.py:17 | the axis has one frequency per sample, bin 0 is 0, and for a positive spacing a bin's frequency is non-negative exactly when the bin is at most (L - 1) / 2 |
| `Spectrum.FftFreqFirstHalf` | SpeakerProject.py:17-18 | bin k of the first half of the fftfreq axis for spacing 1/sample_rate is k * sample_rate / L, and for a positive rate it lies in [0, sample_rate / 2) |
| `Spectrum.DominantBin` | SpeakerProject.py:18-21 | the chosen bin lies in [0, L/2), its magnitude is at least every magnitude of that half, and on ties the lowest bin is chosen |
| `Spectrum.DominantFrequency` | SpeakerProject.py:12-24 | a frequency exists exactly when the signal has at least two samples and a non-zero rate; the failures come in the script's order: an empty signal fails with NoSamples, then a zero rate with ZeroSampleRate, then a one-sample signal with EmptyHalfSpectrum; the result is the dominant bin times rate / L and, for a positive rate, lies in [0, rate/2) |
| `Average.Mean` | SpeakerProject.py:29 | `np.average` (also used for the overall accuracy at line 97): the mean times the number of entries is their sum |
| `Average.MinMaxAreEntries` | SpeakerProject.py:29 | the smallest and the largest entry of a non-empty list are entries of it |
| `Average.MeanBounds` | SpeakerProject.py:29 | the mean of entries between lo and hi lies between lo and hi |
| `Average.MeanBetweenMinMax` | SpeakerProject.py:29 | a mean lies between the smallest and the largest averaged entry |
| `Average.MeanOfConstant` | SpeakerProject.py:29 | the mean of identical entries a is exactly a |
| `Prototype.Enrollment` | SpeakerProject.py:66 | the slice [:10] is a prefix holding min(10, length) entries |
| `Prototype.HeldOut` | SpeakerProject.py:67 | the slice [10:] holds the entries after the tenth, position for position |
| `Prototype.AverageFeatureVector` | SpeakerProject.py:27-29 | the prototype lies between the smallest and the largest of the (at most ten) averaged frequencies |
| `Prototype.SplitRebuilds` | SpeakerProject.py:66-67 | enrollment part followed by test part is the speaker's whole list |
| `Prototype.EnrollmentIdempotent` | SpeakerProject.py:29 | slicing [:10] again inside the builder changes neither the slice nor the prototype |
| `Prototype.PrototypeDependsOnEnrollment` | SpeakerProject.py:27-29 | two lists of at least ten entries that agree on their first ten entries have the same prototype, whatever follows |
| `Prototype.PrototypeWithinRange` | SpeakerProject.py:27-29 | a prototype lies between the smallest and largest of the averaged entries |
| `Prototype.PrototypeOfIdentical` | SpeakerProject.py:27-29 | K identical averaged entries a give prototype exactly a |
| `Scoring.CorrectCount` | SpeakerProject.py:34 | the count of matched values found in the expected list is at most the number matched, and equals it iff every matched value is expected |
| `Scoring.Accuracy` | SpeakerProject.py:32-38 | accuracy lies in [0, 100]; it is 0 when nothing was matched; it is 100 iff something was matched and every matched value is expected |
| `Scoring.CountOrderIndependent` | SpeakerProject.py:34 | two matched lists with the same values, in any order, give the same count |
| `Scoring.AccuracyOrderIndependent` | SpeakerProject.py:34-37 | the accuracy does not depend on the order of the matched list |
| `Classifier.NearestPosition` | SpeakerProject.py:79 | `min` with key abs(x - t) finds a prototype at minimal distance, every earlier one being strictly farther |
| `Classifier.ClosestValue` | SpeakerProject.py:79 | the value `min` returns is one of the prototypes, and no prototype is closer to the test value |
| `Classifier.IndexOf` | SpeakerProject.py:80 | `.index` returns the first position holding the value |
| `Classifier.Classify` | SpeakerProject.py:79-81 | the chosen speaker position is the smallest one whose prototype minimises the distance to the test value |
| `Classifier.ClassifyIsNearestPosition` | SpeakerProject.py:79-80 | `.index` of the value `min` returned is the position where `min` found it |
| `Pipeline.ExtractRow` | SpeakerProject.py:54-63 | one speaker's clips in order: either every dominant frequency, position for position, or the first clip that has none |
| `Pipeline.ExtractFrequencies` | SpeakerProject.py:52-63 | success yields exactly the dominant frequency of every clip; failure names the first clip, in reading order, that has none, with its reason |
| `Pipeline.Analyse` | SpeakerProject.py:65-97 | for three speakers: one recognised label per pooled test value, three accuracies each in [0, 100] and an overall accuracy in [0, 100] |
| `Pipeline.Enroll` | SpeakerProject.py:65-68 | each prototype is the builder applied to the speaker's first ten frequencies, each test part is the rest, and the pool is the test parts concatenated in speaker order |
| `Pipeline.ClassifyPool` | SpeakerProject.py:77-83 | each pooled value gets the label Classify gives it, and bucket s holds exactly the values labelled s, in pool order |
| `Pipeline.BucketsAppend` | SpeakerProject.py:83 | classifying one more value extends only its own speaker's bucket, by that value |
| `Pipeline.BucketsPartitionPool` | SpeakerProject.py:77-83 | the buckets together hold each pooled value exactly as often as the pool does, and their sizes sum to the pool's size |
| `Pipeline.BucketKeepsOrder` | SpeakerProject.py:83 | the bucket of a pool split in two is the first part's bucket followed by the second's |
| `Pipeline.PoolSize` | SpeakerProject.py:54-68 | with fifteen clips per speaker the pool holds five values per speaker |
| `Pipeline.ScoreSpeakers` | SpeakerProject.py:86-97 | each accuracy is the scorer applied to the speaker's test list and bucket, and the overall accuracy is their mean and lies in [0, 100] |
| `Pipeline.ReportBounds` | SpeakerProject.py:86-97 | for three speakers of fifteen clips: fifteen recognised labels, three accuracies each in [0, 100] and an overall accuracy in [0, 100] |
| `Pipeline.RunAnalysis` | SpeakerProject.py:65-97 | the prototypes, classification and scores equal `Analyse` of the frequencies, with fifteen recognised labels and an overall accuracy in [0, 100] |
| `Pipeline.IdentifySpeakers` | SpeakerProject.py:41-98 | a report exists exactly when every clip has a dominant frequency; it equals `Analyse` of those frequencies, holds fifteen labels and an overall accuracy in [0, 100]; otherwise the first failing clip is named |

## Left out

- Audio loading (`load_audio_file`, librosa) and the file paths built from the hard-coded folder (SpeakerProject.py:6-9, 43, 55-56, 59): a clip arrives as a `Clip` value in speaker and file-number order.
- The FFT and the complex magnitude (SpeakerProject.py:14-15): floating-point numerics inside numpy; the magnitude spectrum is an input with one entry per sample.
- `round(..., 4)` (SpeakerProject.py:22, 29, 38, 97): decimal rounding of floats is not modelled; every value is the exact real.
- Floating-point arithmetic in general: sums, divisions and distances are exact over the reals.
- The console output (SpeakerProject.py:82, 94, 98): `Report` holds the printed labels and percentages instead.
- `np.average` of an empty list, which yields NaN: `AverageFeatureVector` requires a non-empty list (main always passes ten entries).
- The uncaught exceptions of the script: they become `Failure` results naming the clip and the reason; what the loader itself may raise is not part of this model.
