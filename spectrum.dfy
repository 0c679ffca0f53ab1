/** The dominant-frequency extractor (SpeakerProject.py, calculate_dominant_frequency).
    The FFT itself and the complex magnitude are not modelled: a clip arrives as its
    magnitude spectrum, one entry per sample. What is modelled is the rest of the
    function: the frequency axis, the cut to the first half of the bins and the
    first-maximum choice of numpy's argmax. */
module Spectrum {
  import opened Results

  /** Why a clip has no dominant frequency (each one raises in the script). */
  datatype SpectrumError =
    | NoSamples          // the FFT of an empty signal is rejected
    | ZeroSampleRate     // the sample spacing 1/sample_rate divides by zero
    | EmptyHalfSpectrum  // a one-sample signal leaves no bin for argmax

  /** numpy's argmax: the position of the first largest entry. */
  function ArgMax(s: seq<real>): (k: nat)
    requires |s| > 0
    ensures k < |s|
    ensures forall i | 0 <= i < |s| :: s[i] <= s[k]
    ensures forall i | 0 <= i < k :: s[i] < s[k]
  {
    if |s| == 1 then 0
    else
      var k := ArgMax(s[..|s| - 1]);
      if s[k] < s[|s| - 1] then |s| - 1 else k
  }

  /** The signed multiple of the frequency step that bin k of n stands for:
      k itself up to (n - 1) / 2, then k - n. */
  function BinIndex(n: nat, k: int): int
  {
    if k <= (n - 1) / 2 then k else k - n
  }

  /** numpy's fftfreq(n, d): the frequency of each of the n FFT bins for sample
      spacing d. Bins 0 .. (n - 1) / 2 hold the non-negative frequencies, the
      rest the negative ones, all in steps of 1 / (n * d). */
  function FftFreq(n: nat, d: real): (f: seq<real>)
    requires n > 0 && d != 0.0
    ensures |f| == n
    ensures f[0] == 0.0
    ensures d > 0.0 ==> forall k | 0 <= k < n :: f[k] >= 0.0 <==> k <= (n - 1) / 2
  {
    var step := 1.0 / (n as real * d);
    var f := seq(n, k => BinIndex(n, k) as real * step);
    FftFreqSigns(n, d);
    f
  }

  /** With a positive spacing the first (n - 1) / 2 + 1 bins of the axis are
      the non-negative ones. */
  lemma FftFreqSigns(n: nat, d: real)
    requires n > 0 && d != 0.0
    ensures d > 0.0 ==> forall k | 0 <= k < n ::
      BinIndex(n, k) as real * (1.0 / (n as real * d)) >= 0.0
      <==> k <= (n - 1) / 2
  {
    if d > 0.0 {
      var step := 1.0 / (n as real * d);
      assert step > 0.0 by {
        assert n as real * d > 0.0;
      }
      forall k | 0 <= k < n
        ensures BinIndex(n, k) as real * step >= 0.0 <==> k <= (n - 1) / 2
      {
        SignOfMultiple(BinIndex(n, k), step);
      }
    }
  }

  /** A multiple of a positive step has the sign of the multiplier. */
  lemma SignOfMultiple(m: int, step: real)
    requires step > 0.0
    ensures m as real * step >= 0.0 <==> m >= 0
  {
    if m < 0 {
      assert (-m) as real * step > 0.0;
    }
  }

  /** The step 1 / (n * d) of the axis for spacing d = 1 / sampleRate is
      sampleRate / n. */
  lemma StepIsRateOverLength(m: real, r: real)
    requires m > 0.0 && r != 0.0
    ensures 1.0 / (m * (1.0 / r)) == r / m
  {
    var q := 1.0 / r;
    assert q * r == 1.0;
    assert m * q != 0.0;
    assert (r / m) * (m * q) == r * q;
  }

  /** Scaling a quotient scales its numerator. */
  lemma ScaledQuotient(x: real, r: real, m: real)
    requires m != 0.0
    ensures x * (r / m) == x * r / m
  {
    assert (r / m) * m == r;
    assert (x * (r / m)) * m == x * r;
  }

  /** A bin k below n / 2 lies below half the sample rate. */
  lemma BelowHalfRate(k: nat, n: nat, r: real)
    requires 2 * k < n && r > 0.0
    ensures 0.0 <= k as real * r / n as real < r / 2.0
  {
    var m := n as real;
    var q := 1.0 / m;
    assert q > 0.0;
    var a := k as real * r / m;
    assert a == (k as real * r) * q;
    assert k as real * r >= 0.0;
    assert (r / 2.0 - a) == ((m - 2.0 * k as real) * r / 2.0) * q;
    var gap := (m - 2.0 * k as real) * r / 2.0;
    assert gap > 0.0;
    assert gap * q > 0.0;
    assert (k as real * r) * q >= 0.0;
  }

  /** A bin in the first half of the axis of a signal of n samples taken at
      sampleRate per second lies at k * sampleRate / n. */
  lemma FftFreqFirstHalfValue(n: nat, sampleRate: int, k: nat)
    requires n > 0 && sampleRate != 0 && k < n / 2
    ensures FftFreq(n, 1.0 / sampleRate as real)[k] == k as real * sampleRate as real / n as real
  {
    var r, m := sampleRate as real, n as real;
    var d := 1.0 / r;
    var step := 1.0 / (m * d);
    StepIsRateOverLength(m, r);
    assert BinIndex(n, k) == k;
    assert FftFreq(n, d)[k] == k as real * step;
    ScaledQuotient(k as real, r, m);
  }

  /** ... and, for a positive rate, below half the rate. */
  lemma FftFreqFirstHalf(n: nat, sampleRate: int, k: nat)
    requires n > 0 && sampleRate != 0 && k < n / 2
    ensures FftFreq(n, 1.0 / sampleRate as real)[k] == k as real * sampleRate as real / n as real
    ensures sampleRate > 0 ==> 0.0 <= FftFreq(n, 1.0 / sampleRate as real)[k] < sampleRate as real / 2.0
  {
    FftFreqFirstHalfValue(n, sampleRate, k);
    if sampleRate > 0 {
      BelowHalfRate(k, n, sampleRate as real);
    }
  }

  /** The dominant bin's entry on the fftfreq axis is its frequency
      k * sampleRate / n, below half the rate. */
  lemma DominantBinFrequency(magnitudes: seq<real>, sampleRate: int)
    requires |magnitudes| >= 2 && sampleRate != 0
    ensures var v := FftFreq(|magnitudes|, 1.0 / sampleRate as real)[..|magnitudes| / 2][DominantBin(magnitudes)];
      && v == DominantBin(magnitudes) as real * sampleRate as real / |magnitudes| as real
      && (sampleRate > 0 ==> 0.0 <= v < sampleRate as real / 2.0)
  {
    var k := DominantBin(magnitudes);
    var axis := FftFreq(|magnitudes|, 1.0 / sampleRate as real);
    FftFreqFirstHalf(|magnitudes|, sampleRate, k);
    assert axis[..|magnitudes| / 2][k] == axis[k];
  }

  /** The bin argmax picks in the non-negative half of a magnitude spectrum: the
      first bin of largest magnitude among the first |magnitudes| / 2. */
  function DominantBin(magnitudes: seq<real>): (k: nat)
    requires |magnitudes| / 2 > 0
    ensures k < |magnitudes| / 2
    ensures forall i | 0 <= i < |magnitudes| / 2 :: magnitudes[i] <= magnitudes[k]
    ensures forall i | 0 <= i < k :: magnitudes[i] < magnitudes[k]
  {
    ArgMax(magnitudes[..|magnitudes| / 2])
  }

  /** calculate_dominant_frequency, with the FFT magnitude spectrum given: the
      frequency, on the fftfreq axis, of the dominant bin of the first half. */
  function DominantFrequency(magnitudes: seq<real>, sampleRate: int): (r: Result<real, SpectrumError>)
    ensures r.Success? <==> |magnitudes| >= 2 && sampleRate != 0
    ensures |magnitudes| == 0 ==> r == Failure(NoSamples)
    ensures |magnitudes| > 0 && sampleRate == 0 ==> r == Failure(ZeroSampleRate)
    ensures |magnitudes| == 1 && sampleRate != 0 ==> r == Failure(EmptyHalfSpectrum)
    ensures r.Success? ==>
      r.value == DominantBin(magnitudes) as real * sampleRate as real / |magnitudes| as real
    ensures r.Success? && sampleRate > 0 ==> 0.0 <= r.value < sampleRate as real / 2.0
  {
    if |magnitudes| == 0 then Failure(NoSamples)
    else if sampleRate == 0 then Failure(ZeroSampleRate)
    else
      var half := |magnitudes| / 2;
      var positiveFrequencies := FftFreq(|magnitudes|, 1.0 / sampleRate as real)[..half];
      var positiveMagnitudes := magnitudes[..half];
      if half == 0 then Failure(EmptyHalfSpectrum)
      else
        var k := ArgMax(positiveMagnitudes);
        assert k == DominantBin(magnitudes);
        DominantBinFrequency(magnitudes, sampleRate);
        Success(positiveFrequencies[k])
  }
}
