/**
 * Spectral peak selection: the bin of largest magnitude is chosen (the first
 * one on ties), its index is turned into a frequency with the FFT's bin
 * layout, and the result is kept only when the peak clears the noise gate.
 * The transform itself is not modelled: the magnitude spectrum is an input.
 */
module Spectrum {
  import opened Wrappers
  import opened Reals

  /** Sampling rate of the capture stream, in hertz. */
  const Rate: nat := 44100

  /**
   * Nominal number of samples per frame. The spectrum's length is taken from
   * the spectrum itself, as the transform's output length is.
   */
  const Chunk: nat := 2048

  /** A peak must be strictly above this magnitude to count as a signal. */
  const NoiseGate: real := 0.01

  /**
   * Frequency of bin k of an n-point transform at the sampling rate, laid
   * out as numpy's `fftfreq` does: the first (n-1)/2 + 1 bins hold the
   * frequencies 0, Rate/n, ..., the remaining ones the negative frequencies.
   */
  function BinFrequency(k: nat, n: nat): (f: real)
    requires k < n
    ensures 0.0 <= f <==> k <= (n - 1) / 2
    ensures -(Rate as real) / 2.0 <= f < Rate as real / 2.0
  {
    var positiveBins := (n - 1) / 2 + 1;
    var j: int := if k < positiveBins then k else k - n;
    assert -(n as real) <= 2.0 * j as real < n as real;
    assert 0 <= j <==> k <= (n - 1) / 2;
    BinWithinHalfRate(j as real, n as real);
    j as real * Rate as real / n as real
  }

  /** j steps of Rate/n lie in [-Rate/2, Rate/2) when -n <= 2j < n, and have the sign of j. */
  lemma BinWithinHalfRate(j: real, n: real)
    requires n > 0.0 && -n <= 2.0 * j < n
    ensures 0.0 <= j * Rate as real / n <==> 0.0 <= j
    ensures -(Rate as real) / 2.0 <= j * Rate as real / n < Rate as real / 2.0
  {
    var r := Rate as real;
    var f := j * r / n;
    assert f * n == j * r;
    assert (r - 2.0 * f) * n == (n - 2.0 * j) * r > 0.0;
    assert (r + 2.0 * f) * n == (n + 2.0 * j) * r >= 0.0;
    SignOfFactor(r - 2.0 * f, n);
    SignOfFactor(r + 2.0 * f, n);
  }

  /** A product with a positive factor has the sign of the other factor. */
  lemma SignOfFactor(a: real, b: real)
    requires b > 0.0
    ensures a * b > 0.0 ==> a > 0.0
    ensures a * b >= 0.0 ==> a >= 0.0
  {
    if a < 0.0 {
      assert a * b < 0.0 * b;
    }
  }

  /** The bin index folded onto the non-negative half: the nearer of k and n - k. */
  function FoldedBin(k: nat, n: nat): (b: nat)
    requires k < n
    ensures b <= k && b <= n - k && (b == k || b == n - k)
  {
    if k <= n - k then k else n - k
  }

  /**
   * Taking the absolute value of a bin's frequency folds it: the result is
   * FoldedBin(k, n) steps of Rate/n, and so lies between 0 and Rate/2.
   */
  lemma PeakFrequencyFolds(k: nat, n: nat)
    requires k < n
    ensures Abs(BinFrequency(k, n)) == FoldedBin(k, n) as real * Rate as real / n as real
    ensures 0.0 <= Abs(BinFrequency(k, n)) <= Rate as real / 2.0
  {
    var step := Rate as real / n as real;
    assert n as real * step == Rate as real;
    assert step >= 0.0;
    var b := FoldedBin(k, n);
    if k < (n - 1) / 2 + 1 {
      assert b == k;
      assert BinFrequency(k, n) == k as real * step;
    } else {
      assert b == n - k;
      assert BinFrequency(k, n) == (k - n) as real * step;
      assert Abs(BinFrequency(k, n)) == b as real * step;
    }
    assert Abs(BinFrequency(k, n)) == b as real * step;
    HalfOfRate(b as real, n as real, step);
  }

  /** A count of steps that is at most half of n, each step Rate/n, spans at most Rate/2. */
  lemma HalfOfRate(b: real, n: real, step: real)
    requires 0.0 <= 2.0 * b <= n && step >= 0.0 && n * step == Rate as real
    ensures b * step <= Rate as real / 2.0
  {
    assert (n - 2.0 * b) * step >= 0.0;
  }

  /** k is the first index holding the largest value of s, as `argmax` reports. */
  ghost predicate IsFirstMax(s: seq<real>, k: nat)
  {
    && k < |s|
    && (forall j :: 0 <= j < |s| ==> s[j] <= s[k])
    && (forall j :: 0 <= j < k ==> s[j] < s[k])
  }

  /** At most one index is the first maximum. */
  lemma FirstMaxUnique(s: seq<real>, k1: nat, k2: nat)
    requires IsFirstMax(s, k1) && IsFirstMax(s, k2)
    ensures k1 == k2
  {
    assert s[k1] <= s[k2] && s[k2] <= s[k1];
  }

  /** The first maximum of a non-empty sequence, scanning left to right. */
  function FirstMaxIndex(s: seq<real>): (k: nat)
    requires |s| > 0
    ensures IsFirstMax(s, k)
  {
    if |s| == 1 then 0
    else
      var k := FirstMaxIndex(s[..|s| - 1]);
      if s[|s| - 1] > s[k] then |s| - 1 else k
  }

  /** The index of the first largest magnitude in a spectrum. */
  method ArgMax(a: array<real>) returns (k: nat)
    requires a.Length > 0
    ensures IsFirstMax(a[..], k)
  {
    k := 0;
    var i := 1;
    while i < a.Length
      invariant 1 <= i <= a.Length
      invariant k < i
      invariant forall j :: 0 <= j < i ==> a[j] <= a[k]
      invariant forall j :: 0 <= j < k ==> a[j] < a[k]
    {
      if a[i] > a[k] {
        k := i;
      }
      i := i + 1;
    }
  }

  /**
   * The frequency one processed frame reports: the folded frequency of the
   * first peak bin when its magnitude clears the gate, nothing otherwise
   * (also for an empty spectrum, whose transform raises).
   */
  function DetectedFrequency(s: seq<real>): (r: Option<real>)
    ensures r.Some? <==> exists i :: 0 <= i < |s| && s[i] > NoiseGate
    ensures r.Some? ==> 0.0 <= r.value <= Rate as real / 2.0
    ensures r.Some? ==>
      exists k :: IsFirstMax(s, k) && r.value == FoldedBin(k, |s|) as real * Rate as real / |s| as real
  {
    if |s| == 0 then None
    else
      var k := FirstMaxIndex(s);
      PeakFrequencyFolds(k, |s|);
      if s[k] > NoiseGate then Some(Abs(BinFrequency(k, |s|))) else None
  }

  /** A silent frame (every magnitude zero) reports nothing. */
  lemma SilenceIsGated(s: seq<real>)
    requires forall i :: 0 <= i < |s| ==> s[i] == 0.0
    ensures DetectedFrequency(s) == None
  {
  }
}
