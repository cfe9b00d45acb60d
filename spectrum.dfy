/** The page's spectral band analysis (`calculateDetailedSpectralFeatures`): the
    analyser's 1024 frequency bins are summed over the bin ranges of four cry
    bands and of the whole spectrum, and two ratios are formed.  The analyser's
    output is given as the linear magnitude of each bin (`10^(dB/20)`). */
module Spectrum {
  import opened JsValues

  const FftSize: nat := 2048
  /** `analyser.frequencyBinCount`, half the FFT size. */
  const BinCount: nat := 1024

  /** The cry bands in Hz, each a half-open range `[lo, hi)`. */
  const FundamentalLow: real := 250.0
  const FundamentalHigh: real := 600.0
  const Harmonic1Low: real := 1000.0
  const Harmonic1High: real := 1600.0
  const Harmonic2Low: real := 2000.0
  const Harmonic2High: real := 3000.0
  const HighFreqLow: real := 3000.0
  const HighFreqHigh: real := 4000.0

  /** The lowest sample rate at which every band lies below the Nyquist frequency. */
  const MinFullRate: int := 8000

  datatype CryBands<N> = CryBands(fundamental: N, harmonic1: N, harmonic2: N, highFreq: N)

  datatype SpectralFeatures<N> = SpectralFeatures(cryBands: CryBands<N>, totalEnergy: N,
                                                  fundamentalRatio: N, harmonicRatio: N)

  /** One linear magnitude per analyser bin, never negative. */
  predicate ValidSpectrum(mags: seq<real>) {
    |mags| == BinCount && forall i :: 0 <= i < |mags| ==> mags[i] >= 0.0
  }

  /** `Math.floor(freq * fftSize / sampleRate)`. */
  function Bin(freq: real, sampleRate: int): (b: int)
    requires sampleRate > 0
    ensures b as real <= freq * FftSize as real / sampleRate as real < b as real + 1.0
  {
    (freq * FftSize as real / sampleRate as real).Floor
  }

  /** The sum of the magnitudes of bins `[lo, hi)`, accumulated upwards. */
  function Sum(mags: seq<real>, lo: int, hi: int): real
    requires 0 <= lo <= hi <= |mags|
    decreases hi - lo
  {
    if lo == hi then 0.0 else Sum(mags, lo, hi - 1) + mags[hi - 1]
  }

  /** The magnitude term the loop adds for bin `i`: an index outside the
      analyser's array reads `undefined`, and `Math.pow(10, undefined / 20)` is NaN. */
  function Term(mags: seq<real>, i: int): (r: Num)
    ensures r.Finite? <==> 0 <= i < |mags|
    ensures !r.Infinity?
    ensures r.Finite? ==> r.value == mags[i]
  {
    if 0 <= i < |mags| then Finite(mags[i]) else NaN
  }

  /** The value of the loop over bins `[lo, hi)`: 0 for an empty range, NaN if
      the range leaves the analyser's array, the sum of magnitudes otherwise. */
  function BandValue(mags: seq<real>, lo: int, hi: int): (r: Num)
    ensures !r.Infinity?
    ensures r.NaN? <==> lo < hi && !(0 <= lo && hi <= |mags|)
    ensures r.Finite? && lo < hi ==> r.value == Sum(mags, lo, hi)
  {
    if hi <= lo then Finite(0.0)
    else if 0 <= lo && hi <= |mags| then Finite(Sum(mags, lo, hi))
    else NaN
  }

  /** `getBandEnergy(startFreq, endFreq)`. */
  method GetBandEnergy(mags: seq<real>, sampleRate: int, startFreq: real, endFreq: real) returns (energy: Num)
    requires sampleRate > 0 && ValidSpectrum(mags)
    ensures energy == BandValue(mags, Bin(startFreq, sampleRate), Bin(endFreq, sampleRate))
  {
    var startBin := Bin(startFreq, sampleRate);
    var endBin := Bin(endFreq, sampleRate);
    SumNotNegative(mags, 0, 0);
    energy := Finite(0.0);
    var i := startBin;
    while i < endBin
      invariant startBin <= i
      invariant i <= endBin || i == startBin
      invariant energy == BandValue(mags, startBin, i)
      invariant NotNegative(energy)
    {
      BandStep(mags, startBin, i);
      energy := Add(energy, Term(mags, i));
      i := i + 1;
    }
  }

  /** The four cry bands and the whole spectrum `[0, sampleRate / 2)`. */
  function SpectralOf(mags: seq<real>, sampleRate: int): SpectralFeatures<Num>
    requires sampleRate > 0 && ValidSpectrum(mags)
  {
    var b := CryBandsOf(mags, sampleRate);
    var total := Whole(mags, sampleRate);
    BandsNotNegative(mags, sampleRate);
    SpectralFeatures(b, total, Div(b.fundamental, total), Div(Add(b.harmonic1, b.harmonic2), total))
  }

  function CryBandsOf(mags: seq<real>, sampleRate: int): CryBands<Num>
    requires sampleRate > 0
  {
    CryBands(BandValue(mags, Bin(FundamentalLow, sampleRate), Bin(FundamentalHigh, sampleRate)),
             BandValue(mags, Bin(Harmonic1Low, sampleRate), Bin(Harmonic1High, sampleRate)),
             BandValue(mags, Bin(Harmonic2Low, sampleRate), Bin(Harmonic2High, sampleRate)),
             BandValue(mags, Bin(HighFreqLow, sampleRate), Bin(HighFreqHigh, sampleRate)))
  }

  /** `getBandEnergy(0, sampleRate / 2)`. */
  function Whole(mags: seq<real>, sampleRate: int): Num
    requires sampleRate > 0
  {
    BandValue(mags, Bin(0.0, sampleRate), Bin(sampleRate as real / 2.0, sampleRate))
  }

  /** `calculateDetailedSpectralFeatures(data, sampleRate)` once the analyser has
      produced `mags`; the total is recomputed for each ratio, as in the page. */
  method CalculateDetailedSpectralFeatures(mags: seq<real>, sampleRate: int) returns (sf: SpectralFeatures<Num>)
    requires sampleRate > 0 && ValidSpectrum(mags)
    ensures sf == SpectralOf(mags, sampleRate)
  {
    var fundamental := GetBandEnergy(mags, sampleRate, FundamentalLow, FundamentalHigh);
    var harmonic1 := GetBandEnergy(mags, sampleRate, Harmonic1Low, Harmonic1High);
    var harmonic2 := GetBandEnergy(mags, sampleRate, Harmonic2Low, Harmonic2High);
    var highFreq := GetBandEnergy(mags, sampleRate, HighFreqLow, HighFreqHigh);
    var cryBands := CryBands(fundamental, harmonic1, harmonic2, highFreq);
    BandsNotNegative(mags, sampleRate);

    var totalEnergy := GetBandEnergy(mags, sampleRate, 0.0, sampleRate as real / 2.0);
    var totalForFundamental := GetBandEnergy(mags, sampleRate, 0.0, sampleRate as real / 2.0);
    var totalForHarmonics := GetBandEnergy(mags, sampleRate, 0.0, sampleRate as real / 2.0);
    sf := SpectralFeatures(cryBands, totalEnergy,
                           Div(cryBands.fundamental, totalForFundamental),
                           Div(Add(cryBands.harmonic1, cryBands.harmonic2), totalForHarmonics));
  }

  /** One more bin extends the loop's value by that bin's term. */
  lemma BandStep(mags: seq<real>, lo: int, i: int)
    requires ValidSpectrum(mags) && lo <= i
    ensures NotNegative(BandValue(mags, lo, i)) && NotNegative(Term(mags, i))
    ensures BandValue(mags, lo, i + 1) == Add(BandValue(mags, lo, i), Term(mags, i))
  {
    if 0 <= lo <= i <= |mags| {
      SumNotNegative(mags, lo, i);
    }
  }

  lemma {:induction false} SumNotNegative(mags: seq<real>, lo: int, hi: int)
    requires 0 <= lo <= hi <= |mags| && ValidSpectrum(mags)
    ensures Sum(mags, lo, hi) >= 0.0
  {
    if lo < hi {
      SumNotNegative(mags, lo, hi - 1);
    }
  }

  /** Adjacent ranges add up: `[lo, hi) = [lo, mid) + [mid, hi)`. */
  lemma {:induction false} SumSplit(mags: seq<real>, lo: int, mid: int, hi: int)
    requires 0 <= lo <= mid <= hi <= |mags|
    ensures Sum(mags, lo, hi) == Sum(mags, lo, mid) + Sum(mags, mid, hi)
    decreases hi - mid
  {
    if mid < hi {
      SumSplit(mags, lo, mid, hi - 1);
    }
  }

  /** A range inside another never sums to more. */
  lemma SumWithin(mags: seq<real>, lo: int, hi: int, lo': int, hi': int)
    requires 0 <= lo' <= lo <= hi <= hi' <= |mags| && ValidSpectrum(mags)
    ensures Sum(mags, lo, hi) <= Sum(mags, lo', hi')
  {
    SumSplit(mags, lo', lo, hi');
    SumSplit(mags, lo, hi, hi');
    SumNotNegative(mags, lo', lo);
    SumNotNegative(mags, hi, hi');
  }

  lemma BandsNotNegative(mags: seq<real>, sampleRate: int)
    requires sampleRate > 0 && ValidSpectrum(mags)
    ensures var b := CryBandsOf(mags, sampleRate);
            NotNegative(b.fundamental) && NotNegative(b.harmonic1) && NotNegative(b.harmonic2)
            && NotNegative(b.highFreq) && NotNegative(Whole(mags, sampleRate))
  {
    forall lo, hi | 0 <= lo <= hi <= |mags|
      ensures Sum(mags, lo, hi) >= 0.0
    {
      SumNotNegative(mags, lo, hi);
    }
  }

  /** A higher frequency never maps to a lower bin. */
  lemma BinMonotone(f: real, g: real, sampleRate: int)
    requires sampleRate > 0 && f <= g
    ensures Bin(f, sampleRate) <= Bin(g, sampleRate)
  {
    var sr := sampleRate as real;
    var x, y := f * FftSize as real / sr, g * FftSize as real / sr;
    assert x * sr == f * FftSize as real;
    assert y * sr == g * FftSize as real;
    assert (y - x) * sr >= 0.0;
  }

  /** Non-negative frequencies map to non-negative bins. */
  lemma BinNotNegative(f: real, sampleRate: int)
    requires sampleRate > 0 && f >= 0.0
    ensures Bin(f, sampleRate) >= 0
  {
    BinMonotone(0.0, f, sampleRate);
  }

  /** The Nyquist frequency maps to bin 1024 exactly, so the total covers all bins. */
  lemma NyquistBin(sampleRate: int)
    requires sampleRate > 0
    ensures Bin(sampleRate as real / 2.0, sampleRate) == BinCount
  {
    var sr := sampleRate as real;
    assert sr / 2.0 * FftSize as real / sr == BinCount as real;
  }

  /** At 8 kHz and above, 4000 Hz maps to a bin no higher than 1024. */
  lemma TopBandBin(sampleRate: int)
    requires sampleRate >= MinFullRate
    ensures Bin(HighFreqHigh, sampleRate) <= BinCount
  {
    var sr := sampleRate as real;
    var x := HighFreqHigh * FftSize as real / sr;
    assert x * sr == HighFreqHigh * FftSize as real;
    assert x <= BinCount as real;
  }

  /** The total band is exactly bins `[0, 1024)`, whatever the sample rate. */
  lemma TotalIsWholeSpectrum(mags: seq<real>, sampleRate: int)
    requires sampleRate > 0 && ValidSpectrum(mags)
    ensures Whole(mags, sampleRate) == Finite(Sum(mags, 0, BinCount))
  {
    NyquistBin(sampleRate);
  }

  /** The bin edges of the eight band limits, in increasing order. */
  lemma BandEdgesOrdered(sampleRate: int)
    requires sampleRate > 0
    ensures 0 <= Bin(FundamentalLow, sampleRate) <= Bin(FundamentalHigh, sampleRate)
                <= Bin(Harmonic1Low, sampleRate) <= Bin(Harmonic1High, sampleRate)
                <= Bin(Harmonic2Low, sampleRate) <= Bin(Harmonic2High, sampleRate)
                == Bin(HighFreqLow, sampleRate) <= Bin(HighFreqHigh, sampleRate)
  {
    BinNotNegative(FundamentalLow, sampleRate);
    BinMonotone(FundamentalLow, FundamentalHigh, sampleRate);
    BinMonotone(FundamentalHigh, Harmonic1Low, sampleRate);
    BinMonotone(Harmonic1Low, Harmonic1High, sampleRate);
    BinMonotone(Harmonic1High, Harmonic2Low, sampleRate);
    BinMonotone(Harmonic2Low, Harmonic2High, sampleRate);
    BinMonotone(HighFreqLow, HighFreqHigh, sampleRate);
  }

  /** At 8 kHz and above every bin the four bands read lies in `[0, 1024)`, so
      every band is a finite sum of magnitudes. */
  lemma BandsInRange(mags: seq<real>, sampleRate: int)
    requires sampleRate >= MinFullRate && ValidSpectrum(mags)
    ensures var b := CryBandsOf(mags, sampleRate);
            b.fundamental.Finite? && b.harmonic1.Finite? && b.harmonic2.Finite? && b.highFreq.Finite?
    ensures Bin(HighFreqHigh, sampleRate) <= BinCount
  {
    BandEdgesOrdered(sampleRate);
    TopBandBin(sampleRate);
  }

  /** At 8 kHz and above the four bands are disjoint parts of the spectrum:
      each is at most the total, and so are all four together. */
  lemma BandsWithinTotal(mags: seq<real>, sampleRate: int)
    requires sampleRate >= MinFullRate && ValidSpectrum(mags)
    ensures var b := CryBandsOf(mags, sampleRate);
            var t := Whole(mags, sampleRate).value;
            && b.fundamental.value + b.harmonic1.value + b.harmonic2.value + b.highFreq.value <= t
            && 0.0 <= b.fundamental.value <= t && 0.0 <= b.harmonic1.value <= t
            && 0.0 <= b.harmonic2.value <= t && 0.0 <= b.highFreq.value <= t
  {
    BandsInRange(mags, sampleRate);
    TotalIsWholeSpectrum(mags, sampleRate);
    BandEdgesOrdered(sampleRate);
    var e0, e1 := Bin(FundamentalLow, sampleRate), Bin(FundamentalHigh, sampleRate);
    var e2, e3 := Bin(Harmonic1Low, sampleRate), Bin(Harmonic1High, sampleRate);
    var e4, e5 := Bin(Harmonic2Low, sampleRate), Bin(Harmonic2High, sampleRate);
    var e6 := Bin(HighFreqHigh, sampleRate);
    var b := CryBandsOf(mags, sampleRate);
    assert b.fundamental.value == Sum(mags, e0, e1);
    assert b.harmonic1.value == Sum(mags, e2, e3);
    assert b.harmonic2.value == Sum(mags, e4, e5);
    assert b.highFreq.value == Sum(mags, e5, e6);
    SumSplit(mags, 0, e0, BinCount);
    SumSplit(mags, e0, e1, BinCount);
    SumSplit(mags, e1, e2, BinCount);
    SumSplit(mags, e2, e3, BinCount);
    SumSplit(mags, e3, e4, BinCount);
    SumSplit(mags, e4, e5, BinCount);
    SumSplit(mags, e5, e6, BinCount);
    SumNotNegative(mags, 0, e0);
    SumNotNegative(mags, e1, e2);
    SumNotNegative(mags, e3, e4);
    SumNotNegative(mags, e6, BinCount);
    SumNotNegative(mags, e0, e1);
    SumNotNegative(mags, e2, e3);
    SumNotNegative(mags, e4, e5);
    SumNotNegative(mags, e5, e6);
  }

  /** At 8 kHz and above, with energy in the spectrum, both ratios are finite,
      non-negative and together at most 1. */
  lemma RatiosWithinUnit(mags: seq<real>, sampleRate: int)
    requires sampleRate >= MinFullRate && ValidSpectrum(mags)
    requires Sum(mags, 0, BinCount) > 0.0
    ensures var sf := SpectralOf(mags, sampleRate);
            && sf.fundamentalRatio.Finite? && sf.harmonicRatio.Finite?
            && sf.fundamentalRatio.value >= 0.0 && sf.harmonicRatio.value >= 0.0
            && sf.fundamentalRatio.value + sf.harmonicRatio.value <= 1.0
  {
    BandsWithinTotal(mags, sampleRate);
    TotalIsWholeSpectrum(mags, sampleRate);
    var b := CryBandsOf(mags, sampleRate);
    RatiosOfParts(b.fundamental, b.harmonic1, b.harmonic2, Whole(mags, sampleRate));
  }

  /** The ratio arithmetic of the page on three finite parts of a positive total. */
  lemma RatiosOfParts(f: Num, h1: Num, h2: Num, total: Num)
    requires f.Finite? && h1.Finite? && h2.Finite? && total.Finite?
    requires 0.0 <= f.value && 0.0 <= h1.value && 0.0 <= h2.value
    requires 0.0 < total.value && f.value + h1.value + h2.value <= total.value
    ensures var fr, hr := Div(f, total), Div(Add(h1, h2), total);
            && fr.Finite? && hr.Finite? && fr.value >= 0.0 && hr.value >= 0.0
            && fr.value + hr.value <= 1.0
  {
    var x, y, t := f.value, h1.value + h2.value, total.value;
    assert Add(h1, h2) == Finite(y);
    assert Div(f, total) == Finite(x / t);
    assert Div(Add(h1, h2), total) == Finite(y / t);
    ShareOfWhole(x, y, t);
  }

  /** Two parts that fit in a positive whole have shares summing to at most 1. */
  lemma ShareOfWhole(x: real, y: real, t: real)
    requires t > 0.0 && x >= 0.0 && y >= 0.0 && x + y <= t
    ensures x / t >= 0.0 && y / t >= 0.0 && x / t + y / t <= 1.0
  {
    var p, q := x / t, y / t;
    assert p * t == x && q * t == y;
    assert (p + q - 1.0) * t == x + y - t;
    ProductSign(p, t);
    ProductSign(q, t);
    ProductSign(p + q - 1.0, t);
  }

  /** Whatever the sample rate, a band that reads only bins of the analyser's
      array is at most the total. */
  lemma FiniteBandWithinTotal(mags: seq<real>, sampleRate: int, lo: real, hi: real)
    requires sampleRate > 0 && ValidSpectrum(mags) && lo >= 0.0
    requires BandValue(mags, Bin(lo, sampleRate), Bin(hi, sampleRate)).Finite?
    ensures BandValue(mags, Bin(lo, sampleRate), Bin(hi, sampleRate)).value <= Whole(mags, sampleRate).value
  {
    TotalIsWholeSpectrum(mags, sampleRate);
    BinNotNegative(lo, sampleRate);
    SumNotNegative(mags, 0, BinCount);
    var a, z := Bin(lo, sampleRate), Bin(hi, sampleRate);
    if a < z {
      SumWithin(mags, a, z, 0, BinCount);
    }
  }

  /** Neither ratio is ever Infinity: a band can only be positive when the total
      is, so silence gives 0 / 0 (NaN), never x / 0. */
  lemma RatiosNeverInfinite(mags: seq<real>, sampleRate: int)
    requires sampleRate > 0 && ValidSpectrum(mags)
    ensures var sf := SpectralOf(mags, sampleRate);
            !sf.fundamentalRatio.Infinity? && !sf.harmonicRatio.Infinity?
  {
    var b := CryBandsOf(mags, sampleRate);
    TotalIsWholeSpectrum(mags, sampleRate);
    SumNotNegative(mags, 0, BinCount);
    if b.fundamental.Finite? {
      FiniteBandWithinTotal(mags, sampleRate, FundamentalLow, FundamentalHigh);
    }
    if b.harmonic1.Finite? && b.harmonic2.Finite? {
      FiniteBandWithinTotal(mags, sampleRate, Harmonic1Low, Harmonic1High);
      FiniteBandWithinTotal(mags, sampleRate, Harmonic2Low, Harmonic2High);
    }
  }

  /** Silence in the spectrum (total 0) makes both ratios NaN rather than 0. */
  lemma SilentSpectrumRatios(mags: seq<real>, sampleRate: int)
    requires sampleRate > 0 && ValidSpectrum(mags) && Whole(mags, sampleRate) == Finite(0.0)
    ensures var sf := SpectralOf(mags, sampleRate);
            sf.fundamentalRatio.NaN? && sf.harmonicRatio.NaN?
  {
    RatiosNeverInfinite(mags, sampleRate);
    BandsNotNegative(mags, sampleRate);
  }
}
