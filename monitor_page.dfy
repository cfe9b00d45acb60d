/** The page's main audio analysis: loudness of the whole clip, the spectral and
    temporal summaries, the `isCrying` rule, and the features object the page
    posts to the status route. */
module MonitorPage {
  import opened JsValues
  import opened EnergyPatterns
  import opened Spectrum

  /** The five thresholds of the page's crying rule; every comparison is strict. */
  const CryFundamentalRatio: real := 0.2
  const CryHarmonicRatio: real := 0.15
  const CryVolume: real := 0.08
  const CrySustained: real := 0.3
  const CryRhythm: real := 0.4

  /** The `audioFeatures` object, with `N` the number representation. */
  datatype AudioFeatures<N> = AudioFeatures(rmsVolume: N, spectralFeatures: SpectralFeatures<N>,
                                            energyPattern: EnergyPattern<N>, duration: N, isCrying: bool)

  /** `calculateRMS(data)`, with `rms` standing for the square root of the mean
      square: an empty buffer gives `Math.sqrt(0 / 0)`, which is NaN. */
  function CalculateRms(data: seq<real>, rms: seq<real> -> real): (r: Num)
    requires forall x :: rms(x) >= 0.0
    ensures r.NaN? <==> |data| == 0
    ensures !r.Infinity?
    ensures r.Finite? ==> r.value >= 0.0
  {
    if |data| == 0 then NaN else Finite(rms(data))
  }

  /** The page's `isCrying` conjunction. */
  predicate IsCrying(sf: SpectralFeatures<Num>, rmsVolume: Num, ep: EnergyPattern<Num>): (b: bool)
    ensures b ==> && !sf.fundamentalRatio.NaN? && !sf.harmonicRatio.NaN? && !rmsVolume.NaN?
                  && !ep.sustainedEnergy.NaN? && !ep.rhythmicPattern.NaN?
    ensures rmsVolume.Finite? && rmsVolume.value <= CryVolume ==> !b
  {
    && Greater(sf.fundamentalRatio, CryFundamentalRatio)
    && Greater(sf.harmonicRatio, CryHarmonicRatio)
    && Greater(rmsVolume, CryVolume)
    && Greater(ep.sustainedEnergy, CrySustained)
    && Greater(ep.rhythmicPattern, CryRhythm)
  }

  /** The features the page computes for a clip of `channel` samples recorded at
      `sampleRate`, lasting `duration` seconds, whose analyser bins are `mags`.
      A decoded AudioBuffer holds at least one sample frame, and the page's own
      `createBuffer(1, data.length, sampleRate)` rejects a length of 0, so the
      channel is never empty. */
  function FeaturesOf(channel: seq<real>, sampleRate: int, duration: real, mags: seq<real>,
                      rms: seq<real> -> real): AudioFeatures<Num>
    requires |channel| > 0 && sampleRate > 0 && ValidSpectrum(mags) && forall x :: rms(x) >= 0.0
  {
    var rmsVolume := CalculateRms(channel, rms);
    var sf := SpectralOf(mags, sampleRate);
    var ep := PatternOf(Energies(channel, rms));
    AudioFeatures(rmsVolume, sf, ep, Finite(duration), IsCrying(sf, rmsVolume, ep))
  }

  /** The analysis steps of `captureAndAnalyze`, from the decoded clip to `audioFeatures`. */
  method AnalyzeAudio(channel: seq<real>, sampleRate: int, duration: real, mags: seq<real>,
                      rms: seq<real> -> real) returns (features: AudioFeatures<Num>)
    requires |channel| > 0 && sampleRate > 0 && ValidSpectrum(mags) && forall x :: rms(x) >= 0.0
    ensures features == FeaturesOf(channel, sampleRate, duration, mags, rms)
  {
    var rmsVolume := CalculateRms(channel, rms);
    var spectralFeatures := CalculateDetailedSpectralFeatures(mags, sampleRate);
    var energyPattern := AnalyzeEnergyPattern(channel, rms);
    var isCrying := IsCrying(spectralFeatures, rmsVolume, energyPattern);
    features := AudioFeatures(rmsVolume, spectralFeatures, energyPattern, Finite(duration), isCrying);
  }

  /** The features as the route receives them after `JSON.stringify`. */
  function ToWire(f: AudioFeatures<Num>): (w: AudioFeatures<JsonNumber>)
    ensures w.isCrying == f.isCrying
    ensures w.energyPattern.transientCount == f.energyPattern.transientCount
  {
    var sf := f.spectralFeatures;
    var b := sf.cryBands;
    var ep := f.energyPattern;
    AudioFeatures(ToJson(f.rmsVolume),
                  SpectralFeatures(CryBands(ToJson(b.fundamental), ToJson(b.harmonic1),
                                            ToJson(b.harmonic2), ToJson(b.highFreq)),
                                   ToJson(sf.totalEnergy), ToJson(sf.fundamentalRatio),
                                   ToJson(sf.harmonicRatio)),
                  EnergyPattern(ep.transientCount, ToJson(ep.rhythmicPattern), ToJson(ep.sustainedEnergy)),
                  ToJson(f.duration), f.isCrying)
  }

  /** None of the page's numbers is ever Infinity: every ratio is 0 / 0 (NaN) or
      a finite value, and the loudness of a (never empty) clip is a finite number. */
  lemma FeaturesNeverInfinite(channel: seq<real>, sampleRate: int, duration: real, mags: seq<real>,
                              rms: seq<real> -> real)
    requires |channel| > 0 && sampleRate > 0 && ValidSpectrum(mags) && forall x :: rms(x) >= 0.0
    ensures var f := FeaturesOf(channel, sampleRate, duration, mags, rms);
            && !f.rmsVolume.Infinity? && !f.spectralFeatures.fundamentalRatio.Infinity?
            && !f.spectralFeatures.harmonicRatio.Infinity?
            && !f.energyPattern.sustainedEnergy.Infinity? && !f.energyPattern.rhythmicPattern.Infinity?
            && f.rmsVolume.Finite? && f.rmsVolume.value >= 0.0
            && (f.energyPattern.sustainedEnergy.Finite? ==> 0.0 <= f.energyPattern.sustainedEnergy.value <= 1.0)
  {
    RatiosNeverInfinite(mags, sampleRate);
    PatternBounds(Energies(channel, rms));
  }

  /** For the page's own features, `isCrying` holds exactly when all five values
      are finite numbers strictly above their thresholds; a value equal to its
      threshold, or a NaN ratio, gives false. */
  lemma IsCryingIff(channel: seq<real>, sampleRate: int, duration: real, mags: seq<real>,
                    rms: seq<real> -> real)
    requires |channel| > 0 && sampleRate > 0 && ValidSpectrum(mags) && forall x :: rms(x) >= 0.0
    ensures var f := FeaturesOf(channel, sampleRate, duration, mags, rms);
            var sf, ep := f.spectralFeatures, f.energyPattern;
            f.isCrying <==>
              && sf.fundamentalRatio.Finite? && sf.fundamentalRatio.value > CryFundamentalRatio
              && sf.harmonicRatio.Finite? && sf.harmonicRatio.value > CryHarmonicRatio
              && f.rmsVolume.Finite? && f.rmsVolume.value > CryVolume
              && ep.sustainedEnergy.Finite? && ep.sustainedEnergy.value > CrySustained
              && ep.rhythmicPattern.Finite? && ep.rhythmicPattern.value > CryRhythm
  {
    FeaturesNeverInfinite(channel, sampleRate, duration, mags, rms);
  }

  /** A clip shorter than one frame is never crying: both temporal ratios are NaN. */
  lemma ShortClipNotCrying(channel: seq<real>, sampleRate: int, duration: real, mags: seq<real>,
                           rms: seq<real> -> real)
    requires |channel| > 0 && sampleRate > 0 && ValidSpectrum(mags) && forall x :: rms(x) >= 0.0
    requires |channel| < FrameSize
    ensures !FeaturesOf(channel, sampleRate, duration, mags, rms).isCrying
  {
    PatternBounds(Energies(channel, rms));
  }

  /** A silent spectrum is never crying: both spectral ratios are NaN. */
  lemma SilentSpectrumNotCrying(channel: seq<real>, sampleRate: int, duration: real, mags: seq<real>,
                                rms: seq<real> -> real)
    requires |channel| > 0 && sampleRate > 0 && ValidSpectrum(mags) && forall x :: rms(x) >= 0.0
    requires Sum(mags, 0, BinCount) == 0.0
    ensures !FeaturesOf(channel, sampleRate, duration, mags, rms).isCrying
  {
    TotalIsWholeSpectrum(mags, sampleRate);
    SilentSpectrumRatios(mags, sampleRate);
  }
}
