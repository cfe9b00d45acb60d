/** How the route's audio rules read the features the page computes and posts:
    the page's numbers pass through `JSON.stringify`, where NaN becomes `null`,
    and the route's comparisons and arithmetic read `null` as 0. */
module CrossChecks {
  import opened JsValues
  import opened EnergyPatterns
  import opened Spectrum
  import opened MonitorPage
  import opened StatusRoute

  /** The features the route receives for a clip the page analysed. */
  function Posted(channel: seq<real>, sampleRate: int, duration: real, mags: seq<real>,
                  rms: seq<real> -> real): WireFeatures
    requires |channel| > 0 && sampleRate > 0 && ValidSpectrum(mags) && forall x :: rms(x) >= 0.0
  {
    ToWire(FeaturesOf(channel, sampleRate, duration, mags, rms))
  }

  /** The page's crying rule implies the route's fallback rule, so for posted
      features the route's `hasCrying` is exactly the fallback rule: the page's
      loudness and rhythm tests never decide the route's answer. */
  lemma PostedCryingIsFallback(channel: seq<real>, sampleRate: int, duration: real, mags: seq<real>,
                               rms: seq<real> -> real)
    requires |channel| > 0 && sampleRate > 0 && ValidSpectrum(mags) && forall x :: rms(x) >= 0.0
    ensures var w := Posted(channel, sampleRate, duration, mags, rms);
            && (w.isCrying ==> FallbackCrying(w))
            && (HasCrying(w) <==> FallbackCrying(w))
  {
    IsCryingIff(channel, sampleRate, duration, mags, rms);
  }

  /** For posted features, crying and laughter are never reported together:
      crying needs `sustainedEnergy > 0.3`, laughter `sustainedEnergy < 0.3`. */
  lemma PostedCryingExcludesLaughter(channel: seq<real>, sampleRate: int, duration: real, mags: seq<real>,
                                     rms: seq<real> -> real)
    requires |channel| > 0 && sampleRate > 0 && ValidSpectrum(mags) && forall x :: rms(x) >= 0.0
    ensures var a := AudioAnalysisOf(Some(Posted(channel, sampleRate, duration, mags, rms)));
            !(a.hasCrying && a.hasLaughter)
  {
    PostedCryingIsFallback(channel, sampleRate, duration, mags, rms);
  }

  /** The route itself trusts the posted `isCrying` flag: a body whose flag is set
      can be reported as crying and laughing at once. */
  lemma FlagCanClashWithLaughter()
    ensures exists w: WireFeatures :: HasCrying(w) && HasLaughter(w)
  {
    var w := AudioFeatures(Number(0.5),
                           SpectralFeatures(CryBands(Number(0.0), Null, Null, Number(1.0)), Null, Null, Null),
                           EnergyPattern(6, Null, Number(0.0)), Number(5.0), true);
    assert HasCrying(w) && HasLaughter(w);
  }

  /** For posted features the intensity lies in [0, 1] and the duration is the
      page's, or 5 when the clip lasted 0 seconds. */
  lemma PostedIntensityInUnit(channel: seq<real>, sampleRate: int, duration: real, mags: seq<real>,
                              rms: seq<real> -> real)
    requires |channel| > 0 && sampleRate > 0 && ValidSpectrum(mags) && forall x :: rms(x) >= 0.0
    ensures var a := AudioAnalysisOf(Some(Posted(channel, sampleRate, duration, mags, rms)));
            && 0.0 <= a.intensity <= 1.0
            && a.duration == (if duration == 0.0 then DefaultDuration else duration)
  {
    FeaturesNeverInfinite(channel, sampleRate, duration, mags, rms);
  }

  /** A silent clip (RMS 0 over the whole clip and over every frame, as the
      square root of the mean square is for all-zero samples) is reported as
      neither crying nor laughing, with intensity 0, whatever the spectrum. */
  lemma SilentClipIsCalm(channel: seq<real>, sampleRate: int, duration: real, mags: seq<real>,
                         rms: seq<real> -> real)
    requires |channel| > 0 && sampleRate > 0 && ValidSpectrum(mags) && forall x :: rms(x) >= 0.0
    requires rms(channel) == 0.0
    requires forall i :: 0 <= i < FrameCount(|channel|) ==> rms(Frame(channel, i)) == 0.0
    ensures var a := AudioAnalysisOf(Some(Posted(channel, sampleRate, duration, mags, rms)));
            !a.hasCrying && !a.hasLaughter && a.intensity == 0.0
  {
    var e := Energies(channel, rms);
    QuietClipNotSustained(e);
  }
}
